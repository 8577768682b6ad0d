/** The mock tool bodies of the react workflow: the pump catalogue lookup,
    the weather lookup and the table part of the unit converter. */
module MockTools {
  import opened Optional
  import opened PyStr

  // ----- get_pump_details -----

  /** A catalogue record; `power` is in kW, flow in L/h, head in metres. */
  datatype PumpRecord = PumpRecord(
    modelNumber: string, productModel: string, description: string,
    inventory: int, retailPrice: int, maxFlowRate: int, maxHead: int, power: real)

  /** One `key: record` item of the catalogue dictionary. */
  datatype PumpEntry = PumpEntry(key: string, record: PumpRecord)

  datatype PumpResult = PumpFound(record: PumpRecord) | PumpError(error: string)

  /** The mock catalogue, in dictionary order. */
  const PumpDatabase: seq<PumpEntry> := [
    PumpEntry("ddp60", PumpRecord("DDP60", "DDP 60",
      "Davis & Shirtliff domestic water pump from stevonene pumps", 15, 12500, 3000, 40, 0.37)),
    PumpEntry("ddp100", PumpRecord("DDP100", "DDP 100",
      "Davis & Shirtliff high pressure water pump", 8, 18500, 6000, 55, 0.75)),
    PumpEntry("danfoss", PumpRecord("DANFOSS-IEC180", "DANFOSS IEC 180 22KW 3PH 4 POLE MOTOR",
      "Industrial motor pump for high demand applications", 3, 125000, 12000, 80, 22.0))
  ]

  /** The search key: lower case, spaces and hyphens removed. */
  function NormaliseModelName(name: string): string
  {
    Remove(Remove(Lower(name), ' '), '-')
  }

  function NoPumpMessage(name: string): string
  {
    "No pump found with model name matching '" + name + "'. Please check the model name and try again."
  }

  /** The dictionary lookup `key in pump_database`. */
  function ExactEntry(db: seq<PumpEntry>, key: string): (r: Option<PumpRecord>)
    ensures r.None? <==> forall i :: 0 <= i < |db| ==> db[i].key != key
    ensures r.Some? ==> exists i :: 0 <= i < |db| && db[i].key == key && db[i].record == r.value
  {
    if db == [] then None
    else if db[0].key == key then Some(db[0].record)
    else ExactEntry(db[1..], key)
  }

  /** The partial-match test of one catalogue item. */
  predicate PartialMatch(e: PumpEntry, key: string)
  {
    || Contains(e.key, key)
    || Contains(Remove(Lower(e.record.productModel), ' '), key)
    || Contains(Lower(e.record.description), key)
  }

  /** The first item, in catalogue order, that matches partially. */
  function FirstPartial(db: seq<PumpEntry>, key: string): Option<PumpRecord>
  {
    if db == [] then None
    else if PartialMatch(db[0], key) then Some(db[0].record)
    else FirstPartial(db[1..], key)
  }

  /** `FirstPartial` finds the earliest partial match and finds nothing only
      when no item matches. */
  lemma {:induction false} FirstPartialIsFirst(db: seq<PumpEntry>, key: string)
    ensures FirstPartial(db, key).None? <==> forall i :: 0 <= i < |db| ==> !PartialMatch(db[i], key)
    ensures FirstPartial(db, key).Some? ==>
              exists i :: 0 <= i < |db| && PartialMatch(db[i], key) && db[i].record == FirstPartial(db, key).value &&
                          forall j :: 0 <= j < i ==> !PartialMatch(db[j], key)
  {
    if db != [] && !PartialMatch(db[0], key) {
      FirstPartialIsFirst(db[1..], key);
      if FirstPartial(db, key).Some? {
        var i :| 0 <= i < |db[1..]| && PartialMatch(db[1..][i], key) &&
                 db[1..][i].record == FirstPartial(db, key).value &&
                 forall j :: 0 <= j < i ==> !PartialMatch(db[1..][j], key);
        assert forall j :: 0 <= j < i + 1 ==> !PartialMatch(db[j], key) by {
          forall j | 0 <= j < i + 1 ensures !PartialMatch(db[j], key) {
            if j > 0 { assert db[j] == db[1..][j - 1]; }
          }
        }
      }
    }
  }

  /** What `get_pump_details` returns for a model name against a catalogue:
      an exact key match, else the first partial match, else the error
      quoting the name as given. */
  function PumpLookup(db: seq<PumpEntry>, name: string): PumpResult
  {
    var key := NormaliseModelName(name);
    match ExactEntry(db, key)
    case Some(r) => PumpFound(r)
    case None =>
      match FirstPartial(db, key)
      case Some(r) => PumpFound(r)
      case None => PumpError(NoPumpMessage(name))
  }

  /** The scan of `get_pump_details` over a catalogue: the dictionary
      lookup, then a walk over the items in order that returns at the first
      partial match. */
  method SearchCatalogue(db: seq<PumpEntry>, name: string) returns (r: PumpResult)
    ensures r == PumpLookup(db, name)
  {
    var key := NormaliseModelName(name);
    var exact := ExactEntry(db, key);
    if exact.Some? {
      return PumpFound(exact.value);
    }
    var i := 0;
    while i < |db|
      invariant 0 <= i <= |db|
      invariant FirstPartial(db, key) == FirstPartial(db[i..], key)
    {
      var entry := db[i];
      if PartialMatch(entry, key) {
        return PumpFound(entry.record);
      }
      assert db[i..][1..] == db[i + 1..];
      i := i + 1;
    }
    r := PumpError(NoPumpMessage(name));
  }

  /** `get_pump_details` on its mock catalogue. */
  method GetPumpDetails(name: string) returns (r: PumpResult)
    ensures r == PumpLookup(PumpDatabase, name)
  {
    r := SearchCatalogue(PumpDatabase, name);
  }

  /** The search key ignores case, a space and a hyphen anywhere in the
      name. */
  lemma NormaliseIgnoresSpelling(x: string, y: string)
    ensures NormaliseModelName(x + " " + y) == NormaliseModelName(x + y)
    ensures NormaliseModelName(x + "-" + y) == NormaliseModelName(x + y)
    ensures NormaliseModelName(Lower(x)) == NormaliseModelName(x)
  {
    LowerAround(x, ' ', y);
    LowerAround(x, '-', y);
    LowerIdempotent(x);
    var lx, ly := Lower(x), Lower(y);
    RemoveConcat(lx, ly, ' ');
    RemoveAround(lx, ' ', ly, ' ');
    RemoveAround(lx, '-', ly, ' ');
    var rx, ry := Remove(lx, ' '), Remove(ly, ' ');
    assert Remove(Lower(x + " " + y), ' ') == rx + ry == Remove(Lower(x + y), ' ') by {
      assert x + " " + y == x + [' '] + y;
      assert rx + [] + ry == rx + ry;
    }
    RemoveAround(rx, '-', ry, '-');
    RemoveConcat(rx, ry, '-');
  }

  /** Two names find the same record, or both find none. */
  predicate SameFind(db: seq<PumpEntry>, a: string, b: string)
  {
    && (PumpLookup(db, a).PumpFound? <==> PumpLookup(db, b).PumpFound?)
    && (PumpLookup(db, a).PumpFound? ==> PumpLookup(db, a) == PumpLookup(db, b))
  }

  /** Spellings of a model name that differ in case, or by a space or a
      hyphen, find the same record. */
  lemma PumpLookupIgnoresSpelling(db: seq<PumpEntry>, x: string, y: string)
    ensures SameFind(db, x + " " + y, x + y)
    ensures SameFind(db, x + "-" + y, x + y)
    ensures SameFind(db, Lower(x), x)
  {
    NormaliseIgnoresSpelling(x, y);
  }

  /** The result is a record of the catalogue exactly when some item's key
      equals the search key or some item matches partially; otherwise it is
      the error quoting the original name. */
  lemma PumpLookupCharacterised(db: seq<PumpEntry>, name: string)
    ensures var key := NormaliseModelName(name);
      PumpLookup(db, name).PumpError? <==>
        forall i :: 0 <= i < |db| ==> db[i].key != key && !PartialMatch(db[i], key)
    ensures PumpLookup(db, name).PumpError? ==> PumpLookup(db, name).error == NoPumpMessage(name)
    ensures PumpLookup(db, name).PumpFound? ==>
              exists i :: 0 <= i < |db| && db[i].record == PumpLookup(db, name).record
  {
    var key := NormaliseModelName(name);
    FirstPartialIsFirst(db, key);
  }

  /** Any name whose key is "ddp60" finds the DDP60 record by the
      dictionary lookup. */
  lemma Ddp60KeyFindsDdp60(name: string)
    requires NormaliseModelName(name) == "ddp60"
    ensures PumpLookup(PumpDatabase, name) == PumpFound(PumpDatabase[0].record)
  {
    assert ExactEntry(PumpDatabase, "ddp60") == Some(PumpDatabase[0].record);
  }

  /** "DDP-60", "ddp 60" and "DDP60" all normalise to the key "ddp60". */
  lemma Ddp60SpellingsNormalise(name: string)
    requires name in ["DDP-60", "ddp 60", "DDP60"]
    ensures NormaliseModelName(name) == "ddp60"
  {
    assert Remove("60", ' ') == "60" && Remove("60", '-') == "60";
    assert Remove("p60", ' ') == "p60" && Remove("p60", '-') == "p60";
    assert Remove("dp60", ' ') == "dp60" && Remove("dp60", '-') == "dp60";
    assert Remove("ddp60", ' ') == "ddp60" && Remove("ddp60", '-') == "ddp60";
    if name == "DDP-60" {
      assert Lower("DDP-60") == "ddp-60";
      assert Remove("-60", ' ') == "-60" && Remove("-60", '-') == "60";
      assert Remove("p-60", ' ') == "p-60" && Remove("p-60", '-') == "p60";
      assert Remove("dp-60", ' ') == "dp-60" && Remove("dp-60", '-') == "dp60";
      assert Remove("ddp-60", ' ') == "ddp-60" && Remove("ddp-60", '-') == "ddp60";
    } else if name == "ddp 60" {
      assert Lower("ddp 60") == "ddp 60";
      assert Remove(" 60", ' ') == "60";
      assert Remove("p 60", ' ') == "p60";
      assert Remove("dp 60", ' ') == "dp60";
      assert Remove("ddp 60", ' ') == "ddp60";
    } else {
      assert Lower("DDP60") == "ddp60";
    }
  }

  /** "DDP-60", "ddp 60" and "DDP60" all find the DDP60 record. */
  lemma PumpLookupDdp60Spellings(name: string)
    requires name in ["DDP-60", "ddp 60", "DDP60"]
    ensures PumpLookup(PumpDatabase, name) == PumpFound(PumpDatabase[0].record)
  {
    Ddp60SpellingsNormalise(name);
    Ddp60KeyFindsDdp60(name);
  }

  /** A name that normalises to the empty key (no key is empty) is contained
      in the first key, so it finds the first item. */
  lemma PumpLookupEmptyKey(name: string)
    requires NormaliseModelName(name) == ""
    ensures PumpLookup(PumpDatabase, name) == PumpFound(PumpDatabase[0].record)
  {
    assert ExactEntry(PumpDatabase, "") == None;
    assert PartialMatch(PumpDatabase[0], "");
  }

  /** A search key holding a character that no key, model or description
      of the catalogue holds matches no item. */
  lemma {:induction false} AbsentCharMatchesNothing(db: seq<PumpEntry>, key: string, c: char)
    requires c in key && !('A' <= c <= 'Z') && !('a' <= c <= 'z') && c != ' '
    requires forall i :: 0 <= i < |db| ==>
               c !in db[i].key && c !in db[i].record.productModel && c !in db[i].record.description
    ensures forall i :: 0 <= i < |db| ==> db[i].key != key && !PartialMatch(db[i], key)
  {
    forall i | 0 <= i < |db| ensures db[i].key != key && !PartialMatch(db[i], key) {
      var e := db[i];
      var model := Remove(Lower(e.record.productModel), ' ');
      var text := Lower(e.record.description);
      InLowerIff(e.record.productModel, c);
      RemoveSpec(Lower(e.record.productModel), ' ');
      InLowerIff(e.record.description, c);
      if Contains(e.key, key) { ContainsChar(e.key, key, c); }
      if Contains(model, key) { ContainsChar(model, key, c); }
      if Contains(text, key) { ContainsChar(text, key, c); }
    }
  }

  // ----- get_weather -----

  datatype WeatherReport = WeatherReport(
    temperature: int, condition: string, humidity: int, windSpeed: int, location: string)

  const WeatherTable: map<string, WeatherReport> := map[
    "nairobi" := WeatherReport(22, "Partly Cloudy", 65, 12, "Nairobi, Kenya"),
    "mombasa" := WeatherReport(30, "Sunny", 80, 15, "Mombasa, Kenya"),
    "kisumu" := WeatherReport(26, "Light Rain", 75, 8, "Kisumu, Kenya")
  ]

  function LocationKey(location: string): string
  {
    Remove(Lower(location), ' ')
  }

  /** `get_weather`: the stored report of a known place, else a default
      report that echoes the place as given. The condition is "Unknown"
      exactly when the place is not known. */
  function GetWeather(location: string): (r: WeatherReport)
    ensures LocationKey(location) in WeatherTable ==> r == WeatherTable[LocationKey(location)]
    ensures r.condition == "Unknown" <==> LocationKey(location) !in WeatherTable
    ensures LocationKey(location) !in WeatherTable ==>
              r == WeatherReport(25, "Unknown", 70, 10, location)
  {
    var key := LocationKey(location);
    if key in WeatherTable then WeatherTable[key]
    else WeatherReport(25, "Unknown", 70, 10, location)
  }

  /** The table key ignores case and a space anywhere in the place name. */
  lemma LocationKeyIgnoresSpelling(x: string, y: string)
    ensures LocationKey(x + " " + y) == LocationKey(x + y)
    ensures LocationKey(Lower(x)) == LocationKey(x)
  {
    LowerAround(x, ' ', y);
    LowerIdempotent(x);
    RemoveConcat(Lower(x), Lower(y), ' ');
    RemoveAround(Lower(x), ' ', Lower(y), ' ');
  }

  /** Two places are both unknown, or both get the same stored report. */
  predicate SameReport(a: string, b: string)
  {
    && (GetWeather(a).condition == "Unknown" <==> GetWeather(b).condition == "Unknown")
    && (GetWeather(a).condition != "Unknown" ==> GetWeather(a) == GetWeather(b))
  }

  /** Place names that differ in case, or by a space, get the same known
      report. */
  lemma GetWeatherIgnoresSpelling(x: string, y: string)
    ensures SameReport(x + " " + y, x + y)
    ensures SameReport(Lower(x), x)
  {
    LocationKeyIgnoresSpelling(x, y);
  }

  lemma GetWeatherNairobi(place: string)
    requires place == "NAIROBI"
    ensures GetWeather(place) == WeatherReport(22, "Partly Cloudy", 65, 12, "Nairobi, Kenya")
  {
    assert Lower("NAIROBI") == "nairobi";
    assert Remove("i", ' ') == "i";
    assert Remove("bi", ' ') == "bi";
    assert Remove("obi", ' ') == "obi";
    assert Remove("robi", ' ') == "robi";
    assert Remove("irobi", ' ') == "irobi";
    assert Remove("airobi", ' ') == "airobi";
    assert Remove("nairobi", ' ') == "nairobi";
  }

  lemma GetWeatherUnknownPlace(place: string)
    requires place == "Nakuru"
    ensures GetWeather(place) == WeatherReport(25, "Unknown", 70, 10, "Nakuru")
  {
    assert Lower("Nakuru") == "nakuru";
    assert Remove("u", ' ') == "u";
    assert Remove("ru", ' ') == "ru";
    assert Remove("uru", ' ') == "uru";
    assert Remove("kuru", ' ') == "kuru";
    assert Remove("akuru", ' ') == "akuru";
    assert Remove("nakuru", ' ') == "nakuru";
  }

  // ----- unit_converter -----

  /** The conversion factors, keyed "<from>_to_<to>". */
  const ConversionTable: map<string, real> := map[
    "meters_to_feet" := 3.28084,
    "feet_to_meters" := 0.3048,
    "liters_to_gallons" := 0.264172,
    "gallons_to_liters" := 3.78541,
    "kg_to_pounds" := 2.20462,
    "pounds_to_kg" := 0.453592,
    "bar_to_psi" := 14.5038,
    "psi_to_bar" := 0.0689476
  ]

  function ConversionKey(fromUnit: string, toUnit: string): string
  {
    Lower(fromUnit) + "_to_" + Lower(toUnit)
  }

  /** The result of `unit_converter` without the converted value. */
  datatype Conversion =
    | Converted(originalValue: real, originalUnit: string, targetUnit: string, factor: real)
    | ConversionError(error: string)

  /** `unit_converter`: succeeds exactly when the lowered unit names form a
      table key, echoing the value and both unit names as given. */
  function UnitConverter(value: real, fromUnit: string, toUnit: string): (r: Conversion)
    ensures r.Converted? <==> ConversionKey(fromUnit, toUnit) in ConversionTable
    ensures r.Converted? ==>
              && r.originalValue == value && r.originalUnit == fromUnit && r.targetUnit == toUnit
              && r.factor == ConversionTable[ConversionKey(fromUnit, toUnit)]
    ensures r.ConversionError? ==>
              r.error == "Conversion from " + fromUnit + " to " + toUnit + " is not supported."
  {
    var key := ConversionKey(fromUnit, toUnit);
    if key in ConversionTable then Converted(value, fromUnit, toUnit, ConversionTable[key])
    else ConversionError("Conversion from " + fromUnit + " to " + toUnit + " is not supported.")
  }

  /** A key of the form "<u>_to_<u>" repeats its first half after "_to_". */
  lemma SameUnitKeyShape(u: string, k: string)
    requires k == u + "_to_" + u
    ensures |k| == 2 * |u| + 4 && k[..|u|] == k[|u| + 4..]
  {
    assert k[..|u|] == u;
    assert k[|u| + 4..] == u;
  }

  /** A key of the form "<u>_to_<u>": its first half reappears after
      "_to_". */
  predicate SameUnitKey(k: string)
  {
    |k| >= 4 && (|k| - 4) % 2 == 0 && k[..(|k| - 4) / 2] == k[(|k| - 4) / 2 + 4..]
  }

  /** Every table key names two different units. */
  lemma TableKeysNameTwoUnits()
    ensures forall k :: k in ConversionTable ==> !SameUnitKey(k)
  {
    assert !SameUnitKey("meters_to_feet") by { assert "meters_to_feet"[..5][0] != "meters_to_feet"[9..][0]; }
    assert !SameUnitKey("feet_to_meters") by { assert "feet_to_meters"[..5][0] != "feet_to_meters"[9..][0]; }
    assert !SameUnitKey("kg_to_pounds") by { assert "kg_to_pounds"[..4][0] != "kg_to_pounds"[8..][0]; }
    assert !SameUnitKey("pounds_to_kg") by { assert "pounds_to_kg"[..4][0] != "pounds_to_kg"[8..][0]; }
    assert !SameUnitKey("bar_to_psi") by { assert "bar_to_psi"[..3][0] != "bar_to_psi"[7..][0]; }
    assert !SameUnitKey("psi_to_bar") by { assert "psi_to_bar"[..3][0] != "psi_to_bar"[7..][0]; }
  }

  /** No unit converts to itself, meters to meters included. */
  lemma IdentityConversionUnsupported(value: real, unit: string)
    ensures UnitConverter(value, unit, unit).ConversionError?
  {
    var k := ConversionKey(unit, unit);
    SameUnitKeyShape(Lower(unit), k);
    TableKeysNameTwoUnits();
    assert SameUnitKey(k);
  }
}
