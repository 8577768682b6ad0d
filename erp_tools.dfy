/** The ERP pump lookup (`get_pump_from_erp`): the credential guard, then a
    first-match scan over the pump items the ERP returned. The HTTP request
    itself is a parameter: the model receives its outcome. */
module ErpTools {
  import opened Optional
  import opened PyStr

  /** A string field of an ERP item as `dict.get` sees it: no such key, a
      JSON `null`, or a string. */
  datatype Field = Absent | Null | Str(s: string)

  /** One item of the ERP's `value` list. */
  datatype ErpPump = ErpPump(
    no: Field, description: Field, productModel: Field,
    inventory: Option<int>, retailPrice: Option<real>)

  /** The dictionary returned for a match; `description` is the lowered
      text, `productModel` the raw value (absent and null both give `None`). */
  datatype ErpPumpInfo = ErpPumpInfo(
    modelNumber: string, productModel: Option<string>, description: string,
    inventory: Option<int>, retailPrice: Option<real>)

  datatype ErpResult = ErpFound(info: ErpPumpInfo) | ErpError(error: string)

  /** The three environment variables; `None` when unset. */
  datatype ErpCredentials = ErpCredentials(url: Option<string>, username: Option<string>, password: Option<string>)

  /** What the GET request produced: the `value` list of the body (empty
      when the body has none), or the text of the exception it raised. */
  datatype ErpResponse = ErpPumps(pumps: seq<ErpPump>) | ErpRequestFailed(error: string)

  const MissingCredentialsError := "Missing ERP credentials or URL in environment variables."

  /** The text of the `AttributeError` raised by `.lower()` on `None`. */
  const NoneLowerError := "'NoneType' object has no attribute 'lower'"

  function NoErpPumpMessage(name: string): string
  {
    "No pump found with model name matching '" + name + "'. Please check the model name and try again."
  }

  /** Python truthiness of an optional string. */
  predicate Truthy(v: Option<string>)
  {
    v.Some? && v.value != ""
  }

  /** `all([url, username, password])`. */
  predicate CredentialsPresent(c: ErpCredentials)
  {
    Truthy(c.url) && Truthy(c.username) && Truthy(c.password)
  }

  /** `pump.get(key, "")` for the description and product model: a missing
      key reads as the empty text, `null` stays `None`. */
  function GetOrEmpty(f: Field): Option<string>
  {
    match f
    case Absent => Some("")
    case Null => None
    case Str(s) => Some(s)
  }

  /** `pump.get(key)`: missing and `null` both read as `None`. */
  function GetOrNone(f: Field): Option<string>
  {
    if f.Str? then Some(f.s) else None
  }

  /** An item whose three string fields can all be lowered: `No` is a
      string, and the description and product model are strings or missing. */
  predicate Lowerable(p: ErpPump)
  {
    GetOrNone(p.no).Some? && GetOrEmpty(p.description).Some? && GetOrEmpty(p.productModel).Some?
  }

  /** The partial-match test of one lowerable item against the lowered
      model name. */
  predicate ErpMatch(p: ErpPump, key: string)
    requires Lowerable(p)
  {
    || Contains(Lower(GetOrEmpty(p.description).value), key)
    || Contains(Lower(GetOrEmpty(p.productModel).value), key)
    || Contains(Lower(GetOrNone(p.no).value), key)
  }

  /** The dictionary built for a matching item. */
  function Info(p: ErpPump): ErpPumpInfo
    requires Lowerable(p)
  {
    ErpPumpInfo(GetOrNone(p.no).value, GetOrNone(p.productModel),
                Lower(GetOrEmpty(p.description).value), p.inventory, p.retailPrice)
  }

  /** The scan as a specification: the first item that matches partially,
      an error as soon as an item cannot be lowered, the not-found error
      after the last item. */
  function ErpSearch(pumps: seq<ErpPump>, name: string): (r: ErpResult)
    ensures r.ErpFound? ==>
              exists i :: (0 <= i < |pumps| && Lowerable(pumps[i]) &&
                           ErpMatch(pumps[i], Lower(name)) && r.info == Info(pumps[i]))
    ensures r.ErpError? ==> r.error == NoErpPumpMessage(name) || r.error == NoneLowerError
  {
    if pumps == [] then ErpError(NoErpPumpMessage(name))
    else if !Lowerable(pumps[0]) then ErpError(NoneLowerError)
    else if ErpMatch(pumps[0], Lower(name)) then ErpFound(Info(pumps[0]))
    else
      var rest := ErpSearch(pumps[1..], name);
      assert rest.ErpFound? ==>
        exists i :: (1 <= i < |pumps| && pumps[1..][i - 1] == pumps[i] && Lowerable(pumps[i]) &&
                     ErpMatch(pumps[i], Lower(name)) && rest.info == Info(pumps[i]));
      rest
  }

  /** The whole tool as a specification of its inputs. */
  function ErpLookup(creds: ErpCredentials, response: ErpResponse, name: string): (r: ErpResult)
    ensures r.ErpFound? ==>
              (CredentialsPresent(creds) && response.ErpPumps? &&
               exists i :: 0 <= i < |response.pumps| && Lowerable(response.pumps[i]) &&
                 ErpMatch(response.pumps[i], Lower(name)) && r.info == Info(response.pumps[i]))
    ensures r.ErpError? ==>
              (r.error in {MissingCredentialsError, NoErpPumpMessage(name), NoneLowerError} ||
               (response.ErpRequestFailed? && r.error == response.error))
  {
    if !CredentialsPresent(creds) then ErpError(MissingCredentialsError)
    else match response
      case ErpRequestFailed(e) => ErpError(e)
      case ErpPumps(pumps) => ErpSearch(pumps, name)
  }

  /** `get_pump_from_erp`: the guard, then the loop with its exact-number
      branch and its partial-match branch. */
  method GetPumpFromErp(creds: ErpCredentials, response: ErpResponse, modelName: string)
    returns (r: ErpResult)
    ensures r == ErpLookup(creds, response, modelName)
  {
    if !CredentialsPresent(creds) {
      return ErpError(MissingCredentialsError);
    }
    if response.ErpRequestFailed? {
      return ErpError(response.error);
    }
    var pumps := response.pumps;
    var key := Lower(modelName);
    var i := 0;
    while i < |pumps|
      invariant 0 <= i <= |pumps|
      invariant ErpSearch(pumps, modelName) == ErpSearch(pumps[i..], modelName)
    {
      var pump := pumps[i];
      var pumpNo := GetOrNone(pump.no);
      var pumpDescription := GetOrEmpty(pump.description);
      var pumpModel := GetOrEmpty(pump.productModel);
      if pumpDescription.None? || pumpModel.None? || pumpNo.None? {
        return ErpError(NoneLowerError);
      }
      var noLower := Lower(pumpNo.value);
      var descriptionLower := Lower(pumpDescription.value);
      var modelLower := Lower(pumpModel.value);
      if key == noLower {
        ExactIsPartial(noLower);
        return ErpFound(Info(pump));
      }
      if Contains(descriptionLower, key) || Contains(modelLower, key) || Contains(noLower, key) {
        return ErpFound(Info(pump));
      }
      assert pumps[i..][1..] == pumps[i + 1..];
      i := i + 1;
    }
    r := ErpError(NoErpPumpMessage(modelName));
  }

  /** Every text contains itself, so the exact-number branch of the loop
      never returns anything the partial-match branch would not. */
  lemma ExactIsPartial(s: string)
    ensures Contains(s, s)
  {
  }

  /** Without all three settings the tool answers with the credentials
      error, whatever the ERP would have returned; with them, a failed
      request is reported by its own text. */
  lemma CredentialGuard(creds: ErpCredentials, response: ErpResponse, name: string)
    ensures !CredentialsPresent(creds) ==>
              ErpLookup(creds, response, name) == ErpError(MissingCredentialsError)
    ensures CredentialsPresent(creds) && response.ErpRequestFailed? ==>
              ErpLookup(creds, response, name) == ErpError(response.error)
    ensures CredentialsPresent(creds) <==>
              (creds.url != None && creds.url != Some("") &&
               creds.username != None && creds.username != Some("") &&
               creds.password != None && creds.password != Some(""))
  {
  }

  /** The scan returns item `i` exactly when every earlier item is lowerable
      and does not match, and item `i` is lowerable and matches. */
  lemma {:induction false} ErpSearchFindsFirst(pumps: seq<ErpPump>, name: string, i: int)
    requires 0 <= i < |pumps|
    requires forall j :: 0 <= j < i ==> Lowerable(pumps[j]) && !ErpMatch(pumps[j], Lower(name))
    ensures !Lowerable(pumps[i]) ==> ErpSearch(pumps, name) == ErpError(NoneLowerError)
    ensures Lowerable(pumps[i]) && ErpMatch(pumps[i], Lower(name)) ==>
              ErpSearch(pumps, name) == ErpFound(Info(pumps[i]))
    ensures Lowerable(pumps[i]) && !ErpMatch(pumps[i], Lower(name)) ==>
              ErpSearch(pumps, name) == ErpSearch(pumps[i + 1..], name)
  {
    if i > 0 {
      assert pumps[1..][i - 1] == pumps[i];
      assert pumps[1..][i..] == pumps[i + 1..];
      forall j | 0 <= j < i - 1
        ensures Lowerable(pumps[1..][j]) && !ErpMatch(pumps[1..][j], Lower(name))
      {
        assert pumps[1..][j] == pumps[j + 1];
      }
      ErpSearchFindsFirst(pumps[1..], name, i - 1);
    }
  }

  /** The scan reports "not found", quoting the name as typed, exactly when
      every item is lowerable and none matches. */
  lemma {:induction false} ErpSearchNotFound(pumps: seq<ErpPump>, name: string)
    ensures ErpSearch(pumps, name) == ErpError(NoErpPumpMessage(name)) <==>
              forall j :: 0 <= j < |pumps| ==> Lowerable(pumps[j]) && !ErpMatch(pumps[j], Lower(name))
  {
    if pumps != [] {
      ErpSearchNotFound(pumps[1..], name);
      assert NoErpPumpMessage(name) != NoneLowerError by {
        assert NoErpPumpMessage(name)[0] == 'N' && NoneLowerError[0] == '\'';
      }
      if forall j :: 0 <= j < |pumps[1..]| ==> Lowerable(pumps[1..][j]) && !ErpMatch(pumps[1..][j], Lower(name)) {
        if Lowerable(pumps[0]) && !ErpMatch(pumps[0], Lower(name)) {
          forall j | 0 <= j < |pumps| ensures Lowerable(pumps[j]) && !ErpMatch(pumps[j], Lower(name)) {
            if j > 0 { assert pumps[j] == pumps[1..][j - 1]; }
          }
        }
      } else {
        var j :| 0 <= j < |pumps[1..]| && !(Lowerable(pumps[1..][j]) && !ErpMatch(pumps[1..][j], Lower(name)));
        assert pumps[1..][j] == pumps[j + 1];
      }
    }
  }

  /** An earlier partial match wins over a later item whose number equals
      the model name exactly: the loop returns at the first match. */
  lemma EarlierPartialBeatsLaterExact(p: ErpPump, q: ErpPump, name: string)
    requires Lowerable(p) && ErpMatch(p, Lower(name))
    requires Lowerable(q) && Lower(GetOrNone(q.no).value) == Lower(name)
    ensures ErpSearch([p, q], name) == ErpFound(Info(p))
  {
  }

  /** The model name is compared in lower case: names that differ only in
      case find the same item. */
  lemma {:induction false} ErpSearchIgnoresCase(pumps: seq<ErpPump>, a: string, b: string)
    requires Lower(a) == Lower(b)
    ensures ErpSearch(pumps, a).ErpFound? <==> ErpSearch(pumps, b).ErpFound?
    ensures ErpSearch(pumps, a).ErpFound? ==> ErpSearch(pumps, a) == ErpSearch(pumps, b)
  {
    if pumps != [] && Lowerable(pumps[0]) && !ErpMatch(pumps[0], Lower(a)) {
      ErpSearchIgnoresCase(pumps[1..], a, b);
    }
  }
}
