/** The few Python string operations the modelled code relies on:
    `str.lower()`, `str.replace(c, "")` for one character, the substring
    test `needle in hay` and `s.split(sep)[-1]`. */
module PyStr {

  /** `c.lower()` restricted to ASCII letters. */
  function LowerChar(c: char): char
  {
    if 'A' <= c <= 'Z' then (c as int + 32) as char else c
  }

  /** `s.lower()`: every character lowered, nothing added or removed. */
  function Lower(s: string): (r: string)
    ensures |r| == |s|
    ensures forall i :: 0 <= i < |s| ==> r[i] == LowerChar(s[i])
  {
    seq(|s|, i requires 0 <= i < |s| => LowerChar(s[i]))
  }

  /** A character that is not an upper-case ASCII letter occurs in the
      lowered text exactly where it occurred before. */
  lemma InLowerIff(s: string, c: char)
    requires !('A' <= c <= 'Z') && !('a' <= c <= 'z')
    ensures c in Lower(s) <==> c in s
  {
    if c in Lower(s) {
      var k :| 0 <= k < |s| && Lower(s)[k] == c;
      assert s[k] == c;
    }
    if c in s {
      var k :| 0 <= k < |s| && s[k] == c;
      assert Lower(s)[k] == c;
    }
  }

  /** `s.replace(c, "")`: every occurrence of `c` dropped, the order of the
      remaining characters kept. */
  function Remove(s: string, c: char): string
  {
    if s == [] then []
    else if s[0] == c then Remove(s[1..], c)
    else [s[0]] + Remove(s[1..], c)
  }

  /** `Remove` drops exactly the removed character: it no longer occurs,
      every other character occurs as before, and text without it is left
      as it is. */
  lemma {:induction false} RemoveSpec(s: string, c: char)
    ensures c !in Remove(s, c)
    ensures forall x :: x != c ==> (x in Remove(s, c) <==> x in s)
    ensures c !in s ==> Remove(s, c) == s
  {
    if s != [] {
      RemoveSpec(s[1..], c);
      assert s == [s[0]] + s[1..];
    }
  }

  /** Lowering twice is lowering once. */
  lemma LowerIdempotent(s: string)
    ensures Lower(Lower(s)) == Lower(s)
  {
  }

  /** Lowering works piece by piece, and leaves a non-letter as it is. */
  lemma LowerAround(x: string, c: char, y: string)
    requires !('A' <= c <= 'Z')
    ensures Lower(x + [c] + y) == Lower(x) + [c] + Lower(y)
    ensures Lower(x + y) == Lower(x) + Lower(y)
  {
    assert Lower(x + [c] + y) == Lower(x) + [c] + Lower(y);
    assert Lower(x + y) == Lower(x) + Lower(y);
  }

  /** Removing a character works piece by piece. */
  lemma {:induction false} RemoveConcat(x: string, y: string, c: char)
    ensures Remove(x + y, c) == Remove(x, c) + Remove(y, c)
  {
    if x != [] {
      assert (x + y)[1..] == x[1..] + y;
      RemoveConcat(x[1..], y, c);
    } else {
      assert x + y == y;
    }
  }

  /** Removing `c` drops a `c` between two pieces, and keeps any other
      character there. */
  lemma RemoveAround(x: string, d: char, y: string, c: char)
    ensures Remove(x + [d] + y, c) ==
              Remove(x, c) + (if d == c then [] else [d]) + Remove(y, c)
  {
    RemoveConcat(x + [d], y, c);
    RemoveConcat(x, [d], c);
    assert Remove([d], c) == (if d == c then [] else [d]) by {
      assert [d][1..] == [];
    }
  }

  /** Python's `needle in hay` for strings: some window of `hay` is `needle`. */
  function Contains(hay: string, needle: string): bool
  {
    needle <= hay || (hay != [] && Contains(hay[1..], needle))
  }

  /** `needle` is the window of `hay` that starts at `i`. */
  predicate OccursAt(hay: string, needle: string, i: int)
  {
    0 <= i <= |hay| - |needle| && hay[i..i + |needle|] == needle
  }

  /** A window of the tail is a window of the whole text, one place on. */
  lemma OccursInTail(hay: string, needle: string, i: int)
    requires hay != [] && OccursAt(hay[1..], needle, i)
    ensures OccursAt(hay, needle, i + 1)
  {
    assert hay[i + 1..i + 1 + |needle|] == hay[1..][i..i + |needle|];
  }

  /** A window of the whole text that does not start at 0 is a window of
      the tail, one place back. */
  lemma OccursPastHead(hay: string, needle: string, i: int)
    requires 0 < i && OccursAt(hay, needle, i)
    ensures OccursAt(hay[1..], needle, i - 1)
  {
    assert hay[1..][i - 1..i - 1 + |needle|] == hay[i..i + |needle|];
  }

  /** `Contains` is exactly "occurs at some position". */
  lemma {:induction false} ContainsIffOccurs(hay: string, needle: string)
    ensures Contains(hay, needle) <==> exists i :: OccursAt(hay, needle, i)
  {
    if needle <= hay {
      assert OccursAt(hay, needle, 0);
    } else if hay == [] {
    } else {
      ContainsIffOccurs(hay[1..], needle);
      if exists i :: OccursAt(hay, needle, i) {
        var i :| OccursAt(hay, needle, i);
        assert i != 0;
        OccursPastHead(hay, needle, i);
      }
      if Contains(hay[1..], needle) {
        var i :| OccursAt(hay[1..], needle, i);
        OccursInTail(hay, needle, i);
      }
    }
  }

  /** Every character of a contained needle occurs in the haystack; so a
      needle holding a character the haystack lacks is never contained. */
  lemma {:induction false} ContainsChar(hay: string, needle: string, c: char)
    requires Contains(hay, needle) && c in needle
    ensures c in hay
  {
    if needle <= hay {
      var k :| 0 <= k < |needle| && needle[k] == c;
      assert hay[k] == c;
    } else {
      ContainsChar(hay[1..], needle, c);
    }
  }

  /** `s.split(sep)[-1]`: the text after the last `sep`, or all of `s`
      when `sep` does not occur. */
  function AfterLast(s: string, sep: char): (r: string)
    ensures sep !in r
    ensures |r| <= |s| && r == s[|s| - |r|..]
    ensures |r| < |s| ==> s[|s| - |r| - 1] == sep
  {
    if s == [] then []
    else if s[|s| - 1] == sep then []
    else AfterLast(s[..|s| - 1], sep) + [s[|s| - 1]]
  }

  /** The three facts in `AfterLast`'s contract pin the result down. */
  lemma AfterLastUnique(s: string, sep: char, r: string)
    requires sep !in r && |r| <= |s| && r == s[|s| - |r|..]
    requires |r| < |s| ==> s[|s| - |r| - 1] == sep
    ensures r == AfterLast(s, sep)
  {
    var a := AfterLast(s, sep);
    assert |a| == |r|;
  }

  /** Appending `sep + ext` makes `ext` the text after the last `sep`. */
  lemma AfterLastOfSuffix(prefix: string, sep: char, ext: string)
    requires sep !in ext
    ensures AfterLast(prefix + [sep] + ext, sep) == ext
  {
    var s := prefix + [sep] + ext;
    assert s[|s| - |ext|..] == ext;
    assert s[|s| - |ext| - 1] == sep;
    AfterLastUnique(s, sep, ext);
  }
}
