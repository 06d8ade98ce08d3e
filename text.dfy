/** ASCII case mapping and substring tests used by both scripts' header
    detection and row normalisation. JavaScript's `toUpperCase` and
    `toLowerCase` are modelled on ASCII letters only. */
module Text {

  predicate IsUpperLetter(c: char) { 'A' <= c <= 'Z' }
  predicate IsLowerLetter(c: char) { 'a' <= c <= 'z' }

  function UpperChar(c: char): (r: char)
    ensures IsLowerLetter(c) ==> IsUpperLetter(r) && r as int == c as int - 32
    ensures !IsLowerLetter(c) ==> r == c
  {
    if IsLowerLetter(c) then (c as int - 32) as char else c
  }

  function LowerChar(c: char): (r: char)
    ensures IsUpperLetter(c) ==> IsLowerLetter(r) && r as int == c as int + 32
    ensures !IsUpperLetter(c) ==> r == c
  {
    if IsUpperLetter(c) then (c as int + 32) as char else c
  }

  /** `s.toUpperCase()` */
  function Upper(s: string): (r: string)
    ensures |r| == |s|
    ensures forall i :: 0 <= i < |s| ==> r[i] == UpperChar(s[i])
  {
    if s == [] then [] else [UpperChar(s[0])] + Upper(s[1..])
  }

  /** `s.toLowerCase()` */
  function Lower(s: string): (r: string)
    ensures |r| == |s|
    ensures forall i :: 0 <= i < |s| ==> r[i] == LowerChar(s[i])
  {
    if s == [] then [] else [LowerChar(s[0])] + Lower(s[1..])
  }

  predicate IsPrefix(p: string, s: string) {
    |p| <= |s| && s[..|p|] == p
  }

  /** `s.includes(p)`: p occurs in s at some position. */
  predicate Contains(s: string, p: string)
    decreases |s|
  {
    IsPrefix(p, s) || (|s| > 0 && Contains(s[1..], p))
  }

  /** The characters of p match those at the head of s under the
      regular-expression `i` flag, which compares upper-cased characters. */
  predicate PrefixIgnoringCase(p: string, s: string) {
    |p| <= |s| && forall j :: 0 <= j < |p| ==> UpperChar(s[j]) == UpperChar(p[j])
  }

  /** `/p/i.test(s)` for a pattern p made of plain characters. */
  predicate ContainsIgnoringCase(s: string, p: string)
    decreases |s|
  {
    PrefixIgnoringCase(p, s) || (|s| > 0 && ContainsIgnoringCase(s[1..], p))
  }

  /** p occurs in s starting at index i. */
  predicate OccursAt(s: string, p: string, i: int) {
    0 <= i <= |s| - |p| && s[i..i + |p|] == p
  }

  /** Contains is "occurs at some index". */
  lemma {:induction false} ContainsAt(s: string, p: string)
    ensures Contains(s, p) <==> exists i :: OccursAt(s, p, i)
    decreases |s|
  {
    if IsPrefix(p, s) {
      assert OccursAt(s, p, 0);
    }
    if |s| > 0 {
      ContainsAt(s[1..], p);
      if Contains(s[1..], p) {
        var i :| OccursAt(s[1..], p, i);
        assert s[i + 1..i + 1 + |p|] == s[1..][i..i + |p|];
        assert OccursAt(s, p, i + 1);
      }
      if exists i :: OccursAt(s, p, i) {
        var i :| OccursAt(s, p, i);
        if i > 0 {
          assert s[1..][i - 1..i - 1 + |p|] == s[i..i + |p|];
          assert OccursAt(s[1..], p, i - 1);
        } else {
          assert IsPrefix(p, s);
        }
      }
    } else {
      if exists i :: OccursAt(s, p, i) {
        var i :| OccursAt(s, p, i);
        assert IsPrefix(p, s);
      }
    }
  }

  /** Comparing upper-cased and comparing lower-cased characters agree. */
  lemma SameLetterEitherCase(a: char, b: char)
    ensures UpperChar(a) == UpperChar(b) <==> LowerChar(a) == LowerChar(b)
  {
  }

  /** For a pattern without capital letters, the regex `i` test of index.js
      and the `toLowerCase().includes` test of generador.js agree. */
  lemma {:induction false} IgnoringCaseIsLowerContains(s: string, p: string)
    requires forall j :: 0 <= j < |p| ==> !IsUpperLetter(p[j])
    ensures ContainsIgnoringCase(s, p) <==> Contains(Lower(s), p)
    decreases |s|
  {
    var ls := Lower(s);
    assert PrefixIgnoringCase(p, s) <==> IsPrefix(p, ls) by {
      if |p| <= |s| {
        forall j | 0 <= j < |p|
          ensures UpperChar(s[j]) == UpperChar(p[j]) <==> ls[j] == p[j]
        {
          SameLetterEitherCase(s[j], p[j]);
        }
        if PrefixIgnoringCase(p, s) {
          assert ls[..|p|] == p;
        }
        if IsPrefix(p, ls) {
          forall j | 0 <= j < |p| ensures ls[j] == p[j] {
            assert ls[..|p|][j] == p[j];
          }
        }
      }
    }
    if |s| > 0 {
      assert Lower(s)[1..] == Lower(s[1..]);
      IgnoringCaseIsLowerContains(s[1..], p);
    }
  }
}
