/** `escapeHtml` of generador.js: each of the five characters
    & < > " ' is replaced by its entity, every other character is kept. */
module Escape {

  predicate IsSpecial(c: char) {
    c == '&' || c == '<' || c == '>' || c == '"' || c == '\''
  }

  /** The replacement of one character. */
  function EscapeChar(c: char): (r: string)
    ensures !IsSpecial(c) ==> r == [c]
    ensures IsSpecial(c) ==> |r| >= 4 && r[0] == '&'
  {
    match c
    case '&' => "&amp;"
    case '<' => "&lt;"
    case '>' => "&gt;"
    case '"' => "&quot;"
    case '\'' => "&#39;"
    case _ => [c]
  }

  /** `text.replace(/[&<>"']/g, m => entity[m])` */
  function EscapeHtml(s: string): (r: string)
    ensures |r| >= |s|
    ensures r == [] <==> s == []
  {
    if s == [] then [] else EscapeChar(s[0]) + EscapeHtml(s[1..])
  }

  predicate StartsWith(t: string, i: int, e: string) {
    0 <= i && i + |e| <= |t| && t[i..i + |e|] == e
  }

  /** At index i of t begins one of the five entities. */
  predicate EntityAt(t: string, i: int) {
    StartsWith(t, i, "&amp;") || StartsWith(t, i, "&lt;") || StartsWith(t, i, "&gt;")
      || StartsWith(t, i, "&quot;") || StartsWith(t, i, "&#39;")
  }

  /** No raw markup character, and every ampersand begins an entity. */
  predicate WellEscaped(t: string) {
    (forall i :: 0 <= i < |t| ==> t[i] != '<' && t[i] != '>' && t[i] != '"' && t[i] != '\'')
      && forall i :: 0 <= i < |t| && t[i] == '&' ==> EntityAt(t, i)
  }

  /** The inverse substitution: each entity back to its character. */
  function Unescape(t: string): (r: string)
    decreases |t|
  {
    if t == [] then []
    else if t[0] != '&' then [t[0]] + Unescape(t[1..])
    else if StartsWith(t, 0, "&amp;") then "&" + Unescape(t[5..])
    else if StartsWith(t, 0, "&lt;") then "<" + Unescape(t[4..])
    else if StartsWith(t, 0, "&gt;") then ">" + Unescape(t[4..])
    else if StartsWith(t, 0, "&quot;") then "\"" + Unescape(t[6..])
    else if StartsWith(t, 0, "&#39;") then "'" + Unescape(t[5..])
    else "&" + Unescape(t[1..])
  }

  function Count(s: string, c: char): (n: nat)
    ensures n <= |s|
  {
    if s == [] then 0 else (if s[0] == c then 1 else 0) + Count(s[1..], c)
  }

  lemma {:induction false} CountAppend(a: string, b: string, c: char)
    ensures Count(a + b, c) == Count(a, c) + Count(b, c)
  {
    if a == [] {
      assert a + b == b;
    } else {
      assert (a + b)[0] == a[0];
      assert (a + b)[1..] == a[1..] + b;
      CountAppend(a[1..], b, c);
    }
  }

  /** Escaping distributes over concatenation: the text is processed
      character by character, in order. */
  lemma {:induction false} EscapeAppend(a: string, b: string)
    ensures EscapeHtml(a + b) == EscapeHtml(a) + EscapeHtml(b)
  {
    if a == [] {
      assert a + b == b;
    } else {
      assert (a + b)[0] == a[0];
      assert (a + b)[1..] == a[1..] + b;
      EscapeAppend(a[1..], b);
    }
  }

  /** Text without any of the five characters is left unchanged. */
  lemma {:induction false} EscapeIdentity(s: string)
    requires forall i :: 0 <= i < |s| ==> !IsSpecial(s[i])
    ensures EscapeHtml(s) == s
  {
    if s != [] {
      EscapeIdentity(s[1..]);
      assert s == [s[0]] + s[1..];
    }
  }

  lemma SliceOfLeft(a: string, b: string, i: nat, n: nat)
    requires i + n <= |a|
    ensures (a + b)[i..i + n] == a[i..i + n]
  {
  }

  lemma SliceOfRight(a: string, b: string, j: nat, n: nat)
    requires j + n <= |b|
    ensures (a + b)[|a| + j..|a| + j + n] == b[j..j + n]
  {
  }

  lemma WellEscapedAppend(a: string, b: string)
    requires WellEscaped(a) && WellEscaped(b)
    ensures WellEscaped(a + b)
  {
    var t := a + b;
    forall i | 0 <= i < |t| && t[i] == '&' ensures EntityAt(t, i) {
      if i < |a| {
        assert EntityAt(a, i);
        forall e: string | StartsWith(a, i, e) ensures StartsWith(t, i, e) {
          SliceOfLeft(a, b, i, |e|);
        }
      } else {
        var j := i - |a|;
        assert b[j] == '&';
        assert EntityAt(b, j);
        forall e: string | StartsWith(b, j, e) ensures StartsWith(t, i, e) {
          SliceOfRight(a, b, j, |e|);
        }
      }
    }
  }

  /** The output has no raw < > " or ', and each & in it begins one of the
      five entities. */
  lemma {:induction false} EscapeIsWellEscaped(s: string)
    ensures WellEscaped(EscapeHtml(s))
  {
    if s != [] {
      EscapeIsWellEscaped(s[1..]);
      var e := EscapeChar(s[0]);
      assert WellEscaped(e) by {
        if IsSpecial(s[0]) {
          assert StartsWith(e, 0, e);
        }
      }
      WellEscapedAppend(e, EscapeHtml(s[1..]));
    }
  }

  /** A text whose second character differs from an entity's does not
      start with that entity. */
  lemma NotEntity(t: string, e: string)
    requires |t| >= 2 && |e| >= 2 && t[1] != e[1]
    ensures !StartsWith(t, 0, e)
  {
  }

  /** Unescaping a character that needs no entity, followed by anything,
      gives that character back first. */
  lemma UnescapePlain(c: char, rest: string)
    requires !IsSpecial(c)
    ensures Unescape([c] + rest) == [c] + Unescape(rest)
  {
    var t := [c] + rest;
    assert t[0] == c;
    assert t[1..] == rest;
  }

  /** Unescaping an entity, followed by anything, gives its character back
      first. */
  lemma UnescapeEntity(c: char, rest: string)
    requires IsSpecial(c)
    ensures Unescape(EscapeChar(c) + rest) == [c] + Unescape(rest)
  {
    var e := EscapeChar(c);
    var t := e + rest;
    assert t[..|e|] == e;
    assert t[|e|..] == rest;
    assert t[1] == e[1];
    if c == '&' {
      assert StartsWith(t, 0, "&amp;");
    } else if c == '<' {
      NotEntity(t, "&amp;");
      assert StartsWith(t, 0, "&lt;");
    } else if c == '>' {
      NotEntity(t, "&amp;");
      NotEntity(t, "&lt;");
      assert StartsWith(t, 0, "&gt;");
    } else if c == '"' {
      NotEntity(t, "&amp;");
      NotEntity(t, "&lt;");
      NotEntity(t, "&gt;");
      assert StartsWith(t, 0, "&quot;");
    } else {
      NotEntity(t, "&amp;");
      NotEntity(t, "&lt;");
      NotEntity(t, "&gt;");
      NotEntity(t, "&quot;");
      assert StartsWith(t, 0, "&#39;");
    }
  }

  /** Undoing the substitution gives back the input. */
  lemma {:induction false} UnescapeEscape(s: string)
    ensures Unescape(EscapeHtml(s)) == s
  {
    if s != [] {
      UnescapeEscape(s[1..]);
      if IsSpecial(s[0]) {
        UnescapeEntity(s[0], EscapeHtml(s[1..]));
      } else {
        UnescapePlain(s[0], EscapeHtml(s[1..]));
      }
      assert s == [s[0]] + s[1..];
    }
  }

  /** Distinct texts escape to distinct texts. */
  lemma EscapeInjective(a: string, b: string)
    requires EscapeHtml(a) == EscapeHtml(b)
    ensures a == b
  {
    UnescapeEscape(a);
    UnescapeEscape(b);
  }

  /** The output grows by 4 for each & or ' (`&amp;`, `&#39;`), by 3 for
      each < or > (`&lt;`, `&gt;`), and by 5 for each " (`&quot;`). */
  lemma {:induction false} EscapeLength(s: string)
    ensures |EscapeHtml(s)| == |s| + 4 * (Count(s, '&') + Count(s, '\''))
      + 3 * (Count(s, '<') + Count(s, '>')) + 5 * Count(s, '"')
  {
    if s != [] {
      EscapeLength(s[1..]);
      var c := s[0];
      assert EscapeHtml(s) == EscapeChar(c) + EscapeHtml(s[1..]);
      if c == '&' {
        assert |EscapeChar(c)| == 5;
      } else if c == '<' || c == '>' {
        assert |EscapeChar(c)| == 4;
      } else if c == '"' {
        assert |EscapeChar(c)| == 6;
      } else if c == '\'' {
        assert |EscapeChar(c)| == 5;
      }
    }
  }
}
