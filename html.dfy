/** Python's `html.escape(s)` (with its default `quote=True`), the only
    transformation the notification body applies to a ticket key. */
module Html {
  import opened Text

  /** `s.replace(c, rep)` for a one-character pattern `c`. */
  function ReplaceChar(s: string, c: char, rep: string): string
  {
    if s == [] then ""
    else (if s[0] == c then rep else [s[0]]) + ReplaceChar(s[1..], c, rep)
  }

  /** `html.escape(s)`, written as the chain of replacements it performs:
      `&` first, then `<`, `>`, `"` and `'`. */
  function Escape(s: string): string
  {
    var amp := ReplaceChar(s, '&', "&amp;");
    var lt := ReplaceChar(amp, '<', "&lt;");
    var gt := ReplaceChar(lt, '>', "&gt;");
    var quot := ReplaceChar(gt, '"', "&quot;");
    ReplaceChar(quot, '\'', "&#x27;")
  }

  /** The characters `html.escape` rewrites. */
  predicate Special(c: char)
  {
    c == '&' || c == '<' || c == '>' || c == '"' || c == '\''
  }

  /** What one character becomes. */
  function EscapeChar(c: char): string
  {
    match c
    case '&' => "&amp;"
    case '<' => "&lt;"
    case '>' => "&gt;"
    case '"' => "&quot;"
    case '\'' => "&#x27;"
    case _ => [c]
  }

  /** The escape applied character by character. */
  function EscapeEach(s: string): string
  {
    if s == [] then "" else EscapeChar(s[0]) + EscapeEach(s[1..])
  }

  /** One of the five entities `html.escape` produces starts at index `i`. */
  predicate EntityAt(s: string, i: nat)
    requires i <= |s|
  {
    var t := s[i..];
    StartsWith(t, "&amp;") || StartsWith(t, "&lt;") || StartsWith(t, "&gt;")
    || StartsWith(t, "&quot;") || StartsWith(t, "&#x27;")
  }

  /** Safe inside a single-quoted HTML attribute and as element text: no raw
      `<`, `>`, `"` or `'`, and every `&` begins an entity. */
  predicate AttributeSafe(s: string)
  {
    (forall i :: 0 <= i < |s| ==> s[i] != '<' && s[i] != '>' && s[i] != '"' && s[i] != '\'')
    && (forall i :: 0 <= i < |s| && s[i] == '&' ==> EntityAt(s, i))
  }

  /** Reverses the five entities `html.escape` produces; every other
      character is kept. */
  function Unescape(s: string): string
    decreases |s|
  {
    if s == [] then ""
    else if s[0] != '&' then [s[0]] + Unescape(s[1..])
    else if StartsWith(s, "&amp;") then "&" + Unescape(s[5..])
    else if StartsWith(s, "&lt;") then "<" + Unescape(s[4..])
    else if StartsWith(s, "&gt;") then ">" + Unescape(s[4..])
    else if StartsWith(s, "&quot;") then "\"" + Unescape(s[6..])
    else if StartsWith(s, "&#x27;") then "'" + Unescape(s[6..])
    else [s[0]] + Unescape(s[1..])
  }

  lemma {:induction false} ReplaceCharConcat(a: string, b: string, c: char, rep: string)
    ensures ReplaceChar(a + b, c, rep) == ReplaceChar(a, c, rep) + ReplaceChar(b, c, rep)
  {
    if a == [] {
      assert a + b == b;
    } else {
      assert (a + b)[0] == a[0];
      assert (a + b)[1..] == a[1..] + b;
      ReplaceCharConcat(a[1..], b, c, rep);
    }
  }

  lemma {:induction false} ReplaceCharAbsent(s: string, c: char, rep: string)
    requires c !in s
    ensures ReplaceChar(s, c, rep) == s
  {
    if s != [] {
      ReplaceCharAbsent(s[1..], c, rep);
      assert [s[0]] + s[1..] == s;
    }
  }

  lemma EscapeConcat(a: string, b: string)
    ensures Escape(a + b) == Escape(a) + Escape(b)
  {
    var a1, b1 := ReplaceChar(a, '&', "&amp;"), ReplaceChar(b, '&', "&amp;");
    ReplaceCharConcat(a, b, '&', "&amp;");
    var a2, b2 := ReplaceChar(a1, '<', "&lt;"), ReplaceChar(b1, '<', "&lt;");
    ReplaceCharConcat(a1, b1, '<', "&lt;");
    var a3, b3 := ReplaceChar(a2, '>', "&gt;"), ReplaceChar(b2, '>', "&gt;");
    ReplaceCharConcat(a2, b2, '>', "&gt;");
    var a4, b4 := ReplaceChar(a3, '"', "&quot;"), ReplaceChar(b3, '"', "&quot;");
    ReplaceCharConcat(a3, b3, '"', "&quot;");
    ReplaceCharConcat(a4, b4, '\'', "&#x27;");
  }

  lemma ReplaceCharSingle(c: char, x: char, rep: string)
    ensures ReplaceChar([c], x, rep) == if c == x then rep else [c]
  {
    assert [c][1..] == [];
  }

  lemma EscapePlainChar(c: char)
    requires !Special(c)
    ensures Escape([c]) == [c]
  {
    ReplaceCharSingle(c, '&', "&amp;");
    ReplaceCharSingle(c, '<', "&lt;");
    ReplaceCharSingle(c, '>', "&gt;");
    ReplaceCharSingle(c, '"', "&quot;");
    ReplaceCharSingle(c, '\'', "&#x27;");
  }

  /** Escaping a special character gives its entity: once the character has
      become its entity, the remaining steps find nothing to replace in it. */
  lemma EscapeSpecialChar(c: char)
    requires Special(c)
    ensures Escape([c]) == EscapeChar(c)
  {
    if c == '&' {
      assert [c] == "&";
      EscapeAmp();
    } else if c == '<' {
      assert [c] == "<";
      EscapeLt();
    } else if c == '>' {
      assert [c] == ">";
      EscapeGt();
    } else if c == '"' {
      assert [c] == "\"";
      EscapeQuot();
    } else {
      assert [c] == "'";
      EscapeApos();
    }
  }

  lemma EscapeAmp()
    ensures Escape("&") == "&amp;"
  {
    var s1 := ReplaceChar("&", '&', "&amp;");
    assert s1 == "&amp;" by { ReplaceCharSingle('&', '&', "&amp;"); }
    var s2 := ReplaceChar(s1, '<', "&lt;");
    assert s2 == "&amp;" by { ReplaceCharAbsent("&amp;", '<', "&lt;"); }
    var s3 := ReplaceChar(s2, '>', "&gt;");
    assert s3 == "&amp;" by { ReplaceCharAbsent("&amp;", '>', "&gt;"); }
    var s4 := ReplaceChar(s3, '"', "&quot;");
    assert s4 == "&amp;" by { ReplaceCharAbsent("&amp;", '"', "&quot;"); }
    var s5 := ReplaceChar(s4, '\'', "&#x27;");
    assert s5 == "&amp;" by { ReplaceCharAbsent("&amp;", '\'', "&#x27;"); }
  }

  lemma EscapeLt()
    ensures Escape("<") == "&lt;"
  {
    var s1 := ReplaceChar("<", '&', "&amp;");
    assert s1 == "<" by { ReplaceCharSingle('<', '&', "&amp;"); }
    var s2 := ReplaceChar(s1, '<', "&lt;");
    assert s2 == "&lt;" by { ReplaceCharSingle('<', '<', "&lt;"); }
    var s3 := ReplaceChar(s2, '>', "&gt;");
    assert s3 == "&lt;" by { ReplaceCharAbsent("&lt;", '>', "&gt;"); }
    var s4 := ReplaceChar(s3, '"', "&quot;");
    assert s4 == "&lt;" by { ReplaceCharAbsent("&lt;", '"', "&quot;"); }
    var s5 := ReplaceChar(s4, '\'', "&#x27;");
    assert s5 == "&lt;" by { ReplaceCharAbsent("&lt;", '\'', "&#x27;"); }
  }

  lemma EscapeGt()
    ensures Escape(">") == "&gt;"
  {
    var s1 := ReplaceChar(">", '&', "&amp;");
    assert s1 == ">" by { ReplaceCharSingle('>', '&', "&amp;"); }
    var s2 := ReplaceChar(s1, '<', "&lt;");
    assert s2 == ">" by { ReplaceCharSingle('>', '<', "&lt;"); }
    var s3 := ReplaceChar(s2, '>', "&gt;");
    assert s3 == "&gt;" by { ReplaceCharSingle('>', '>', "&gt;"); }
    var s4 := ReplaceChar(s3, '"', "&quot;");
    assert s4 == "&gt;" by { ReplaceCharAbsent("&gt;", '"', "&quot;"); }
    var s5 := ReplaceChar(s4, '\'', "&#x27;");
    assert s5 == "&gt;" by { ReplaceCharAbsent("&gt;", '\'', "&#x27;"); }
  }

  lemma EscapeQuot()
    ensures Escape("\"") == "&quot;"
  {
    var s1 := ReplaceChar("\"", '&', "&amp;");
    assert s1 == "\"" by { ReplaceCharSingle('"', '&', "&amp;"); }
    var s2 := ReplaceChar(s1, '<', "&lt;");
    assert s2 == "\"" by { ReplaceCharSingle('"', '<', "&lt;"); }
    var s3 := ReplaceChar(s2, '>', "&gt;");
    assert s3 == "\"" by { ReplaceCharSingle('"', '>', "&gt;"); }
    var s4 := ReplaceChar(s3, '"', "&quot;");
    assert s4 == "&quot;" by { ReplaceCharSingle('"', '"', "&quot;"); }
    var s5 := ReplaceChar(s4, '\'', "&#x27;");
    assert s5 == "&quot;" by { ReplaceCharAbsent("&quot;", '\'', "&#x27;"); }
  }

  lemma EscapeApos()
    ensures Escape("'") == "&#x27;"
  {
    var s1 := ReplaceChar("'", '&', "&amp;");
    assert s1 == "'" by { ReplaceCharSingle('\'', '&', "&amp;"); }
    var s2 := ReplaceChar(s1, '<', "&lt;");
    assert s2 == "'" by { ReplaceCharSingle('\'', '<', "&lt;"); }
    var s3 := ReplaceChar(s2, '>', "&gt;");
    assert s3 == "'" by { ReplaceCharSingle('\'', '>', "&gt;"); }
    var s4 := ReplaceChar(s3, '"', "&quot;");
    assert s4 == "'" by { ReplaceCharSingle('\'', '"', "&quot;"); }
    var s5 := ReplaceChar(s4, '\'', "&#x27;");
    assert s5 == "&#x27;" by { ReplaceCharSingle('\'', '\'', "&#x27;"); }
  }

  lemma EscapeSingle(c: char)
    ensures Escape([c]) == EscapeChar(c)
  {
    if Special(c) {
      EscapeSpecialChar(c);
    } else {
      EscapePlainChar(c);
    }
  }

  /** `html.escape`'s chain of replacements rewrites each character on its
      own: the later replacements never touch text an earlier one inserted. */
  lemma {:induction false} EscapeIsPerChar(s: string)
    ensures Escape(s) == EscapeEach(s)
  {
    if s != [] {
      assert s == [s[0]] + s[1..];
      EscapeConcat([s[0]], s[1..]);
      EscapeSingle(s[0]);
      EscapeIsPerChar(s[1..]);
    }
  }

  /** A key without special characters is left unchanged. */
  lemma {:induction false} EscapeIdentity(s: string)
    requires forall i :: 0 <= i < |s| ==> !Special(s[i])
    ensures Escape(s) == s
  {
    EscapeIsPerChar(s);
    PlainEachIdentity(s);
  }

  lemma {:induction false} PlainEachIdentity(s: string)
    requires forall i :: 0 <= i < |s| ==> !Special(s[i])
    ensures EscapeEach(s) == s
  {
    if s != [] {
      PlainEachIdentity(s[1..]);
      assert [s[0]] + s[1..] == s;
    }
  }

  /** The escape adds no character that is not in an entity: a character
      outside `&#x27;amplgtquo` survives only where it was. */
  lemma {:induction false} EscapeKeepsOut(s: string, c: char)
    requires c !in s && c !in "&amp;lt;gt;quot;#x27;"
    ensures c !in Escape(s)
  {
    EscapeIsPerChar(s);
    EachKeepsOut(s, c);
  }

  lemma {:induction false} EachKeepsOut(s: string, c: char)
    requires c !in s && c !in "&amp;lt;gt;quot;#x27;"
    ensures c !in EscapeEach(s)
  {
    if s != [] {
      EachKeepsOut(s[1..], c);
      assert c !in EscapeChar(s[0]);
    }
  }

  lemma {:induction false} EscapeEachSafe(s: string)
    ensures AttributeSafe(EscapeEach(s))
  {
    if s != [] {
      EscapeEachSafe(s[1..]);
      var piece := EscapeChar(s[0]);
      var rest := EscapeEach(s[1..]);
      var t := piece + rest;
      forall i | 0 <= i < |t| ensures t[i] != '<' && t[i] != '>' && t[i] != '"' && t[i] != '\'' {
        if i >= |piece| { assert t[i] == rest[i - |piece|]; }
      }
      forall i | 0 <= i < |t| && t[i] == '&' ensures EntityAt(t, i) {
        if i < |piece| {
          assert i == 0 && Special(s[0]);
          assert t[i..][..|piece|] == piece;
        } else {
          assert t[i..] == rest[i - |piece|..];
        }
      }
    }
  }

  /** The escaped text is attribute-safe. */
  lemma EscapeSafe(s: string)
    ensures AttributeSafe(Escape(s))
  {
    EscapeIsPerChar(s);
    EscapeEachSafe(s);
  }

  lemma Differs(t: string, p: string, k: nat)
    requires k < |p| && k < |t| && t[k] != p[k]
    ensures !StartsWith(t, p)
  {
    if |p| <= |t| { assert t[..|p|][k] == t[k]; }
  }

  lemma UnescapePiece(c: char, rest: string)
    ensures Unescape(EscapeChar(c) + rest) == [c] + Unescape(rest)
  {
    var piece := EscapeChar(c);
    var t := piece + rest;
    assert t[|piece|..] == rest;
    assert t[..|piece|] == piece;
    assert t[0] == piece[0];
    if Special(c) {
      assert t[1] == piece[1];
      if c != '&' { Differs(t, "&amp;", 1); }
      if c != '&' && c != '<' { Differs(t, "&lt;", 1); }
      if c != '&' && c != '<' && c != '>' { Differs(t, "&gt;", 1); }
      if c == '\'' { Differs(t, "&quot;", 1); }
    }
  }

  lemma {:induction false} UnescapeEach(s: string)
    ensures Unescape(EscapeEach(s)) == s
  {
    if s != [] {
      UnescapePiece(s[0], EscapeEach(s[1..]));
      UnescapeEach(s[1..]);
      assert [s[0]] + s[1..] == s;
    }
  }

  /** The escaped key determines the original: unescaping gives it back. */
  lemma UnescapeEscape(s: string)
    ensures Unescape(Escape(s)) == s
  {
    EscapeIsPerChar(s);
    UnescapeEach(s);
  }
}
