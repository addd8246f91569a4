/** `escHtml`: the entity escaping applied to every user-entered field before it is placed in markup. */
module Html {

  import opened Text

  /** One character as it appears in escaped text. */
  function EscapeChar(c: char): string
  {
    if c == '&' then "&amp;"
    else if c == '<' then "&lt;"
    else if c == '>' then "&gt;"
    else if c == '"' then "&quot;"
    else if c == '\'' then "&#39;"
    else [c]
  }

  /** No character that could open a tag or close an attribute value. */
  predicate NoRawMarkup(s: string)
  {
    forall i :: 0 <= i < |s| ==> s[i] != '<' && s[i] != '>' && s[i] != '"' && s[i] != '\''
  }

  /** Every character escaped on its own, left to right. */
  function EscHtml(s: string): (r: string)
    ensures NoRawMarkup(r)
    ensures |r| >= |s|
  {
    if s == [] then "" else EscapeChar(s[0]) + EscHtml(s[1..])
  }

  /** `String.prototype.replace` with a global pattern matching the single character `c`. */
  function ReplaceAll(s: string, c: char, rep: string): (r: string)
    ensures |rep| >= 1 ==> |r| >= |s|
    ensures forall x :: x in r ==> (x in s && x != c) || x in rep
  {
    if s == [] then ""
    else
      var rest := ReplaceAll(s[1..], c, rep);
      var head := if s[0] == c then rep else [s[0]];
      assert forall x :: x in head + rest ==> x in head || x in rest;
      head + rest
  }

  /** `escHtml` as written: five global replacements, `&` first; no raw markup character
      survives them. */
  function EscHtmlAsWritten(s: string): (r: string)
    ensures NoRawMarkup(r)
    ensures |r| >= |s|
  {
    var a := ReplaceAll(s, '&', "&amp;");
    var b := ReplaceAll(a, '<', "&lt;");
    var c := ReplaceAll(b, '>', "&gt;");
    var d := ReplaceAll(c, '"', "&quot;");
    var e := ReplaceAll(d, '\'', "&#39;");
    assert '<' !in b;
    assert '<' !in c && '>' !in c;
    assert '<' !in d && '>' !in d && '"' !in d;
    assert '<' !in e && '>' !in e && '"' !in e && '\'' !in e;
    e
  }

  lemma {:induction false} ReplaceAllAppend(s: string, t: string, c: char, rep: string)
    ensures ReplaceAll(s + t, c, rep) == ReplaceAll(s, c, rep) + ReplaceAll(t, c, rep)
  {
    if s == [] {
      assert s + t == t;
    } else {
      assert (s + t)[1..] == s[1..] + t;
      ReplaceAllAppend(s[1..], t, c, rep);
    }
  }

  lemma {:induction false} ReplaceAllAbsent(s: string, c: char, rep: string)
    requires c !in s
    ensures ReplaceAll(s, c, rep) == s
  {
    if s != [] {
      ReplaceAllAbsent(s[1..], c, rep);
    }
  }

  lemma {:induction false} AsWrittenAppend(s: string, t: string)
    ensures EscHtmlAsWritten(s + t) == EscHtmlAsWritten(s) + EscHtmlAsWritten(t)
  {
    var a1, a2 := ReplaceAll(s, '&', "&amp;"), ReplaceAll(t, '&', "&amp;");
    ReplaceAllAppend(s, t, '&', "&amp;");
    var b1, b2 := ReplaceAll(a1, '<', "&lt;"), ReplaceAll(a2, '<', "&lt;");
    ReplaceAllAppend(a1, a2, '<', "&lt;");
    var c1, c2 := ReplaceAll(b1, '>', "&gt;"), ReplaceAll(b2, '>', "&gt;");
    ReplaceAllAppend(b1, b2, '>', "&gt;");
    var d1, d2 := ReplaceAll(c1, '"', "&quot;"), ReplaceAll(c2, '"', "&quot;");
    ReplaceAllAppend(c1, c2, '"', "&quot;");
    ReplaceAllAppend(d1, d2, '\'', "&#39;");
  }

  lemma ReplaceAllOne(c: char, x: char, rep: string)
    ensures ReplaceAll([c], x, rep) == if c == x then rep else [c]
  {
    assert [c][1..] == [];
  }

  /** An entity written by one pass contains none of the characters the later passes replace. */
  lemma AmpStages(a: string, b: string, g: string, q: string)
    requires a == "&amp;"
    requires b == ReplaceAll(a, '<', "&lt;") && g == ReplaceAll(b, '>', "&gt;") && q == ReplaceAll(g, '"', "&quot;")
    ensures ReplaceAll(q, '\'', "&#39;") == "&amp;"
  {
    ReplaceAllAbsent(a, '<', "&lt;");
    assert b == a;
    ReplaceAllAbsent(a, '>', "&gt;");
    assert g == a;
    ReplaceAllAbsent(a, '"', "&quot;");
    assert q == a;
    ReplaceAllAbsent(a, '\'', "&#39;");
  }

  lemma LtStages(b: string, g: string, q: string)
    requires b == "&lt;"
    requires g == ReplaceAll(b, '>', "&gt;") && q == ReplaceAll(g, '"', "&quot;")
    ensures ReplaceAll(q, '\'', "&#39;") == "&lt;"
  {
    ReplaceAllAbsent(b, '>', "&gt;");
    assert g == b;
    ReplaceAllAbsent(b, '"', "&quot;");
    assert q == b;
    ReplaceAllAbsent(b, '\'', "&#39;");
  }

  lemma GtStages(g: string, q: string)
    requires g == "&gt;"
    requires q == ReplaceAll(g, '"', "&quot;")
    ensures ReplaceAll(q, '\'', "&#39;") == "&gt;"
  {
    ReplaceAllAbsent(g, '"', "&quot;");
    assert q == g;
    ReplaceAllAbsent(g, '\'', "&#39;");
  }

  lemma QuotStages(q: string)
    requires q == "&quot;"
    ensures ReplaceAll(q, '\'', "&#39;") == "&quot;"
  {
    ReplaceAllAbsent(q, '\'', "&#39;");
  }

  /** The five passes never touch the entities written by an earlier pass. */
  lemma AsWrittenOneChar(c: char)
    ensures EscHtmlAsWritten([c]) == EscapeChar(c)
  {
    var a := ReplaceAll([c], '&', "&amp;");
    var b := ReplaceAll(a, '<', "&lt;");
    var g := ReplaceAll(b, '>', "&gt;");
    var q := ReplaceAll(g, '"', "&quot;");
    assert EscHtmlAsWritten([c]) == ReplaceAll(q, '\'', "&#39;");
    ReplaceAllOne(c, '&', "&amp;");
    if c == '&' {
      AmpStages(a, b, g, q);
    } else {
      assert a == [c];
      ReplaceAllOne(c, '<', "&lt;");
      if c == '<' {
        LtStages(b, g, q);
      } else {
        assert b == [c];
        ReplaceAllOne(c, '>', "&gt;");
        if c == '>' {
          GtStages(g, q);
        } else {
          assert g == [c];
          ReplaceAllOne(c, '"', "&quot;");
          if c == '"' {
            QuotStages(q);
          } else {
            assert q == [c];
            ReplaceAllOne(c, '\'', "&#39;");
          }
        }
      }
    }
  }

  /** The chain of replacements in the source equals escaping each character on its own,
      which is what makes the order `&` first matter: no entity is escaped twice. */
  lemma {:induction false} AsWrittenIsEscHtml(s: string)
    ensures EscHtmlAsWritten(s) == EscHtml(s)
  {
    if s != [] {
      assert s == [s[0]] + s[1..];
      AsWrittenAppend([s[0]], s[1..]);
      AsWrittenOneChar(s[0]);
      AsWrittenIsEscHtml(s[1..]);
    }
  }

  /** How a browser reads escaped text back: the five entities become their characters. */
  function Unescape(s: string): string
  {
    if s == [] then ""
    else if s[0] != '&' then [s[0]] + Unescape(s[1..])
    else if IsPrefix("&amp;", s) then "&" + Unescape(s[5..])
    else if IsPrefix("&lt;", s) then "<" + Unescape(s[4..])
    else if IsPrefix("&gt;", s) then ">" + Unescape(s[4..])
    else if IsPrefix("&quot;", s) then "\"" + Unescape(s[6..])
    else if IsPrefix("&#39;", s) then "'" + Unescape(s[5..])
    else "&" + Unescape(s[1..])
  }

  /** Reading back an entity followed by more text yields its character. */
  lemma UnescapeEntity(e: string, c: char, rest: string)
    requires (e, c) in {("&amp;", '&'), ("&lt;", '<'), ("&gt;", '>'), ("&quot;", '"'), ("&#39;", '\'')}
    ensures Unescape(e + rest) == [c] + Unescape(rest)
  {
    var t := e + rest;
    assert t[..|e|] == e && t[|e|..] == rest;
    assert t[0] == '&';
    if c != '&' {
      assert t[1] == e[1];
    }
  }

  /** Reading back one escaped character yields that character. */
  lemma UnescapeCons(c: char, rest: string)
    ensures Unescape(EscapeChar(c) + rest) == [c] + Unescape(rest)
  {
    if c == '&' || c == '<' || c == '>' || c == '"' || c == '\'' {
      UnescapeEntity(EscapeChar(c), c, rest);
    } else {
      var t := [c] + rest;
      assert t[0] == c && t[1..] == rest;
    }
  }

  /** Escaping loses nothing: the displayed text is exactly the text that was entered. */
  lemma {:induction false} UnescapeEscHtml(s: string)
    ensures Unescape(EscHtml(s)) == s
  {
    if s != [] {
      UnescapeCons(s[0], EscHtml(s[1..]));
      UnescapeEscHtml(s[1..]);
      assert s == [s[0]] + s[1..];
    }
  }
}
