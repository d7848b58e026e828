/**
 * Go's `html.EscapeString`: replaces `&`, `'`, `<`, `>` and `"` by `&amp;`, `&#39;`,
 * `&lt;`, `&gt;` and `&#34;`, and leaves every other character alone. `Unescape` decodes
 * exactly those five entities and is the partner of `Escape`.
 */
module Html {
  import opened Basics

  /** A character that `html.EscapeString` rewrites. */
  predicate Special(c: char) {
    c == '&' || c == '\'' || c == '<' || c == '>' || c == '"'
  }

  function EscapeChar(c: char): string {
    if c == '&' then "&amp;"
    else if c == '\'' then "&#39;"
    else if c == '<' then "&lt;"
    else if c == '>' then "&gt;"
    else if c == '"' then "&#34;"
    else [c]
  }

  /** `html.EscapeString`. */
  function Escape(s: string): (r: string)
    ensures |r| >= |s|
    ensures r == [] <==> s == []
  {
    if s == [] then [] else EscapeChar(s[0]) + Escape(s[1..])
  }

  /** Decodes the five entities `Escape` produces; any other `&` stands for itself. */
  function Unescape(t: string): string
    decreases |t|
  {
    if t == [] then []
    else if t[0] != '&' then [t[0]] + Unescape(t[1..])
    else if |t| >= 5 && t[..5] == "&amp;" then "&" + Unescape(t[5..])
    else if |t| >= 5 && t[..5] == "&#39;" then "'" + Unescape(t[5..])
    else if |t| >= 4 && t[..4] == "&lt;" then "<" + Unescape(t[4..])
    else if |t| >= 4 && t[..4] == "&gt;" then ">" + Unescape(t[4..])
    else if |t| >= 5 && t[..5] == "&#34;" then "\"" + Unescape(t[5..])
    else "&" + Unescape(t[1..])
  }

  lemma UnescapeEntity(c: char, rest: string)
    ensures Unescape(EscapeChar(c) + rest) == [c] + Unescape(rest)
  {
    var t := EscapeChar(c) + rest;
    var e := EscapeChar(c);
    assert t[..|e|] == e && t[|e|..] == rest;
    if !Special(c) {
      assert t[0] == c && t[1..] == rest;
    } else {
      assert t[0] == '&';
      if c == '&' {
        assert t[..5] == "&amp;";
      } else if c == '\'' {
        assert t[1] == '#' && t[..5] == "&#39;";
      } else if c == '<' {
        assert t[1] == 'l' && t[..4] == "&lt;";
      } else if c == '>' {
        assert t[1] == 'g' && t[..4] == "&gt;";
      } else {
        assert t[1] == '#' && t[3] == '4' && t[..5] == "&#34;";
      }
    }
  }

  /** Round trip: unescaping an escaped string gives the string back. */
  lemma {:induction false} UnescapeEscape(s: string)
    ensures Unescape(Escape(s)) == s
  {
    if s != [] {
      UnescapeEscape(s[1..]);
      UnescapeEntity(s[0], Escape(s[1..]));
    }
  }

  /** Escaping is injective, so distinct texts render distinctly. */
  lemma EscapeInjective(a: string, b: string)
    requires Escape(a) == Escape(b)
    ensures a == b
  {
    UnescapeEscape(a);
    UnescapeEscape(b);
  }

  /** No markup-significant character other than `&` survives escaping, and `&` only as an entity. */
  lemma {:induction false} EscapeNoMarkup(s: string)
    ensures forall i :: 0 <= i < |Escape(s)| ==> Escape(s)[i] !in "<>'\""
  {
    if s != [] {
      EscapeNoMarkup(s[1..]);
      var e := EscapeChar(s[0]);
      assert forall i :: 0 <= i < |e| ==> e[i] !in "<>'\"";
      assert Escape(s) == e + Escape(s[1..]);
    }
  }

  /** No `<` appears in an escaped string, so escaped text cannot open a tag. */
  lemma EscapeNoTagOpen(s: string)
    ensures Count('<', Escape(s)) == 0
  {
    EscapeNoMarkup(s);
  }
}
