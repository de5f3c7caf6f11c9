/** The two markup escapers and the dashboard's topology label wrapper. */
module Markup {
  import opened Text

  // ----- Escaping -----

  /** Global replacement of one character. */
  function Replace(s: string, c: char, sub: string): string {
    if s == "" then "" else (if s[0] == c then sub else [s[0]]) + Replace(s[1..], c, sub)
  }

  /** _escape_xml. */
  function EscapeXml(s: string): string {
    Replace(Replace(Replace(s, '&', "&amp;"), '<', "&lt;"), '>', "&gt;")
  }

  /** escapeHtml on a string. */
  function EscapeHtml(s: string): string {
    Replace(Replace(EscapeXml(s), '"', "&quot;"), '\'', "&#039;")
  }

  /** What one character becomes when the entities of the given markup characters are applied at once. */
  function Entity(c: char, markup: set<char>): string {
    if c !in markup then [c]
    else if c == '&' then "&amp;"
    else if c == '<' then "&lt;"
    else if c == '>' then "&gt;"
    else if c == '"' then "&quot;"
    else if c == '\'' then "&#039;"
    else [c]
  }

  function SinglePass(s: string, markup: set<char>): string {
    if s == "" then "" else Entity(s[0], markup) + SinglePass(s[1..], markup)
  }

  const XML_MARKUP := {'&', '<', '>'}
  const HTML_MARKUP := {'&', '<', '>', '"', '\''}

  lemma {:induction false} ReplaceConcat(a: string, b: string, c: char, sub: string)
    ensures Replace(a + b, c, sub) == Replace(a, c, sub) + Replace(b, c, sub)
  {
    if a == "" {
      assert a + b == b;
    } else {
      assert (a + b)[1..] == a[1..] + b;
      ReplaceConcat(a[1..], b, c, sub);
    }
  }

  lemma {:induction false} ReplaceAbsent(s: string, c: char, sub: string)
    requires c !in s
    ensures Replace(s, c, sub) == s
  {
    if s != "" { ReplaceAbsent(s[1..], c, sub); }
  }

  /** Entities contain no other markup character than their ampersand. */
  lemma EntityIsPlain(x: char, c: char, markup: set<char>)
    requires markup <= HTML_MARKUP && c in {'<', '>', '"', '\''} && c !in markup
    ensures x != c ==> c !in Entity(x, markup)
    ensures Replace(Entity(x, markup), c, Entity(c, markup + {c})) == Entity(x, markup + {c})
  {
    var sub := Entity(c, markup + {c});
    if x == c {
      assert Entity(x, markup) == [c] && [c][1..] == "";
    } else {
      assert c !in Entity(x, markup);
      ReplaceAbsent(Entity(x, markup), c, sub);
    }
  }

  /** Replacing one more character extends the single pass by it. */
  lemma {:induction false} OneMoreReplacement(s: string, c: char, markup: set<char>)
    requires markup <= HTML_MARKUP && c in {'<', '>', '"', '\''} && c !in markup
    ensures Replace(SinglePass(s, markup), c, Entity(c, markup + {c})) == SinglePass(s, markup + {c})
  {
    if s != "" {
      var sub := Entity(c, markup + {c});
      ReplaceConcat(Entity(s[0], markup), SinglePass(s[1..], markup), c, sub);
      EntityIsPlain(s[0], c, markup);
      OneMoreReplacement(s[1..], c, markup);
    }
  }

  lemma {:induction false} AmpersandFirst(s: string)
    ensures Replace(s, '&', "&amp;") == SinglePass(s, {'&'})
  {
    if s != "" { AmpersandFirst(s[1..]); }
  }

  /** The chained replacements of both escapers equal one pass over the characters. */
  lemma EscapersAreSinglePass(s: string)
    ensures EscapeXml(s) == SinglePass(s, XML_MARKUP)
    ensures EscapeHtml(s) == SinglePass(s, HTML_MARKUP)
  {
    AmpersandFirst(s);
    OneMoreReplacement(s, '<', {'&'});
    OneMoreReplacement(s, '>', {'&'} + {'<'});
    assert {'&'} + {'<'} + {'>'} == XML_MARKUP;
    OneMoreReplacement(s, '"', XML_MARKUP);
    OneMoreReplacement(s, '\'', XML_MARKUP + {'"'});
    assert XML_MARKUP + {'"'} + {'\''} == HTML_MARKUP;
  }

  /** Decode the five entities. */
  function Unescape(s: string): string
    decreases |s|
  {
    if s == "" then ""
    else if "&amp;" <= s then "&" + Unescape(s[5..])
    else if "&lt;" <= s then "<" + Unescape(s[4..])
    else if "&gt;" <= s then ">" + Unescape(s[4..])
    else if "&quot;" <= s then "\"" + Unescape(s[6..])
    else if "&#039;" <= s then "'" + Unescape(s[6..])
    else [s[0]] + Unescape(s[1..])
  }

  lemma UnescapeEntity(c: char, markup: set<char>, rest: string)
    requires markup <= HTML_MARKUP && '&' in markup
    ensures Unescape(Entity(c, markup) + rest) == [c] + Unescape(rest)
  {
    var e := Entity(c, markup);
    var s := e + rest;
    assert s[|e|..] == rest && e <= s && forall i :: 0 <= i < |e| ==> s[i] == e[i];
    var at := if e == [c] then 0 else 1;
    if c != '&' { NotPrefix("&amp;", s, at); }
    if c !in {'&', '<'} { NotPrefix("&lt;", s, at); }
    if c !in {'&', '<', '>'} { NotPrefix("&gt;", s, at); }
    if c !in {'&', '<', '>', '"'} { NotPrefix("&quot;", s, at); }
    if e == [c] { NotPrefix("&lt;", s, 0); NotPrefix("&gt;", s, 0); NotPrefix("&quot;", s, 0); NotPrefix("&#039;", s, 0); }
  }

  lemma NotPrefix(p: string, s: string, i: nat)
    requires i < |p| && i < |s| && p[i] != s[i]
    ensures !(p <= s)
  {
  }

  lemma {:induction false} NoRawMarkup(s: string, markup: set<char>, c: char)
    requires markup <= HTML_MARKUP && c in markup && c != '&'
    ensures c !in SinglePass(s, markup)
  {
    if s != "" {
      NoRawMarkup(s[1..], markup, c);
      assert c !in Entity(s[0], markup);
    }
  }

  predicate StartsEntity(s: string) { "&amp;" <= s || "&lt;" <= s || "&gt;" <= s || "&quot;" <= s || "&#039;" <= s }

  /** Every ampersand in escaped text begins an entity. */
  lemma {:induction false} AmpersandsStartEntities(s: string, markup: set<char>, i: nat)
    requires markup <= HTML_MARKUP && '&' in markup
    requires i < |SinglePass(s, markup)| && SinglePass(s, markup)[i] == '&'
    ensures StartsEntity(SinglePass(s, markup)[i..])
  {
    var e, rest := Entity(s[0], markup), SinglePass(s[1..], markup);
    if i < |e| {
      assert i == 0 && StartsEntity(e);
      assert (e + rest)[..|e|] == e && (e + rest)[0..] == e + rest;
    } else {
      assert (e + rest)[i..] == rest[i - |e|..];
      AmpersandsStartEntities(s[1..], markup, i - |e|);
    }
  }

  /** Unescaping undoes escaping. */
  lemma {:induction false} EscapingIsInvertible(s: string, markup: set<char>)
    requires markup <= HTML_MARKUP && '&' in markup
    ensures Unescape(SinglePass(s, markup)) == s
  {
    if s != "" {
      EscapingIsInvertible(s[1..], markup);
      UnescapeEntity(s[0], markup, SinglePass(s[1..], markup));
    }
  }

  /** Both escapers can be undone, and their output holds none of the characters they target raw. */
  lemma EscapersAreSafe(s: string)
    ensures Unescape(EscapeXml(s)) == s && '<' !in EscapeXml(s) && '>' !in EscapeXml(s)
    ensures Unescape(EscapeHtml(s)) == s
    ensures forall c :: c in {'<', '>', '"', '\''} ==> c !in EscapeHtml(s)
    ensures forall i :: 0 <= i < |EscapeXml(s)| && EscapeXml(s)[i] == '&' ==> StartsEntity(EscapeXml(s)[i..])
    ensures forall i :: 0 <= i < |EscapeHtml(s)| && EscapeHtml(s)[i] == '&' ==> StartsEntity(EscapeHtml(s)[i..])
  {
    EscapersAreSinglePass(s);
    EscapingIsInvertible(s, XML_MARKUP);
    EscapingIsInvertible(s, HTML_MARKUP);
    forall i | 0 <= i < |EscapeXml(s)| && EscapeXml(s)[i] == '&' ensures StartsEntity(EscapeXml(s)[i..]) {
      AmpersandsStartEntities(s, XML_MARKUP, i);
    }
    forall i | 0 <= i < |EscapeHtml(s)| && EscapeHtml(s)[i] == '&' ensures StartsEntity(EscapeHtml(s)[i..]) {
      AmpersandsStartEntities(s, HTML_MARKUP, i);
    }
    NoRawMarkup(s, XML_MARKUP, '<');
    NoRawMarkup(s, XML_MARKUP, '>');
    forall c | c in {'<', '>', '"', '\''} ensures c !in EscapeHtml(s) { NoRawMarkup(s, HTML_MARKUP, c); }
  }

  // ----- Label wrapping -----

  /** White space as String.prototype.trim sees it. */
  predicate JsSpace(c: char) {
    || '\U{0009}' <= c <= '\U{000D}' || c == ' ' || c == '\U{00A0}' || c == '\U{1680}'
    || '\U{2000}' <= c <= '\U{200A}' || c == '\U{2028}' || c == '\U{2029}' || c == '\U{202F}'
    || c == '\U{205F}' || c == '\U{3000}' || c == '\U{FEFF}'
  }

  function Visible(s: string): string {
    if s == "" then "" else (if JsSpace(s[0]) then "" else [s[0]]) + Visible(s[1..])
  }

  function AllVisible(lines: seq<string>): string {
    if lines == [] then "" else Visible(lines[0]) + AllVisible(lines[1..])
  }

  lemma {:induction false} VisibleConcat(a: string, b: string)
    ensures Visible(a + b) == Visible(a) + Visible(b)
  {
    if a == "" {
      assert a + b == b;
    } else {
      assert (a + b)[1..] == a[1..] + b;
      VisibleConcat(a[1..], b);
    }
  }

  lemma {:induction false} AllVisibleAppend(lines: seq<string>, line: string)
    ensures AllVisible(lines + [line]) == AllVisible(lines) + Visible(line)
  {
    if lines == [] {
      assert [line][1..] == [];
    } else {
      assert (lines + [line])[1..] == lines[1..] + [line];
      AllVisibleAppend(lines[1..], line);
    }
  }

  function TrimLeft(s: string): (r: string)
    ensures |r| <= |s|
  {
    if s != "" && JsSpace(s[0]) then TrimLeft(s[1..]) else s
  }

  function TrimRight(s: string): (r: string)
    ensures |r| <= |s|
  {
    if s != "" && JsSpace(s[|s| - 1]) then TrimRight(s[..|s| - 1]) else s
  }

  function Trim(s: string): (r: string)
    ensures |r| <= |s|
  {
    TrimRight(TrimLeft(s))
  }

  lemma {:induction false} TrimLeftIsVisible(s: string)
    ensures Visible(TrimLeft(s)) == Visible(s)
  {
    if s != "" && JsSpace(s[0]) { TrimLeftIsVisible(s[1..]); }
  }

  lemma {:induction false} TrimRightIsVisible(s: string)
    ensures Visible(TrimRight(s)) == Visible(s)
  {
    if s != "" && JsSpace(s[|s| - 1]) {
      var a, b := s[..|s| - 1], s[|s| - 1..];
      assert s == a + b;
      VisibleConcat(a, b);
      TrimRightIsVisible(a);
      assert b[1..] == "";
    }
  }

  /** rest.lastIndexOf(' ', from), or -1. */
  function LastBlank(s: string, from: int): (i: int)
    requires -1 <= from < |s|
    ensures -1 <= i <= from && (i >= 0 ==> s[i] == ' ')
    ensures forall j :: i < j <= from ==> s[j] != ' '
    decreases from + 1
  {
    if from < 0 then -1 else if s[from] == ' ' then from else LastBlank(s, from - 1)
  }

  const LINE := 22

  /** The cut is before the last blank of the first 23 characters when that leaves 8 or more, and at 22 otherwise. */
  predicate CutAt(rest: string, cut: nat) {
    && LINE < |rest| && 8 <= cut <= LINE && (rest[cut] == ' ' || cut == LINE)
    && forall j :: (if rest[cut] == ' ' then cut else 7) < j <= LINE ==> rest[j] != ' '
  }

  /** What is left after each of the cut lines, beginning with the whole text. */
  ghost predicate Cuts(text: string, lines: seq<string>, rests: seq<string>) {
    && |rests| == |lines| + 1 && rests[0] == text
    && forall i :: 0 <= i < |lines| ==>
      && CutAt(rests[i], |lines[i]|) && lines[i] == rests[i][..|lines[i]|] && rests[i + 1] == Trim(rests[i][|lines[i]|..])
  }

  lemma OneMoreCut(text: string, lines: seq<string>, rests: seq<string>, cut: nat)
    requires Cuts(text, lines, rests) && CutAt(rests[|lines|], cut)
    ensures Cuts(text, lines + [rests[|lines|][..cut]], rests + [Trim(rests[|lines|][cut..])])
  {
  }

  /** topologyTextLines: up to three cut lines, then what is left. */
  method WrapLabel(text: string) returns (lines: seq<string>, ghost cuts: seq<string>, ghost rests: seq<string>)
    ensures Cuts(text, cuts, rests) && |cuts| <= 3 && (|cuts| == 3 || |rests[|cuts|]| <= LINE)
    ensures lines == cuts + (if rests[|cuts|] == "" then [] else [rests[|cuts|]])
    ensures |lines| <= 4
    ensures forall i :: 0 <= i < |lines| && i < 3 ==> |lines[i]| <= LINE
    ensures forall i :: 0 <= i < |lines| - 1 ==> |lines[i]| >= 8
    ensures AllVisible(lines) == Visible(text)
  {
    lines, rests := [], [text];
    var rest := text;
    while |rest| > LINE && |lines| < 3
      invariant |lines| <= 3 && Cuts(text, lines, rests) && rests[|lines|] == rest
      invariant AllVisible(lines) + Visible(rest) == Visible(text)
      decreases 3 - |lines|
    {
      var cut := LastBlank(rest, LINE);
      if cut < 8 { cut := LINE; }
      CutKeepsVisible(lines, rest, cut);
      OneMoreCut(text, lines, rests, cut);
      lines, rests := lines + [rest[..cut]], rests + [Trim(rest[cut..])];
      rest := Trim(rest[cut..]);
    }
    cuts := lines;
    if rest != "" {
      AllVisibleAppend(lines, rest);
      lines := lines + [rest];
    }
  }

  /** Trimming takes white space from both ends, and leaves none at either. */
  lemma TrimIs(s: string) returns (a: string, b: string)
    ensures s == a + Trim(s) + b && forall c :: c in a + b ==> JsSpace(c)
    ensures Trim(s) == "" || (!JsSpace(Trim(s)[0]) && !JsSpace(Trim(s)[|Trim(s)| - 1]))
  {
    a := TrimLeftIs(s);
    b := TrimRightIs(TrimLeft(s));
    assert Trim(s) <= TrimLeft(s);
  }

  lemma {:induction false} TrimLeftIs(s: string) returns (a: string)
    ensures s == a + TrimLeft(s) && (forall c :: c in a ==> JsSpace(c)) && (TrimLeft(s) == "" || !JsSpace(TrimLeft(s)[0]))
  {
    a := "";
    if s != "" && JsSpace(s[0]) {
      var more := TrimLeftIs(s[1..]);
      a := [s[0]] + more;
    }
  }

  lemma {:induction false} TrimRightIs(s: string) returns (b: string)
    ensures s == TrimRight(s) + b && forall c :: c in b ==> JsSpace(c)
    ensures TrimRight(s) == "" || !JsSpace(TrimRight(s)[|TrimRight(s)| - 1])
  {
    b := "";
    if s != "" && JsSpace(s[|s| - 1]) {
      var less := TrimRightIs(s[..|s| - 1]);
      b := less + [s[|s| - 1]];
    }
  }

  lemma CutKeepsVisible(lines: seq<string>, rest: string, cut: nat)
    requires cut <= |rest|
    ensures AllVisible(lines + [rest[..cut]]) + Visible(Trim(rest[cut..])) == AllVisible(lines) + Visible(rest)
  {
    var line, after := rest[..cut], rest[cut..];
    CutIsVisible(rest, cut);
    TrimIsVisible(after);
    AllVisibleAppend(lines, line);
    Regroup(AllVisible(lines), Visible(line), Visible(after));
  }

  lemma CutIsVisible(rest: string, cut: nat)
    requires cut <= |rest|
    ensures Visible(rest) == Visible(rest[..cut]) + Visible(rest[cut..])
  {
    assert rest == rest[..cut] + rest[cut..];
    VisibleConcat(rest[..cut], rest[cut..]);
  }

  lemma TrimIsVisible(s: string)
    ensures Visible(Trim(s)) == Visible(s)
  {
    TrimLeftIsVisible(s);
    TrimRightIsVisible(TrimLeft(s));
  }
}
