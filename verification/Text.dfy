/** Strings as the Python and JavaScript sources use them. */
module Text {
  datatype Option<+T> = None | Some(value: T)

  /** `needle in hay` on Python strings. */
  predicate Contains(hay: string, needle: string) {
    exists i :: 0 <= i <= |hay| && OccursAt(hay, needle, i)
  }

  predicate OccursAt(hay: string, needle: string, i: nat) {
    i + |needle| <= |hay| && hay[i..i + |needle|] == needle
  }

  lemma ContainsMiddle(a: string, needle: string, b: string)
    ensures Contains(a + needle + b, needle)
  {
    var hay := a + needle + b;
    assert OccursAt(hay, needle, |a|);
  }

  /** `sep.join(parts)`. */
  function Join(sep: string, parts: seq<string>): string {
    if |parts| == 0 then ""
    else if |parts| == 1 then parts[0]
    else parts[0] + sep + Join(sep, parts[1..])
  }

  /** ASCII part of `str.lower`. */
  function LowerChar(c: char): char {
    if 'A' <= c <= 'Z' then c - 'A' + 'a' else c
  }

  function Lower(s: string): (r: string)
    ensures |r| == |s|
    ensures forall i :: 0 <= i < |s| ==> r[i] == LowerChar(s[i])
  {
    seq(|s|, i requires 0 <= i < |s| => LowerChar(s[i]))
  }

  /** Whether c matches the lower-case letter or other character p under re.IGNORECASE: besides its two cases,
      the Kelvin sign matches k, the long s matches s, and the dotted capital and dotless small i match i. */
  predicate FoldsTo(c: char, p: char) {
    || LowerChar(c) == p || (c == '\U{212A}' && p == 'k') || (c == '\U{017F}' && p == 's')
    || (c in {'\U{0130}', '\U{0131}'} && p == 'i')
  }

  predicate OccursFolded(hay: string, needle: string, i: nat) {
    i + |needle| <= |hay| && forall k :: 0 <= k < |needle| ==> FoldsTo(hay[i + k], needle[k])
  }

  lemma LowerConcat(a: string, b: string)
    ensures Lower(a + b) == Lower(a) + Lower(b)
  {
  }

  /** `text.split(sep)[-1]` for a one-character separator. */
  function AfterLast(s: string, sep: char): string
    decreases |s|
  {
    if sep in s then
      AfterLast(s[1..], sep)
    else s
  }

  function Take(s: string, n: nat): string {
    if |s| <= n then s else s[..n]
  }

  /** White space as `str.strip` sees it. */
  predicate PythonSpace(c: char) {
    || '\U{0009}' <= c <= '\U{000D}' || '\U{001C}' <= c <= '\U{0020}' || c == '\U{0085}' || c == '\U{00A0}'
    || c == '\U{1680}' || '\U{2000}' <= c <= '\U{200A}' || c == '\U{2028}' || c == '\U{2029}'
    || c == '\U{202F}' || c == '\U{205F}' || c == '\U{3000}'
  }

  function StripLeft(s: string): (r: string)
    ensures r != "" ==> !PythonSpace(r[0])
  {
    if s != "" && PythonSpace(s[0]) then StripLeft(s[1..]) else s
  }

  /** `s.strip()`. */
  function Strip(s: string): (r: string)
    ensures r != "" ==> !PythonSpace(r[|r| - 1])
    ensures StripLeft(s) == "" <==> r == ""
    decreases |s|
  {
    StripRight(StripLeft(s))
  }

  function StripRight(s: string): (r: string)
    ensures r != "" ==> !PythonSpace(r[|r| - 1])
    ensures r <= s
    ensures s != "" && !PythonSpace(s[0]) ==> r != ""
  {
    if s != "" && PythonSpace(s[|s| - 1]) then StripRight(s[..|s| - 1]) else s
  }

  // ----- Sorting strings by code point -----

  predicate Before(a: string, b: string)
    decreases |a|
  {
    b != "" && (a == "" || a[0] < b[0] || (a[0] == b[0] && Before(a[1..], b[1..])))
  }

  lemma {:induction false} BeforeIsTotal(a: string, b: string)
    ensures a == b || Before(a, b) || Before(b, a)
    ensures !(Before(a, b) && Before(b, a)) && !Before(a, a)
    decreases |a|
  {
    if a != "" {
      BeforeIsTotal(a[1..], a[1..]);
      if b != "" && a[0] == b[0] {
        BeforeIsTotal(a[1..], b[1..]);
        assert a == [a[0]] + a[1..] && b == [b[0]] + b[1..];
      }
    }
  }

  lemma {:induction false} BeforeIsTransitive(a: string, b: string, c: string)
    requires Before(a, b) && Before(b, c)
    ensures Before(a, c)
    decreases |a|
  {
    if a != "" && a[0] == b[0] && b[0] == c[0] {
      BeforeIsTransitive(a[1..], b[1..], c[1..]);
    }
  }

  ghost predicate StrictlySorted(s: seq<string>) {
    forall i, j :: 0 <= i < j < |s| ==> Before(s[i], s[j])
  }

  function Insert(x: string, s: seq<string>): (r: seq<string>)
    ensures forall y :: y in r <==> y == x || y in s
  {
    if s == [] || Before(x, s[0]) then [x] + s
    else if x == s[0] then s
    else
      assert s == [s[0]] + s[1..];
      [s[0]] + Insert(x, s[1..])
  }

  /** `sorted(set(s))`. */
  function SortedSet(s: seq<string>): (r: seq<string>)
    ensures forall y :: y in r <==> y in s
  {
    if s == [] then [] else
      assert s == [s[0]] + s[1..];
      Insert(s[0], SortedSet(s[1..]))
  }

  lemma {:induction false} InsertKeepsOrder(x: string, s: seq<string>)
    requires StrictlySorted(s)
    ensures StrictlySorted(Insert(x, s))
  {
    var r := Insert(x, s);
    if s != [] && !Before(x, s[0]) && x != s[0] {
      var rest := Insert(x, s[1..]);
      InsertKeepsOrder(x, s[1..]);
      BeforeIsTotal(x, s[0]);
      forall j | 0 < j < |r| ensures Before(r[0], r[j]) {
        assert rest[j - 1] in rest;
        if rest[j - 1] != x {
          var k :| 0 <= k < |s[1..]| && s[1..][k] == rest[j - 1];
          assert Before(s[0], s[k + 1]);
        }
      }
    } else if s != [] && Before(x, s[0]) {
      forall j | 0 < j < |r| ensures Before(r[0], r[j]) {
        if j > 1 { BeforeIsTransitive(x, s[0], s[j - 1]); }
      }
    }
  }

  lemma {:induction false} SortedSetIsSorted(s: seq<string>)
    ensures StrictlySorted(SortedSet(s))
  {
    if s != [] {
      SortedSetIsSorted(s[1..]);
      InsertKeepsOrder(s[0], SortedSet(s[1..]));
    }
  }

  lemma Regroup<T>(a: seq<T>, b: seq<T>, c: seq<T>)
    ensures (a + b) + c == a + (b + c)
  {
  }

  /** What split(sep)[-1] leaves: nothing but the part behind the last separator. */
  lemma {:induction false} AfterLastIs(s: string, sep: char)
    ensures sep !in AfterLast(s, sep)
    ensures sep !in s ==> AfterLast(s, sep) == s
    ensures sep in s ==> exists i :: 0 <= i < |s| && s[i] == sep && AfterLast(s, sep) == s[i + 1..]
  {
    if sep in s {
      AfterLastIs(s[1..], sep);
      if sep in s[1..] {
        var i :| 0 <= i < |s[1..]| && s[1..][i] == sep && AfterLast(s[1..], sep) == s[1..][i + 1..];
        assert s[i + 1] == sep && s[i + 1 + 1..] == s[1..][i + 1..];
      } else {
        assert s[0] == sep && AfterLast(s, sep) == s[0 + 1..];
      }
    }
  }

  predicate AllSpace(s: string) { forall i :: 0 <= i < |s| ==> PythonSpace(s[i]) }

  lemma {:induction false} StripLeftIs(s: string) returns (a: string)
    ensures s == a + StripLeft(s) && AllSpace(a)
  {
    if s != "" && PythonSpace(s[0]) {
      a := StripLeftIs(s[1..]);
      a := [s[0]] + a;
    } else {
      a := "";
    }
  }

  lemma {:induction false} StripRightIs(s: string) returns (b: string)
    ensures s == StripRight(s) + b && AllSpace(b)
  {
    if s != "" && PythonSpace(s[|s| - 1]) {
      b := StripRightIs(s[..|s| - 1]);
      b := b + [s[|s| - 1]];
    } else {
      b := "";
    }
  }

  /** strip() removes white space at both ends and nothing else. */
  lemma StripIs(s: string) returns (a: string, b: string)
    ensures s == a + Strip(s) + b && AllSpace(a) && AllSpace(b)
    ensures Strip(s) != "" ==> !PythonSpace(Strip(s)[0]) && !PythonSpace(Strip(s)[|Strip(s)| - 1])
  {
    a := StripLeftIs(s);
    b := StripRightIs(StripLeft(s));
    if Strip(s) != "" { assert Strip(s)[0] == StripLeft(s)[0]; }
  }
}
