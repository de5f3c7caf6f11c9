/**
 Reading bytes in text mode: UTF-8 with replacement characters, then universal newlines. A file
 read in pieces gives the text of the whole exactly when no cut falls inside a unit.
 */
module TextRead {
  import opened Text

  newtype byte = x: int | 0 <= x < 256

  const CR: byte := 0x0D
  const LF: byte := 0x0A
  const REPLACEMENT: char := '\U{FFFD}'

  // ----- Sequences -----

  predicate Continuation(b: byte) { 0x80 <= b <= 0xBF }

  /** How many bytes a sequence with this lead has; none for a byte that cannot lead. */
  function Width(lead: byte): nat {
    if lead < 0x80 then 1
    else if 0xC2 <= lead <= 0xDF then 2
    else if 0xE0 <= lead <= 0xEF then 3
    else if 0xF0 <= lead <= 0xF4 then 4
    else 0
  }

  /** The second byte excludes overlong forms, surrogates and values past the last code point. */
  predicate Second(lead: byte, b: byte) {
    && Continuation(b)
    && (lead == 0xE0 ==> b >= 0xA0) && (lead == 0xED ==> b <= 0x9F)
    && (lead == 0xF0 ==> b >= 0x90) && (lead == 0xF4 ==> b <= 0x8F)
  }

  /** u is a well-formed sequence or the beginning of one. */
  predicate Begins(u: seq<byte>) {
    && 0 < |u| <= Width(u[0])
    && (|u| >= 2 ==> Second(u[0], u[1]))
    && forall i :: 2 <= i < |u| ==> Continuation(u[i])
  }

  function Scalar(u: seq<byte>): (n: int)
    requires Begins(u) && |u| == Width(u[0])
    ensures 0 <= n < 0xD800 || 0xE000 <= n < 0x11_0000
    ensures |u| == 1 ==> n == u[0] as int
    ensures |u| > 1 ==> n >= 0x80
  {
    if |u| == 1 then u[0] as int
    else if |u| == 2 then (u[0] as int - 0xC0) * 0x40 + (u[1] as int - 0x80)
    else if |u| == 3 then (u[0] as int - 0xE0) * 0x1000 + (u[1] as int - 0x80) * 0x40 + (u[2] as int - 0x80)
    else (u[0] as int - 0xF0) * 0x4_0000 + (u[1] as int - 0x80) * 0x1000 + (u[2] as int - 0x80) * 0x40 + (u[3] as int - 0x80)
  }

  /** The character of a whole sequence; anything else is replaced. */
  function Character(u: seq<byte>): char {
    if Begins(u) && |u| == Width(u[0]) then Scalar(u) as char else REPLACEMENT
  }

  // ----- The decoder -----

  /** What is taken off the front at once: the longest beginning of a sequence or, when newlines are
      translated in the same pass, a carriage return with its line feed. */
  predicate Unit(u: seq<byte>, newlines: bool) { Begins(u) || (newlines && u == [CR, LF]) }

  function Extent(s: seq<byte>, newlines: bool, n: nat): (r: nat)
    requires 0 < n <= |s| && (n == 1 || Unit(s[..n], newlines))
    ensures n <= r <= |s| && (r == 1 || Unit(s[..r], newlines))
    ensures r < |s| ==> !Unit(s[..r + 1], newlines)
    decreases |s| - n
  {
    if n < |s| && Unit(s[..n + 1], newlines) then Extent(s, newlines, n + 1) else n
  }

  function Head(s: seq<byte>, newlines: bool): (r: nat)
    requires s != []
    ensures 0 < r <= |s| && (r == 1 || Unit(s[..r], newlines))
    ensures r < |s| ==> !Unit(s[..r + 1], newlines)
  {
    Extent(s, newlines, 1)
  }

  function Decode(s: seq<byte>, newlines: bool): string
    decreases |s|
  {
    if s == [] then ""
    else
      var n := Head(s, newlines);
      [if newlines && s[0] == CR then '\n' else Character(s[..n])] + Decode(s[n..], newlines)
  }

  /** bytes.decode("utf-8", errors="replace"). */
  function Utf8(s: seq<byte>): string { Decode(s, false) }

  /** Universal newlines. */
  function Translate(text: string): string {
    if text == "" then ""
    else if text[0] != '\r' then [text[0]] + Translate(text[1..])
    else if |text| > 1 && text[1] == '\n' then "\n" + Translate(text[2..])
    else "\n" + Translate(text[1..])
  }

  /** One read() of a text-mode file. */
  function ReadText(s: seq<byte>): string { Translate(Utf8(s)) }

  // ----- One pass instead of two -----

  lemma PlainHead(s: seq<byte>, newlines: bool)
    requires s != [] && (Width(s[0]) <= 1) && (newlines ==> s[0] != CR)
    ensures Head(s, newlines) == 1
  {
    if |s| > 1 { assert s[..2][0] == s[0]; }
  }

  lemma FirstCharacter(s: seq<byte>)
    requires s != []
    ensures Utf8(s) != "" && (Utf8(s)[0] == '\n' <==> s[0] == LF) && (Utf8(s)[0] == '\r' <==> s[0] == CR)
  {
    var n := Head(s, false);
    assert s[..n][0] == s[0];
    if s[0] < 0x80 { PlainHead(s, false); }
  }

  lemma SameHead(s: seq<byte>)
    requires s != [] && s[0] != CR
    ensures Head(s, true) == Head(s, false)
  {
    SameExtent(s, 1);
  }

  lemma {:induction false} SameExtent(s: seq<byte>, n: nat)
    requires 0 < n <= |s| && s[0] != CR && (n == 1 || Unit(s[..n], false))
    ensures Extent(s, true, n) == Extent(s, false, n)
    decreases |s| - n
  {
    if n < |s| {
      assert s[..n + 1][0] == s[0];
      if Unit(s[..n + 1], false) { SameExtent(s, n + 1); }
    }
  }

  /** Decoding and translating in one pass over the bytes. */
  lemma {:induction false} ReadInOnePass(s: seq<byte>)
    ensures ReadText(s) == Decode(s, true)
    decreases |s|
  {
    if s != [] {
      FirstCharacter(s);
      if s[0] != CR {
        SameHead(s);
        ReadInOnePass(s[Head(s, true)..]);
        OtherFirst(s);
      } else {
        ReturnFirst(s);
        ReadInOnePass(s[Head(s, true)..]);
      }
    }
  }

  lemma OtherFirst(s: seq<byte>)
    requires s != [] && s[0] != CR
    ensures ReadText(s) == [Character(s[..Head(s, false)])] + ReadText(s[Head(s, false)..])
  {
    FirstCharacter(s);
    var text := Utf8(s);
    assert text[1..] == Utf8(s[Head(s, false)..]);
  }

  lemma ReturnFirst(s: seq<byte>)
    requires s != [] && s[0] == CR
    ensures Head(s, true) == if |s| > 1 && s[1] == LF then 2 else 1
    ensures ReadText(s) == "\n" + ReadText(s[Head(s, true)..])
  {
    PlainHead(s, false);
    var text := Utf8(s);
    assert text == [Character(s[..1])] + Utf8(s[1..]) && text[1..] == Utf8(s[1..]);
    FirstCharacter(s);
    if |s| > 1 {
      FirstCharacter(s[1..]);
      assert s[..2] == [CR, s[1]];
      if s[1] == LF {
        PlainHead(s[1..], false);
        assert s[1..][1..] == s[2..];
        assert Utf8(s[1..])[1..] == Utf8(s[2..]);
        assert text[2..] == Utf8(s[2..]);
        PairHead(s);
      }
    }
  }

  lemma PairHead(s: seq<byte>)
    requires |s| > 1 && s[0] == CR && s[1] == LF
    ensures Head(s, true) == 2
  {
    assert s[..2] == [CR, LF];
    if |s| > 2 { assert s[..3][0] == CR && |s[..3]| == 3; }
  }

  // ----- Cuts -----

  /** The last k bytes of a and the first of b belong to one unit. */
  predicate JoinsAt(a: seq<byte>, b: seq<byte>, k: nat) {
    1 <= k <= 3 && k <= |a| && b != [] && Unit(a[|a| - k..] + [b[0]], true)
  }

  /** The cut between a and b falls inside a character or between a carriage return and its line feed; the
      three bytes before the cut and the one after it decide. */
  predicate Splits(a: seq<byte>, b: seq<byte>) { JoinsAt(a, b, 1) || JoinsAt(a, b, 2) || JoinsAt(a, b, 3) }

  /** Bytes that continue a unit and never begin one of two. */
  predicate Trails(b: byte) { Continuation(b) || b == LF }

  lemma UnitShape(u: seq<byte>)
    requires Unit(u, true)
    ensures |u| <= 4 && forall i :: 1 <= i < |u| ==> Trails(u[i])
  {
  }

  lemma UnitPrefix(u: seq<byte>, newlines: bool, n: nat)
    requires Unit(u, newlines) && 0 < n < |u|
    ensures Unit(u[..n], newlines) || n == 1
  {
  }

  lemma TrailerIsAlone(u: seq<byte>)
    requires |u| >= 2 && Trails(u[0])
    ensures !Unit(u, true)
  {
  }

  /** The head is at least as long as any unit at the front. */
  lemma {:induction false} HeadIsLongest(s: seq<byte>, newlines: bool, n: nat, m: nat)
    requires 0 < n <= m <= |s| && Unit(s[..m], newlines) && (n == 1 || Unit(s[..n], newlines))
    ensures Extent(s, newlines, n) >= m
    decreases m - n
  {
    if n < m {
      assert s[..m][..n + 1] == s[..n + 1];
      if n + 1 < m { UnitPrefix(s[..m], newlines, n + 1); }
      HeadIsLongest(s, newlines, n + 1, m);
    }
  }

  /** Trailing bytes at the front of a text are decoded one by one. */
  lemma {:induction false} TrailersDecodeAlone(s: seq<byte>, m: nat)
    requires m <= |s| && forall i :: 0 <= i < m ==> Trails(s[i])
    ensures |Decode(s, true)| == m + |Decode(s[m..], true)|
    decreases m
  {
    if m > 0 {
      if |s| > 1 { TrailerIsAlone(s[..2]); }
      assert Head(s, true) == 1;
      assert s[1..][m - 1..] == s[m..];
      TrailersDecodeAlone(s[1..], m - 1);
    }
  }

  /** The first unit of a + b ends inside a: it is also the first unit of a. */
  lemma {:induction false} HeadInside(a: seq<byte>, b: seq<byte>, n: nat)
    requires 0 < n <= |a| && (n == 1 || Unit(a[..n], true)) && Extent(a + b, true, n) <= |a|
    requires n == 1 || Unit((a + b)[..n], true)
    ensures Extent(a, true, n) == Extent(a + b, true, n)
    decreases |a| - n
  {
    assert (a + b)[..n] == a[..n];
    if n < |a| {
      assert (a + b)[..n + 1] == a[..n + 1];
      if Unit(a[..n + 1], true) { HeadInside(a, b, n + 1); }
    }
  }

  lemma SplitsAfterHead(a: seq<byte>, b: seq<byte>, n: nat)
    requires a != [] && n == Head(a + b, true) <= |a|
    ensures Splits(a, b) == Splits(a[n..], b)
  {
    JoinsAfterHead(a, b, n, 1);
    JoinsAfterHead(a, b, n, 2);
    JoinsAfterHead(a, b, n, 3);
  }

  lemma JoinsAfterHead(a: seq<byte>, b: seq<byte>, n: nat, k: nat)
    requires a != [] && n == Head(a + b, true) <= |a|
    ensures JoinsAt(a, b, k) == JoinsAt(a[n..], b, k)
  {
    if k <= |a| - n {
      JoinsWithin(a, b, n, k);
    } else if k <= |a| {
      StartsInHead(a, b, n, k);
    }
  }

  lemma JoinsWithin(a: seq<byte>, b: seq<byte>, n: nat, k: nat)
    requires n <= |a| && k <= |a| - n
    ensures JoinsAt(a, b, k) == JoinsAt(a[n..], b, k)
  {
    assert a[n..][|a[n..]| - k..] == a[|a| - k..];
  }

  /** Nothing that begins inside the first unit reaches past the cut. */
  lemma StartsInHead(a: seq<byte>, b: seq<byte>, n: nat, k: nat)
    requires a != [] && n == Head(a + b, true) <= |a| && |a| - n < k <= |a|
    ensures JoinsAt(a, b, k) == false
  {
    var p := |a| - k;
    if b != [] {
      var u := a[p..] + [b[0]];
      if p > 0 {
        UnitShape((a + b)[..n]);
        assert u[0] == (a + b)[..n][p];
        TrailerIsAlone(u);
      } else {
        assert u == (a + b)[..|a| + 1];
        if Unit(u, true) { HeadIsLongest(a + b, true, 1, |a| + 1); }
      }
    }
  }

  /** The first unit reaches past the cut. */
  lemma CutInHead(a: seq<byte>, b: seq<byte>, n: nat)
    requires a != [] && n == Head(a + b, true) > |a|
    ensures Splits(a, b) && |Decode(a + b, true)| < |Decode(a, true)| + |Decode(b, true)|
  {
    JoinsOverCut(a, b, n);
    var m := n - |a|;
    UnitShape((a + b)[..n]);
    assert forall i :: 0 <= i < m ==> b[i] == (a + b)[..n][|a| + i];
    TrailersDecodeAlone(b, m);
    assert (a + b)[n..] == b[m..];
    FirstCount(a + b, n);
    FirstCount(a, Head(a, true));
  }

  lemma FirstCount(s: seq<byte>, n: nat)
    requires s != [] && n == Head(s, true)
    ensures |Decode(s, true)| == 1 + |Decode(s[n..], true)|
  {
  }

  lemma JoinsOverCut(a: seq<byte>, b: seq<byte>, n: nat)
    requires a != [] && n == Head(a + b, true) > |a|
    ensures |a| <= 3 && JoinsAt(a, b, |a|)
  {
    var u := (a + b)[..n];
    UnitShape(u);
    assert a + [b[0]] == u[..|a| + 1];
    if |a| + 1 < n { UnitPrefix(u, true, |a| + 1); } else { assert u[..n] == u; }
    assert a[|a| - |a|..] == a;
  }

  lemma SharedHead(a: seq<byte>, b: seq<byte>, n: nat) returns (first: char)
    requires a != [] && n == Head(a + b, true) <= |a|
    ensures Decode(a, true) == [first] + Decode(a[n..], true) && Decode(a + b, true) == [first] + Decode(a[n..] + b, true)
  {
    var s := a + b;
    HeadInside(a, b, 1);
    assert s[n..] == a[n..] + b && s[..n] == a[..n];
    first := Decode(a, true)[0];
  }

  /** Reading in two pieces gives the text of the whole exactly when the cut splits nothing, and too many
      characters otherwise. */
  lemma {:induction false} CutLaw(a: seq<byte>, b: seq<byte>)
    ensures !Splits(a, b) ==> Decode(a + b, true) == Decode(a, true) + Decode(b, true)
    ensures Splits(a, b) ==> |Decode(a + b, true)| < |Decode(a, true)| + |Decode(b, true)|
    decreases |a|
  {
    var s := a + b;
    if a == [] {
      assert s == b;
    } else {
      var n := Head(s, true);
      if n <= |a| {
        var first := SharedHead(a, b, n);
        SplitsAfterHead(a, b, n);
        CutLaw(a[n..], b);
        Regroup([first], Decode(a[n..], true), Decode(b, true));
      } else {
        CutInHead(a, b, n);
      }
    }
  }

  lemma ReadInTwo(a: seq<byte>, b: seq<byte>)
    ensures !Splits(a, b) ==> ReadText(a + b) == ReadText(a) + ReadText(b)
    ensures Splits(a, b) ==> |ReadText(a + b)| < |ReadText(a)| + |ReadText(b)|
  {
    CutLaw(a, b);
    ReadInOnePass(a);
    ReadInOnePass(b);
    ReadInOnePass(a + b);
  }

  // ----- Encoding -----

  function Bytes(c: char): seq<byte> {
    var n := c as int;
    if n < 0x80 then [n as byte]
    else if n < 0x800 then [(0xC0 + n / 0x40) as byte, (0x80 + n % 0x40) as byte]
    else if n < 0x1_0000 then [(0xE0 + n / 0x1000) as byte, (0x80 + n / 0x40 % 0x40) as byte, (0x80 + n % 0x40) as byte]
    else [(0xF0 + n / 0x4_0000) as byte, (0x80 + n / 0x1000 % 0x40) as byte, (0x80 + n / 0x40 % 0x40) as byte, (0x80 + n % 0x40) as byte]
  }

  function Encoded(text: string): seq<byte> {
    if text == "" then [] else Bytes(text[0]) + Encoded(text[1..])
  }

  lemma SixBitDigits(n: nat)
    ensures n == n / 0x40 * 0x40 + n % 0x40
    ensures n / 0x40 == n / 0x1000 * 0x40 + n / 0x40 % 0x40
    ensures n / 0x1000 == n / 0x4_0000 * 0x40 + n / 0x1000 % 0x40
  {
    assert n / 0x40 / 0x40 == n / 0x1000;
    assert n / 0x1000 / 0x40 == n / 0x4_0000;
  }

  predicate Whole(u: seq<byte>, c: char) { Begins(u) && |u| == Width(u[0]) && Character(u) == c }

  lemma ShortRoundTrip(c: char)
    requires c as int < 0x800
    ensures Whole(Bytes(c), c)
  {
    SixBitDigits(c as int);
  }

  lemma MediumRoundTrip(c: char)
    requires 0x800 <= c as int < 0x1_0000
    ensures Whole(Bytes(c), c)
  {
    SixBitDigits(c as int);
  }

  lemma LongRoundTrip(c: char)
    requires 0x1_0000 <= c as int
    ensures Whole(Bytes(c), c)
  {
    SixBitDigits(c as int);
  }

  lemma CharacterRoundTrip(c: char)
    ensures Whole(Bytes(c), c)
  {
    if c as int < 0x800 { ShortRoundTrip(c); } else if c as int < 0x1_0000 { MediumRoundTrip(c); } else { LongRoundTrip(c); }
  }

  lemma SplitDigit(q: nat, r: nat)
    requires r < 0x40
    ensures (q * 0x40 + r) / 0x40 == q && (q * 0x40 + r) % 0x40 == r
  {
  }

  lemma ShortWhole(u: seq<byte>)
    requires Begins(u) && |u| == Width(u[0]) <= 2
    ensures Bytes(Character(u)) == u
  {
    if |u| == 2 { SplitDigit(u[0] as int - 0xC0, u[1] as int - 0x80); }
  }

  lemma MediumWhole(u: seq<byte>)
    requires Begins(u) && |u| == Width(u[0]) == 3
    ensures Bytes(Character(u)) == u
  {
    var a, b, c := u[0] as int - 0xE0, u[1] as int - 0x80, u[2] as int - 0x80;
    SplitDigit(a * 0x40 + b, c);
    SplitDigit(a, b);
    SixBitDigits(Scalar(u));
  }

  lemma LongWhole(u: seq<byte>)
    requires Begins(u) && |u| == Width(u[0]) == 4
    ensures Bytes(Character(u)) == u
  {
    var a, b, c, d := u[0] as int - 0xF0, u[1] as int - 0x80, u[2] as int - 0x80, u[3] as int - 0x80;
    SplitDigit((a * 0x40 + b) * 0x40 + c, d);
    SplitDigit(a * 0x40 + b, c);
    SplitDigit(a, b);
    SixBitDigits(Scalar(u));
  }

  /** Encoding undoes decoding of a whole sequence: overlong forms, surrogates and values past the last code point
      are not sequences. */
  lemma WholeIsEncoded(u: seq<byte>)
    requires Begins(u) && |u| == Width(u[0])
    ensures Bytes(Character(u)) == u
  {
    if |u| <= 2 { ShortWhole(u); } else if |u| == 3 { MediumWhole(u); } else { LongWhole(u); }
  }

  /** A beginning, completed by the least bytes that fit. */
  function Completed(u: seq<byte>): seq<byte>
    requires Begins(u)
    decreases 4 - |u|
  {
    if |u| == Width(u[0]) then u
    else Completed(u + [if |u| > 1 then 0x80 else if u[0] == 0xE0 then 0xA0 else if u[0] == 0xF0 then 0x90 else 0x80])
  }

  lemma {:induction false} CompletedIsWhole(u: seq<byte>)
    requires Begins(u)
    ensures var w := Completed(u); Begins(w) && |w| == Width(w[0]) && u <= w
    decreases 4 - |u|
  {
    if |u| < Width(u[0]) {
      CompletedIsWhole(u + [if |u| > 1 then 0x80 else if u[0] == 0xE0 then 0xA0 else if u[0] == 0xF0 then 0x90 else 0x80]);
    }
  }

  /** The beginnings are exactly the non-empty prefixes of encoded characters. */
  lemma BeginningsArePrefixes(u: seq<byte>)
    ensures Begins(u) <==> u != [] && exists c: char :: u <= Bytes(c)
  {
    if Begins(u) {
      CompletedIsWhole(u);
      WholeIsEncoded(Completed(u));
      assert u <= Bytes(Character(Completed(u)));
    }
    if c: char :| u != [] && u <= Bytes(c) {
      CharacterRoundTrip(c);
      PrefixBegins(Bytes(c), u);
    }
  }

  lemma PrefixBegins(w: seq<byte>, u: seq<byte>)
    requires Begins(w) && u != [] && u <= w
    ensures Begins(u)
  {
    assert forall i :: 0 <= i < |u| ==> u[i] == w[i];
  }

  /** Decoding undoes encoding: no character of well-formed text is replaced or lost. */
  lemma {:induction false} Utf8RoundTrip(text: string)
    ensures Utf8(Encoded(text)) == text
  {
    if text != "" {
      var u, rest := Bytes(text[0]), Encoded(text[1..]);
      CharacterRoundTrip(text[0]);
      Utf8RoundTrip(text[1..]);
      var s := u + rest;
      assert s[..|u|] == u && s[|u|..] == rest;
      HeadIsLongest(s, false, 1, |u|);
      assert Head(s, false) == |u|;
    }
  }

  // ----- Two cuts that are not clean -----

  lemma OneAtATime(s: seq<byte>)
    requires s != [] && Width(s[0]) <= 1 && s[0] != CR
    ensures Decode(s, true) == [Character(s[..1])] + Decode(s[1..], true)
  {
    PlainHead(s, true);
  }

  /** An e with an acute accent, cut in half, is read as two replacement characters. */
  lemma HalfACharacter()
    ensures ReadText([0xC3, 0xA9, LF]) == "\U{00E9}\n"
    ensures ReadText([0xC3]) == "\U{FFFD}" && ReadText([0xA9, LF]) == "\U{FFFD}\n"
  {
    var s: seq<byte> := [0xC3, 0xA9, LF];
    ReadInOnePass(s);
    ReadInOnePass([0xC3]);
    ReadInOnePass([0xA9, LF]);
    assert [LF][1..] == [] && [0xC3 as byte][1..] == [] && [0xA9, LF][1..] == [LF];
    OneAtATime([LF]);
    OneAtATime([0xA9, LF]);
    assert s[..2] == [0xC3, 0xA9] && s[..3] == s && s[2..] == [LF];
    assert Begins(s[..2]) && !Unit(s[..3], true);
    assert Head(s, true) == 2;
    assert Scalar(s[..2]) == 0xE9;
  }

  /** A line end cut in half is read as two. */
  lemma HalfALineEnd()
    ensures ReadText([CR, LF]) == "\n" && ReadText([CR]) == "\n" && ReadText([LF]) == "\n"
  {
    ReadInOnePass([CR, LF]);
    ReadInOnePass([CR]);
    ReadInOnePass([LF]);
    PairHead([CR, LF]);
    OneAtATime([LF]);
    assert [LF][1..] == [] && [CR][1..] == [] && [CR, LF][2..] == [];
  }

  // ----- Text around a cut -----

  lemma {:induction false} EncodedConcat(a: string, b: string)
    ensures Encoded(a + b) == Encoded(a) + Encoded(b)
  {
    if a == "" {
      assert a + b == b;
    } else {
      assert (a + b)[1..] == a[1..] + b;
      EncodedConcat(a[1..], b);
      Regroup(Bytes(a[0]), Encoded(a[1..]), Encoded(b));
    }
  }

  lemma {:induction false} NothingToTranslate(text: string)
    requires '\r' !in text
    ensures Translate(text) == text
  {
    if text != "" { NothingToTranslate(text[1..]); }
  }

  /** Text without carriage returns is read as it was written. */
  lemma ReadBack(text: string)
    requires '\r' !in text
    ensures ReadText(Encoded(text)) == text
  {
    Utf8RoundTrip(text);
    NothingToTranslate(text);
  }

  /** A byte that begins something splits nothing. */
  lemma CleanBefore(a: seq<byte>, b: seq<byte>)
    requires b != [] && !Trails(b[0])
    ensures !Splits(a, b)
  {
    forall k: nat | 1 <= k <= 3 && k <= |a| ensures !JoinsAt(a, b, k) {
      var u := a[|a| - k..] + [b[0]];
      assert u[k] == b[0];
      if Unit(u, true) { UnitShape(u); }
    }
  }

  /** Neither does a cut after a lone continuation byte. */
  lemma CleanAfter(c: byte, b: seq<byte>)
    requires Continuation(c)
    ensures !Splits([c], b)
  {
    if b != [] {
      TrailerIsAlone([c] + [b[0]]);
      assert [c][|[c]| - 1..] == [c];
    }
    assert !JoinsAt([c], b, 1) && !JoinsAt([c], b, 2) && !JoinsAt([c], b, 3);
  }
}
