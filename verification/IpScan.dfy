/**
 The dotted-quad scanner of the advisory engine: IP_REGEX, that is
 \b(?:\d{1,3}\.){3}\d{1,3}\b, and its findall.

 The regex engine's notion of digit and word character is a table, so every result
 holds for the full Unicode classes and for the ASCII ones alike.
 */
module IpScan {
  import opened Text

  // `P(x) == true` in a contract hands the fact on unopened, which keeps the caller's proof small.

  datatype Table = Table(digit: set<char>, word: set<char>)

  predicate AsciiDigit(c: char) { '0' <= c <= '9' }

  predicate AsciiWord(c: char) {
    AsciiDigit(c) || 'a' <= c <= 'z' || 'A' <= c <= 'Z' || c == '_'
  }

  /** What every regex table agrees on: the ASCII range, and that digits are word characters. */
  ghost predicate Valid(t: Table) {
    && t.digit <= t.word
    && (forall c: char :: c < 128 as char ==> (c in t.digit <==> AsciiDigit(c)))
    && (forall c: char :: c < 128 as char ==> (c in t.word <==> AsciiWord(c)))
  }

  /** Length of the run of digits at the head. */
  function Run(t: Table, s: string): (n: nat)
    ensures n <= |s|
  {
    if |s| > 0 && s[0] in t.digit then 1 + Run(t, s[1..]) else 0
  }

  /** Length of the match of (?:\d{1,3}\.){k}\d{1,3}\b at the head, when there is one. */
  function QuadLength(t: Table, s: string, k: nat): (r: Option<nat>)
    ensures r.Some? ==> 0 < r.value <= |s|
  {
    var n := Run(t, s);
    if n < 1 || n > 3 then None
    else if k == 0 then
      if n == |s| || s[n] !in t.word then Some(n) else None
    else if n < |s| && s[n] == '.' then
      match QuadLength(t, s[n + 1..], k - 1)
      case Some(m) => Some(n + 1 + m)
      case None => None
    else None
  }

  /** findall over the rest of a text; `afterWord` says whether a word character precedes it. */
  function Scan(t: Table, afterWord: bool, s: string): seq<string>
    decreases |s|
  {
    if |s| == 0 then []
    else
      var m := if afterWord then None else QuadLength(t, s, 3);
      match m
      case Some(n) => [s[..n]] + Scan(t, true, s[n..])
      case None => Scan(t, s[0] in t.word, s[1..])
  }

  function FindAll(t: Table, s: string): seq<string> {
    Scan(t, false, s)
  }

  // ----- The scanner against the regular expression -----

  /** \d{1,3} read as n digits at the head. */
  ghost predicate Octet(t: Table, w: string, n: nat) {
    1 <= n <= 3 && n <= |w| && forall i :: 0 <= i < n ==> w[i] in t.digit
  }

  /** The language of (?:\d{1,3}\.){k}\d{1,3}. */
  ghost predicate QuadText(t: Table, w: string, k: nat) {
    exists n: nat ::
      && Octet(t, w, n)
      && if k == 0 then n == |w|
         else n < |w| && w[n] == '.' && QuadText(t, w[n + 1..], k - 1)
  }

  lemma {:induction false} RunIsDigits(t: Table, s: string)
    ensures forall i :: 0 <= i < Run(t, s) ==> s[i] in t.digit
    ensures Run(t, s) < |s| ==> s[Run(t, s)] !in t.digit
  {
    if |s| > 0 && s[0] in t.digit {
      RunIsDigits(t, s[1..]);
    }
  }

  lemma QuadParts(t: Table, s: string, k: nat, m: nat, n: nat)
    requires QuadLength(t, s, k) == Some(m) && n == Run(t, s)
    ensures 1 <= n <= 3 && n <= m <= |s|
    ensures if k == 0 then m == n && (m == |s| || s[m] !in t.word)
      else n < m && s[n] == '.' && QuadLength(t, s[n + 1..], k - 1) == Some(m - n - 1)
  {
  }

  lemma RunIsOctet(t: Table, s: string, m: nat, n: nat)
    requires n == Run(t, s) && 1 <= n <= 3 && n <= m <= |s|
    ensures Octet(t, s[..m], n)
  {
    RunIsDigits(t, s);
  }

  lemma {:induction false} QuadEndsAtBoundary(t: Table, s: string, k: nat, m: nat)
    requires QuadLength(t, s, k) == Some(m)
    ensures m == |s| || s[m] !in t.word
    decreases k
  {
    var n := Run(t, s);
    QuadParts(t, s, k, m, n);
    if k > 0 { QuadEndsAtBoundary(t, s[n + 1..], k - 1, m - n - 1); }
  }

  lemma {:induction false} QuadLengthMatches(t: Table, s: string, k: nat, m: nat)
    requires QuadLength(t, s, k) == Some(m)
    ensures QuadText(t, s[..m], k) == true
    decreases k
  {
    var n := Run(t, s);
    QuadParts(t, s, k, m, n);
    RunIsOctet(t, s, m, n);
    if k == 0 {
      QuadTextStep(t, s[..m], 0, n, "");
    } else {
      QuadLengthMatches(t, s[n + 1..], k - 1, m - n - 1);
      OctetAhead(t, s, k, m, n);
    }
  }

  lemma OctetAhead(t: Table, s: string, k: nat, m: nat, n: nat)
    requires n < m <= |s| && k > 0 && s[n] == '.' && Octet(t, s[..m], n) == true
    requires QuadText(t, s[n + 1..][..m - n - 1], k - 1) == true
    ensures QuadText(t, s[..m], k) == true
  {
    assert s[..m][n + 1..] == s[n + 1..][..m - n - 1];
    QuadTextStep(t, s[..m], k, n, s[n + 1..][..m - n - 1]);
  }

  lemma QuadTextStep(t: Table, w: string, k: nat, n: nat, rest: string)
    requires Octet(t, w, n) == true
    requires if k == 0 then n == |w| else n < |w| && w[n] == '.' && rest == w[n + 1..] && QuadText(t, rest, k - 1) == true
    ensures QuadText(t, w, k) == true
  {
  }

  lemma {:induction false} DigitsAreRun(t: Table, s: string, n: nat)
    requires n <= |s| && (forall i :: 0 <= i < n ==> s[i] in t.digit) && (n < |s| ==> s[n] !in t.digit)
    ensures Run(t, s) == n
  {
    if n > 0 { DigitsAreRun(t, s[1..], n - 1); }
  }

  lemma DotIsNoWord(t: Table)
    requires Valid(t)
    ensures '.' !in t.word && '.' !in t.digit
  {
    assert '.' < 128 as char;
  }

  lemma OctetIsRun(t: Table, s: string, m: nat, q: nat)
    requires Valid(t) && m <= |s| && (m == |s| || s[m] !in t.word)
    requires Octet(t, s[..m], q) && (q == m || s[q] == '.')
    ensures Run(t, s) == q
  {
    DotIsNoWord(t);
    forall i | 0 <= i < q ensures s[i] in t.digit { assert s[..m][i] == s[i]; }
    DigitsAreRun(t, s, q);
  }

  lemma QuadStep(t: Table, s: string, k: nat, q: nat, m: nat)
    requires Run(t, s) == q && 1 <= q <= 3 && q <= m <= |s|
    requires if k == 0 then q == m && (m == |s| || s[m] !in t.word)
      else q < m && s[q] == '.' && QuadLength(t, s[q + 1..], k - 1) == Some(m - q - 1)
    ensures QuadLength(t, s, k) == Some(m)
  {
  }

  lemma {:induction false} MatchHasQuadLength(t: Table, s: string, k: nat, m: nat)
    requires Valid(t) && m <= |s|
    requires QuadText(t, s[..m], k) && (m == |s| || s[m] !in t.word)
    ensures QuadLength(t, s, k) == Some(m)
    decreases k
  {
    var q: nat :| Octet(t, s[..m], q) && if k == 0 then q == |s[..m]|
      else q < |s[..m]| && s[..m][q] == '.' && QuadText(t, s[..m][q + 1..], k - 1);
    OctetIsRun(t, s, m, q);
    if k > 0 {
      assert s[..m][q + 1..] == s[q + 1..][..m - q - 1];
      MatchHasQuadLength(t, s[q + 1..], k - 1, m - q - 1);
    }
    QuadStep(t, s, k, q, m);
  }

  /** From any position the regex has at most one match, and QuadLength is its length. */
  lemma QuadLengthIsTheOnlyMatch(t: Table, s: string, k: nat, m: nat)
    requires Valid(t) && m <= |s|
    ensures QuadLength(t, s, k) == Some(m)
       <==> QuadText(t, s[..m], k) && (m == |s| || s[m] !in t.word)
  {
    if QuadLength(t, s, k) == Some(m) {
      QuadLengthMatches(t, s, k, m);
      QuadEndsAtBoundary(t, s, k, m);
    } else if QuadText(t, s[..m], k) && (m == |s| || s[m] !in t.word) {
      MatchHasQuadLength(t, s, k, m);
    }
  }

  /** A text that is itself one dotted quad scans to exactly itself. */
  lemma WholeQuad(t: Table, w: string)
    requires Valid(t) && QuadText(t, w, 3)
    ensures FindAll(t, w) == [w]
  {
    assert w[..|w|] == w;
    QuadLengthIsTheOnlyMatch(t, w, 3, |w|);
    assert Scan(t, true, w[|w|..]) == [];
  }

  /** Position i starts a match: a boundary before it and a bounded quad from it. */
  ghost predicate MatchAt(t: Table, afterWord: bool, s: string, i: nat)
    requires i < |s|
  {
    !(if i == 0 then afterWord else s[i - 1] in t.word) && QuadLength(t, s[i..], 3).Some?
  }

  /** findall is empty exactly when the pattern matches nowhere. */
  lemma {:induction false} EmptyScanMeansNoMatch(t: Table, afterWord: bool, s: string)
    ensures Scan(t, afterWord, s) == [] <==> forall i :: 0 <= i < |s| ==> !MatchAt(t, afterWord, s, i)
    decreases |s|
  {
    if |s| > 0 {
      assert s[0..] == s;
      if MatchAt(t, afterWord, s, 0) {
      } else {
        var rest := s[1..];
        EmptyScanMeansNoMatch(t, s[0] in t.word, rest);
        forall i | 0 <= i < |rest|
          ensures MatchAt(t, s[0] in t.word, rest, i) == MatchAt(t, afterWord, s, i + 1)
        {
          assert rest[i..] == s[i + 1..];
        }
        if Scan(t, afterWord, s) == [] {
          forall i | 0 <= i < |s| ensures !MatchAt(t, afterWord, s, i) {
            if i > 0 { assert !MatchAt(t, s[0] in t.word, rest, i - 1); }
          }
        } else {
          var i :| 0 <= i < |rest| && MatchAt(t, s[0] in t.word, rest, i);
          assert MatchAt(t, afterWord, s, i + 1);
        }
      }
    }
  }

  // ----- Scanning concatenated text -----

  /** A character no match can contain or touch: neither a word character nor a dot. */
  ghost predicate Fence(t: Table, c: char) {
    c !in t.word && c != '.'
  }

  lemma {:induction false} RunStopsAt(t: Table, a: string, c: char, b: string)
    requires c !in t.digit
    ensures Run(t, a + [c] + b) == Run(t, a)
  {
    var s := a + [c] + b;
    if |a| > 0 {
      assert s[1..] == a[1..] + [c] + b;
      RunStopsAt(t, a[1..], c, b);
    }
  }

  /** Two texts with the same first octet, the same character after it and the same rest. */
  lemma SameQuad(t: Table, s: string, a: string, n: nat, k: nat)
    requires Run(t, s) == Run(t, a) == n && (n < |a| ==> n < |s| && s[n] == a[n])
    requires n == |a| < |s| ==> s[n] !in t.word && s[n] != '.'
    requires k > 0 && n < |a| ==> QuadLength(t, s[n + 1..], k - 1) == QuadLength(t, a[n + 1..], k - 1)
    ensures QuadLength(t, s, k) == QuadLength(t, a, k)
  {
  }

  lemma {:induction false} QuadStopsAtFence(t: Table, a: string, c: char, b: string, k: nat)
    requires Valid(t) && Fence(t, c)
    ensures QuadLength(t, a + [c] + b, k) == QuadLength(t, a, k)
    decreases k
  {
    var s := a + [c] + b;
    RunStopsAt(t, a, c, b);
    var n := Run(t, a);
    if k > 0 && n < |a| {
      assert s[n + 1..] == a[n + 1..] + [c] + b;
      QuadStopsAtFence(t, a[n + 1..], c, b, k - 1);
    }
    SameQuad(t, s, a, n, k);
  }

  /** What the scan finds at the head. */
  function Found(t: Table, afterWord: bool, s: string): (m: Option<nat>)
    ensures m.Some? ==> 0 < m.value <= |s|
  {
    if afterWord then None else QuadLength(t, s, 3)
  }

  function Advance(t: Table, afterWord: bool, s: string): (n: nat)
    requires s != ""
    ensures 0 < n <= |s|
  {
    if Found(t, afterWord, s).Some? then Found(t, afterWord, s).value else 1
  }

  /** Two texts with the same find at the head, scanned on from there. */
  lemma ScanTogether(t: Table, afterWord: bool, s: string, a: string, n: nat, next: bool, extra: seq<string>)
    requires s != "" && a != "" && s[0] == a[0] && Found(t, afterWord, s) == Found(t, afterWord, a)
    requires n == Advance(t, afterWord, a) <= |s| && s[..n] == a[..n]
    requires next == (Found(t, afterWord, a).Some? || a[0] in t.word)
    requires Scan(t, next, s[n..]) == Scan(t, next, a[n..]) + extra
    ensures Scan(t, afterWord, s) == Scan(t, afterWord, a) + extra
  {
    if Found(t, afterWord, a).Some? { Regroup([a[..n]], Scan(t, next, a[n..]), extra); }
  }

  lemma CutBeforeFence(a: string, c: char, b: string, n: nat)
    requires 0 < n <= |a|
    ensures var s := a + [c] + b; s[0] == a[0] && s[n..] == a[n..] + [c] + b && s[..n] == a[..n]
  {
  }

  /** A fence splits the scan in two. */
  lemma {:induction false} ScanSplitsAtFence(t: Table, afterWord: bool, a: string, c: char, b: string)
    requires Valid(t) && Fence(t, c)
    ensures Scan(t, afterWord, a + [c] + b) == Scan(t, afterWord, a) + FindAll(t, b)
    decreases |a|
  {
    var s := a + [c] + b;
    QuadStopsAtFence(t, a, c, b, 3);
    if |a| == 0 {
      assert s[1..] == b;
    } else {
      var n, next := Advance(t, afterWord, a), Found(t, afterWord, a).Some? || a[0] in t.word;
      CutBeforeFence(a, c, b, n);
      ScanSplitsAtFence(t, next, a[n..], c, b);
      ScanTogether(t, afterWord, s, a, n, next, FindAll(t, b));
    }
  }

  lemma DigitsThenDot(t: Table, a: string, k: nat)
    requires '.' !in t.word && Run(t, a) == |a| == Run(t, a + ".")
    ensures QuadLength(t, a + ".", k) == QuadLength(t, a, k)
  {
    var s, n := a + ".", |a|;
    assert s[n] == '.' && s[n + 1..] == [];
    if k > 0 { assert QuadLength(t, s[n + 1..], k - 1) == None; }
  }

  lemma {:induction false} QuadIgnoresFinalDot(t: Table, a: string, k: nat)
    requires Valid(t)
    ensures QuadLength(t, a + ".", k) == QuadLength(t, a, k)
    decreases k
  {
    var s := a + ".";
    assert s == a + ['.'] + "";
    DotIsNoWord(t);
    RunStopsAt(t, a, '.', "");
    var n := Run(t, a);
    if n == |a| {
      DigitsThenDot(t, a, k);
    } else {
      if k > 0 {
        assert s[n + 1..] == a[n + 1..] + ".";
        QuadIgnoresFinalDot(t, a[n + 1..], k - 1);
      }
      SameQuad(t, s, a, n, k);
    }
  }

  lemma CutBeforeDot(a: string, n: nat)
    requires n <= |a|
    ensures (a + ".")[n..] == a[n..] + "." && (a + ".")[..n] == a[..n]
  {
  }

  /** A sentence's full stop neither adds nor removes a match. */
  lemma {:induction false} ScanIgnoresFinalDot(t: Table, afterWord: bool, a: string)
    requires Valid(t)
    ensures Scan(t, afterWord, a + ".") == Scan(t, afterWord, a)
    decreases |a|
  {
    var s := a + ".";
    QuadIgnoresFinalDot(t, a, 3);
    if |a| == 0 {
      assert s[1..] == [];
    } else {
      var n, next := Advance(t, afterWord, a), Found(t, afterWord, a).Some? || a[0] in t.word;
      CutBeforeDot(a, n);
      ScanIgnoresFinalDot(t, next, a[n..]);
      ScanTogether(t, afterWord, s, a, n, next, []);
    }
  }

  lemma {:induction false} DotlessScansEmpty(t: Table, afterWord: bool, s: string)
    requires '.' !in s
    ensures Scan(t, afterWord, s) == []
    decreases |s|
  {
    if |s| > 0 {
      DotlessScansEmpty(t, s[0] in t.word, s[1..]);
    }
  }

  /** Two dots are too few for a quad. */
  lemma {:induction false} OneDotScansEmpty(t: Table, afterWord: bool, a: string, b: string)
    requires '.' !in a && '.' !in b
    ensures Scan(t, afterWord, a + "." + b) == []
    decreases |a|
  {
    var s := a + "." + b;
    if |a| == 0 {
      assert s[1..] == b;
      DotlessScansEmpty(t, s[0] in t.word, b);
    } else {
      assert s[1..] == a[1..] + "." + b;
      OneDotScansEmpty(t, s[0] in t.word, a[1..], b);
      NoQuadWithOneDot(t, a, b);
    }
  }

  lemma NoQuadWithOneDot(t: Table, a: string, b: string)
    requires '.' !in a && '.' !in b
    ensures QuadLength(t, a + "." + b, 3) == None
  {
    var s := a + "." + b;
    var n := Run(t, s);
    if 1 <= n <= 3 && n < |s| && s[n] == '.' {
      assert n == |a|;
      assert s[n + 1..] == b;
    }
  }

  /** Fixed wording between two interpolated texts: fenced at both ends and without dots. */
  ghost predicate Wording(t: Table, lit: string) {
    |lit| >= 1 && Fence(t, lit[0]) && Fence(t, lit[|lit| - 1]) && '.' !in lit
  }

  /** The scan of two texts around fixed wording is the two scans, one after the other. */
  lemma ScanAroundWording(t: Table, a: string, lit: string, b: string)
    requires Valid(t) && Wording(t, lit)
    ensures FindAll(t, a + lit + b) == FindAll(t, a) + FindAll(t, b)
  {
    if |lit| == 1 {
      ScanSplitsAtFence(t, false, a, lit[0], b);
      assert a + lit + b == a + [lit[0]] + b;
    } else {
      var mid, last := lit[1..|lit| - 1], lit[|lit| - 1];
      assert a + lit + b == a + [lit[0]] + (mid + [last] + b);
      ScanSplitsAtFence(t, false, a, lit[0], mid + [last] + b);
      ScanSplitsAtFence(t, false, mid, last, b);
      DotlessScansEmpty(t, false, mid);
    }
  }

  /** The same with a full stop before the wording. */
  lemma ScanAroundStop(t: Table, a: string, lit: string, b: string)
    requires Valid(t) && Wording(t, lit)
    ensures FindAll(t, a + "." + lit + b) == FindAll(t, a) + FindAll(t, b)
  {
    ScanIgnoresFinalDot(t, false, a);
    ScanAroundWording(t, a + ".", lit, b);
  }

  ghost predicate Opening(t: Table, lit: string) {
    |lit| >= 1 && '.' !in lit && Fence(t, lit[|lit| - 1])
  }

  /** Fixed wording in front of a text, and fixed wording behind one. */
  lemma ScanAfterOpening(t: Table, lit: string, b: string)
    requires Valid(t) && Opening(t, lit)
    ensures FindAll(t, lit + b) == FindAll(t, b)
  {
    var a, c := lit[..|lit| - 1], lit[|lit| - 1];
    assert lit + b == a + [c] + b;
    ScanSplitsAtFence(t, false, a, c, b);
    DotlessScansEmpty(t, false, a);
  }

  lemma ScanBeforeClosing(t: Table, a: string, lit: string)
    requires Valid(t) && |lit| >= 1 && '.' !in lit && Fence(t, lit[0])
    ensures FindAll(t, a + lit) == FindAll(t, a)
  {
    var c, b := lit[0], lit[1..];
    assert a + lit == a + [c] + b;
    ScanSplitsAtFence(t, false, a, c, b);
    DotlessScansEmpty(t, false, b);
  }

  /** Parts joined by fixed wording scan part by part. */
  lemma {:induction false} ScanJoin(t: Table, sep: string, parts: seq<string>)
    requires Valid(t) && Wording(t, sep)
    ensures FindAll(t, Join(sep, parts)) == FindEach(t, parts)
    decreases |parts|
  {
    if |parts| == 1 {
      assert FindEach(t, parts[1..]) == [];
    } else if |parts| > 1 {
      ScanAroundWording(t, parts[0], sep, Join(sep, parts[1..]));
      ScanJoin(t, sep, parts[1..]);
    }
  }

  /** The matches of several texts, each scanned on its own. */
  function FindEach(t: Table, parts: seq<string>): seq<string> {
    if |parts| == 0 then [] else FindAll(t, parts[0]) + FindEach(t, parts[1..])
  }

  lemma {:induction false} FindEachConcat(t: Table, a: seq<string>, b: seq<string>)
    ensures FindEach(t, a + b) == FindEach(t, a) + FindEach(t, b)
  {
    if |a| == 0 {
      assert a + b == b;
    } else {
      assert (a + b)[1..] == a[1..] + b;
      FindEachConcat(t, a[1..], b);
      assert FindEach(t, a + b) == FindAll(t, a[0]) + (FindEach(t, a[1..]) + FindEach(t, b));
    }
  }

  lemma {:induction false} FindEachElements(t: Table, parts: seq<string>, ip: string)
    ensures ip in FindEach(t, parts) <==> exists f :: f in parts && ip in FindAll(t, f)
  {
    if |parts| > 0 {
      FindEachElements(t, parts[1..], ip);
      assert parts == [parts[0]] + parts[1..];
    }
  }

  lemma FindPair(t: Table, a: string, b: string)
    ensures FindEach(t, [a, b]) == FindAll(t, a) + FindAll(t, b)
  {
    assert [a, b][1..] == [b] && [b][1..] == [];
    assert FindEach(t, []) == [];
    assert FindEach(t, [b]) == FindAll(t, b) + FindEach(t, [b][1..]);
  }

  lemma FindOne(t: Table, a: string)
    ensures FindEach(t, [a]) == FindAll(t, a)
  {
    assert [a][1..] == [];
  }

  // ----- What findall finds -----

  lemma {:induction false} QuadEndsInDigit(t: Table, s: string, k: nat, m: nat)
    requires QuadLength(t, s, k) == Some(m)
    ensures 0 < m <= |s| && s[m - 1] in t.digit
    decreases k
  {
    var n := Run(t, s);
    QuadParts(t, s, k, m, n);
    RunIsDigits(t, s);
    if k > 0 { QuadEndsInDigit(t, s[n + 1..], k - 1, m - n - 1); }
  }

  /** The length of the match that begins at i, when one does. */
  function HitAt(t: Table, s: string, i: nat): (m: Option<nat>)
    requires i < |s|
    ensures m.Some? ==> 0 < m.value <= |s| - i
  {
    if i > 0 && s[i - 1] in t.word then None else QuadLength(t, s[i..], 3)
  }

  function StepAt(t: Table, s: string, i: nat): (n: nat)
    requires i < |s|
    ensures i < n <= |s|
  {
    if HitAt(t, s, i).Some? then i + HitAt(t, s, i).value else i + 1
  }

  /** Where findall's matches stand, from position i on. */
  function Spans(t: Table, s: string, i: nat): seq<(nat, nat)>
    decreases |s| - i
  {
    if i >= |s| then [] else (if HitAt(t, s, i).Some? then [(i, StepAt(t, s, i))] else []) + Spans(t, s, StepAt(t, s, i))
  }

  function Texts(s: string, spans: seq<(nat, nat)>): seq<string>
    requires forall k :: 0 <= k < |spans| ==> spans[k].0 <= spans[k].1 <= |s|
  {
    if spans == [] then [] else [s[spans[0].0..spans[0].1]] + Texts(s, spans[1..])
  }

  /** The spans are matches. */
  lemma {:induction false} SpanIsMatch(t: Table, s: string, i: nat, p: nat, q: nat)
    requires (p, q) in Spans(t, s, i)
    ensures i <= p < q <= |s| && HitAt(t, s, p) == Some(q - p)
    decreases |s| - i
  {
    if !(HitAt(t, s, i).Some? && (p, q) == (i, StepAt(t, s, i))) { SpanIsMatch(t, s, StepAt(t, s, i), p, q); }
  }

  /** Every match in the text begins inside one of them; so one that begins inside no earlier one is among them. */
  lemma {:induction false} SpansCover(t: Table, s: string, i: nat, at: nat) returns (p: nat, q: nat)
    requires i <= at < |s| && HitAt(t, s, at).Some?
    ensures (p, q) in Spans(t, s, i) && p <= at < q
    decreases |s| - i
  {
    if HitAt(t, s, i).Some? && at < StepAt(t, s, i) {
      p, q := i, StepAt(t, s, i);
    } else {
      p, q := SpansCover(t, s, StepAt(t, s, i), at);
    }
  }

  lemma WordBeforeStep(t: Table, s: string, i: nat)
    requires t.digit <= t.word && i < |s| && HitAt(t, s, i).Some?
    ensures s[StepAt(t, s, i) - 1] in t.word
  {
    var m := HitAt(t, s, i).value;
    QuadEndsInDigit(t, s[i..], 3, m);
    assert s[i..][m - 1] == s[i + m - 1];
  }

  /** The scan's result from position i on, knowing what precedes it. */
  function ScanFrom(t: Table, s: string, i: nat): seq<string>
    requires i <= |s|
  {
    Scan(t, i > 0 && s[i - 1] in t.word, s[i..])
  }

  lemma ScanOnce(t: Table, afterWord: bool, u: string, n: nat)
    requires u != "" && Found(t, afterWord, u) == Some(n)
    ensures Scan(t, afterWord, u) == [u[..n]] + Scan(t, true, u[n..])
  {
  }

  lemma ScanPast(t: Table, afterWord: bool, u: string)
    requires u != "" && Found(t, afterWord, u) == None
    ensures Scan(t, afterWord, u) == Scan(t, u[0] in t.word, u[1..])
  {
  }

  lemma HitInScan(t: Table, s: string, i: nat)
    requires t.digit <= t.word && i < |s| && HitAt(t, s, i).Some?
    ensures ScanFrom(t, s, i) == [s[i..StepAt(t, s, i)]] + ScanFrom(t, s, StepAt(t, s, i))
  {
    var m := HitAt(t, s, i).value;
    WordBeforeStep(t, s, i);
    ScanOnce(t, i > 0 && s[i - 1] in t.word, s[i..], m);
    assert s[i..][..m] == s[i..i + m] && s[i..][m..] == s[i + m..];
  }

  lemma MissInScan(t: Table, s: string, i: nat)
    requires i < |s| && HitAt(t, s, i).None?
    ensures ScanFrom(t, s, i) == ScanFrom(t, s, i + 1)
  {
    ScanPast(t, i > 0 && s[i - 1] in t.word, s[i..]);
    assert s[i..][1..] == s[i + 1..];
  }

  lemma TextsOfMore(s: string, p: nat, q: nat, spans: seq<(nat, nat)>)
    requires p <= q <= |s| && forall k :: 0 <= k < |spans| ==> spans[k].0 <= spans[k].1 <= |s|
    ensures Texts(s, [(p, q)] + spans) == [s[p..q]] + Texts(s, spans)
  {
    assert ([(p, q)] + spans)[1..] == spans;
  }

  ghost predicate SpansIn(s: string, spans: seq<(nat, nat)>) {
    forall k :: 0 <= k < |spans| ==> spans[k].0 <= spans[k].1 <= |s|
  }

  lemma SpansAreIn(t: Table, s: string, i: nat)
    ensures SpansIn(s, Spans(t, s, i))
  {
    var spans := Spans(t, s, i);
    forall k | 0 <= k < |spans| ensures spans[k].0 <= spans[k].1 <= |s| {
      assert (spans[k].0, spans[k].1) in spans;
      SpanIsMatch(t, s, i, spans[k].0, spans[k].1);
    }
  }

  /** The scan lists their texts. */
  lemma {:induction false} SpansAreScan(t: Table, s: string, i: nat)
    requires t.digit <= t.word && i <= |s|
    ensures SpansIn(s, Spans(t, s, i)) && ScanFrom(t, s, i) == Texts(s, Spans(t, s, i))
    decreases |s| - i
  {
    SpansAreIn(t, s, i);
    if i == |s| {
      assert s[i..] == "";
    } else if HitAt(t, s, i).Some? {
      SpansAreScan(t, s, StepAt(t, s, i));
      HitInScan(t, s, i);
      TextsOfMore(s, i, StepAt(t, s, i), Spans(t, s, StepAt(t, s, i)));
    } else {
      SpansAreScan(t, s, i + 1);
      MissInScan(t, s, i);
      assert Spans(t, s, i) == Spans(t, s, i + 1);
    }
  }

  lemma FindAllIsSpans(t: Table, s: string)
    requires t.digit <= t.word
    ensures SpansIn(s, Spans(t, s, 0)) && FindAll(t, s) == Texts(s, Spans(t, s, 0))
  {
    SpansAreScan(t, s, 0);
    assert s[0..] == s;
  }

  lemma {:induction false} TextOf(s: string, spans: seq<(nat, nat)>, p: nat, q: nat)
    requires SpansIn(s, spans) && (p, q) in spans
    ensures p <= q <= |s| && s[p..q] in Texts(s, spans)
  {
    if spans[0] != (p, q) { TextOf(s, spans[1..], p, q); }
  }

  lemma {:induction false} TextFrom(s: string, spans: seq<(nat, nat)>, x: string) returns (p: nat, q: nat)
    requires SpansIn(s, spans) && x in Texts(s, spans)
    ensures (p, q) in spans && p <= q <= |s| && s[p..q] == x
  {
    if x == s[spans[0].0..spans[0].1] { p, q := spans[0].0, spans[0].1; } else { p, q := TextFrom(s, spans[1..], x); }
  }

  /** Whatever findall lists, every match in the text begins inside a listed one. */
  lemma MatchIsCovered(t: Table, s: string, i: nat) returns (p: nat, q: nat)
    requires t.digit <= t.word && i < |s| && HitAt(t, s, i).Some?
    ensures p <= i < q <= |s| && HitAt(t, s, p) == Some(q - p) && s[p..q] in FindAll(t, s)
  {
    p, q := SpansCover(t, s, 0, i);
    SpanIsMatch(t, s, 0, p, q);
    FindAllIsSpans(t, s);
    TextOf(s, Spans(t, s, 0), p, q);
  }

  /** And what it lists are matches in the text. */
  lemma FoundIsMatch(t: Table, s: string, x: string) returns (p: nat, q: nat)
    requires t.digit <= t.word && x in FindAll(t, s)
    ensures p < q <= |s| && HitAt(t, s, p) == Some(q - p) && s[p..q] == x
  {
    FindAllIsSpans(t, s);
    p, q := TextFrom(s, Spans(t, s, 0), x);
    SpanIsMatch(t, s, 0, p, q);
  }
}
