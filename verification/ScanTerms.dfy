/** What the content scan refuses, said of the texts themselves. */
module ScanTerms {
  import opened Text
  import opened JsonValue
  import opened Numerals
  import opened IpScan
  import opened ContentScan

  // `P(x) == true` in a contract hands the fact on unopened, which keeps the caller's proof small.

  // ----- Addresses -----

  lemma {:induction false} DecimalOfOctet(n: nat)
    requires n < 256
    ensures IsOctet(Decimal(n))
  {
    assert forall d: nat :: d < 10 ==> DigitChar(d) == '0' + d as char;
    if n >= 10 {
      assert Decimal(n) == Decimal(n / 10) + [DigitChar(n % 10)];
      if n >= 100 {
        assert Decimal(n / 10) == [DigitChar(n / 100)] + [DigitChar(n / 10 % 10)];
      }
    }
  }

  function Digit(c: char): nat
    requires '0' <= c <= '9'
  {
    (c - '0') as nat
  }

  lemma DigitIs(c: char)
    requires '0' <= c <= '9'
    ensures Digit(c) < 10 && DigitChar(Digit(c)) == c
  {
  }

  lemma OctetOfDecimal(s: string) returns (n: nat)
    requires IsOctet(s)
    ensures n < 256 && Decimal(n) == s
  {
    DigitIs(s[0]);
    if |s| == 1 {
      n := Digit(s[0]);
      assert s == [s[0]];
    } else if |s| == 2 {
      DigitIs(s[1]);
      n := 10 * Digit(s[0]) + Digit(s[1]);
      assert n / 10 == Digit(s[0]) && n % 10 == Digit(s[1]) && s == [s[0]] + [s[1]];
    } else {
      DigitIs(s[1]);
      DigitIs(s[2]);
      var m := 10 * Digit(s[0]) + Digit(s[1]);
      n := 10 * m + Digit(s[2]);
      assert m / 10 == Digit(s[0]) && m % 10 == Digit(s[1]) && n / 10 == m && n % 10 == Digit(s[2]);
      assert Decimal(m) == [s[0]] + [s[1]];
      assert s == [s[0]] + [s[1]] + [s[2]];
    }
  }

  /** The dotted decimal text of four numbers. */
  function Dotted(a: nat, b: nat, c: nat, d: nat): string {
    Decimal(a) + "." + (Decimal(b) + "." + (Decimal(c) + "." + Decimal(d)))
  }

  lemma {:induction false} PartLengthIs(x: string, rest: string)
    requires '.' !in x && (rest == "" || rest[0] == '.')
    ensures PartLength(x + rest) == |x|
  {
    if x != "" {
      assert (x + rest)[1..] == x[1..] + rest;
      PartLengthIs(x[1..], rest);
    }
  }

  lemma PartsOfMore(x: string, rest: string)
    requires '.' !in x
    ensures Parts(x + "." + rest) == [x] + Parts(rest) && Parts(x) == [x]
  {
    PartLengthIs(x, "." + rest);
    PartLengthIs(x, "");
    assert x + "." + rest == x + ("." + rest) && x + "" == x;
    assert (x + "." + rest)[|x| + 1..] == rest && (x + "." + rest)[..|x|] == x;
  }

  lemma DottedParts(a: nat, b: nat, c: nat, d: nat)
    ensures Parts(Dotted(a, b, c, d)) == [Decimal(a), Decimal(b), Decimal(c), Decimal(d)]
  {
    PartsOfMore(Decimal(c), Decimal(d));
    PartsOfMore(Decimal(d), "");
    PartsOfMore(Decimal(b), Decimal(c) + "." + Decimal(d));
    PartsOfMore(Decimal(a), Decimal(b) + "." + (Decimal(c) + "." + Decimal(d)));
  }

  lemma PartsOfFirst(s: string) returns (rest: string)
    requires |Parts(s)| > 1
    ensures s == Parts(s)[0] + "." + rest && Parts(s) == [Parts(s)[0]] + Parts(rest)
  {
    var n := PartLength(s);
    rest := s[n + 1..];
    assert s == s[..n] + [s[n]] + s[n + 1..];
  }

  lemma OnlyPart(s: string)
    requires |Parts(s)| == 1
    ensures Parts(s) == [s]
  {
  }

  lemma AddressNumbers(s: string) returns (a: nat, b: nat, c: nat, d: nat)
    requires |Parts(s)| == 4 && AllOctets(Parts(s)) == true
    ensures a < 256 && b < 256 && c < 256 && d < 256 && s == Dotted(a, b, c, d)
  {
    var p := Parts(s);
    assert IsOctet(p[0]) && IsOctet(p[1]) && IsOctet(p[2]) && IsOctet(p[3]);
    a := OctetOfDecimal(p[0]);
    b := OctetOfDecimal(p[1]);
    c := OctetOfDecimal(p[2]);
    d := OctetOfDecimal(p[3]);
    FourParts(s);
  }

  lemma FourParts(s: string)
    requires |Parts(s)| == 4
    ensures var p := Parts(s); s == p[0] + "." + (p[1] + "." + (p[2] + "." + p[3]))
  {
    var s1 := PartsOfFirst(s);
    var s2 := PartsOfFirst(s1);
    var s3 := PartsOfFirst(s2);
    OnlyPart(s3);
    assert Parts(s)[1] == Parts(s1)[0];
    assert Parts(s)[2] == Parts(s1)[1] == Parts(s2)[0];
    assert Parts(s)[3] == Parts(s1)[2] == Parts(s2)[1] == s3;
  }

  lemma DottedIsAddress(a: nat, b: nat, c: nat, d: nat)
    requires a < 256 && b < 256 && c < 256 && d < 256
    ensures IsAddress(Dotted(a, b, c, d)) == true
  {
    DottedParts(a, b, c, d);
    DecimalOfOctet(a);
    DecimalOfOctet(b);
    DecimalOfOctet(c);
    DecimalOfOctet(d);
  }

  /** The dotted decimal text of four numbers below 256. */
  ghost predicate DottedNumbers(s: string) {
    exists a: nat, b: nat, c: nat, d: nat :: a < 256 && b < 256 && c < 256 && d < 256 && s == Dotted(a, b, c, d)
  }

  /** These are the addresses. */
  lemma AddressIs(s: string)
    ensures IsAddress(s) <==> DottedNumbers(s)
  {
    if IsAddress(s) {
      var a, b, c, d := AddressNumbers(s);
    }
    if a: nat, b: nat, c: nat, d: nat :| a < 256 && b < 256 && c < 256 && d < 256 && s == Dotted(a, b, c, d) {
      DottedIsAddress(a, b, c, d);
    }
  }

  // ----- Sensitive texts -----

  /** c is p in either case, or one of the four letters of other alphabets that IGNORECASE takes for k, s and i. */
  predicate SameLetter(c: char, p: char) {
    || c == p || ('a' <= p <= 'z' && c == p - 'a' + 'A') || (p == 'k' && c == '\U{212A}') || (p == 's' && c == '\U{017F}')
    || (p == 'i' && c in {'\U{0130}', '\U{0131}'})
  }

  predicate SamePhrase(x: string, w: string) { |x| == |w| && forall k :: 0 <= k < |w| ==> SameLetter(x[k], w[k]) }

  const PAIRS := {("top", "secret"), ("raw", "secret"), ("command", "line")}

  ghost predicate SensitivePhrase(w: string) {
    w == "password" || exists p, sep :: p in PAIRS && sep in {"", "-", "_", " "} && w == p.0 + sep + p.1
  }

  ghost predicate HoldsPhrase(s: string) {
    exists pre, x, post, w :: s == pre + x + post && SensitivePhrase(w) && SamePhrase(x, w)
  }

  /** An address with neither a word character nor a dot on either side. */
  ghost predicate AddressBetween(t: Table, pre: string, x: string, post: string) {
    && DottedNumbers(x) && (pre != "" ==> pre[|pre| - 1] !in t.word + {'.'}) && (post != "" ==> post[0] !in t.word + {'.'})
  }

  ghost predicate HoldsAddress(t: Table, s: string) {
    exists pre, x, post :: s == pre + x + post && AddressBetween(t, pre, x, post)
  }

  ghost predicate StartsAsPath(s: string) {
    || "/" <= s
    || exists letter: char, slash: char :: ('a' <= letter <= 'z' || 'A' <= letter <= 'Z') && slash in "\\/" && [letter, ':', slash] <= s
  }

  lemma PhraseIsMarker(w: string)
    ensures SensitivePhrase(w) <==> w in MARKERS
  {
    assert MARKERS[0] == "top" + "" + "secret" && MARKERS[1] == "top" + "-" + "secret";
    assert MARKERS[2] == "top" + "_" + "secret" && MARKERS[3] == "top" + " " + "secret";
    assert MARKERS[5] == "raw" + "" + "secret" && MARKERS[6] == "raw" + "-" + "secret";
    assert MARKERS[7] == "raw" + "_" + "secret" && MARKERS[8] == "raw" + " " + "secret";
    assert MARKERS[9] == "command" + "" + "line" && MARKERS[10] == "command" + "-" + "line";
    assert MARKERS[11] == "command" + "_" + "line" && MARKERS[12] == "command" + " " + "line";
  }

  lemma MarkerLetter(c: char, w: string, k: nat)
    requires w in MARKERS && k < |w|
    ensures FoldsTo(c, w[k]) <==> SameLetter(c, w[k])
  {
    assert 'a' <= w[k] <= 'z' || w[k] in {'-', '_', ' '};
  }

  lemma PhraseIs(s: string)
    ensures HasMarker(s) <==> HoldsPhrase(s)
  {
    if HasMarker(s) {
      var m, i :| 0 <= m < |MARKERS| && 0 <= i <= |s| && OccursFolded(s, MARKERS[m], i);
      MarkerHeld(s, MARKERS[m], i);
    }
    if pre, x, post, w :| s == pre + x + post && SensitivePhrase(w) && SamePhrase(x, w) {
      PhraseMarks(pre, x, post, w);
    }
  }

  lemma MarkerHeld(s: string, w: string, i: nat)
    requires w in MARKERS && OccursFolded(s, w, i)
    ensures HoldsPhrase(s)
  {
    PhraseIsMarker(w);
    var x := s[i..i + |w|];
    forall k | 0 <= k < |w| ensures SameLetter(x[k], w[k]) { MarkerLetter(s[i + k], w, k); }
    assert s == s[..i] + x + s[i + |w|..];
  }

  lemma PhraseMarks(pre: string, x: string, post: string, w: string)
    requires SensitivePhrase(w) && SamePhrase(x, w)
    ensures HasMarker(pre + x + post)
  {
    PhraseIsMarker(w);
    var s := pre + x + post;
    forall k | 0 <= k < |w| ensures FoldsTo(s[|pre| + k], w[k]) { MarkerLetter(x[k], w, k); }
    assert OccursFolded(s, w, |pre|);
  }

  lemma HeldAddressIs(t: Table, s: string)
    ensures HasAddress(t, s) <==> HoldsAddress(t, s)
  {
    if HasAddress(t, s) {
      var i, j :| 0 <= i <= |s| && 0 <= j <= |s| && AddressAt(t, s, i, j);
      AddressHeld(t, s, i, j);
    }
    if pre, x, post :| s == pre + x + post && AddressBetween(t, pre, x, post) {
      HeldAddress(t, pre, x, post);
    }
  }

  lemma AddressHeld(t: Table, s: string, i: nat, j: nat)
    requires AddressAt(t, s, i, j)
    ensures HoldsAddress(t, s)
  {
    var pre, x, post := s[..i], s[i..j], s[j..];
    AddressIs(x);
    assert s == pre + x + post && AddressBetween(t, pre, x, post);
  }

  lemma HeldAddress(t: Table, pre: string, x: string, post: string)
    requires AddressBetween(t, pre, x, post)
    ensures HasAddress(t, pre + x + post)
  {
    AddressIs(x);
    var s, i, j := pre + x + post, |pre|, |pre| + |x|;
    assert s[i..j] == x;
    assert AddressAt(t, s, i, j) by { PartsAreLong(x); }
  }

  lemma PathIs(s: string)
    ensures IsPath(s) <==> StartsAsPath(s)
  {
    if IsPath(s) && s[0] != '/' {
      assert [s[0], ':', s[2]] <= s;
    }
  }

  /** A text is refused exactly when it starts as a path, holds a sensitive phrase in some case, or holds an address. */
  lemma SensitiveIs(u: Unicode, s: string)
    ensures Sensitive(u, s) <==> StartsAsPath(s) || HoldsPhrase(s) || HoldsAddress(u.table, s)
  {
    PathIs(s);
    PhraseIs(s);
    HeldAddressIs(u.table, s);
  }

  // ----- Keys in every spelling -----

  /** Small letters, digits and underscores, beginning with a letter. */
  predicate SmallWord(w: string) { w != "" && 'a' <= w[0] <= 'z' && forall i :: 0 <= i < |w| ==> PlainCharacter(w[i]) }

  predicate SmallWords(words: seq<string>) { forall i :: 0 <= i < |words| ==> SmallWord(words[i]) }

  function Capitalized(w: string): string
    requires w != "" && 'a' <= w[0] <= 'z'
  {
    [w[0] - 'a' + 'A'] + w[1..]
  }

  function Camel(words: seq<string>): string
    requires SmallWords(words)
  {
    if words == [] then "" else Capitalized(words[0]) + Camel(words[1..])
  }

  /** Every word behind an underscore. */
  function Behind(words: seq<string>): string {
    if words == [] then "" else "_" + words[0] + Behind(words[1..])
  }

  lemma {:induction false} JoinIsBehind(first: string, words: seq<string>)
    ensures Join("_", [first] + words) == first + Behind(words)
    decreases |words|
  {
    assert ([first] + words)[1..] == words;
    if words != [] {
      JoinIsBehind(words[0], words[1..]);
      assert words == [words[0]] + words[1..];
    }
  }

  /** w stands in s at i. */
  ghost predicate Here(s: string, i: nat, w: string) { i + |w| <= |s| && forall k :: 0 <= k < |w| ==> s[i + k] == w[k] }

  predicate Plain(w: string) { forall k :: 0 <= k < |w| ==> PlainCharacter(w[k]) }

  /** Small letters are read as they are, from the k-th of w on. */
  lemma {:induction false} PlainFrom(u: Unicode, s: string, i: nat, w: string, k: nat)
    requires ValidUnicode(u) == true && Here(s, i, w) == true && Plain(w) == true && k <= |w|
    ensures NormalizedFrom(u, s, i + k) == w[k..] + NormalizedFrom(u, s, i + |w|)
    decreases |w| - k
  {
    if k < |w| {
      PlainFrom(u, s, i, w, k + 1);
      PlainAt(u, s, i, w, k);
      FirstAndMore(w, k, NormalizedFrom(u, s, i + |w|));
    }
  }

  lemma PlainWord(u: Unicode, s: string, i: nat, w: string)
    requires ValidUnicode(u) == true && Here(s, i, w) == true && Plain(w) == true
    ensures NormalizedFrom(u, s, i) == w + NormalizedFrom(u, s, i + |w|)
  {
    PlainFrom(u, s, i, w, 0);
    assert w[0..] == w && i + 0 == i;
  }

  lemma FirstAndMore(w: string, k: nat, rest: string)
    requires k < |w|
    ensures [w[k]] + (w[k + 1..] + rest) == w[k..] + rest
  {
  }

  lemma PlainAt(u: Unicode, s: string, i: nat, w: string, k: nat)
    requires ValidUnicode(u) == true && Here(s, i, w) == true && Plain(w) == true && k < |w|
    ensures i + k < |s| && NormalizedFrom(u, s, i + k) == [w[k]] + NormalizedFrom(u, s, i + (k + 1))
  {
    assert s[i + k] == w[k];
    PlainLetter(u, s, i + k);
  }

  lemma PlainLetter(u: Unicode, s: string, i: nat)
    requires ValidUnicode(u) && i < |s| && PlainCharacter(s[i])
    ensures NormalizedFrom(u, s, i) == [s[i]] + NormalizedFrom(u, s, i + 1)
  {
    assert u.fold(s[i]) == [s[i]];
  }

  lemma CapitalLetter(u: Unicode, s: string, i: nat)
    requires ValidUnicode(u) && i < |s| && Capital(s[i])
    ensures NormalizedFrom(u, s, i) == (if i == 0 then "" else "_") + [s[i] - 'A' + 'a'] + NormalizedFrom(u, s, i + 1)
  {
    assert u.fold(s[i]) == [s[i] - 'A' + 'a'];
  }

  lemma FirstAndRest(sep: string, w: string, rest: string)
    requires w != ""
    ensures sep + [w[0]] + (w[1..] + rest) == sep + w + rest
  {
  }

  lemma Tail(s: string, i: nat, w: string)
    requires SmallWord(w) && Here(s, i, Capitalized(w)) == true
    ensures Here(s, i + 1, w[1..]) == true && Plain(w[1..]) == true
    ensures i < |s| && Capital(s[i]) && s[i] - 'A' + 'a' == w[0]
  {
    var x := Capitalized(w);
    assert s[i + 0] == x[0];
    forall k | 0 <= k < |w[1..]| ensures s[i + 1 + k] == w[1..][k] { assert s[i + (k + 1)] == x[k + 1]; }
  }

  lemma CapitalFrom(u: Unicode, s: string, i: nat, w: string)
    requires ValidUnicode(u) == true && SmallWord(w) && Here(s, i, Capitalized(w)) == true
    ensures NormalizedFrom(u, s, i) == (if i == 0 then "" else "_") + w + NormalizedFrom(u, s, i + |w|)
  {
    Tail(s, i, w);
    CapitalLetter(u, s, i);
    PlainWord(u, s, i + 1, w[1..]);
    FirstAndRest(if i == 0 then "" else "_", w, NormalizedFrom(u, s, i + |w|));
  }

  lemma Between(a: string, x: string, b: string)
    ensures Here(a + x + b, |a|, x) == true
  {
  }

  lemma CapitalStep(u: Unicode, a: string, w: string, b: string)
    requires ValidUnicode(u) == true && SmallWord(w) == true && a != ""
    ensures var s := a + Capitalized(w) + b; NormalizedFrom(u, s, |a|) == "_" + w + NormalizedFrom(u, s, |a + Capitalized(w)|)
  {
    Between(a, Capitalized(w), b);
    CapitalFrom(u, a + Capitalized(w) + b, |a|, w);
  }

  lemma {:induction false} CamelBehind(u: Unicode, a: string, words: seq<string>)
    requires ValidUnicode(u) == true && SmallWords(words) && a != ""
    ensures NormalizedFrom(u, a + Camel(words), |a|) == Behind(words)
    decreases |words|
  {
    if words != [] {
      CamelParts(a, words);
      CapitalStep(u, a, words[0], Camel(words[1..]));
      CamelBehind(u, a + Capitalized(words[0]), words[1..]);
    }
  }

  lemma CamelParts(a: string, words: seq<string>)
    requires words != [] && SmallWords(words)
    ensures a + Camel(words) == a + Capitalized(words[0]) + Camel(words[1..])
  {
  }

  /** A camel-case key is normalised to its words joined by underscores, whether its first letter is small or a capital. */
  lemma CamelIsSnake(u: Unicode, first: string, words: seq<string>)
    requires ValidUnicode(u) && SmallWord(first) && SmallWords(words)
    ensures NormalizedFieldName(u, first + Camel(words)) == Join("_", [first] + words)
    ensures NormalizedFieldName(u, Capitalized(first) + Camel(words)) == Join("_", [first] + words)
  {
    JoinIsBehind(first, words);
    CamelBehind(u, first, words);
    FirstWord(u, first, Camel(words));
    CamelBehind(u, Capitalized(first), words);
    FirstCapital(u, first, Camel(words));
  }

  lemma AtStart(x: string, b: string)
    ensures Here(x + b, 0, x) == true
  {
  }

  lemma WordIsPlain(w: string)
    requires SmallWord(w)
    ensures Plain(w) == true
  {
  }

  lemma FirstWord(u: Unicode, w: string, b: string)
    requires ValidUnicode(u) == true && SmallWord(w) == true
    ensures NormalizedFieldName(u, w + b) == w + NormalizedFrom(u, w + b, |w|)
  {
    AtStart(w, b);
    WordIsPlain(w);
    PlainWord(u, w + b, 0, w);
  }

  lemma FirstCapital(u: Unicode, w: string, b: string)
    requires ValidUnicode(u) == true && SmallWord(w)
    ensures NormalizedFieldName(u, Capitalized(w) + b) == w + NormalizedFrom(u, Capitalized(w) + b, |w|)
  {
    AtStart(Capitalized(w), b);
    CapitalFrom(u, Capitalized(w) + b, 0, w);
  }

  function Hyphened(words: seq<string>): string {
    if words == [] then "" else "-" + words[0] + Hyphened(words[1..])
  }

  lemma HyphenLetter(u: Unicode, s: string, i: nat)
    requires ValidUnicode(u) && i < |s| && s[i] == '-'
    ensures NormalizedFrom(u, s, i) == "_" + NormalizedFrom(u, s, i + 1)
  {
    assert u.fold('_') == "_";
  }

  lemma HyphenStep(u: Unicode, a: string, w: string, b: string)
    requires ValidUnicode(u) == true && SmallWord(w) == true
    ensures var s := a + "-" + w + b; NormalizedFrom(u, s, |a|) == "_" + w + NormalizedFrom(u, s, |a + "-" + w|)
  {
    var s := a + "-" + w + b;
    assert s[|a|] == '-';
    HyphenLetter(u, s, |a|);
    Between(a + "-", w, b);
    PlainWord(u, s, |a + "-"|, w);
    Regroup("_", w, NormalizedFrom(u, s, |a + "-" + w|));
  }

  lemma HyphenedParts(a: string, words: seq<string>)
    requires words != []
    ensures a + Hyphened(words) == a + "-" + words[0] + Hyphened(words[1..])
  {
  }

  lemma {:induction false} HyphenedBehind(u: Unicode, a: string, words: seq<string>)
    requires ValidUnicode(u) == true && SmallWords(words)
    ensures NormalizedFrom(u, a + Hyphened(words), |a|) == Behind(words)
    decreases |words|
  {
    if words != [] {
      HyphenedParts(a, words);
      HyphenStep(u, a, words[0], Hyphened(words[1..]));
      HyphenedBehind(u, a + "-" + words[0], words[1..]);
    }
  }

  /** Hyphens are normalised to underscores. */
  lemma HyphensAreUnderscores(u: Unicode, first: string, words: seq<string>)
    requires ValidUnicode(u) && SmallWord(first) && SmallWords(words)
    ensures NormalizedFieldName(u, first + Hyphened(words)) == Join("_", [first] + words)
  {
    JoinIsBehind(first, words);
    HyphenedBehind(u, first, words);
    FirstWord(u, first, Hyphened(words));
  }

  // ----- Every depth -----

  /** A key of some object, or a text value, at any depth. */
  predicate HoldsKey(j: Json, key: string) {
    match j
    case JObj(fields) => key in fields || exists k :: k in fields && HoldsKey(fields[k], key)
    case JList(items) => exists i :: 0 <= i < |items| && HoldsKey(items[i], key)
    case _ => false
  }

  predicate HoldsText(j: Json, s: string) {
    match j
    case JObj(fields) => exists k :: k in fields && HoldsText(fields[k], s)
    case JList(items) => exists i :: 0 <= i < |items| && HoldsText(items[i], s)
    case JText(text) => text == s
    case _ => false
  }

  ghost predicate Refused(u: Unicode, j: Json, s: string) {
    || (HoldsKey(j, s) && (NormalizedFieldName(u, s) in FORBIDDEN_REPORT_KEYS || Sensitive(u, s)))
    || (HoldsText(j, s) && Sensitive(u, s))
  }

  /** The scan refuses exactly the contents that hold, at some depth, a forbidden or sensitive key or a sensitive text. */
  lemma {:induction false} SanitizedIs(u: Unicode, j: Json)
    ensures Sanitized(u, j) <==> forall s :: !Refused(u, j, s)
  {
    match j
    case JObj(fields) =>
      forall k | k in fields ensures Sanitized(u, fields[k]) <==> forall s :: !Refused(u, fields[k], s) { SanitizedIs(u, fields[k]); }
      ObjectRefused(u, fields);
    case JList(items) =>
      forall i | 0 <= i < |items| ensures Sanitized(u, items[i]) <==> forall s :: !Refused(u, items[i], s) { SanitizedIs(u, items[i]); }
      ListRefused(u, items);
    case JText(text) => assert Refused(u, j, text) <==> Sensitive(u, text);
    case _ =>
  }

  lemma ObjectRefused(u: Unicode, fields: map<string, Json>)
    ensures (exists s :: Refused(u, JObj(fields), s)) <==>
      ((exists k :: k in fields && !KeyAllowed(u, k)) || exists k, s :: k in fields && Refused(u, fields[k], s))
  {
    if s :| Refused(u, JObj(fields), s) {
      if s in fields && !KeyAllowed(u, s) {
      } else {
        var k :| k in fields && Refused(u, fields[k], s);
      }
    }
    if k :| k in fields && !KeyAllowed(u, k) { assert Refused(u, JObj(fields), k); }
    if k, s :| k in fields && Refused(u, fields[k], s) { assert Refused(u, JObj(fields), s); }
  }

  lemma ListRefused(u: Unicode, items: seq<Json>)
    ensures (exists s :: Refused(u, JList(items), s)) <==> exists i, s :: 0 <= i < |items| && Refused(u, items[i], s)
  {
    if s :| Refused(u, JList(items), s) { var i :| 0 <= i < |items| && Refused(u, items[i], s); }
    if i, s :| 0 <= i < |items| && Refused(u, items[i], s) { assert Refused(u, JList(items), s); }
  }
}
