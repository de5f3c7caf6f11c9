/** The audit's scan of report contents for forbidden keys, sensitive words, paths and addresses. */
module ContentScan {
  import opened Text
  import opened JsonValue
  import opened IpScan

  // `P(x) == true` in a contract hands the fact on unopened, which keeps the caller's proof small.

  /** What the scan takes from Unicode: the regex classes and str.casefold, character by character. */
  datatype Unicode = Unicode(table: Table, fold: char -> string)

  /** Every version agrees on ASCII, and no character folds to nothing. */
  ghost predicate ValidUnicode(u: Unicode) {
    && Valid(u.table)
    && (forall c: char :: c < 128 as char ==> u.fold(c) == [LowerChar(c)])
    && forall c: char :: u.fold(c) != ""
  }

  const FORBIDDEN_REPORT_KEYS := {
    "row", "rows", "complete_row", "complete_rows", "raw_row", "raw_rows", "raw_value", "raw_values", "src_ip", "dst_ip",
    "source_ip", "destination_ip", "command_line", "username", "user", "password", "secret", "process_guid"}

  predicate Capital(c: char) { 'A' <= c <= 'Z' }

  /** _normalized_field_name from position i on: an underscore before every capital but the first character,
      hyphens as underscores, and case folded. */
  function NormalizedFrom(u: Unicode, s: string, i: nat): string
    decreases |s| - i
  {
    if i >= |s| then ""
    else (if i > 0 && Capital(s[i]) then "_" else "") + u.fold(if s[i] == '-' then '_' else s[i]) + NormalizedFrom(u, s, i + 1)
  }

  function NormalizedFieldName(u: Unicode, s: string): string { NormalizedFrom(u, s, 0) }

  /** The alternatives of the sensitive-word pattern, written out. */
  const MARKERS: seq<string> := [
    "topsecret", "top-secret", "top_secret", "top secret", "password", "rawsecret", "raw-secret", "raw_secret", "raw secret",
    "commandline", "command-line", "command_line", "command line"]

  predicate HasMarker(s: string) {
    exists m, i :: 0 <= m < |MARKERS| && 0 <= i <= |s| && OccursFolded(s, MARKERS[m], i)
  }

  predicate IsPath(s: string) {
    || (s != "" && s[0] == '/')
    || (|s| >= 3 && ('a' <= LowerChar(s[0]) <= 'z') && s[1] == ':' && s[2] in {'\\', '/'})
  }

  // ----- Addresses -----

  function Parts(s: string): (r: seq<string>)
    ensures r != []
    decreases |s|
  {
    var n := PartLength(s);
    if n == |s| then [s] else [s[..n]] + Parts(s[n + 1..])
  }

  function PartLength(s: string): (n: nat)
    ensures n <= |s| && '.' !in s[..n] && (n < |s| ==> s[n] == '.')
  {
    if s == "" || s[0] == '.' then 0 else 1 + PartLength(s[1..])
  }

  /** One to three ASCII digits without a leading zero, at most 255. */
  predicate IsOctet(s: string) {
    && 1 <= |s| <= 3 && (forall i :: 0 <= i < |s| ==> AsciiDigit(s[i])) && (|s| > 1 ==> s[0] != '0')
    && (|s| == 3 ==> s[0] == '1' || (s[0] == '2' && (s[1] < '5' || (s[1] == '5' && s[2] <= '5'))))
  }

  /** What ipaddress accepts of the pattern's matches. */
  predicate IsAddress(s: string) {
    |Parts(s)| == 4 && AllOctets(Parts(s))
  }

  predicate AllOctets(parts: seq<string>) { forall i :: 0 <= i < |parts| ==> IsOctet(parts[i]) }

  predicate Bounded(t: Table, c: char) { c !in t.word && c != '.' }

  /** s[i..j] is an address with no word character or dot on either side. */
  predicate AddressAt(t: Table, s: string, i: nat, j: nat) {
    && i < j <= |s| && IsAddress(s[i..j])
    && (i > 0 ==> Bounded(t, s[i - 1])) && (j < |s| ==> Bounded(t, s[j]))
  }

  predicate HasAddress(t: Table, s: string) {
    exists i, j :: 0 <= i <= |s| && 0 <= j <= |s| && AddressAt(t, s, i, j)
  }

  // ----- The scan -----

  /** _string_is_sensitive. */
  predicate Sensitive(u: Unicode, s: string) { IsPath(s) || HasMarker(s) || HasAddress(u.table, s) }

  predicate KeyAllowed(u: Unicode, key: string) {
    NormalizedFieldName(u, key) !in FORBIDDEN_REPORT_KEYS && !Sensitive(u, key)
  }

  /** _sensitive_content_errors finds none. */
  predicate Sanitized(u: Unicode, j: Json) {
    match j
    case JObj(fields) => forall k :: k in fields ==> KeyAllowed(u, k) && Sanitized(u, fields[k])
    case JList(items) => forall i :: 0 <= i < |items| ==> Sanitized(u, items[i])
    case JText(s) => !Sensitive(u, s)
    case _ => true
  }

  // ----- Addresses match the pattern -----

  lemma OctetIsFirstRun(t: Table, s: string, n: nat)
    requires Valid(t) == true && n <= |s| && IsOctet(s[..n]) == true && (n < |s| ==> s[n] == '.')
    ensures Run(t, s) == n && 1 <= n <= 3
  {
    DotIsNoWord(t);
    forall i | 0 <= i < n ensures s[i] in t.digit { assert s[..n][i] == s[i] && s[i] < 128 as char; }
    DigitsAreRun(t, s, n);
  }

  lemma PartsAfterFirst(s: string, n: nat)
    requires n == PartLength(s) && n < |s| && AllOctets(Parts(s)) == true
    ensures IsOctet(s[..n]) == true && AllOctets(Parts(s[n + 1..])) == true && |Parts(s)| == 1 + |Parts(s[n + 1..])|
  {
    var parts, rest := Parts(s), Parts(s[n + 1..]);
    assert IsOctet(parts[0]);
    forall i | 0 <= i < |rest| ensures IsOctet(rest[i]) { assert rest[i] == parts[i + 1]; }
  }

  lemma LastPart(s: string)
    requires PartLength(s) == |s| && AllOctets(Parts(s)) == true
    ensures IsOctet(s) == true && |Parts(s)| == 1
  {
    assert IsOctet(Parts(s)[0]);
  }

  predicate WholeMatch(t: Table, s: string, k: nat) { QuadLength(t, s, k) == Some(|s|) }

  lemma FinalOctet(t: Table, s: string)
    requires Valid(t) == true && IsOctet(s) == true
    ensures WholeMatch(t, s, 0) == true
  {
    assert s[..|s|] == s;
    OctetIsFirstRun(t, s, |s|);
  }

  lemma OctetBefore(t: Table, s: string, n: nat, k: nat)
    requires Valid(t) == true && n < |s| && IsOctet(s[..n]) == true && s[n] == '.' && k > 0
    requires WholeMatch(t, s[n + 1..], k - 1) == true
    ensures WholeMatch(t, s, k) == true
  {
    OctetIsFirstRun(t, s, n);
    QuadStep(t, s, k, n, |s|);
  }

  lemma {:induction false} PartsMatch(t: Table, s: string, k: nat)
    requires Valid(t) == true && |Parts(s)| == k + 1 && AllOctets(Parts(s)) == true
    ensures WholeMatch(t, s, k) == true
    decreases |s|
  {
    var n := PartLength(s);
    if n == |s| {
      LastPart(s);
      FinalOctet(t, s);
    } else {
      PartsAfterFirst(s, n);
      PartsMatch(t, s[n + 1..], k - 1);
      OctetBefore(t, s, n, k);
    }
  }

  /** Every address found is a whole match of the audit's dotted-quad pattern. */
  lemma AddressMatchesPattern(t: Table, s: string)
    requires Valid(t) && IsAddress(s)
    ensures QuadText(t, s, 3)
  {
    PartsMatch(t, s, 3);
    assert s[..|s|] == s;
    QuadLengthIsTheOnlyMatch(t, s, 3, |s|);
  }

  // ----- Harmless strings -----

  /** ASCII without capitals. */
  predicate Quiet(s: string) { forall i :: 0 <= i < |s| ==> s[i] < 128 as char && !Capital(s[i]) }

  predicate Lacks(s: string, c: char) { forall i :: 0 <= i < |s| ==> s[i] != c }

  /** Without c before r there is no "secret". */
  predicate NoSecret(s: string) { forall i :: 1 <= i < |s| && s[i] == 'r' ==> s[i - 1] != 'c' }

  /** Too few letters for "password" and for "command line". */
  predicate FewLetters(s: string) { Lacks(s, 'd') || Lacks(s, 'a') || (Lacks(s, 'm') && (Lacks(s, 'w') || Lacks(s, 'p'))) }

  lemma MarkerLetters(m: nat)
    requires m < |MARKERS|
    ensures var w := MARKERS[m];
      && |w| >= 8
      && (m < 9 && m != 4 ==> w[|w| - 4] == 'c' && w[|w| - 3] == 'r')
      && (m == 4 ==> w[0] == 'p' && w[1] == 'a' && w[4] == 'w' && w[7] == 'd')
      && (m >= 9 ==> w[2] == 'm' && w[4] == 'a' && w[6] == 'd')
  {
  }

  lemma QuietLetter(s: string, w: string, i: nat, k: nat)
    requires Quiet(s) && OccursFolded(s, w, i) && k < |w|
    ensures s[i + k] == w[k]
  {
  }

  lemma NoMarker(s: string)
    requires Quiet(s) && NoSecret(s) && FewLetters(s)
    ensures !HasMarker(s)
  {
    forall m, i | 0 <= m < |MARKERS| && 0 <= i <= |s| ensures !OccursFolded(s, MARKERS[m], i) { NotMarked(s, m, i); }
  }

  lemma NotMarked(s: string, m: nat, i: nat)
    requires Quiet(s) && NoSecret(s) && FewLetters(s) && m < |MARKERS|
    ensures !OccursFolded(s, MARKERS[m], i)
  {
    var w := MARKERS[m];
    MarkerLetters(m);
    if OccursFolded(s, w, i) {
      if m < 9 && m != 4 {
        QuietLetter(s, w, i, |w| - 4);
        QuietLetter(s, w, i, |w| - 3);
      } else {
        QuietLetter(s, w, i, 0);
        QuietLetter(s, w, i, if m == 4 then 1 else 4);
        QuietLetter(s, w, i, if m == 4 then 4 else 2);
        QuietLetter(s, w, i, if m == 4 then 7 else 6);
      }
    }
  }

  lemma {:induction false} PartsAreLong(s: string)
    requires AllOctets(Parts(s))
    ensures |s| + 1 >= 2 * |Parts(s)|
    decreases |s|
  {
    var n := PartLength(s);
    if n == |s| {
      LastPart(s);
    } else {
      PartsAfterFirst(s, n);
      PartsAreLong(s[n + 1..]);
    }
  }

  lemma NoAddress(t: Table, s: string)
    requires '.' !in s || |s| < 7
    ensures !HasAddress(t, s)
  {
    forall i, j | 0 <= i < j <= |s| ensures !IsAddress(s[i..j]) {
      if IsAddress(s[i..j]) { PartsAreLong(s[i..j]); }
    }
  }

  /** Text that is no path, holds no sensitive word and no address. */
  predicate MildText(s: string) {
    && Quiet(s) && NoSecret(s) && FewLetters(s) && ('.' !in s || |s| < 7)
    && |s| >= 2 && s[0] != '/' && s[1] != ':'
  }

  lemma MildIsNotSensitive(u: Unicode, s: string)
    requires MildText(s)
    ensures !Sensitive(u, s)
  {
    NoMarker(s);
    NoAddress(u.table, s);
  }

  lemma {:induction false} NormalizedIsSame(u: Unicode, s: string, i: nat)
    requires ValidUnicode(u) && Quiet(s) && Lacks(s, '-') && i <= |s|
    ensures NormalizedFrom(u, s, i) == s[i..]
    decreases |s| - i
  {
    if i < |s| {
      NormalizedIsSame(u, s, i + 1);
      assert u.fold(s[i]) == [s[i]];
      assert s[i..] == [s[i]] + s[i + 1..];
    }
  }

  predicate PlainCharacter(c: char) { 'a' <= c <= 'z' || c == '_' || '0' <= c <= '9' }

  /** A key of small letters, digits and underscores that is not forbidden and holds no sensitive word. */
  predicate MildKey(s: string) {
    && |s| >= 2 && (forall i :: 0 <= i < |s| ==> PlainCharacter(s[i])) && NoSecret(s) && FewLetters(s)
    && s !in FORBIDDEN_REPORT_KEYS
  }

  lemma MildKeyIsAllowed(u: Unicode, s: string)
    requires ValidUnicode(u) && MildKey(s)
    ensures KeyAllowed(u, s)
  {
    NormalizedIsSame(u, s, 0);
    assert s[0..] == s;
    MildIsNotSensitive(u, s);
  }

  lemma UpdateStaysSanitized(u: Unicode, p: map<string, Json>, k: string, v: Json)
    requires Sanitized(u, JObj(p)) == true && k in p && Sanitized(u, v) == true
    ensures Sanitized(u, JObj(p[k := v])) == true
  {
  }

  lemma FieldIsSanitized(u: Unicode, p: map<string, Json>, k: string)
    requires Sanitized(u, JObj(p)) == true && k in p
    ensures Sanitized(u, p[k]) == true
  {
  }
}
