/**
 The four-block investigation anatomy (its affected assets and its technique) and the
 citation-locked follow-up answer.
 */
module Investigation {
  import opened Text
  import opened IpScan
  import opened ExplanationEngine

  // ----- Technique ids -----

  predicate Digits(t: Table, s: string) {
    forall i :: 0 <= i < |s| ==> s[i] in t.digit
  }

  /** The language of T\d{4}(\.\d{3})?. */
  predicate TechniqueId(t: Table, s: string) {
    && (|s| == 5 || |s| == 9)
    && s[0] == 'T' && Digits(t, s[1..5])
    && (|s| == 9 ==> s[5] == '.' && Digits(t, s[6..]))
  }

  /** MITRE_TECHNIQUE_REGEX.match: the closing $ also matches before one final newline. */
  predicate MatchesTechnique(t: Table, s: string) {
    TechniqueId(t, s) || (s != "" && s[|s| - 1] == '\n' && TechniqueId(t, s[..|s| - 1]))
  }

  lemma MatchedIsWellFormedIff(t: Table, s: string)
    requires Valid(t) && MatchesTechnique(t, s)
    ensures TechniqueId(t, s) <==> s[|s| - 1] != '\n'
  {
    assert '\n' < 128 as char;
    if TechniqueId(t, s) {
      assert s[|s| - 1] == if |s| == 5 then s[1..5][3] else s[6..][2];
    }
  }

  const CANONICAL_TECHNIQUES: seq<string> := [
    "T1046", "T1190", "T1498", "T1071.001", "T1595", "T1110", "T1041", "T1021", "T1059", "T1133"]

  const DEFAULT_TECHNIQUE := "T1071.001"

  lemma CanonicalIsWellFormed(t: Table, s: string)
    requires Valid(t) && s in CANONICAL_TECHNIQUES
    ensures TechniqueId(t, s)
  {
    assert forall c :: '0' <= c <= '9' ==> c in t.digit;
  }

  // ----- Inputs of the builder -----

  datatype Provenance = Provenance(src: Option<string>, dst: Option<string>)

  /** candidate_explanation: an explanation object, a text, a dictionary (its text values joined) or anything else. */
  datatype Candidate = NoCandidate | Structured(e: Explanation) | PlainText(s: string) | Dictionary(text: string) | Other

  datatype Request = Request(
    candidate: Candidate,
    provenance: Option<Provenance>,
    assets: Option<seq<string>>,
    techniqueId: Option<string>)

  function EndpointIp(t: Table, end: Option<string>): seq<string> {
    if Truthy(end) && QuadLength(t, AfterLast(end.value, ':'), 3).Some? then [AfterLast(end.value, ':')] else []
  }

  /** The grounded set: inspected entities and provenance endpoints that start with an address. */
  function KnownIps(t: Table, b: Bundle, r: Request): seq<string> {
    Inspected(b)
    + if r.provenance.Some? then EndpointIp(t, r.provenance.value.src) + EndpointIp(t, r.provenance.value.dst) else []
  }

  predicate AllKnown(t: Table, text: string, known: seq<string>) {
    forall ip :: ip in FindAll(t, text) ==> ip in known
  }

  predicate ExplanationGrounded(t: Table, b: Bundle, r: Request) {
    match r.candidate
    case Structured(e) => Verified(t, e, b)
    case PlainText(s) => AllKnown(t, s, KnownIps(t, b, r))
    case Dictionary(text) => AllKnown(t, text, KnownIps(t, b, r))
    case NoCandidate => true
    case Other => true
  }

  // ----- Block 1: affected assets -----

  function CleanAssets(assets: seq<string>): seq<string> {
    if assets == [] then []
    else (if Strip(assets[0]) != "" then [Strip(assets[0])] else []) + CleanAssets(assets[1..])
  }

  function FallbackAssets(known: seq<string>): seq<string> {
    if known != [] then SortedSet(known) else ["10.0.0.4", "10.0.0.5"]
  }

  function AffectedAssets(t: Table, b: Bundle, r: Request): seq<string> {
    var known := KnownIps(t, b, r);
    if r.assets.Some? && ExplanationGrounded(t, b, r) then
      var claimed := CleanAssets(r.assets.value);
      if (forall ip :: ip in claimed ==> ip in known) && claimed != [] then claimed else FallbackAssets(known)
    else FallbackAssets(known)
  }

  /** The assets are never empty and never leave the grounded set; only an empty set gives the lab default. */
  lemma AssetsAreGrounded(t: Table, b: Bundle, r: Request)
    ensures AffectedAssets(t, b, r) != []
    ensures KnownIps(t, b, r) != [] ==> forall ip :: ip in AffectedAssets(t, b, r) ==> ip in KnownIps(t, b, r)
    ensures KnownIps(t, b, r) == [] ==> AffectedAssets(t, b, r) == ["10.0.0.4", "10.0.0.5"]
    ensures AffectedAssets(t, b, r) == FallbackAssets(KnownIps(t, b, r)) && KnownIps(t, b, r) != []
      ==> StrictlySorted(AffectedAssets(t, b, r))
  {
    var known := KnownIps(t, b, r);
    SortedSetIsSorted(known);
    if known != [] {
      assert known[0] in SortedSet(known);
    } else if r.assets.Some? {
      var claimed := CleanAssets(r.assets.value);
      if claimed != [] { assert claimed[0] in claimed && claimed[0] !in known; }
    }
  }

  // ----- Block 3: technique -----

  function HitTechnique(t: Table, b: Bundle): Option<string> {
    if b.hits != [] && Truthy(b.hits[0].techniqueId) && MatchesTechnique(t, b.hits[0].techniqueId.value)
    then b.hits[0].techniqueId else None
  }

  function ClaimedTechnique(t: Table, b: Bundle, r: Request): Option<string> {
    if r.techniqueId.Some? && ExplanationGrounded(t, b, r) then
      var clean := Strip(r.techniqueId.value);
      if MatchesTechnique(t, clean) && clean in CANONICAL_TECHNIQUES then Some(clean) else None
    else None
  }

  function ChosenTechnique(t: Table, b: Bundle, r: Request): string {
    match ClaimedTechnique(t, b, r)
    case Some(claimed) => claimed
    case None =>
      match HitTechnique(t, b)
      case Some(hit) => hit
      case None => DEFAULT_TECHNIQUE
  }

  /** The first hit's technique passes the pattern although it ends in a newline. */
  predicate NewlineHit(t: Table, b: Bundle) {
    && b.hits != [] && Truthy(b.hits[0].techniqueId) && MatchesTechnique(t, b.hits[0].techniqueId.value)
    && b.hits[0].techniqueId.value[|b.hits[0].techniqueId.value| - 1] == '\n'
  }

  /** Where the technique comes from, and exactly when it is a well-formed id: unless no claim is
      accepted and the first hit's id ends in a newline. */
  lemma TechniqueIsWellFormedIff(t: Table, b: Bundle, r: Request)
    requires Valid(t)
    ensures var chosen := ChosenTechnique(t, b, r);
      && MatchesTechnique(t, chosen)
      && (chosen in CANONICAL_TECHNIQUES || HitTechnique(t, b) == Some(chosen))
      && (TechniqueId(t, chosen) <==> !(ClaimedTechnique(t, b, r).None? && NewlineHit(t, b)))
  {
    var chosen := ChosenTechnique(t, b, r);
    CanonicalIsWellFormed(t, DEFAULT_TECHNIQUE);
    if chosen in CANONICAL_TECHNIQUES { CanonicalIsWellFormed(t, chosen); }
    MatchedIsWellFormedIff(t, chosen);
  }

  lemma NewlineHitIsChosen(t: Table, b: Bundle, r: Request)
    requires Valid(t) && b.hits != [] && b.hits[0].techniqueId == Some("T1046\n") && r.techniqueId == None
    ensures ChosenTechnique(t, b, r) == "T1046\n" && !TechniqueId(t, ChosenTechnique(t, b, r))
  {
    var s := "T1046\n";
    assert s[..5] == "T1046";
    assert "T1046" in CANONICAL_TECHNIQUES;
    CanonicalIsWellFormed(t, "T1046");
    assert !TechniqueId(t, s);
  }

  /** An ungrounded candidate explanation takes its claimed assets and technique with it. */
  lemma UngroundedClaimsAreIgnored(t: Table, b: Bundle, r: Request)
    requires !ExplanationGrounded(t, b, r)
    ensures var bare := Request(NoCandidate, r.provenance, None, None);
      && AffectedAssets(t, b, r) == AffectedAssets(t, b, bare)
      && ChosenTechnique(t, b, r) == ChosenTechnique(t, b, bare)
  {
    var bare := Request(NoCandidate, r.provenance, None, None);
    assert KnownIps(t, b, bare) == KnownIps(t, b, r);
  }

  // ----- Follow-up questions -----

  /** Length of \bT\d{4}(?:\.\d{3})?\b at the head; the longer reading is tried first. */
  function TechniqueLength(t: Table, s: string): (r: Option<nat>)
    ensures r.Some? ==> 0 < r.value <= |s|
  {
    if |s| >= 9 && TechniqueId(t, s[..9]) && (|s| == 9 || s[9] !in t.word) then Some(9)
    else if |s| >= 5 && TechniqueId(t, s[..5]) && (|s| == 5 || s[5] !in t.word) then Some(5)
    else None
  }

  function ScanTechniques(t: Table, afterWord: bool, s: string): seq<string>
    decreases |s|
  {
    if s == "" then []
    else
      var m := if afterWord then None else TechniqueLength(t, s);
      match m
      case Some(n) => [s[..n]] + ScanTechniques(t, true, s[n..])
      case None => ScanTechniques(t, s[0] in t.word, s[1..])
  }

  const EXECUTION_VERBS: seq<string> := ["isolate", "contain", "containment", "quarantine", "execute", "block", "kill"]

  /** A whole word of the question, whatever its case. */
  predicate WordAt(t: Table, s: string, w: string, i: nat) {
    && OccursFolded(s, w, i)
    && (i == 0 || s[i - 1] !in t.word)
    && (i + |w| == |s| || s[i + |w|] !in t.word)
  }

  predicate AsksExecution(t: Table, question: string) {
    exists w, i :: w in EXECUTION_VERBS && 0 <= i <= |question| && WordAt(t, question, w, i)
  }

  const MITRE_PREFIX := "mitre:"

  /** The part after the colon of every allowed key of the form mitre:... */
  function AllowedTechniques(b: Bundle): set<string> {
    set k | k in AllowedKeys(b) && MITRE_PREFIX <= k :: k[|MITRE_PREFIX|..]
  }

  function Without(s: seq<string>, known: set<string>): (r: seq<string>)
    ensures forall x :: x in r <==> x in s && x !in known
  {
    if s == [] then [] else
      assert s == [s[0]] + s[1..];
      (if s[0] in known then [] else [s[0]]) + Without(s[1..], known)
  }

  function UnknownIps(t: Table, question: string, b: Bundle): seq<string> {
    SortedSet(Without(FindAll(t, question), set ip | ip in Inspected(b)))
  }

  function UnknownTechniques(t: Table, question: string, b: Bundle): seq<string> {
    SortedSet(Without(ScanTechniques(t, false, question), AllowedTechniques(b)))
  }

  datatype FollowUp = FollowUp(
    verified: bool,
    executionAuthorized: bool,
    advisoryOnly: bool,
    citedKeys: seq<string>,
    unknownIps: seq<string>,
    unknownTechniques: seq<string>,
    answer: string,
    grounded: bool)

  const AUTHORITY := "Production authority" + " remains the frozen" + " Random Forest and" + " production_fusion" + "_enabled is false"
  const UNAVAILABLE := "Follow-up unavailable"
  const OUTSIDE := " The question asks" + " for an entity," + " technique, or" + " containment action" + " outside the" + " evidence bundle"
  const ANSWER_OPENING := "Follow-up for" + " candidate "
  const ANSWER_PROBABILITY := ": frozen Random" + " Forest probability "
  const ANSWER_MODEL := " using model "
  const ANSWER_KEYS := " Cited evidence" + " keys: "
  const ANSWER_ADVISORY := " This reply is" + " advisory only and" + " does not execute" + " an action"

  function Refusal(): string {
    UNAVAILABLE + "." + OUTSIDE + "." + " " + AUTHORITY + "."
  }

  const FOLLOWUP_KEYS: seq<string> := ["candidate_id", "rf_model_version", "rf_attack_probability", "rf_threshold"]

  function Answer(b: Bundle, probabilityText: string, cited: seq<string>): string {
    ANSWER_OPENING + b.candidateId + ANSWER_PROBABILITY + probabilityText + ANSWER_MODEL + b.modelVersion
    + "." + ANSWER_KEYS + Join(", ", cited) + "." + ANSWER_ADVISORY + "." + " " + AUTHORITY + "."
  }

  /** answer_citation_locked_followup; probabilityText is the plain rendering of the probability. */
  function AnswerFollowUp(t: Table, question: string, b: Bundle, probabilityText: string): FollowUp {
    var ips, techniques := UnknownIps(t, question, b), UnknownTechniques(t, question, b);
    if ips != [] || techniques != [] || AsksExecution(t, question) then
      FollowUp(false, false, true, [], ips, techniques, Refusal(), Grounded(t, Refusal(), b))
    else
      var cited := FOLLOWUP_KEYS;
      var answer := Answer(b, probabilityText, cited);
      var grounded := Grounded(t, answer, b);
      FollowUp(grounded, false, true, cited, [], [], answer, grounded)
  }

  lemma AuthorityWording()
    ensures '.' !in AUTHORITY
  {
    assert '.' !in "Production authority";
    assert '.' !in " remains the frozen";
    assert '.' !in " Random Forest and";
    assert '.' !in " production_fusion";
    assert '.' !in "_enabled is false";
  }

  lemma OutsideWording()
    ensures '.' !in OUTSIDE && '.' !in UNAVAILABLE
  {
    assert '.' !in " The question asks";
    assert '.' !in " for an entity,";
    assert '.' !in " technique, or";
    assert '.' !in " containment action";
    assert '.' !in " outside the";
    assert '.' !in " evidence bundle";
  }

  lemma AnswerWording(t: Table)
    requires Valid(t)
    ensures Opening(t, ANSWER_OPENING) && Wording(t, ANSWER_PROBABILITY)
  {
    assert '.' !in "Follow-up for";
    assert '.' !in " candidate ";
    assert '.' !in ": frozen Random";
    assert '.' !in " Forest probability ";
  }

  lemma AnswerKeysWording(t: Table)
    requires Valid(t)
    ensures Wording(t, ANSWER_KEYS) && Wording(t, ANSWER_MODEL)
  {
    assert '.' !in " using model ";
    assert '.' !in " Cited evidence";
    assert '.' !in " keys: ";
  }

  lemma AdvisoryWording()
    ensures '.' !in ANSWER_ADVISORY
  {
    assert '.' !in " This reply is";
    assert '.' !in " advisory only and";
    assert '.' !in " does not execute";
    assert '.' !in " an action";
  }

  /** Sentences without inner dots, each starting with a blank, add nothing to a scan. */
  lemma SentencesScan(t: Table, a: string, s1: string, s2: string)
    requires Valid(t) && '.' !in s1 && '.' !in s2 && s1 != "" && s2 != "" && s1[0] == ' ' && s2[0] == ' '
    ensures FindAll(t, a + "." + s1 + "." + s2 + ".") == FindAll(t, a)
  {
    ScanIgnoresFinalDot(t, false, a);
    ScanBeforeClosing(t, a + ".", s1);
    ScanIgnoresFinalDot(t, false, a + "." + s1);
    ScanBeforeClosing(t, a + "." + s1 + ".", s2);
    ScanIgnoresFinalDot(t, false, a + "." + s1 + "." + s2);
  }

  lemma AnswerShape(t: Table, o: string, id: string, w1: string, p: string, w2: string, v: string, w3: string,
                    keys: string, s1: string, s2: string)
    requires Valid(t) && Opening(t, o) && Wording(t, w1) && Wording(t, w2) && Wording(t, w3)
    requires '.' !in s1 && '.' !in s2 && s1 != "" && s2 != "" && s1[0] == ' ' && s2[0] == ' '
    ensures FindAll(t, o + id + w1 + p + w2 + v + "." + w3 + keys + "." + s1 + "." + s2 + ".")
         == FindAll(t, id) + FindAll(t, p) + FindAll(t, v) + FindAll(t, keys)
  {
    var tail2 := v + "." + w3 + keys;
    var tail1 := p + w2 + tail2;
    var body := id + w1 + tail1;
    assert o + id + w1 + p + w2 + v + "." + w3 + keys == o + body;
    SentencesScan(t, o + body, s1, s2);
    ScanAfterOpening(t, o, body);
    ScanAroundWording(t, id, w1, tail1);
    ScanAroundWording(t, p, w2, tail2);
    ScanAroundStop(t, v, w3, keys);
  }

  lemma KeysWording()
    ensures '.' !in "candidate_id" && '.' !in "rf_model_version"
    ensures '.' !in "rf_attack_probability" && '.' !in "rf_threshold"
  {
  }

  lemma FourPlainTexts(t: Table, a: string, b: string, c: string, d: string)
    requires Valid(t) && '.' !in a && '.' !in b && '.' !in c && '.' !in d
    ensures FindAll(t, Join(", ", [a, b, c, d])) == []
  {
    ScanJoin(t, ", ", [a, b, c, d]);
    assert [a, b, c, d] == [a, b] + [c, d];
    FindEachConcat(t, [a, b], [c, d]);
    FindPair(t, a, b);
    FindPair(t, c, d);
    DotlessScansEmpty(t, false, a);
    DotlessScansEmpty(t, false, b);
    DotlessScansEmpty(t, false, c);
    DotlessScansEmpty(t, false, d);
  }

  lemma AnswerScan(t: Table, b: Bundle, p: string)
    requires Valid(t)
    ensures FindAll(t, Answer(b, p, FOLLOWUP_KEYS))
         == FindAll(t, b.candidateId) + FindAll(t, p) + FindAll(t, b.modelVersion)
  {
    AuthorityWording();
    AnswerWording(t);
    AnswerKeysWording(t);
    AdvisoryWording();
    KeysWording();
    FourPlainTexts(t, "candidate_id", "rf_model_version", "rf_attack_probability", "rf_threshold");
    AnswerShape(t, ANSWER_OPENING, b.candidateId, ANSWER_PROBABILITY, p, ANSWER_MODEL, b.modelVersion, ANSWER_KEYS,
      Join(", ", FOLLOWUP_KEYS), ANSWER_ADVISORY, " " + AUTHORITY);
    JoinTail(ANSWER_OPENING + b.candidateId + ANSWER_PROBABILITY + p + ANSWER_MODEL + b.modelVersion
      + "." + ANSWER_KEYS + Join(", ", FOLLOWUP_KEYS) + "." + ANSWER_ADVISORY + ".", " ", AUTHORITY);
  }

  lemma JoinTail(a: string, b: string, c: string)
    ensures a + b + c + "." == a + (b + c) + "."
  {
  }

  lemma RefusalIsGrounded(t: Table, b: Bundle)
    requires Valid(t)
    ensures FindAll(t, Refusal()) == [] && Grounded(t, Refusal(), b)
  {
    AuthorityWording();
    OutsideWording();
    SentencesScan(t, UNAVAILABLE, OUTSIDE, " " + AUTHORITY);
    JoinTail(UNAVAILABLE + "." + OUTSIDE + ".", " ", AUTHORITY);
    DotlessScansEmpty(t, false, UNAVAILABLE);
  }

  lemma FollowUpKeysAllowed(b: Bundle)
    ensures forall k :: k in FOLLOWUP_KEYS ==> k in BASE_KEYS && k in AllowedKeys(b)
  {
  }

  /** The plain rendering of a float has at most one dot. */
  ghost predicate RendersFloat(p: string) {
    '.' !in p || exists i :: 0 <= i < |p| && p[i] == '.' && '.' !in p[..i] && '.' !in p[i + 1..]
  }

  lemma FloatScansEmpty(t: Table, p: string)
    requires RendersFloat(p)
    ensures FindAll(t, p) == []
  {
    if '.' !in p {
      DotlessScansEmpty(t, false, p);
    } else {
      var i :| 0 <= i < |p| && p[i] == '.' && '.' !in p[..i] && '.' !in p[i + 1..];
      assert p == p[..i] + "." + p[i + 1..];
      OneDotScansEmpty(t, false, p[..i], p[i + 1..]);
    }
  }

  lemma AnswerGroundedIff(t: Table, b: Bundle, p: string)
    requires Valid(t) && RendersFloat(p)
    ensures Grounded(t, Answer(b, p, FOLLOWUP_KEYS), b) == (Grounded(t, b.candidateId, b) && Grounded(t, b.modelVersion, b))
  {
    AnswerScan(t, b, p);
    FloatScansEmpty(t, p);
  }

  lemma AllowedTechniqueIff(b: Bundle, id: string)
    ensures MITRE_PREFIX + id in AllowedKeys(b) <==> id in AllowedTechniques(b)
  {
    var k := MITRE_PREFIX + id;
    assert MITRE_PREFIX <= k && k[|MITRE_PREFIX|..] == id;
    if id in AllowedTechniques(b) {
      var k' :| k' in AllowedKeys(b) && MITRE_PREFIX <= k' && k'[|MITRE_PREFIX|..] == id;
      assert k' == MITRE_PREFIX + k'[|MITRE_PREFIX|..];
    }
  }

  /** A follow-up is verified exactly when the question stays inside the evidence and the
      bundle's own texts are grounded; it never authorizes execution and always cites allowed keys. */
  lemma FollowUpVerifiedIff(t: Table, question: string, b: Bundle, p: string)
    requires Valid(t) && RendersFloat(p)
    ensures var f := AnswerFollowUp(t, question, b, p);
      && (f.verified <==>
          && (forall ip :: ip in FindAll(t, question) ==> ip in Inspected(b))
          && (forall id :: id in ScanTechniques(t, false, question) ==> MITRE_PREFIX + id in AllowedKeys(b))
          && !AsksExecution(t, question)
          && Grounded(t, b.candidateId, b) && Grounded(t, b.modelVersion, b))
      && !f.executionAuthorized && f.advisoryOnly
      && (forall k :: k in f.citedKeys ==> k in AllowedKeys(b))
      && (f.verified ==> f.grounded) && (f.citedKeys == [] ==> f.grounded)
  {
    FollowUpKeysAllowed(b);
    AnswerGroundedIff(t, b, p);
    RefusalIsGrounded(t, b);
    var ips, ids := UnknownIps(t, question, b), UnknownTechniques(t, question, b);
    if ips != [] { assert ips[0] in ips; }
    if ids != [] { assert ids[0] in ids; }
    forall id ensures MITRE_PREFIX + id in AllowedKeys(b) <==> id in AllowedTechniques(b) { AllowedTechniqueIff(b, id); }
  }
}
