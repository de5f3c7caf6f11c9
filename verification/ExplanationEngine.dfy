/**
 The evidence-bound explanation engine: the evidence bundle, the groundedness verifier,
 the deterministic template and the generator with its fail-closed fallback.
 */
module ExplanationEngine {
  import opened Text
  import opened IpScan
  import opened Numerals

  datatype SignalValue = FloatValue(x: Float) | OtherValue(text: string)

  datatype Enrichment = Enrichment(
    status: string,
    inspected: seq<string>,
    privateIpGuardTriggered: bool)

  /** A retrieval hit, its attributes or dictionary entries already looked up. */
  datatype Hit = Hit(
    techniqueId: Option<string>,
    techniqueName: string,
    playbookId: Option<string>,
    steps: seq<string>)

  datatype Bundle = Bundle(
    candidateId: string,
    recordId: string,
    modelVersion: string,
    probability: Float,
    threshold: Float,
    signals: seq<(string, SignalValue)>,
    aeError: Option<Float>,
    aeThreshold: Float,
    incidentId: Option<string>,
    correlationStatus: string,
    enrichment: Option<Enrichment>,
    observedAt: Option<string>,
    hits: seq<Hit>)

  datatype Explanation = Explanation(
    candidateId: string,
    generationMode: string,
    advisoryOnly: bool,
    headline: string,
    rationale: string,
    fusionNote: string,
    context: string,
    checks: seq<string>,
    citedKeys: seq<string>,
    groundednessVerified: bool,
    ragHits: seq<Hit>)

  /** Python truthiness of an optional string. */
  predicate Truthy(s: Option<string>) {
    s.Some? && s.value != ""
  }

  function Inspected(b: Bundle): seq<string> {
    if b.enrichment.Some? then b.enrichment.value.inspected else []
  }

  // ----- Evidence keys -----

  const BASE_KEYS := [
    "candidate_id", "record_id", "rf_model_version", "rf_attack_probability",
    "rf_threshold", "correlation_status", "ae_v2_threshold"]

  function SignalKeySet(signals: seq<(string, SignalValue)>): set<string> {
    set s | s in signals :: s.0
  }

  function EntityKey(ip: string): string { "entity:" + ip }

  function EntityKeySet(inspected: seq<string>): set<string> {
    set ip | ip in inspected :: EntityKey(ip)
  }

  function HitKeys(h: Hit): set<string> {
    (if Truthy(h.techniqueId) then {"mitre:" + h.techniqueId.value} else {})
    + (if Truthy(h.playbookId) then {"playbook:" + h.playbookId.value} else {})
  }

  function HitKeySet(hits: seq<Hit>): set<string> {
    set h, k | h in hits && k in HitKeys(h) :: k
  }

  /** The keys an explanation of b may cite. */
  function AllowedKeys(b: Bundle): set<string> {
    (set k | k in BASE_KEYS)
    + SignalKeySet(b.signals)
    + (if b.aeError.Some? then {"ae_v2_reconstruction_error"} else {})
    + (if Truthy(b.incidentId) then {"incident_id"} else {})
    + (if b.enrichment.Some?
       then {"enrichment_status", "enrichment_reason"} + EntityKeySet(b.enrichment.value.inspected) else {})
    + (if b.observedAt.Some? then {"observed_at"} else {})
    + (if b.hits != [] then {"chroma_rag_hits"} + HitKeySet(b.hits) else {})
  }

  method AddSignalKeys(keys: set<string>, signals: seq<(string, SignalValue)>) returns (r: set<string>)
    ensures r == keys + SignalKeySet(signals)
  {
    r := keys;
    for i := 0 to |signals|
      invariant r == keys + SignalKeySet(signals[..i])
    {
      r := r + {signals[i].0};
      assert signals[..i + 1] == signals[..i] + [signals[i]];
    }
    assert signals[..|signals|] == signals;
  }

  method AddEntityKeys(keys: set<string>, inspected: seq<string>) returns (r: set<string>)
    ensures r == keys + EntityKeySet(inspected)
  {
    r := keys;
    for i := 0 to |inspected|
      invariant r == keys + EntityKeySet(inspected[..i])
    {
      r := r + {EntityKey(inspected[i])};
      assert inspected[..i + 1] == inspected[..i] + [inspected[i]];
    }
    assert inspected[..|inspected|] == inspected;
  }

  method AddHitKeys(keys: set<string>, hits: seq<Hit>) returns (r: set<string>)
    ensures r == keys + HitKeySet(hits)
  {
    r := keys;
    for i := 0 to |hits|
      invariant r == keys + HitKeySet(hits[..i])
    {
      r := r + HitKeys(hits[i]);
      assert hits[..i + 1] == hits[..i] + [hits[i]];
    }
    assert hits[..|hits|] == hits;
  }

  /** get_allowed_evidence_keys. */
  method AllowedEvidenceKeys(b: Bundle) returns (keys: set<string>)
    ensures keys == AllowedKeys(b)
  {
    keys := set k | k in BASE_KEYS;
    keys := AddSignalKeys(keys, b.signals);
    if b.aeError.Some? { keys := keys + {"ae_v2_reconstruction_error"}; }
    if Truthy(b.incidentId) { keys := keys + {"incident_id"}; }
    if b.enrichment.Some? {
      keys := keys + {"enrichment_status", "enrichment_reason"};
      keys := AddEntityKeys(keys, b.enrichment.value.inspected);
    }
    if b.observedAt.Some? { keys := keys + {"observed_at"}; }
    if b.hits != [] {
      keys := keys + {"chroma_rag_hits"};
      keys := AddHitKeys(keys, b.hits);
    }
  }

  // ----- The verifier -----

  function AllText(e: Explanation): string {
    Join(" ", [e.headline, e.rationale, e.fusionNote, e.context, Join(" ", e.checks)])
  }

  /** verify_explanation_groundedness on an EvidenceBoundExplanation. */
  predicate Verified(t: Table, e: Explanation, b: Bundle) {
    && e.advisoryOnly
    && (forall k :: k in e.citedKeys ==> k in AllowedKeys(b))
    && Contains(e.rationale, b.modelVersion)
    && (Contains(e.rationale, Fixed(b.probability, 4)) || Contains(e.rationale, Fixed(b.probability, 3)))
    && Grounded(t, AllText(e), b)
    && Contains(Lower(e.fusionNote), "random forest")
    && Contains(Lower(e.fusionNote), "fusion")
    && Contains(Lower(e.fusionNote), "disabled")
  }

  /** Every dotted quad of a text is an inspected entity; the verifier's check on a bare string. */
  predicate Grounded(t: Table, text: string, b: Bundle) {
    forall ip :: ip in FindAll(t, text) ==> ip in Inspected(b)
  }

  // ----- The deterministic template -----

  function CandidateShort(b: Bundle): string {
    Take(AfterLast(b.candidateId, ':'), 12)
  }

  function TopSignals(b: Bundle): seq<(string, SignalValue)> {
    if |b.signals| <= 5 then b.signals else b.signals[..5]
  }

  function ValueText(v: SignalValue): string {
    match v
    case FloatValue(x) => Fixed(x, 4)
    case OtherValue(text) => text
  }

  function SignalTexts(signals: seq<(string, SignalValue)>): seq<string> {
    if |signals| == 0 then []
    else [signals[0].0 + "=" + ValueText(signals[0].1)] + SignalTexts(signals[1..])
  }

  function SignalsSummary(b: Bundle): string {
    var summary := Join(", ", SignalTexts(TopSignals(b)));
    if summary == "" then NO_SIGNALS else summary
  }

  // The template's fixed wording, cut into short pieces for the solver's sake.
  const HEADLINE_OPENING := "Advisory SOC Triage" + " Debrief: Alert" + " candidate "
  const RATIONALE_OPENING := "The frozen Random" + " Forest model ("
  const RATIONALE_PROBABILITY := ") produced an attack" + " probability of "
  const RATIONALE_THRESHOLD := ", exceeding the" + " operational" + " detection threshold of "
  const RATIONALE_SIGNALS := " Prominent feature" + " indicators: "
  const NO_SIGNALS := "standard feature" + " vector profile"
  const NOTE_OPENING := "Production alert" + " authority rests" + " solely with the" + " frozen "
  const NOTE_AUTOMATIC := " Automatic RF+AE "
  const NOTE_SECTION := " (fusion_disabled" + " per Section 8) due" + " to the empirical "
  const NOTE_PENALTY := ":1 benign false-" + "positive penalty" + " (1,574 additional" + " FPs for 96 attacks"
                        + " on January UNSW" + " validation)"
  const NOTE_LAST := "Autoencoder residual" + " is advisory only"
  const GUARD_ACTIVE := "Private IP guard" + " active; public" + " external queries" + " suppressed"
  const UNVERIFIED_ENTITY := "Entity provenance" + " unverified; no IP" + " addresses inspected"
  const CHECK_TAP := "Verify network" + " segment and sensor" + " provenance on" + " upstream tap"
  const CHECK_WINDOW := "Review surrounding" + " flow events within" + " the 30-second burst" + " window"
  const CHECK_BENIGN := "Assess potential" + " benign administrative" + " activity before" + " initiating" + " containment"
  const CHECK_PLAYBOOK := "ChromaDB Semantic" + " Playbook ("
  const REVIEW_PLAYBOOK := "Review matching" + " technique playbook"

  function Headline(b: Bundle): string {
    HEADLINE_OPENING + CandidateShort(b) + " (" + b.modelVersion + ")"
  }

  function Rationale(b: Bundle): string {
    RATIONALE_OPENING + b.modelVersion + RATIONALE_PROBABILITY + Fixed(b.probability, 4) + RATIONALE_THRESHOLD
    + Fixed(b.threshold, 2) + "." + RATIONALE_SIGNALS + SignalsSummary(b) + "."
  }

  function FusionNote(b: Bundle): string {
    NOTE_OPENING + "Random Forest" + " (" + b.modelVersion + ")" + "." + NOTE_AUTOMATIC + "fusion" + " is strictly "
    + "disabled" + NOTE_SECTION + "16" + "." + "4" + NOTE_PENALTY + "." + " " + NOTE_LAST + "."
  }

  function ContextParts(b: Bundle): seq<string> {
    ["Correlation status: " + b.correlationStatus + "."]
    + (if Truthy(b.incidentId) then ["Linked to incident " + b.incidentId.value + "."] else [])
    + if b.enrichment.Some? then EnrichmentParts(b.enrichment.value) else [UNVERIFIED_ENTITY + "."]
  }

  function EnrichmentParts(r: Enrichment): seq<string> {
    ["Enrichment status: " + r.status + "."]
    + (if r.inspected != [] then ["Inspected entities: " + Join(", ", r.inspected) + "."] else [])
    + (if r.privateIpGuardTriggered then [GUARD_ACTIVE + "."] else [])
  }

  function StandingChecks(): seq<string> {
    [CHECK_TAP + ".", CHECK_WINDOW + ".", CHECK_BENIGN + "."]
  }

  function TechniqueText(h: Hit): string {
    if h.techniqueId.Some? then h.techniqueId.value else "None"
  }

  function FirstStep(h: Hit): string {
    if h.steps != [] then h.steps[0] else REVIEW_PLAYBOOK + "."
  }

  function PlaybookCheck(h: Hit): string {
    CHECK_PLAYBOOK + TechniqueText(h) + " - " + h.techniqueName + "): " + FirstStep(h)
  }

  function Checks(b: Bundle): seq<string> {
    (if b.hits != [] then [PlaybookCheck(b.hits[0])] else []) + StandingChecks()
  }

  function EntityKeys(inspected: seq<string>): (keys: seq<string>)
    ensures |keys| == |inspected|
    ensures forall i :: 0 <= i < |inspected| ==> keys[i] == EntityKey(inspected[i])
  {
    seq(|inspected|, i requires 0 <= i < |inspected| => EntityKey(inspected[i]))
  }

  function SignalKeys(signals: seq<(string, SignalValue)>): (keys: seq<string>)
    ensures |keys| == |signals|
    ensures forall i :: 0 <= i < |signals| ==> keys[i] == signals[i].0
  {
    seq(|signals|, i requires 0 <= i < |signals| => signals[i].0)
  }

  function TopHitKeys(h: Hit): seq<string> {
    ["chroma_rag_hits"]
    + (if Truthy(h.techniqueId) then ["mitre:" + h.techniqueId.value] else [])
    + (if Truthy(h.playbookId) then ["playbook:" + h.playbookId.value] else [])
  }

  function CitedKeys(b: Bundle): seq<string> {
    BASE_KEYS
    + SignalKeys(TopSignals(b))
    + (if Truthy(b.incidentId) then ["incident_id"] else [])
    + (if b.enrichment.Some?
       then ["enrichment_status", "enrichment_reason"] + EntityKeys(b.enrichment.value.inspected) else [])
    + (if b.hits != [] then TopHitKeys(b.hits[0]) else [])
  }

  function Template(b: Bundle): Explanation {
    Explanation(b.candidateId, "deterministic_evidence_template", true,
      Headline(b), Rationale(b), FusionNote(b), Join(" ", ContextParts(b)), Checks(b), CitedKeys(b), true, b.hits)
  }

  method AppendSignalKeys(cited: seq<string>, top: seq<(string, SignalValue)>) returns (r: seq<string>)
    ensures r == cited + SignalKeys(top)
  {
    r := cited;
    for i := 0 to |top|
      invariant r == cited + SignalKeys(top)[..i]
    {
      r := r + [top[i].0];
    }
    assert SignalKeys(top)[..|top|] == SignalKeys(top);
  }

  method AppendEntityKeys(cited: seq<string>, inspected: seq<string>) returns (r: seq<string>)
    ensures r == cited + EntityKeys(inspected)
  {
    r := cited;
    for i := 0 to |inspected|
      invariant r == cited + EntityKeys(inspected)[..i]
    {
      r := r + [EntityKey(inspected[i])];
    }
    assert EntityKeys(inspected)[..|inspected|] == EntityKeys(inspected);
  }

  /** The template's list of cited keys, grown entry by entry. */
  method CollectCitedKeys(b: Bundle) returns (cited: seq<string>)
    ensures cited == CitedKeys(b)
  {
    cited := AppendSignalKeys(BASE_KEYS, TopSignals(b));
    if Truthy(b.incidentId) { cited := cited + ["incident_id"]; }
    if b.enrichment.Some? {
      cited := cited + ["enrichment_status", "enrichment_reason"];
      cited := AppendEntityKeys(cited, b.enrichment.value.inspected);
    }
    if b.hits != [] {
      cited := cited + TopHitKeys(b.hits[0]);
    }
  }

  // ----- The generator -----

  /** The optional generator: absent, or free to raise, to return anything, or to return an explanation. */
  datatype Generator = Absent | Raises | ReturnsSomethingElse | Returns(e: Explanation)

  function GenerateExplanation(t: Table, g: Generator, b: Bundle): Explanation {
    if g.Returns? && Verified(t, g.e, b) then g.e else Template(b)
  }
}
