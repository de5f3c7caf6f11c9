/**
 The template and the verifier agree: what the verifier's scan finds in the template's text is
 what it finds in the interpolated fields, so the engine's every answer is verified exactly
 when those fields are grounded.
 */
module TemplateGrounding {
  import opened Text
  import opened IpScan
  import opened Numerals
  import opened ExplanationEngine

  // ----- What the template cites -----

  lemma TopSignalsCited(b: Bundle)
    ensures forall k :: k in SignalKeys(TopSignals(b)) ==> k in SignalKeySet(b.signals)
  {
    forall k | k in SignalKeys(TopSignals(b)) ensures k in SignalKeySet(b.signals) {
      var i :| 0 <= i < |TopSignals(b)| && SignalKeys(TopSignals(b))[i] == k;
      assert b.signals[i] in b.signals;
    }
  }

  lemma TopHitCited(hits: seq<Hit>)
    requires hits != []
    ensures forall k :: k in TopHitKeys(hits[0]) ==> k == "chroma_rag_hits" || k in HitKeySet(hits)
  {
    var h := hits[0];
    assert h in hits;
    assert forall k :: k in TopHitKeys(h) ==> k == "chroma_rag_hits" || k in HitKeys(h);
  }

  /** Whatever the bundle holds, the template cites only its allowed keys. */
  lemma TemplateCitesAllowedKeys(b: Bundle)
    ensures forall k :: k in CitedKeys(b) ==> k in AllowedKeys(b)
  {
    TopSignalsCited(b);
    if b.hits != [] { TopHitCited(b.hits); }
  }

  // ----- What the template says -----

  function HeadlineFields(b: Bundle): seq<string> { [CandidateShort(b), b.modelVersion] }

  function SignalFields(signals: seq<(string, SignalValue)>): seq<string> {
    if |signals| == 0 then []
    else [signals[0].0, FreeValue(signals[0].1)] + SignalFields(signals[1..])
  }

  /** A float renders as digits; any other value is free text. */
  function FreeValue(v: SignalValue): string {
    if v.OtherValue? then v.text else ""
  }

  function RationaleFields(b: Bundle): seq<string> { [b.modelVersion] + SignalFields(TopSignals(b)) }

  function ContextFields(b: Bundle): seq<string> {
    [b.correlationStatus]
    + (if Truthy(b.incidentId) then [b.incidentId.value] else [])
    + (if b.enrichment.Some? then [b.enrichment.value.status] + b.enrichment.value.inspected else [])
  }

  function CheckFields(b: Bundle): seq<string> {
    if b.hits != [] then [TechniqueText(b.hits[0]), b.hits[0].techniqueName, FirstStep(b.hits[0])] else []
  }

  /** The free texts the template interpolates, in the order they appear. */
  function InterpolatedFields(b: Bundle): seq<string> {
    HeadlineFields(b) + RationaleFields(b) + [b.modelVersion] + ContextFields(b) + CheckFields(b)
  }

  lemma FixedScansEmpty(t: Table, x: Float, places: nat)
    ensures FindAll(t, Fixed(x, places)) == []
  {
    var a, b, dotted := FixedHasOneDot(x, places);
    if dotted { OneDotScansEmpty(t, false, a, b); } else { DotlessScansEmpty(t, false, a); }
  }

  // Facts about the fixed wording.
  lemma HeadlineWording(t: Table)
    requires Valid(t)
    ensures Opening(t, HEADLINE_OPENING)
  {
    assert '.' !in "Advisory SOC Triage";
    assert '.' !in " Debrief: Alert";
    assert '.' !in " candidate ";
  }

  lemma RationaleWording(t: Table)
    requires Valid(t)
    ensures Opening(t, RATIONALE_OPENING) && Wording(t, RATIONALE_PROBABILITY) && Wording(t, RATIONALE_SIGNALS)
  {
    assert '.' !in "The frozen Random";
    assert '.' !in " Forest model (";
    assert '.' !in ") produced an attack";
    assert '.' !in " probability of ";
    assert '.' !in " Prominent feature";
    assert '.' !in " indicators: ";
  }

  lemma ThresholdWording(t: Table)
    requires Valid(t)
    ensures Wording(t, RATIONALE_THRESHOLD)
  {
    assert '.' !in ", exceeding the";
    assert '.' !in " operational";
    assert '.' !in " detection threshold of ";
  }

  lemma NoSignalsWording()
    ensures '.' !in NO_SIGNALS
  {
    assert '.' !in "standard feature";
    assert '.' !in " vector profile";
  }

  lemma NoteOpeningWording(t: Table)
    requires Valid(t)
    ensures Opening(t, NOTE_OPENING + "Random Forest" + " (")
  {
    assert '.' !in "Production alert";
    assert '.' !in " authority rests";
    assert '.' !in " solely with the";
    assert '.' !in " frozen ";
    assert '.' !in "Random Forest";
  }

  lemma NoteAutomaticWording(t: Table)
    requires Valid(t)
    ensures Wording(t, NOTE_AUTOMATIC + "fusion" + " is strictly " + "disabled" + NOTE_SECTION)
  {
    assert '.' !in " Automatic RF+AE ";
    assert '.' !in "fusion";
    assert '.' !in " is strictly ";
    assert '.' !in "disabled";
    assert '.' !in " (fusion_disabled";
    assert '.' !in " per Section 8) due";
    assert '.' !in " to the empirical ";
  }

  lemma NotePenaltyWording(t: Table)
    requires Valid(t)
    ensures Wording(t, NOTE_PENALTY)
  {
    assert '.' !in ":1 benign false-";
    assert '.' !in "positive penalty";
    assert '.' !in " (1,574 additional";
    assert '.' !in " FPs for 96 attacks";
    assert '.' !in " on January UNSW";
    assert '.' !in " validation)";
  }

  lemma ContextWording()
    ensures '.' !in NOTE_LAST && '.' !in GUARD_ACTIVE && '.' !in UNVERIFIED_ENTITY
  {
    NoteLastWording();
    GuardWording();
    EntityWording();
  }

  lemma NoteLastWording()
    ensures '.' !in NOTE_LAST
  {
    assert '.' !in "Autoencoder residual";
    assert '.' !in " is advisory only";
  }

  lemma GuardWording()
    ensures '.' !in GUARD_ACTIVE
  {
    assert '.' !in "Private IP guard";
    assert '.' !in " active; public";
    assert '.' !in " external queries";
    assert '.' !in " suppressed";
  }

  lemma EntityWording()
    ensures '.' !in UNVERIFIED_ENTITY
  {
    assert '.' !in "Entity provenance";
    assert '.' !in " unverified; no IP";
    assert '.' !in " addresses inspected";
  }

  lemma CheckWording()
    ensures '.' !in CHECK_TAP && '.' !in CHECK_WINDOW && '.' !in CHECK_PLAYBOOK
  {
    TapWording();
    WindowWording();
    assert '.' !in "ChromaDB Semantic";
    assert '.' !in " Playbook (";
  }

  lemma TapWording()
    ensures '.' !in CHECK_TAP
  {
    assert '.' !in "Verify network";
    assert '.' !in " segment and sensor";
    assert '.' !in " provenance on";
    assert '.' !in " upstream tap";
  }

  lemma WindowWording()
    ensures '.' !in CHECK_WINDOW
  {
    assert '.' !in "Review surrounding";
    assert '.' !in " flow events within";
    assert '.' !in " the 30-second burst";
    assert '.' !in " window";
  }

  lemma BenignCheckWording()
    ensures '.' !in CHECK_BENIGN
  {
    assert '.' !in "Assess potential";
    assert '.' !in " benign administrative";
    assert '.' !in " activity before";
    assert '.' !in " initiating";
    assert '.' !in " containment";
  }

  // Scans of the template's shapes, whatever the wording.
  lemma HeadlineShape(t: Table, opening: string, short: string, version: string)
    requires Valid(t) && Opening(t, opening)
    ensures FindAll(t, opening + short + " (" + version + ")") == FindEach(t, [short, version])
  {
    var inner := short + " (" + version;
    assert opening + short + " (" + version + ")" == (opening + inner) + ")";
    ScanBeforeClosing(t, opening + inner, ")");
    ScanAfterOpening(t, opening, inner);
    ScanAroundWording(t, short, " (", version);
    FindPair(t, short, version);
  }

  lemma RationaleShape(t: Table, o: string, v: string, w1: string, p: string, w2: string, q: string, w3: string, s: string)
    requires Valid(t) && Opening(t, o) && Wording(t, w1) && Wording(t, w2) && Wording(t, w3)
    requires FindAll(t, p) == [] && FindAll(t, q) == []
    ensures FindAll(t, o + v + w1 + p + w2 + q + "." + w3 + s + ".") == FindAll(t, v) + FindAll(t, s)
  {
    var tail2 := q + "." + w3 + s;
    var tail1 := p + w2 + tail2;
    var body := v + w1 + tail1;
    assert o + v + w1 + p + w2 + q + "." + w3 + s + "." == (o + body) + ".";
    ScanIgnoresFinalDot(t, false, o + body);
    ScanAfterOpening(t, o, body);
    ScanAroundWording(t, v, w1, tail1);
    ScanAroundWording(t, p, w2, tail2);
    ScanAroundStop(t, q, w3, s);
  }

  lemma NoteShape(t: Table, o: string, v: string, w1: string, w2: string, last: string)
    requires Valid(t) && Opening(t, o) && Wording(t, w1) && Wording(t, w2) && '.' !in last
    ensures FindAll(t, o + v + ")" + "." + w1 + "16" + "." + "4" + w2 + "." + " " + last + ".") == FindAll(t, v)
  {
    var tail2 := "." + " " + last;
    var tail1 := "16" + "." + "4" + w2 + tail2;
    var body := v + ")" + "." + w1 + tail1;
    assert o + v + ")" + "." + w1 + "16" + "." + "4" + w2 + "." + " " + last + "." == (o + body) + ".";
    ScanIgnoresFinalDot(t, false, o + body);
    ScanAfterOpening(t, o, body);
    ScanBeforeClosing(t, v, ")");
    ScanAroundStop(t, v + ")", w1, tail1);
    ScanAroundWording(t, "16" + "." + "4", w2, tail2);
    OneDotScansEmpty(t, false, "16", "4");
    OneDotScansEmpty(t, false, "", " " + last);
    assert tail2 == "" + "." + (" " + last);
  }

  lemma SentenceShape(t: Table, o: string, v: string)
    requires Valid(t) && Opening(t, o)
    ensures FindAll(t, o + v + ".") == FindAll(t, v)
  {
    ScanIgnoresFinalDot(t, false, o + v);
    ScanAfterOpening(t, o, v);
  }

  lemma FixedSentence(t: Table, s: string)
    requires Valid(t) && '.' !in s
    ensures FindAll(t, s + ".") == []
  {
    ScanIgnoresFinalDot(t, false, s);
    DotlessScansEmpty(t, false, s);
  }

  lemma PlaybookShape(t: Table, o: string, tid: string, name: string, step: string)
    requires Valid(t) && Opening(t, o)
    ensures FindAll(t, o + tid + " - " + name + "): " + step) == FindEach(t, [tid, name, step])
  {
    var tail1 := name + "): " + step;
    assert o + tid + " - " + name + "): " + step == o + (tid + " - " + tail1);
    ScanAfterOpening(t, o, tid + " - " + tail1);
    ScanAroundWording(t, tid, " - ", tail1);
    ScanAroundWording(t, name, "): ", step);
    FindPair(t, name, step);
    assert [tid, name, step] == [tid] + [name, step];
    FindEachConcat(t, [tid], [name, step]);
    FindOne(t, tid);
  }

  // Scans of the template's texts.
  lemma SignalScan(t: Table, key: string, v: SignalValue)
    requires Valid(t)
    ensures FindAll(t, key + "=" + ValueText(v)) == FindEach(t, [key, FreeValue(v)])
  {
    ScanAroundWording(t, key, "=", ValueText(v));
    if v.FloatValue? { FixedScansEmpty(t, v.x, 4); }
    FindPair(t, key, FreeValue(v));
  }

  lemma {:induction false} SignalsScan(t: Table, signals: seq<(string, SignalValue)>)
    requires Valid(t)
    ensures FindEach(t, SignalTexts(signals)) == FindEach(t, SignalFields(signals))
  {
    if |signals| > 0 {
      var key, v := signals[0].0, signals[0].1;
      SignalScan(t, key, v);
      SignalsScan(t, signals[1..]);
      FindEachConcat(t, [key, FreeValue(v)], SignalFields(signals[1..]));
      FindEachConcat(t, [key + "=" + ValueText(v)], SignalTexts(signals[1..]));
      FindOne(t, key + "=" + ValueText(v));
    }
  }

  lemma SummaryScan(t: Table, b: Bundle)
    requires Valid(t)
    ensures FindAll(t, SignalsSummary(b)) == FindEach(t, SignalFields(TopSignals(b)))
  {
    ScanJoin(t, ", ", SignalTexts(TopSignals(b)));
    SignalsScan(t, TopSignals(b));
    NoSignalsWording();
    DotlessScansEmpty(t, false, NO_SIGNALS);
  }

  lemma RationaleScan(t: Table, b: Bundle)
    requires Valid(t)
    ensures FindAll(t, Rationale(b)) == FindEach(t, RationaleFields(b))
  {
    RationaleWording(t);
    ThresholdWording(t);
    FixedScansEmpty(t, b.probability, 4);
    FixedScansEmpty(t, b.threshold, 2);
    RationaleShape(t, RATIONALE_OPENING, b.modelVersion, RATIONALE_PROBABILITY, Fixed(b.probability, 4),
      RATIONALE_THRESHOLD, Fixed(b.threshold, 2), RATIONALE_SIGNALS, SignalsSummary(b));
    SummaryScan(t, b);
    FindEachConcat(t, [b.modelVersion], SignalFields(TopSignals(b)));
    FindOne(t, b.modelVersion);
  }

  lemma FusionNoteScan(t: Table, b: Bundle)
    requires Valid(t)
    ensures FindAll(t, FusionNote(b)) == FindAll(t, b.modelVersion)
  {
    NoteOpeningWording(t);
    NoteAutomaticWording(t);
    NotePenaltyWording(t);
    ContextWording();
    var w1 := NOTE_AUTOMATIC + "fusion" + " is strictly " + "disabled" + NOTE_SECTION;
    var o := NOTE_OPENING + "Random Forest" + " (";
    assert FusionNote(b) == o + b.modelVersion + ")" + "." + w1 + "16" + "." + "4" + NOTE_PENALTY + "." + " " + NOTE_LAST + ".";
    NoteShape(t, o, b.modelVersion, w1, NOTE_PENALTY, NOTE_LAST);
  }

  lemma EnrichmentScan(t: Table, r: Enrichment)
    requires Valid(t)
    ensures FindEach(t, EnrichmentParts(r)) == FindEach(t, [r.status] + r.inspected)
  {
    var status := "Enrichment status: " + r.status + ".";
    var entities := if r.inspected != [] then ["Inspected entities: " + Join(", ", r.inspected) + "."] else [];
    var guard := if r.privateIpGuardTriggered then [GUARD_ACTIVE + "."] else [];
    SentenceShape(t, "Enrichment status: ", r.status);
    SentenceShape(t, "Inspected entities: ", Join(", ", r.inspected));
    ScanJoin(t, ", ", r.inspected);
    ContextWording();
    FixedSentence(t, GUARD_ACTIVE);
    FindOne(t, status);
    FindOne(t, GUARD_ACTIVE + ".");
    FindOne(t, "Inspected entities: " + Join(", ", r.inspected) + ".");
    FindEachConcat(t, [status] + entities, guard);
    FindEachConcat(t, [status], entities);
    FindEachConcat(t, [r.status], r.inspected);
    FindOne(t, r.status);
  }

  lemma ContextScan(t: Table, b: Bundle)
    requires Valid(t)
    ensures FindAll(t, Join(" ", ContextParts(b))) == FindEach(t, ContextFields(b))
  {
    ScanJoin(t, " ", ContextParts(b));
    var status := "Correlation status: " + b.correlationStatus + ".";
    SentenceShape(t, "Correlation status: ", b.correlationStatus);
    FindOne(t, status);
    FindOne(t, b.correlationStatus);
    var incident := if Truthy(b.incidentId) then ["Linked to incident " + b.incidentId.value + "."] else [];
    var incidentField := if Truthy(b.incidentId) then [b.incidentId.value] else [];
    if Truthy(b.incidentId) {
      SentenceShape(t, "Linked to incident ", b.incidentId.value);
      FindOne(t, incident[0]);
      FindOne(t, b.incidentId.value);
    }
    var rest := if b.enrichment.Some? then EnrichmentParts(b.enrichment.value) else [UNVERIFIED_ENTITY + "."];
    var restFields := if b.enrichment.Some? then [b.enrichment.value.status] + b.enrichment.value.inspected else [];
    if b.enrichment.Some? {
      EnrichmentScan(t, b.enrichment.value);
    } else {
      ContextWording();
      FixedSentence(t, UNVERIFIED_ENTITY);
      FindOne(t, UNVERIFIED_ENTITY + ".");
    }
    FindEachConcat(t, [status] + incident, rest);
    FindEachConcat(t, [status], incident);
    FindEachConcat(t, [b.correlationStatus] + incidentField, restFields);
    FindEachConcat(t, [b.correlationStatus], incidentField);
  }

  lemma StandingChecksScan(t: Table)
    requires Valid(t)
    ensures FindEach(t, StandingChecks()) == []
  {
    CheckWording();
    BenignCheckWording();
    FixedSentence(t, CHECK_TAP);
    FixedSentence(t, CHECK_WINDOW);
    FixedSentence(t, CHECK_BENIGN);
    FindPair(t, CHECK_WINDOW + ".", CHECK_BENIGN + ".");
    FindEachConcat(t, [CHECK_TAP + "."], [CHECK_WINDOW + ".", CHECK_BENIGN + "."]);
    FindOne(t, CHECK_TAP + ".");
  }

  lemma ChecksScan(t: Table, b: Bundle)
    requires Valid(t)
    ensures FindAll(t, Join(" ", Checks(b))) == FindEach(t, CheckFields(b))
  {
    ScanJoin(t, " ", Checks(b));
    StandingChecksScan(t);
    if b.hits != [] {
      var h := b.hits[0];
      CheckWording();
      PlaybookShape(t, CHECK_PLAYBOOK, TechniqueText(h), h.techniqueName, FirstStep(h));
      FindEachConcat(t, [PlaybookCheck(h)], StandingChecks());
      FindOne(t, PlaybookCheck(h));
    } else {
      assert Checks(b) == StandingChecks();
    }
  }

  lemma FiveTextScan(t: Table, a: string, b: string, c: string, d: string, e: string)
    requires Valid(t)
    ensures FindAll(t, Join(" ", [a, b, c, d, e]))
         == FindAll(t, a) + FindAll(t, b) + FindAll(t, c) + FindAll(t, d) + FindAll(t, e)
  {
    ScanJoin(t, " ", [a, b, c, d, e]);
    assert [a, b, c, d, e] == [a] + [b, c] + [d, e];
    FindEachConcat(t, [a] + [b, c], [d, e]);
    FindEachConcat(t, [a], [b, c]);
    FindOne(t, a);
    FindPair(t, b, c);
    FindPair(t, d, e);
  }

  /** The quads the verifier finds in the template are those of the interpolated fields, in order. */
  lemma TemplateScan(t: Table, b: Bundle)
    requires Valid(t)
    ensures FindAll(t, AllText(Template(b))) == FindEach(t, InterpolatedFields(b))
  {
    HeadlineWording(t);
    HeadlineShape(t, HEADLINE_OPENING, CandidateShort(b), b.modelVersion);
    RationaleScan(t, b);
    FusionNoteScan(t, b);
    ContextScan(t, b);
    ChecksScan(t, b);
    FiveTextScan(t, Headline(b), Rationale(b), FusionNote(b), Join(" ", ContextParts(b)), Join(" ", Checks(b)));
    var f1, f2, f3 := HeadlineFields(b), RationaleFields(b), [b.modelVersion];
    FindEachConcat(t, f1 + f2 + f3 + ContextFields(b), CheckFields(b));
    FindEachConcat(t, f1 + f2 + f3, ContextFields(b));
    FindEachConcat(t, f1 + f2, f3);
    FindEachConcat(t, f1, f2);
    FindOne(t, b.modelVersion);
  }

  lemma RationaleShapeContains(o: string, v: string, w: string, p: string, rest: string)
    ensures Contains(o + v + w + p + rest, v) && Contains(o + v + w + p + rest, p)
  {
    assert o + v + w + p + rest == o + v + (w + p + rest);
    ContainsMiddle(o, v, w + p + rest);
    ContainsMiddle(o + v + w, p, rest);
  }

  lemma RationaleNamesModelAndProbability(b: Bundle)
    ensures Contains(Rationale(b), b.modelVersion)
    ensures Contains(Rationale(b), Fixed(b.probability, 4))
  {
    var p, rest := Fixed(b.probability, 4), RationaleRest(b);
    RationaleSplits(RATIONALE_OPENING + b.modelVersion + RATIONALE_PROBABILITY + p, RATIONALE_THRESHOLD,
      Fixed(b.threshold, 2), RATIONALE_SIGNALS, SignalsSummary(b));
    RationaleShapeContains(RATIONALE_OPENING, b.modelVersion, RATIONALE_PROBABILITY, p, rest);
  }

  function RationaleRest(b: Bundle): string {
    RATIONALE_THRESHOLD + Fixed(b.threshold, 2) + "." + RATIONALE_SIGNALS + SignalsSummary(b) + "."
  }

  lemma RationaleSplits(a: string, w2: string, q: string, w3: string, s: string)
    ensures a + w2 + q + "." + w3 + s + "." == a + (w2 + q + "." + w3 + s + ".")
  {
  }

  /** Lower-casing a text keeps an occurrence of a word, lower-cased. */
  lemma LowerContains(a: string, word: string, b: string)
    ensures Contains(Lower(a + word + b), Lower(word))
  {
    LowerConcat(a + word, b);
    LowerConcat(a, word);
    ContainsMiddle(Lower(a), Lower(word), Lower(b));
  }

  lemma LowerWords()
    ensures Lower("Random Forest") == "random forest"
    ensures Lower("fusion") == "fusion"
    ensures Lower("disabled") == "disabled"
  {
  }

  lemma NoteShapeContains(o: string, forest: string, mid: string, fusion: string, strictly: string, disabled: string, end: string)
    ensures var note := Lower(o + forest + mid + fusion + strictly + disabled + end);
      Contains(note, Lower(forest)) && Contains(note, Lower(fusion)) && Contains(note, Lower(disabled))
  {
    var note := o + forest + mid + fusion + strictly + disabled + end;
    assert note == o + forest + (mid + fusion + strictly + disabled + end);
    LowerContains(o, forest, mid + fusion + strictly + disabled + end);
    assert note == (o + forest + mid) + fusion + (strictly + disabled + end);
    LowerContains(o + forest + mid, fusion, strictly + disabled + end);
    LowerContains(o + forest + mid + fusion + strictly, disabled, end);
  }

  lemma NoteSplits(o: string, v: string, auto: string, f: string, s: string, d: string, section: string, pen: string, last: string)
    ensures o + " (" + v + ")" + "." + auto + f + s + d + section + "16" + "." + "4" + pen + "." + " " + last + "."
         == o + (" (" + v + ")" + "." + auto) + f + s + d + (section + "16" + "." + "4" + pen + "." + " " + last + ".")
  {
  }

  lemma NoteAffirmsAuthority(b: Bundle)
    ensures Contains(Lower(FusionNote(b)), "random forest")
    ensures Contains(Lower(FusionNote(b)), "fusion")
    ensures Contains(Lower(FusionNote(b)), "disabled")
  {
    var mid := " (" + b.modelVersion + ")" + "." + NOTE_AUTOMATIC;
    var end := NOTE_SECTION + "16" + "." + "4" + NOTE_PENALTY + "." + " " + NOTE_LAST + ".";
    NoteSplits(NOTE_OPENING + "Random Forest", b.modelVersion, NOTE_AUTOMATIC, "fusion", " is strictly ", "disabled",
      NOTE_SECTION, NOTE_PENALTY, NOTE_LAST);
    NoteShapeContains(NOTE_OPENING, "Random Forest", mid, "fusion", " is strictly ", "disabled", end);
    LowerWords();
  }

  // ----- The two agree -----

  /** Every quad in every interpolated field is an inspected entity. */
  ghost predicate FieldsGrounded(t: Table, b: Bundle) {
    forall f :: f in InterpolatedFields(b) ==> Grounded(t, f, b)
  }

  /** The verifier accepts the template exactly when its interpolated fields name no other address. */
  lemma TemplateVerifiedIff(t: Table, b: Bundle)
    requires Valid(t)
    ensures Verified(t, Template(b), b) <==> FieldsGrounded(t, b)
  {
    TemplateCitesAllowedKeys(b);
    RationaleNamesModelAndProbability(b);
    NoteAffirmsAuthority(b);
    TemplateScan(t, b);
    var fields := InterpolatedFields(b);
    if FieldsGrounded(t, b) {
      forall ip | ip in FindEach(t, fields) ensures ip in Inspected(b) {
        FindEachElements(t, fields, ip);
      }
    }
    if Grounded(t, AllText(Template(b)), b) {
      forall f, ip | f in fields && ip in FindAll(t, f) ensures ip in Inspected(b) {
        FindEachElements(t, fields, ip);
      }
    }
  }

  /** Whatever the generator does, the engine's answer passes the verifier: this holds for
      every generator exactly when the bundle's own fields are grounded. */
  lemma EveryAnswerVerifiedIff(t: Table, b: Bundle)
    requires Valid(t)
    ensures (forall g :: Verified(t, GenerateExplanation(t, g, b), b)) <==> FieldsGrounded(t, b)
  {
    TemplateVerifiedIff(t, b);
    assert GenerateExplanation(t, Absent, b) == Template(b);
  }

  /** The free fields are those that are not inspected entities. */
  ghost predicate CleanEvidence(t: Table, b: Bundle) {
    && (forall f :: f in InterpolatedFields(b) && f !in Inspected(b) ==> FindAll(t, f) == [])
    && (forall e :: e in Inspected(b) ==> QuadText(t, e, 3))
  }

  /** Fields without addresses and entities that are single addresses are enough. */
  lemma CleanEvidenceIsAlwaysAnswered(t: Table, b: Bundle, g: Generator)
    requires Valid(t) && CleanEvidence(t, b)
    ensures Verified(t, GenerateExplanation(t, g, b), b)
  {
    forall f | f in InterpolatedFields(b) ensures Grounded(t, f, b) {
      if f in Inspected(b) { WholeQuad(t, f); }
    }
    EveryAnswerVerifiedIff(t, b);
  }

  /** Cutting the candidate id to twelve characters can expose a quad the whole id does not contain. */
  lemma TruncationExposesQuad(t: Table)
    requires Valid(t)
    ensures FindAll(t, "-----" + "1.2.3.4y") == []
    ensures FindAll(t, Take(AfterLast("-----" + "1.2.3.4y", ':'), 12)) == ["1.2.3.4"]
  {
    var id := "-----" + "1.2.3.4y";
    assert ':' !in "-----" && ':' !in "1.2.3.4y";
    assert AfterLast(id, ':') == id;
    assert "1.2.3.4y"[..7] == "1.2.3.4";
    assert Take(id, 12) == "-----" + "1.2.3.4";
    assert Opening(t, "-----");
    ScanAfterOpening(t, "-----", "1.2.3.4y");
    ScanAfterOpening(t, "-----", "1.2.3.4");
    NoQuadBeforeWord(t);
    SmallQuad(t);
  }

  /** Four digits with dots between them are a quad. */
  lemma FourDigits(t: Table, a: char, b: char, c: char, d: char)
    requires Valid(t) && AsciiDigit(a) && AsciiDigit(b) && AsciiDigit(c) && AsciiDigit(d)
    ensures QuadText(t, [a, '.', b, '.', c, '.', d], 3)
  {
    var w := [a, '.', b, '.', c, '.', d];
    assert a < 128 as char && b < 128 as char && c < 128 as char && d < 128 as char;
    assert w[2..] == [b, '.', c, '.', d] && w[2..][2..] == [c, '.', d] && w[2..][2..][2..] == [d];
    assert Octet(t, w, 1) && Octet(t, w[2..], 1) && Octet(t, w[2..][2..], 1) && Octet(t, [d], 1);
    assert QuadText(t, [d], 0);
    assert QuadText(t, [c, '.', d], 1);
    assert QuadText(t, [b, '.', c, '.', d], 2);
  }

  lemma SmallQuad(t: Table)
    requires Valid(t)
    ensures FindAll(t, "1.2.3.4") == ["1.2.3.4"]
  {
    FourDigits(t, '1', '2', '3', '4');
    assert "1.2.3.4" == ['1', '.', '2', '.', '3', '.', '4'];
    WholeQuad(t, "1.2.3.4");
  }

  /** One digit and a dot in front of a text. */
  lemma DigitDot(t: Table, d: char, rest: string, k: nat)
    requires Valid(t) && AsciiDigit(d)
    ensures QuadLength(t, [d] + "." + rest, 0) == Some(1)
    ensures QuadLength(t, rest, k) == None ==> QuadLength(t, [d] + "." + rest, k + 1) == None
    ensures QuadLength(t, [d] + "." + rest, 3) == None && FindAll(t, rest) == [] ==> FindAll(t, [d] + "." + rest) == []
  {
    var s := [d] + "." + rest;
    assert d < 128 as char && '.' < 128 as char;
    assert s[1..] == "." + rest && s[1..][1..] == rest && s[2..] == rest;
    assert Run(t, s[1..]) == 0;
    assert Run(t, s) == 1;
    assert QuadLength(t, "." + rest, 3) == None;
    assert Scan(t, true, "." + rest) == FindAll(t, rest);
    assert QuadLength(t, s, 3) == None ==> FindAll(t, s) == Scan(t, true, s[1..]);
  }

  lemma NoQuadBeforeWord(t: Table)
    requires Valid(t)
    ensures FindAll(t, "1.2.3.4y") == []
  {
    var y := "4y";
    assert y[1..] == "y" && y[1] == 'y';
    assert Run(t, y[1..]) == 0 && Run(t, y) == 1;
    assert QuadLength(t, y, 0) == None && QuadLength(t, y, 1) == None && QuadLength(t, y, 2) == None;
    DotlessScansEmpty(t, false, y);
    var s3, s2, s1 := ['3'] + "." + y, ['2'] + "." + (['3'] + "." + y), ['1'] + "." + (['2'] + "." + (['3'] + "." + y));
    DigitDot(t, '3', y, 0);
    DigitDot(t, '3', y, 1);
    DigitDot(t, '3', y, 2);
    DigitDot(t, '2', s3, 1);
    DigitDot(t, '2', s3, 2);
    DigitDot(t, '1', s2, 2);
    assert s1 == "1.2.3.4y";
  }
}
