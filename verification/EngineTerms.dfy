/**
 The terms on which the engine hands on a generated explanation, written out: what it may cite, which
 addresses its texts may name, and what its rationale and note must say.
 */
module EngineTerms {
  import opened Text
  import opened IpScan
  import opened Numerals
  import opened ExplanationEngine
  import opened TemplateGrounding

  // ----- Where a citation may come from -----

  predicate IsBaseKey(k: string) {
    || k == "candidate_id" || k == "record_id" || k == "rf_model_version" || k == "rf_attack_probability"
    || k == "rf_threshold" || k == "correlation_status" || k == "ae_v2_threshold"
  }

  predicate NamesSignal(signals: seq<(string, SignalValue)>, k: string) {
    exists i :: 0 <= i < |signals| && signals[i].0 == k
  }

  predicate NamesEntity(inspected: seq<string>, k: string) {
    exists i :: 0 <= i < |inspected| && k == "entity:" + inspected[i]
  }

  predicate NamesHit(h: Hit, k: string) {
    || (h.techniqueId.Some? && h.techniqueId.value != "" && k == "mitre:" + h.techniqueId.value)
    || (h.playbookId.Some? && h.playbookId.value != "" && k == "playbook:" + h.playbookId.value)
  }

  /** A base key, or one that an optional part of the bundle provides. */
  predicate FromBundle(b: Bundle, k: string) {
    || IsBaseKey(k)
    || NamesSignal(b.signals, k)
    || (b.aeError.Some? && k == "ae_v2_reconstruction_error")
    || (b.incidentId.Some? && b.incidentId.value != "" && k == "incident_id")
    || (b.enrichment.Some?
        && (k == "enrichment_status" || k == "enrichment_reason" || NamesEntity(b.enrichment.value.inspected, k)))
    || (b.observedAt.Some? && k == "observed_at")
    || (b.hits != [] && (k == "chroma_rag_hits" || exists i :: 0 <= i < |b.hits| && NamesHit(b.hits[i], k)))
  }

  lemma BaseKeysAre(k: string)
    ensures k in BASE_KEYS <==> IsBaseKey(k)
  {
  }

  lemma SignalKeysAre(signals: seq<(string, SignalValue)>, k: string)
    ensures k in SignalKeySet(signals) <==> NamesSignal(signals, k)
  {
    if NamesSignal(signals, k) {
      var i :| 0 <= i < |signals| && signals[i].0 == k;
      assert signals[i] in signals;
    }
  }

  lemma EntityKeysAre(inspected: seq<string>, k: string)
    ensures k in EntityKeySet(inspected) <==> NamesEntity(inspected, k)
  {
    if NamesEntity(inspected, k) {
      var i :| 0 <= i < |inspected| && k == "entity:" + inspected[i];
      assert inspected[i] in inspected;
    }
  }

  lemma HitKeysAre(hits: seq<Hit>, k: string)
    ensures k in HitKeySet(hits) <==> exists i :: 0 <= i < |hits| && NamesHit(hits[i], k)
  {
    if i :| 0 <= i < |hits| && NamesHit(hits[i], k) {
      assert hits[i] in hits && k in HitKeys(hits[i]);
    }
    if k in HitKeySet(hits) {
      var h :| h in hits && k in HitKeys(h);
      var i :| 0 <= i < |hits| && hits[i] == h;
      assert NamesHit(hits[i], k);
    }
  }

  /** A key may be cited exactly when the bundle has what it names. */
  lemma AllowedKeysAre(b: Bundle, k: string)
    ensures k in AllowedKeys(b) <==> FromBundle(b, k)
  {
    BaseKeysAre(k);
    SignalKeysAre(b.signals, k);
    if b.enrichment.Some? { EntityKeysAre(b.enrichment.value.inspected, k); }
    HitKeysAre(b.hits, k);
  }

  // ----- The terms -----

  function Fields(e: Explanation): seq<string> { [e.headline, e.rationale, e.fusionNote, e.context] + e.checks }

  predicate IsInspected(b: Bundle, ip: string) { b.enrichment.Some? && ip in b.enrichment.value.inspected }

  /** Advisory; citing only what the bundle has; naming only inspected addresses; with the model, the probability to
      four or three places, and a note on the forest, the fusion and its being disabled. */
  predicate MeetsTerms(t: Table, e: Explanation, b: Bundle) {
    && e.advisoryOnly
    && (forall k :: k in e.citedKeys ==> FromBundle(b, k))
    && (forall x, ip :: x in Fields(e) && ip in FindAll(t, x) ==> IsInspected(b, ip))
    && Contains(e.rationale, b.modelVersion)
    && (Contains(e.rationale, Fixed(b.probability, 4)) || Contains(e.rationale, Fixed(b.probability, 3)))
    && Contains(Lower(e.fusionNote), "random forest")
    && Contains(Lower(e.fusionNote), "fusion")
    && Contains(Lower(e.fusionNote), "disabled")
  }

  /** The scan of the joined texts is that of the texts one by one. */
  lemma JoinedFields(t: Table, e: Explanation, ip: string)
    requires Valid(t)
    ensures ip in FindAll(t, AllText(e)) <==> exists x :: x in Fields(e) && ip in FindAll(t, x)
  {
    FiveTextScan(t, e.headline, e.rationale, e.fusionNote, e.context, Join(" ", e.checks));
    ScanJoin(t, " ", e.checks);
    FindEachElements(t, e.checks, ip);
    var four := [e.headline, e.rationale, e.fusionNote, e.context];
    if ip in FindAll(t, AllText(e)) {
      if ip in FindAll(t, Join(" ", e.checks)) {
        var x :| x in e.checks && ip in FindAll(t, x);
        assert x in Fields(e);
      } else {
        var x :| x in four && ip in FindAll(t, x);
        assert x in Fields(e);
      }
    }
    if x :| x in Fields(e) && ip in FindAll(t, x) {
      assert x in four || x in e.checks;
    }
  }

  lemma GroundedFields(t: Table, e: Explanation, b: Bundle)
    requires Valid(t)
    ensures Grounded(t, AllText(e), b) == (forall x, ip :: x in Fields(e) && ip in FindAll(t, x) ==> IsInspected(b, ip))
  {
    assert forall ip :: ip in Inspected(b) <==> IsInspected(b, ip);
    if Grounded(t, AllText(e), b) {
      forall x, ip | x in Fields(e) && ip in FindAll(t, x) ensures IsInspected(b, ip) { JoinedFields(t, e, ip); }
    }
    if forall x, ip :: x in Fields(e) && ip in FindAll(t, x) ==> IsInspected(b, ip) {
      forall ip | ip in FindAll(t, AllText(e)) ensures ip in Inspected(b) { JoinedFields(t, e, ip); }
    }
  }

  lemma CitationsAllowed(e: Explanation, b: Bundle)
    ensures (forall k :: k in e.citedKeys ==> k in AllowedKeys(b)) == (forall k :: k in e.citedKeys ==> FromBundle(b, k))
  {
    forall k ensures k in AllowedKeys(b) <==> FromBundle(b, k) { AllowedKeysAre(b, k); }
  }

  lemma VerifiedIsTerms(t: Table, e: Explanation, b: Bundle)
    requires Valid(t)
    ensures Verified(t, e, b) == MeetsTerms(t, e, b)
  {
    GroundedFields(t, e, b);
    CitationsAllowed(e, b);
  }

  /** The engine's answer is the generator's explanation exactly when there is one and it meets the terms;
      otherwise it is the template. */
  lemma AnswerIsDecided(t: Table, g: Generator, b: Bundle)
    requires Valid(t)
    ensures GenerateExplanation(t, g, b) == if g.Returns? && MeetsTerms(t, g.e, b) then g.e else Template(b)
  {
    if g.Returns? { VerifiedIsTerms(t, g.e, b); }
  }

  /** In any answer but the template, every dotted quad that matches anywhere in a text begins inside an inspected
      address found there, and is one itself unless it begins inside an earlier one. */
  lemma AnswerNamesInspected(t: Table, g: Generator, b: Bundle, x: string, i: nat) returns (p: nat, q: nat)
    requires Valid(t) && GenerateExplanation(t, g, b) != Template(b)
    requires x in Fields(GenerateExplanation(t, g, b)) && i < |x| && HitAt(t, x, i).Some?
    ensures p <= i < q <= |x| && HitAt(t, x, p) == Some(q - p) && IsInspected(b, x[p..q])
  {
    AnswerIsDecided(t, g, b);
    p, q := MatchIsCovered(t, x, i);
  }

  // ----- What the template cites -----

  /** The template cites the base keys, its first five signals, the incident when there is one, the enrichment with
      every inspected entity, and the first hit; nothing else. */
  lemma TemplateCitesExactly(b: Bundle, k: string)
    ensures k in Template(b).citedKeys <==>
      || IsBaseKey(k)
      || (exists i :: 0 <= i < |b.signals| && i < 5 && b.signals[i].0 == k)
      || (b.incidentId.Some? && b.incidentId.value != "" && k == "incident_id")
      || (b.enrichment.Some?
          && (k == "enrichment_status" || k == "enrichment_reason" || NamesEntity(b.enrichment.value.inspected, k)))
      || (b.hits != [] && (k == "chroma_rag_hits" || NamesHit(b.hits[0], k)))
  {
    BaseKeysAre(k);
    TopSignalKeys(b, k);
    if b.enrichment.Some? { ListedEntities(b.enrichment.value.inspected, k); }
  }

  lemma TopSignalKeys(b: Bundle, k: string)
    ensures k in SignalKeys(TopSignals(b)) <==> exists i :: 0 <= i < |b.signals| && i < 5 && b.signals[i].0 == k
  {
    var keys := SignalKeys(TopSignals(b));
    if i :| 0 <= i < |b.signals| && i < 5 && b.signals[i].0 == k { assert keys[i] == k; }
    if k in keys {
      var i :| 0 <= i < |keys| && keys[i] == k;
      assert b.signals[i].0 == k;
    }
  }

  lemma ListedEntities(inspected: seq<string>, k: string)
    ensures k in EntityKeys(inspected) <==> NamesEntity(inspected, k)
  {
    var keys := EntityKeys(inspected);
    if NamesEntity(inspected, k) {
      var i :| 0 <= i < |inspected| && k == "entity:" + inspected[i];
      assert keys[i] == k;
    }
    if k in keys {
      var i :| 0 <= i < |keys| && keys[i] == k;
      assert k == "entity:" + inspected[i];
    }
  }

  /** The template's headline names the last colon-separated part of the candidate id, cut to twelve characters. */
  lemma HeadlineNamesCandidate(b: Bundle, prefix: string, id: string)
    requires b.candidateId == prefix + id && ':' !in id && (prefix == "" || prefix[|prefix| - 1] == ':')
    ensures Template(b).headline
         == HEADLINE_OPENING + (if |id| <= 12 then id else id[..12]) + " (" + b.modelVersion + ")"
  {
    AfterLastIs(b.candidateId, ':');
    LastPart(prefix, id, AfterLast(b.candidateId, ':'));
  }

  lemma LastPart(prefix: string, id: string, last: string)
    requires ':' !in id && (prefix == "" || prefix[|prefix| - 1] == ':') && ':' !in last
    requires var s := prefix + id;
      (':' !in s ==> last == s) && (':' in s ==> exists i :: 0 <= i < |s| && s[i] == ':' && last == s[i + 1..])
    ensures last == id
  {
    var s := prefix + id;
    if prefix == "" {
      assert s == id;
    } else {
      assert s[|prefix| - 1] == ':';
      var i :| 0 <= i < |s| && s[i] == ':' && last == s[i + 1..];
      assert forall j :: i < j < |s| ==> s[j] == last[j - i - 1];
      assert forall j :: |prefix| <= j < |s| ==> s[j] == id[j - |prefix|];
      assert i == |prefix| - 1;
      assert s[|prefix|..] == id;
    }
  }

  /** A quad followed by a dot and a text without dots is all that is found. */
  lemma FirstQuadOnly(t: Table, w: string, o: string)
    requires Valid(t) && QuadText(t, w, 3) && '.' !in o
    ensures FindAll(t, w + "." + o) == [w]
  {
    var x, rest := w + "." + o, "." + o;
    DotIsNoWord(t);
    assert x[..|w|] == w && x[|w|..] == rest;
    QuadLengthIsTheOnlyMatch(t, x, 3, |w|);
    ScanOnce(t, false, x, |w|);
    assert rest[1..] == o;
    DotlessScansEmpty(t, rest[0] in t.word, o);
  }

  lemma SecondQuad(t: Table, x: string)
    requires Valid(t) && x == "1.2.3.4.5"
    ensures HitAt(t, x, 2) == Some(7) && x[2..9] == "2.3.4.5"
  {
    DotIsNoWord(t);
    FourDigits(t, '2', '3', '4', '5');
    assert x[2..][..7] == ['2', '.', '3', '.', '4', '.', '5'];
    QuadLengthIsTheOnlyMatch(t, x[2..], 3, 7);
  }

  /** The exception is real: of two overlapping quads only the first is looked at. */
  lemma OverlappedQuadIsMissed(t: Table)
    requires Valid(t)
    ensures var x := "1.2.3.4.5";
      FindAll(t, x) == ["1.2.3.4"] && HitAt(t, x, 2) == Some(7) && x[2..9] == "2.3.4.5"
  {
    FourDigits(t, '1', '2', '3', '4');
    var w := ['1', '.', '2', '.', '3', '.', '4'];
    assert "1.2.3.4" == w && "1.2.3.4.5" == w + "." + "5";
    FirstQuadOnly(t, w, "5");
    SecondQuad(t, "1.2.3.4.5");
  }
}
