/**
 What a passed phase-0 gate says about rows: every profile total is the number of rows the
 manifests list for its inputs.
 */
module RowConservation {
  import opened Text
  import opened JsonValue
  import opened ContentScan
  import opened AuditReports
  import opened ReadinessGate

  // `P(x) == true` in a contract hands the fact on unopened, which keeps the caller's proof small.

  // ----- The synthetic baseline -----

  lemma OneClassification(verified: bool, p: Payload)
    ensures !(PipelineFixture(verified, p) && TrainingBaseline(verified, p))
  {
    assert JText("development_pipeline_fixture") != JText("final_training_baseline");
  }

  lemma NotBothReady(inp: Inputs, verdicts: seq<bool>)
    requires |verdicts| == |inp.reports|
    ensures !(FixtureReady(inp, verdicts) && BaselineReady(inp, verdicts))
  {
    OneClassification(LastManifestVerified(inp.manifests, SYNTHETIC), SyntheticProfile(inp.reports));
  }

  lemma OneSyntheticBlocker(inp: Inputs, f: Findings)
    requires !(f.fixture && f.baseline)
    ensures Blocks(inp, f, SyntheticBaselineMissing) <==> !Blocks(inp, f, SyntheticNotFinal)
    ensures !Clear(inp, f)
  {
    assert Blocks(inp, f, if f.fixture then SyntheticNotFinal else SyntheticBaselineMissing);
  }

  /** A synthetic profile has one classification, so one of its two blockers is always present
      and training is never ready. */
  lemma TrainingIsNeverReady(inp: Inputs)
    ensures Blocks(inp, FindingsOf(inp), SyntheticBaselineMissing) <==> !Blocks(inp, FindingsOf(inp), SyntheticNotFinal)
    ensures !TrainingReady(inp)
  {
    NotBothReady(inp, Verdicts(inp));
    OneSyntheticBlocker(inp, FindingsOf(inp));
  }

  // ----- Sums over sets and lists -----

  lemma {:induction false} SumsAgree(names: set<string>, a: map<string, int>, b: map<string, int>)
    requires forall x :: x in names ==> Entry(a, x) == Entry(b, x)
    ensures SumOver(names, a) == SumOver(names, b)
  {
    if names != {} {
      var x :| x in names;
      SumWithout(names, a, x);
      SumWithout(names, b, x);
      SumsAgree(names - {x}, a, b);
    }
  }

  function Names(s: seq<string>): set<string> { set x | x in s }

  lemma {:induction false} FewerNames(s: seq<string>)
    ensures |Names(s)| <= |s|
  {
    if s != [] {
      FewerNames(s[1..]);
      assert Names(s) == {s[0]} + Names(s[1..]);
    }
  }

  /** A list as long as the set of its members has no repeats, and sums to the set's sum. */
  lemma {:induction false} ListSumsAsSet(s: seq<string>, rows: map<string, int>)
    requires |Names(s)| == |s|
    ensures SumList(s, rows) == SumOver(Names(s), rows)
  {
    if s != [] {
      var rest := s[1..];
      FewerNames(rest);
      assert Names(s) == {s[0]} + Names(rest);
      assert s[0] !in Names(rest);
      assert Names(s) - {s[0]} == Names(rest);
      SumWithout(Names(s), rows, s[0]);
      ListSumsAsSet(rest, rows);
    }
  }

  lemma {:induction false} DistinctCount(s: seq<string>)
    requires Distinct(s)
    ensures |Names(s)| == |s|
  {
    if s != [] {
      DistinctCount(s[1..]);
      assert Names(s) == {s[0]} + Names(s[1..]);
    }
  }

  lemma {:induction false} SumOfUnion(a: set<string>, b: set<string>, rows: map<string, int>)
    requires a !! b
    ensures SumOver(a + b, rows) == SumOver(a, rows) + SumOver(b, rows)
  {
    if a == {} {
      assert a + b == b;
    } else {
      var x :| x in a;
      SumWithout(a, rows, x);
      SumWithout(a + b, rows, x);
      assert a + b - {x} == (a - {x}) + b;
      SumOfUnion(a - {x}, b, rows);
    }
  }

  // ----- Reading the verdict -----

  lemma ContractsByName(c: DatasetContract)
    requires c in CONTRACTS
    ensures ContractOf(c.dataset) == Some(c)
  {
  }

  lemma ProfilesAreNotQuality(c: DatasetContract)
    requires c in CONTRACTS
    ensures !IsQuality(c.profile)
  {
    assert QUALITY_SUFFIX[1] == 'q';
    assert c.profile[|c.profile| - |QUALITY_SUFFIX| + 1] == 'p';
    NotASuffix(c.profile, QUALITY_SUFFIX, 1);
  }

  lemma NotASuffix(s: string, suffix: string, i: nat)
    requires i < |suffix| <= |s| && s[|s| - |suffix| + i] != suffix[i]
    ensures s[|s| - |suffix|..] != suffix
  {
    assert s[|s| - |suffix|..][i] == s[|s| - |suffix| + i];
  }

  lemma NothingBlocks(inp: Inputs, f: Findings)
    requires Ready(inp, f)
    ensures !f.unverified && !f.unevidenced && !f.ambiguous
  {
    assert !Blocks(inp, f, ReportVerificationFailed) by { assert Gating(ReportVerificationFailed); }
    assert !Blocks(inp, f, ReportEvidenceFailed) by { assert Gating(ReportEvidenceFailed); }
    assert !Blocks(inp, f, ReportInputAmbiguous) by { assert Gating(ReportInputAmbiguous); }
  }

  lemma ReadyVerifies(inp: Inputs)
    requires PipelineReady(inp)
    ensures false !in Verdicts(inp)
  {
    NothingBlocks(inp, FindingsOf(inp));
  }

  lemma ReadyEvidence(inp: Inputs, c: DatasetContract)
    requires PipelineReady(inp) && c in CONTRACTS
    ensures EvidenceComplete(inp, Verdicts(inp), c) && Distinct(ExpectedInputs(inp, c))
  {
    NothingBlocks(inp, FindingsOf(inp));
  }

  // ----- Inputs that share a stem -----

  /** No later input has the same stem, so this one keeps its quality report. */
  predicate IsLast(inputs: seq<string>, i: nat)
    requires i < |inputs|
  {
    forall j :: i < j < |inputs| ==> Stem(inputs[j]) != Stem(inputs[i])
  }

  predicate StemsDistinct(inputs: seq<string>) { forall i :: 0 <= i < |inputs| ==> IsLast(inputs, i) }

  /** Inputs no quality report is expected for. */
  function Shadowed(inputs: seq<string>): set<string> { Names(inputs) - Sources(inputs) }

  lemma QualityNameOf(a: string, b: string)
    ensures QualityName(a) == QualityName(b) <==> Stem(a) == Stem(b)
  {
    assert QualityName(a)[..|QualityName(a)| - |QUALITY_SUFFIX|] == Stem(a);
    assert QualityName(b)[..|QualityName(b)| - |QUALITY_SUFFIX|] == Stem(b);
  }

  /** The last input of a stem keeps it. */
  lemma {:induction false} LastIsKept(inputs: seq<string>, i: nat)
    requires i < |inputs| && IsLast(inputs, i)
    ensures QualityName(inputs[i]) in QualityReports(inputs) && QualityReports(inputs)[QualityName(inputs[i])] == inputs[i]
  {
    var n := |inputs| - 1;
    if i < n {
      assert IsLast(inputs[..n], i);
      LastIsKept(inputs[..n], i);
      QualityNameOf(inputs[n], inputs[i]);
    }
  }

  lemma {:induction false} KeptIsLast(inputs: seq<string>, name: string) returns (i: nat)
    requires name in QualityReports(inputs)
    ensures i < |inputs| && IsLast(inputs, i) && inputs[i] == QualityReports(inputs)[name] && QualityName(inputs[i]) == name
  {
    i := |inputs| - 1;
    if name != QualityName(inputs[i]) {
      var n := i;
      i := KeptIsLast(inputs[..n], name);
      QualityNameOf(inputs[n], inputs[i]);
      LastStays(inputs, i);
    }
  }

  lemma LastStays(inputs: seq<string>, i: nat)
    requires i < |inputs| - 1 && IsLast(inputs[..|inputs| - 1], i) && Stem(inputs[|inputs| - 1]) != Stem(inputs[i])
    ensures IsLast(inputs, i)
  {
    forall j | i < j < |inputs| - 1 ensures Stem(inputs[j]) != Stem(inputs[i]) { assert inputs[..|inputs| - 1][j] == inputs[j]; }
  }

  /** Quality reports are expected for exactly the inputs that are last of their stem. */
  lemma SourcesAreLast(inputs: seq<string>, i: nat)
    requires i < |inputs| && Distinct(inputs)
    ensures inputs[i] in Sources(inputs) <==> IsLast(inputs, i)
    ensures Sources(inputs) <= Names(inputs)
  {
    var q := QualityReports(inputs);
    if IsLast(inputs, i) { LastIsKept(inputs, i); }
    forall name | name in q ensures q[name] in Names(inputs) && (q[name] == inputs[i] ==> IsLast(inputs, i)) {
      var k := KeptIsLast(inputs, name);
    }
  }

  /** Listed rows are the rows with quality reports plus the rows lost to shared stems. */
  lemma ListedRows(inputs: seq<string>, rows: map<string, int>)
    requires Distinct(inputs)
    ensures SumList(inputs, rows) == SumOver(Sources(inputs), rows) + SumOver(Shadowed(inputs), rows)
    ensures Shadowed(inputs) == {} <==> StemsDistinct(inputs)
  {
    DistinctCount(inputs);
    ListSumsAsSet(inputs, rows);
    forall i | 0 <= i < |inputs| ensures inputs[i] in Shadowed(inputs) <==> !IsLast(inputs, i) { SourcesAreLast(inputs, i); }
    if inputs == [] {
      assert Sources(inputs) == {} && Names(inputs) == {};
    } else {
      SourcesAreLast(inputs, 0);
    }
    assert Sources(inputs) + Shadowed(inputs) == Names(inputs);
    SumOfUnion(Sources(inputs), Shadowed(inputs), rows);
  }

  /** Two formats of one capture: only the second keeps a quality report. */
  lemma SharedStemIsShadowed()
    ensures Shadowed(["a.csv", "a.tsv"]) == {"a.csv"}
  {
    var inputs := ["a.csv", "a.tsv"];
    assert LastDot("a.csv", 5) == 1 && LastDot("a.tsv", 5) == 1;
    assert Stem(inputs[0]) == "a" && Stem(inputs[1]) == "a";
    assert "a.csv"[2] != "a.tsv"[2];
    SourcesAreLast(inputs, 0);
    SourcesAreLast(inputs, 1);
    assert IsLast(inputs, 1);
  }

  // ----- Profile totals -----

  /** The report's total is its source's entry. */
  predicate RecordsRows(r: Report, rows: map<string, int>) {
    SourceOf(r.payload).Some? && SourceOf(r.payload).value in rows && rows[SourceOf(r.payload).value] == TotalsOf(r).total
  }

  lemma {:induction false} RecordedAreRows(reports: seq<Report>, dataset: string, rows: map<string, int>)
    requires forall i :: 0 <= i < |reports| && IsRecording(reports[i], dataset) ==> RecordsRows(reports[i], rows)
    ensures forall x :: x in Recorded(reports, dataset) ==> x in rows && Recorded(reports, dataset)[x] == rows[x]
  {
    if reports != [] { RecordedAreRows(reports[..|reports| - 1], dataset, rows); }
  }

  /** A verified quality report records its source's manifest rows. */
  lemma QualityRowsMatch(inp: Inputs, c: DatasetContract, i: nat)
    requires i < |inp.reports| && Verdicts(inp)[i] && c in CONTRACTS
    requires inp.reports[i].dataset == c.dataset && IsQuality(inp.reports[i].file)
    ensures RecordsRows(inp.reports[i], Rows(inp, c.dataset))
  {
    ContractsByName(c);
    VerdictAt(inp, inp.reports, i);
  }

  function SourceNames(entries: seq<Payload>): seq<string> {
    seq(|entries|, i requires 0 <= i < |entries| =>
      var j := Get(entries[i], "source_file"); if j.JText? then j.s else "")
  }

  lemma {:induction false} EntryTotals(entries: seq<Payload>, rows: map<string, int>)
    requires AllCounts(Column(entries, "total_rows"))
    requires forall i :: 0 <= i < |entries| ==>
      Get(entries[i], "total_rows") == ManifestRow(rows, Get(entries[i], "source_file"))
    ensures Total(Column(entries, "total_rows")) == SumList(SourceNames(entries), rows)
  {
    if entries != [] {
      var rest := entries[1..];
      assert Column(entries, "total_rows")[1..] == Column(rest, "total_rows");
      assert SourceNames(entries)[1..] == SourceNames(rest);
      assert Column(entries, "total_rows")[0] == Get(entries[0], "total_rows");
      EntryTotals(rest, rows);
    }
  }

  /** Entries that match their manifest add up to the rows of the expected sources. */
  lemma MatchedEntriesAddUp(entries: seq<Payload>, expected: set<string>, rows: map<string, int>)
    requires EntriesMatch(Some(entries), expected, rows) && AllCounts(Column(entries, "total_rows"))
    ensures Total(Column(entries, "total_rows")) == SumOver(expected, rows)
  {
    EntryTotals(entries, rows);
    SourceNamesAre(entries, expected);
    ListSumsAsSet(SourceNames(entries), rows);
  }

  lemma SourceNamesAre(entries: seq<Payload>, expected: set<string>)
    requires (set j | j in Column(entries, "source_file")) == (set s | s in expected :: JText(s))
    ensures Names(SourceNames(entries)) == expected
  {
    var column, names := Column(entries, "source_file"), SourceNames(entries);
    var texts := set s | s in expected :: JText(s);
    forall i | 0 <= i < |names| ensures names[i] in expected {
      assert column[i] in texts;
    }
    forall s | s in expected ensures s in names {
      assert JText(s) in texts;
      var i :| 0 <= i < |column| && column[i] == JText(s);
      assert names[i] == s;
    }
  }

  /** The dataset's profile among the loaded reports. */
  predicate IsProfile(inp: Inputs, c: DatasetContract, i: nat) {
    i < |inp.reports| && inp.reports[i].dataset == c.dataset && inp.reports[i].file == c.profile
  }

  lemma UnswTotal(inp: Inputs, c: DatasetContract, i: nat)
    requires false !in Verdicts(inp) && c == CONTRACTS[0] && IsProfile(inp, c, i)
    ensures TotalsOf(inp.reports[i]).total == SumOver(ExpectedSources(inp, c), Rows(inp, c.dataset))
  {
    VerdictAt(inp, inp.reports, i);
    ContractsByName(c);
    ProfilesAreNotQuality(c);
    forall k | 0 <= k < |inp.reports| && IsRecording(inp.reports[k], c.dataset)
      ensures RecordsRows(inp.reports[k], Rows(inp, c.dataset))
    {
      QualityRowsMatch(inp, c, k);
    }
    RecordedAreRows(inp.reports, c.dataset, Rows(inp, c.dataset));
    SumsAgree(ExpectedSources(inp, c), Recorded(inp.reports, c.dataset), Rows(inp, c.dataset));
  }

  lemma MordorTotal(inp: Inputs, c: DatasetContract, i: nat)
    requires c == CONTRACTS[2] && IsProfile(inp, c, i) && Verdicts(inp)[i]
    ensures TotalsOf(inp.reports[i]).total == SumOver(ExpectedSources(inp, c), Rows(inp, c.dataset))
  {
    VerdictAt(inp, inp.reports, i);
    ContractsByName(c);
    ProfilesAreNotQuality(c);
    var expected, x := ExpectedSources(inp, c), SourceOf(inp.reports[i].payload).value;
    SumWithout(expected, Rows(inp, c.dataset), x);
    assert |expected - {x}| == 0;
  }

  lemma SyntheticTotal(inp: Inputs, c: DatasetContract, i: nat)
    requires c == CONTRACTS[3] && IsProfile(inp, c, i) && Verdicts(inp)[i]
    ensures TotalsOf(inp.reports[i]).total == SumOver(ExpectedSources(inp, c), Rows(inp, c.dataset))
  {
    VerdictAt(inp, inp.reports, i);
    ContractsByName(c);
    ProfilesAreNotQuality(c);
    OnlyUnswNamesInputRows(inp.reports[i]);
    MatchedEntriesAddUp(Items(Get(inp.reports[i].payload, "sessions")).value, ExpectedSources(inp, c), Rows(inp, c.dataset));
  }

  /** A passed gate conserves rows: a profile accepts or rejects exactly the rows its manifest lists for
      the inputs, except those of inputs hidden behind a later one with the same stem. */
  lemma RowsAreConserved(inp: Inputs, c: DatasetContract, i: nat)
    requires PipelineReady(inp) && c in CONTRACTS && c.dataset != CIC && IsProfile(inp, c, i)
    ensures var t, inputs, rows := TotalsOf(inp.reports[i]), ExpectedInputs(inp, c), Rows(inp, c.dataset);
      && t.accepted + t.rejected == t.total
      && t.total + SumOver(Shadowed(inputs), rows) == SumList(inputs, rows)
      && (StemsDistinct(inputs) ==> t.total == SumList(inputs, rows))
  {
    ReadyEvidence(inp, c);
    ListedRows(ExpectedInputs(inp, c), Rows(inp, c.dataset));
    ReadyVerifies(inp);
    ProfileTotal(inp, c, i);
  }

  /** The profile's total is the manifest's rows over the expected sources. */
  lemma ProfileTotal(inp: Inputs, c: DatasetContract, i: nat)
    requires false !in Verdicts(inp) && c in CONTRACTS && c.dataset != CIC && IsProfile(inp, c, i)
    ensures var t := TotalsOf(inp.reports[i]);
      t.total == SumOver(ExpectedSources(inp, c), Rows(inp, c.dataset)) && t.accepted + t.rejected == t.total
  {
    TotalsAreSplit(inp, i);
    if c == CONTRACTS[0] { UnswTotal(inp, c, i); }
    else if c == CONTRACTS[2] { MordorTotal(inp, c, i); }
    else { SyntheticTotal(inp, c, i); }
  }

  lemma TotalsAreSplit(inp: Inputs, i: nat)
    requires i < |inp.reports| && Verdicts(inp)[i]
    ensures var t := TotalsOf(inp.reports[i]); t.accepted + t.rejected == t.total
  {
    VerdictAt(inp, inp.reports, i);
  }

  lemma {:induction false} PositiveSum(names: set<string>, rows: map<string, int>)
    requires forall x :: x in names ==> Entry(rows, x) > 0
    ensures SumOver(names, rows) >= |names|
  {
    if names != {} {
      var x :| x in names;
      SumWithout(names, rows, x);
      PositiveSum(names - {x}, rows);
    }
  }

  /** Distinct stems are also needed: when every input has rows, a shared stem loses some. */
  lemma ConservedIffStemsDistinct(inp: Inputs, c: DatasetContract, i: nat)
    requires PipelineReady(inp) && c in CONTRACTS && c.dataset != CIC && IsProfile(inp, c, i)
    requires forall x :: x in ExpectedInputs(inp, c) ==> Entry(Rows(inp, c.dataset), x) > 0
    ensures TotalsOf(inp.reports[i]).total == SumList(ExpectedInputs(inp, c), Rows(inp, c.dataset)) <==> StemsDistinct(ExpectedInputs(inp, c))
  {
    var inputs, rows := ExpectedInputs(inp, c), Rows(inp, c.dataset);
    RowsAreConserved(inp, c, i);
    ReadyEvidence(inp, c);
    ListedRows(inputs, rows);
    PositiveSum(Shadowed(inputs), rows);
  }

  lemma {:induction false} OccurrencesAtLeast(reports: seq<Report>, i: nat, j: nat)
    requires i < j < |reports| && reports[i].dataset == reports[j].dataset && reports[i].file == reports[j].file
    ensures Occurrences(reports, reports[i].dataset, reports[i].file) >= 2
  {
    var n := |reports| - 1;
    if j < n { OccurrencesAtLeast(reports[..n], i, j); } else { OccursOnce(reports[..n], i); }
  }

  lemma {:induction false} OccursOnce(reports: seq<Report>, i: nat)
    requires i < |reports|
    ensures Occurrences(reports, reports[i].dataset, reports[i].file) >= 1
  {
    if i < |reports| - 1 { OccursOnce(reports[..|reports| - 1], i); }
  }

  /** A passed gate has exactly one report under every expected name, and it was verified. */
  lemma ExpectedReportIsUnique(inp: Inputs, c: DatasetContract, file: string) returns (i: nat)
    requires PipelineReady(inp) && c in CONTRACTS && file in ExpectedFiles(inp, c)
    ensures i < |inp.reports| && inp.reports[i].dataset == c.dataset && inp.reports[i].file == file
    ensures Verdicts(inp)[i]
    ensures forall k :: 0 <= k < |inp.reports| && inp.reports[k].dataset == c.dataset && inp.reports[k].file == file ==> k == i
  {
    ReadyEvidence(inp, c);
    assert Evidenced(inp.reports, Verdicts(inp), c.dataset, file);
    i :| 0 <= i < |inp.reports| && inp.reports[i].dataset == c.dataset && inp.reports[i].file == file && Verdicts(inp)[i];
    ReadyVerifies(inp);
    forall k | 0 <= k < |inp.reports| && inp.reports[k].dataset == c.dataset && inp.reports[k].file == file ensures k == i {
      if k < i { OccurrencesAtLeast(inp.reports, k, i); }
      if i < k { OccurrencesAtLeast(inp.reports, i, k); }
    }
  }

  /** In a Mordor profile the event-id counts and their overflow also cover the manifest's rows. */
  lemma MordorEventsCoverRows(inp: Inputs, c: DatasetContract, i: nat)
    requires PipelineReady(inp) && c == CONTRACTS[2] && IsProfile(inp, c, i) && StemsDistinct(ExpectedInputs(inp, c))
    ensures Get(inp.reports[i].payload, "event_id_overflow_count").JInt?
    ensures EventTotal(inp.reports[i].payload) + Get(inp.reports[i].payload, "event_id_overflow_count").n
         == SumList(ExpectedInputs(inp, c), Rows(inp, c.dataset))
  {
    RowsAreConserved(inp, c, i);
    ReadyVerifies(inp);
    VerdictAt(inp, inp.reports, i);
    EventsAreTotal(inp.reports[i]);
  }

  lemma EventsAreTotal(r: Report)
    requires Approved(r, EventTotal(r.payload), true) == true && r.file == MORDOR_PROFILE
    ensures Get(r.payload, "event_id_overflow_count").JInt?
    ensures EventTotal(r.payload) + Get(r.payload, "event_id_overflow_count").n == TotalsOf(r).total
  {
    OnlyUnswNamesInputRows(r);
  }

  /** The profile with other counts in its combined entry. */
  function Recounted(r: Report, accepted: nat, rejected: nat): Report {
    var combined := Counted(r)["total_rows" := JInt(accepted + rejected)]["accepted_count" := JInt(accepted)]
      ["rejected_count" := JInt(rejected)]["rejection_rate" := JReal(Rate(accepted + rejected, rejected))];
    r.(payload := r.payload["combined" := JObj(combined)])
  }

  lemma CombinedKeys()
    ensures {"total_rows", "accepted_count", "rejected_count", "rejection_rate"} <= CIC_COMBINED_PROFILE_KEYS
    ensures "combined" in CIC_PROFILE_KEYS && "completed" !in {"total_rows", "accepted_count", "rejected_count", "rejection_rate"}
  {
  }

  lemma RecountedFields(r: Report, accepted: nat, rejected: nat)
    requires r.file == CIC_PROFILE
    ensures var p, q := Counted(r), Counted(Recounted(r, accepted, rejected));
      && Get(q, "total_rows") == JInt(accepted + rejected) && Get(q, "accepted_count") == JInt(accepted)
      && Get(q, "rejected_count") == JInt(rejected) && Get(q, "completed") == Get(p, "completed")
      && Get(q, "rejection_rate") == JReal(Rate(accepted + rejected, rejected))
      && q.Keys == p.Keys + {"total_rows", "accepted_count", "rejected_count", "rejection_rate"}
  {
  }

  lemma RecountedSchema(r: Report, accepted: nat, rejected: nat)
    requires SchemaApproved(r) && r.file == CIC_PROFILE && !IsQuality(CIC_PROFILE)
    ensures var r' := Recounted(r, accepted, rejected);
      SchemaApproved(r') && Get(r'.payload, "files") == Get(r.payload, "files") && "total_input_rows" !in Counted(r')
  {
    CombinedKeys();
    RecountedFields(r, accepted, rejected);
    InputRowsInNoCombined();
  }

  lemma RecountedIsApproved(r: Report, accepted: nat, rejected: nat, events: int, events': int)
    requires Approved(r, events, true) && r.file == CIC_PROFILE && !IsQuality(CIC_PROFILE)
    ensures Approved(Recounted(r, accepted, rejected), events', true) == true
    ensures TotalsOf(Recounted(r, accepted, rejected)) == Totals(accepted + rejected, accepted, rejected)
  {
    RecountedSchema(r, accepted, rejected);
    RecountedFields(r, accepted, rejected);
  }

  lemma CountsStaySanitized(u: Unicode, p: Payload, total: nat, accepted: nat, rejected: nat, rate: real)
    requires Sanitized(u, JObj(p)) == true && {"total_rows", "accepted_count", "rejected_count", "rejection_rate"} <= p.Keys
    ensures Sanitized(u, JObj(p["total_rows" := JInt(total)]["accepted_count" := JInt(accepted)]
      ["rejected_count" := JInt(rejected)]["rejection_rate" := JReal(rate)])) == true
  {
    UpdateStaysSanitized(u, p, "total_rows", JInt(total));
    var q := p["total_rows" := JInt(total)];
    UpdateStaysSanitized(u, q, "accepted_count", JInt(accepted));
    q := q["accepted_count" := JInt(accepted)];
    UpdateStaysSanitized(u, q, "rejected_count", JInt(rejected));
    q := q["rejected_count" := JInt(rejected)];
    UpdateStaysSanitized(u, q, "rejection_rate", JReal(rate));
  }

  lemma RecountedIsSanitized(u: Unicode, r: Report, accepted: nat, rejected: nat)
    requires SchemaApproved(r) == true && r.file == CIC_PROFILE && !IsQuality(CIC_PROFILE) && Sanitized(u, JObj(r.payload)) == true
    ensures Sanitized(u, JObj(Recounted(r, accepted, rejected).payload)) == true
  {
    CombinedKeys();
    FieldIsSanitized(u, r.payload, "combined");
    CountsStaySanitized(u, Counted(r), accepted + rejected, accepted, rejected, Rate(accepted + rejected, rejected));
    UpdateStaysSanitized(u, r.payload, "combined", JObj(Counted(Recounted(r, accepted, rejected))));
  }

  /** The CIC profile is the exception: its combined total is compared with nothing, so any counts that agree
      among themselves pass in place of the ones reported. */
  lemma CicTotalIsUnchecked(inp: Inputs, r: Report, accepted: nat, rejected: nat)
    requires ReportVerified(inp, r) && r.dataset == CIC && r.file == CIC_PROFILE
    ensures var r' := Recounted(r, accepted, rejected);
      TotalsOf(r').total == accepted + rejected && ReportVerified(inp, r')
  {
    var r' := Recounted(r, accepted, rejected);
    ProfilesAreNotQuality(CONTRACTS[1]);
    ContractsByName(CONTRACTS[1]);
    RecountedSchema(r, accepted, rejected);
    RecountedIsSanitized(inp.unicode, r, accepted, rejected);
    RecountedIsApproved(r, accepted, rejected, EventTotal(r.payload), EventTotal(r'.payload));
  }
}
