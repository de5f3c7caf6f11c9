/**
 The phase-0 readiness gate: which reports are expected, how their totals are matched
 against the manifests, and what the blockers say about the run.
 */
module ReadinessGate {
  import opened Text
  import opened JsonValue
  import opened ContentScan
  import opened AuditReports

  datatype ManifestFile = ManifestFile(basename: string, role: string, rows: Option<int>)

  datatype Manifest = Manifest(name: string, files: seq<ManifestFile>, verified: bool, inputsExist: bool, pathsRelative: bool)

  /** Everything the audit reads, and the Unicode data its content scan uses. */
  datatype Inputs = Inputs(
    manifests: seq<Manifest>,
    manifestLoadFailed: bool,
    reports: seq<Report>,
    unicode: Unicode,
    pathsIgnored: bool,
    furtherBlockers: set<string>)

  datatype DatasetContract = DatasetContract(dataset: string, role: string, profile: string, excluded: set<string>)

  const CONTRACTS: seq<DatasetContract> := [
    DatasetContract(UNSW, "raw", UNSW_PROFILE, {"NUSW-NB15_features.csv"}),
    DatasetContract(CIC, "validation", CIC_PROFILE, {}),
    DatasetContract(MORDOR, "test", MORDOR_PROFILE, {}),
    DatasetContract(SYNTHETIC, "development_fixture", SYNTHETIC_PROFILE, {})]

  // ----- Manifests -----

  /** A later manifest of the same name replaces an earlier one. */
  function FilesOf(manifests: seq<Manifest>, dataset: string): seq<ManifestFile> {
    if manifests == [] then []
    else if manifests[|manifests| - 1].name == dataset then manifests[|manifests| - 1].files
    else FilesOf(manifests[..|manifests| - 1], dataset)
  }

  function RowMap(files: seq<ManifestFile>): map<string, int> {
    if files == [] then map[]
    else
      var rows, f := RowMap(files[..|files| - 1]), files[|files| - 1];
      if f.rows.Some? then rows[f.basename := f.rows.value] else rows
  }

  function Rows(inp: Inputs, dataset: string): map<string, int> { RowMap(FilesOf(inp.manifests, dataset)) }

  function Chosen(files: seq<ManifestFile>, c: DatasetContract): seq<string> {
    if files == [] then []
    else (if files[0].role == c.role && files[0].basename !in c.excluded then [files[0].basename] else [])
         + Chosen(files[1..], c)
  }

  /** The inputs a dataset needs quality reports for. */
  function ExpectedInputs(inp: Inputs, c: DatasetContract): seq<string> { Chosen(FilesOf(inp.manifests, c.dataset), c) }

  // ----- Expected reports -----

  function LastDot(s: string, i: nat): (r: int)
    requires i <= |s|
    ensures -1 <= r < i
  {
    if i == 0 then -1 else if s[i - 1] == '.' then i - 1 else LastDot(s, i - 1)
  }

  /** Path(basename).stem. */
  function Stem(s: string): string {
    var i := LastDot(s, |s|);
    if 0 < i < |s| - 1 then s[..i] else s
  }

  function QualityName(basename: string): string { Stem(basename) + QUALITY_SUFFIX }

  /** Quality report name to input; inputs with one stem share a name and the last one keeps it. */
  function QualityReports(inputs: seq<string>): map<string, string> {
    if inputs == [] then map[]
    else QualityReports(inputs[..|inputs| - 1])[QualityName(inputs[|inputs| - 1]) := inputs[|inputs| - 1]]
  }

  function Sources(inputs: seq<string>): set<string> {
    var q := QualityReports(inputs);
    set name | name in q :: q[name]
  }

  function ExpectedSources(inp: Inputs, c: DatasetContract): set<string> { Sources(ExpectedInputs(inp, c)) }

  /** The report names of expected_reports. */
  function ExpectedFiles(inp: Inputs, c: DatasetContract): set<string> {
    QualityReports(ExpectedInputs(inp, c)).Keys + {c.profile}
  }

  function ContractOf(dataset: string): Option<DatasetContract> {
    if dataset == UNSW then Some(CONTRACTS[0]) else if dataset == CIC then Some(CONTRACTS[1])
    else if dataset == MORDOR then Some(CONTRACTS[2]) else if dataset == SYNTHETIC then Some(CONTRACTS[3]) else None
  }

  // ----- Matching reports against manifests -----

  predicate IsRecording(r: Report, dataset: string) {
    r.dataset == dataset && IsQuality(r.file) && SourceOf(r.payload).Some?
  }

  /** quality_totals for one dataset: the last quality report of each source. */
  function Recorded(reports: seq<Report>, dataset: string): map<string, int> {
    if reports == [] then map[]
    else
      var m, r := Recorded(reports[..|reports| - 1], dataset), reports[|reports| - 1];
      if IsRecording(r, dataset) then m[SourceOf(r.payload).value := TotalsOf(r).total] else m
  }

  method RecordQualityTotals(reports: seq<Report>, dataset: string) returns (totals: map<string, int>)
    ensures totals == Recorded(reports, dataset)
  {
    totals := map[];
    for i := 0 to |reports|
      invariant totals == Recorded(reports[..i], dataset)
    {
      assert reports[..i + 1][..i] == reports[..i];
      if IsRecording(reports[i], dataset) {
        totals := totals[SourceOf(reports[i].payload).value := TotalsOf(reports[i]).total];
      }
    }
    assert reports[..|reports|] == reports;
  }

  /** What manifest_rows answers for a source named in a profile. */
  function ManifestRow(rows: map<string, int>, source: Json): Json {
    if source.JText? && source.s in rows then JInt(rows[source.s]) else JNull
  }

  /** The per-source entries of a profile name every expected source once, with its manifest rows. */
  predicate EntriesMatch(entries: Option<seq<Payload>>, expected: set<string>, rows: map<string, int>) {
    && entries.Some? && |entries.value| == |expected|
    && (set j | j in Column(entries.value, "source_file")) == (set s | s in expected :: JText(s))
    && forall i :: 0 <= i < |entries.value| ==>
      Get(entries.value[i], "total_rows") == ManifestRow(rows, Get(entries.value[i], "source_file"))
  }

  predicate SourceRowsMatch(report: Report, source: Option<string>, rows: map<string, int>) {
    source.Some? && source.value in rows && rows[source.value] == TotalsOf(report).total
  }

  /** totals_match for one report, given the dataset's recorded totals and their sum over the
      expected sources. "unexpected" is the source's own marker for an unlisted report. */
  predicate TotalsMatch(inp: Inputs, c: DatasetContract, report: Report, recorded: map<string, int>, recordedTotal: int) {
    var t, source, rows := TotalsOf(report), SourceOf(report.payload), Rows(inp, c.dataset);
    var quality, expected := QualityReports(ExpectedInputs(inp, c)), ExpectedSources(inp, c);
    && t.accepted + t.rejected == t.total && report.file in ExpectedFiles(inp, c)
    && if IsQuality(report.file) then
         && report.file in quality && quality[report.file] != "unexpected"
         && source == Some(quality[report.file]) && SourceRowsMatch(report, source, rows)
       else if report.file == CIC_PROFILE then EntriesMatch(Items(Get(report.payload, "files")), expected, rows)
       else if report.file == MORDOR_PROFILE then
         source.Some? && source.value in expected && |expected| == 1 && SourceRowsMatch(report, source, rows)
       else if report.file == UNSW_PROFILE then recorded.Keys == expected && recordedTotal == t.total
       else report.file == SYNTHETIC_PROFILE && EntriesMatch(Items(Get(report.payload, "sessions")), expected, rows)
  }

  /** The report's contents pass the scan. */
  predicate Scanned(inp: Inputs, report: Report) { Sanitized(inp.unicode, JObj(report.payload)) }

  ghost predicate ReportVerified(inp: Inputs, report: Report) {
    var c := ContractOf(report.dataset);
    && Approved(report, EventTotal(report.payload), Scanned(inp, report)) && c.Some?
    && var recorded := Recorded(inp.reports, report.dataset);
       TotalsMatch(inp, c.value, report, recorded, SumOver(ExpectedSources(inp, c.value), recorded))
  }

  method VerifyReport(inp: Inputs, report: Report) returns (verified: bool)
    ensures verified <==> ReportVerified(inp, report)
  {
    var c := ContractOf(report.dataset);
    if c.None? { return false; }
    var amounts := Amounts(Get(report.payload, "event_id_counts"));
    var events := Sum(amounts.Keys, amounts);
    var recorded := RecordQualityTotals(inp.reports, report.dataset);
    var recordedTotal := Sum(ExpectedSources(inp, c.value), recorded);
    verified := Approved(report, events, Scanned(inp, report)) && TotalsMatch(inp, c.value, report, recorded, recordedTotal);
  }

  // ----- Evidence -----

  function Occurrences(reports: seq<Report>, dataset: string, file: string): nat {
    if reports == [] then 0
    else
      var r := reports[|reports| - 1];
      Occurrences(reports[..|reports| - 1], dataset, file) + (if r.dataset == dataset && r.file == file then 1 else 0)
  }

  function Tally(counts: map<(string, string), nat>, dataset: string, file: string): nat {
    if (dataset, file) in counts then counts[(dataset, file)] else 0
  }

  /** loaded_report_counts. */
  method CountReports(reports: seq<Report>) returns (counts: map<(string, string), nat>)
    ensures forall d, f :: Tally(counts, d, f) == Occurrences(reports, d, f)
    ensures forall key :: key in counts ==> counts[key] >= 1
  {
    counts := map[];
    for i := 0 to |reports|
      invariant forall d, f :: Tally(counts, d, f) == Occurrences(reports[..i], d, f)
      invariant forall key :: key in counts ==> counts[key] >= 1
    {
      var r := reports[i];
      assert reports[..i + 1][..i] == reports[..i];
      counts := counts[(r.dataset, r.file) := Tally(counts, r.dataset, r.file) + 1];
    }
    assert reports[..|reports|] == reports;
  }

  /** One verdict per loaded report. */
  ghost function VerdictsOn(inp: Inputs, reports: seq<Report>): (v: seq<bool>)
    ensures |v| == |reports|
  {
    if reports == [] then []
    else VerdictsOn(inp, reports[..|reports| - 1]) + [ReportVerified(inp, reports[|reports| - 1])]
  }

  ghost function Verdicts(inp: Inputs): (v: seq<bool>)
    ensures |v| == |inp.reports|
  {
    VerdictsOn(inp, inp.reports)
  }

  lemma {:induction false} VerdictAt(inp: Inputs, reports: seq<Report>, i: nat)
    requires i < |reports|
    ensures VerdictsOn(inp, reports)[i] == ReportVerified(inp, reports[i])
  {
    if i < |reports| - 1 { VerdictAt(inp, reports[..|reports| - 1], i); }
  }

  method VerifyReports(inp: Inputs) returns (verdicts: seq<bool>)
    ensures verdicts == Verdicts(inp)
  {
    verdicts := [];
    for i := 0 to |inp.reports|
      invariant verdicts == VerdictsOn(inp, inp.reports[..i])
    {
      var verified := VerifyReport(inp, inp.reports[i]);
      assert inp.reports[..i + 1][..i] == inp.reports[..i];
      verdicts := verdicts + [verified];
    }
    assert inp.reports[..|inp.reports|] == inp.reports;
  }

  predicate Evidenced(reports: seq<Report>, verdicts: seq<bool>, dataset: string, file: string)
    requires |verdicts| == |reports|
  {
    && Occurrences(reports, dataset, file) == 1
    && exists i :: 0 <= i < |reports| && reports[i].dataset == dataset && reports[i].file == file && verdicts[i]
  }

  /** required_evidence_by_dataset. */
  predicate EvidenceComplete(inp: Inputs, verdicts: seq<bool>, c: DatasetContract)
    requires |verdicts| == |inp.reports|
  {
    forall file :: file in ExpectedFiles(inp, c) ==> Evidenced(inp.reports, verdicts, c.dataset, file)
  }

  // ----- The synthetic baseline -----

  /** The first report of this dataset and name, or nothing. */
  function FirstPayload(reports: seq<Report>, dataset: string, file: string): Payload {
    if reports == [] then map[]
    else if reports[0].dataset == dataset && reports[0].file == file then reports[0].payload
    else FirstPayload(reports[1..], dataset, file)
  }

  function SyntheticProfile(reports: seq<Report>): Payload { FirstPayload(reports, SYNTHETIC, SYNTHETIC_PROFILE) }

  const UNKNOWN_TIMEZONE := "timezone-naive; source timezone unknown"

  predicate CicTimezoneSafe(reports: seq<Report>) {
    Get(FirstPayload(reports, CIC, CIC_PROFILE), "timestamp_semantics") == JText(UNKNOWN_TIMEZONE)
  }

  predicate GatePassed(j: Json) { j.JObj? && Get(j.fields, "passed") == JBool(true) }

  predicate LastManifestVerified(manifests: seq<Manifest>, dataset: string) {
    manifests != [] &&
    var last := manifests[|manifests| - 1];
    if last.name == dataset then last.verified else LastManifestVerified(manifests[..|manifests| - 1], dataset)
  }

  /** synthetic_pipeline_is_ready. */
  predicate PipelineFixture(manifestVerified: bool, p: Payload) {
    && manifestVerified && Get(p, "completed") == JBool(true)
    && Get(p, "classification") == JText("development_pipeline_fixture")
    && GatePassed(Get(p, "quality_gates"))
  }

  /** synthetic_baseline_is_ready. */
  predicate TrainingBaseline(manifestVerified: bool, p: Payload) {
    && manifestVerified && Get(p, "completed") == JBool(true)
    && Get(p, "classification") == JText("final_training_baseline")
    && GatePassed(Get(p, "quality_gates")) && GatePassed(Get(p, "training_quality_gates"))
  }

  predicate FixtureReady(inp: Inputs, verdicts: seq<bool>)
    requires |verdicts| == |inp.reports|
  {
    EvidenceComplete(inp, verdicts, CONTRACTS[3])
    && PipelineFixture(LastManifestVerified(inp.manifests, SYNTHETIC), SyntheticProfile(inp.reports))
  }

  predicate BaselineReady(inp: Inputs, verdicts: seq<bool>)
    requires |verdicts| == |inp.reports|
  {
    EvidenceComplete(inp, verdicts, CONTRACTS[3])
    && TrainingBaseline(LastManifestVerified(inp.manifests, SYNTHETIC), SyntheticProfile(inp.reports))
  }

  // ----- Blockers -----

  datatype Blocker =
    | ManifestLoadFailed
    | ManifestIntegrityFailed
    | ManifestMissing
    | ReportInputMissing
    | ReportInputAmbiguous
    | ReportMissing
    | ReportDuplicate
    | ReportEvidenceFailed
    | ReportVerificationFailed
    | PathsNotIgnored
    | CicTimezoneUnsafe
    | SyntheticBaselineMissing
    | SyntheticNotFinal
    | Further(name: string)

  predicate Distinct(s: seq<string>) { forall i, j :: 0 <= i < j < |s| ==> s[i] != s[j] }

  predicate Sealed(m: Manifest) { m.verified && m.inputsExist && m.pathsRelative }

  predicate Registered(manifests: seq<Manifest>, dataset: string) {
    exists i :: 0 <= i < |manifests| && manifests[i].name == dataset
  }

  predicate SomeMissing(inp: Inputs, c: DatasetContract) {
    exists file :: file in ExpectedFiles(inp, c) && Occurrences(inp.reports, c.dataset, file) == 0
  }

  ghost predicate SomeDuplicate(inp: Inputs, c: DatasetContract) {
    exists file :: Occurrences(inp.reports, c.dataset, file) > 1
  }

  /** What the audit's loops establish. */
  datatype Findings = Findings(
    unsealed: bool, unregistered: bool, noInput: bool, ambiguous: bool, missing: bool, duplicate: bool,
    unverified: bool, unevidenced: bool, fixture: bool, baseline: bool, timezoneUnsafe: bool)

  predicate AnyUnsealed(inp: Inputs) { exists m :: m in inp.manifests && !Sealed(m) }

  predicate AnyUnregistered(inp: Inputs) { exists c :: c in CONTRACTS && !Registered(inp.manifests, c.dataset) }

  predicate AnyWithoutInput(inp: Inputs, contracts: seq<DatasetContract>) { exists c :: c in contracts && ExpectedInputs(inp, c) == [] }

  predicate AnyAmbiguous(inp: Inputs, contracts: seq<DatasetContract>) { exists c :: c in contracts && !Distinct(ExpectedInputs(inp, c)) }

  predicate AnyMissing(inp: Inputs, contracts: seq<DatasetContract>) { exists c :: c in contracts && SomeMissing(inp, c) }

  ghost predicate AnyDuplicate(inp: Inputs, contracts: seq<DatasetContract>) { exists c :: c in contracts && SomeDuplicate(inp, c) }

  predicate AnyUnevidenced(inp: Inputs, verdicts: seq<bool>)
    requires |verdicts| == |inp.reports|
  {
    exists c :: c in CONTRACTS && !EvidenceComplete(inp, verdicts, c)
  }

  ghost function FindingsOf(inp: Inputs): Findings {
    var verdicts := Verdicts(inp);
    Findings(AnyUnsealed(inp), AnyUnregistered(inp), AnyWithoutInput(inp, CONTRACTS), AnyAmbiguous(inp, CONTRACTS), AnyMissing(inp, CONTRACTS), AnyDuplicate(inp, CONTRACTS),
      false in verdicts, AnyUnevidenced(inp, verdicts), FixtureReady(inp, verdicts), BaselineReady(inp, verdicts), !CicTimezoneSafe(inp.reports))
  }

  predicate Blocks(inp: Inputs, f: Findings, b: Blocker) {
    match b
    case ManifestLoadFailed => inp.manifestLoadFailed
    case ManifestIntegrityFailed => f.unsealed
    case ManifestMissing => f.unregistered
    case ReportInputMissing => f.noInput
    case ReportInputAmbiguous => f.ambiguous
    case ReportMissing => f.missing
    case ReportDuplicate => f.duplicate
    case ReportEvidenceFailed => f.unevidenced
    case ReportVerificationFailed => f.unverified
    case PathsNotIgnored => !inp.pathsIgnored
    case CicTimezoneUnsafe => f.timezoneUnsafe
    case SyntheticBaselineMissing => !f.fixture
    case SyntheticNotFinal => f.fixture && !f.baseline
    case Further(name) => name in inp.furtherBlockers
  }

  /** pipeline_ready is read off these blockers, training_ready off all of them. */
  predicate Gating(b: Blocker) { b != SyntheticNotFinal && !b.Further? }

  ghost predicate Ready(inp: Inputs, f: Findings) { forall b :: Gating(b) ==> !Blocks(inp, f, b) }

  ghost predicate Clear(inp: Inputs, f: Findings) { forall b :: !Blocks(inp, f, b) }

  ghost predicate PipelineReady(inp: Inputs) { Ready(inp, FindingsOf(inp)) }

  ghost predicate TrainingReady(inp: Inputs) { Clear(inp, FindingsOf(inp)) }

  // ----- The audit's loops -----

  method CheckManifests(inp: Inputs) returns (unsealed: bool, unregistered: bool)
    ensures unsealed == AnyUnsealed(inp) && unregistered == AnyUnregistered(inp)
  {
    unsealed := false;
    var names: set<string> := {};
    for i := 0 to |inp.manifests|
      invariant unsealed <==> exists k :: 0 <= k < i && !Sealed(inp.manifests[k])
      invariant forall name :: name in names <==> exists k :: 0 <= k < i && inp.manifests[k].name == name
    {
      names := names + {inp.manifests[i].name};
      if !Sealed(inp.manifests[i]) { unsealed := true; }
    }
    unregistered := exists c :: c in CONTRACTS && c.dataset !in names;
  }

  method CheckInputs(inp: Inputs, contracts: seq<DatasetContract>) returns (noInput: bool, ambiguous: bool)
    ensures noInput == AnyWithoutInput(inp, contracts) && ambiguous == AnyAmbiguous(inp, contracts)
  {
    noInput, ambiguous := false, false;
    for i := 0 to |contracts|
      invariant noInput <==> exists k :: 0 <= k < i && ExpectedInputs(inp, contracts[k]) == []
      invariant ambiguous <==> exists k :: 0 <= k < i && !Distinct(ExpectedInputs(inp, contracts[k]))
    {
      var inputs := ExpectedInputs(inp, contracts[i]);
      if inputs == [] { noInput := true; }
      if !Distinct(inputs) { ambiguous := true; }
    }
  }

  method CheckPresence(inp: Inputs, contracts: seq<DatasetContract>) returns (missing: bool, duplicate: bool)
    ensures missing == AnyMissing(inp, contracts) && duplicate == AnyDuplicate(inp, contracts)
  {
    var counts := CountReports(inp.reports);
    missing, duplicate := false, false;
    for i := 0 to |contracts|
      invariant missing <==> exists k :: 0 <= k < i && SomeMissing(inp, contracts[k])
      invariant duplicate <==> exists k :: 0 <= k < i && SomeDuplicate(inp, contracts[k])
    {
      var c := contracts[i];
      var gone := HasMissing(inp, c, counts);
      var again := HasDuplicate(inp, c, counts);
      if gone { missing := true; }
      if again { duplicate := true; }
    }
  }

  method HasMissing(inp: Inputs, c: DatasetContract, counts: map<(string, string), nat>) returns (gone: bool)
    requires forall d, f :: Tally(counts, d, f) == Occurrences(inp.reports, d, f)
    ensures gone == SomeMissing(inp, c)
  {
    gone := exists file :: file in ExpectedFiles(inp, c) && Tally(counts, c.dataset, file) == 0;
  }

  method HasDuplicate(inp: Inputs, c: DatasetContract, counts: map<(string, string), nat>) returns (again: bool)
    requires forall d, f :: Tally(counts, d, f) == Occurrences(inp.reports, d, f)
    ensures again == SomeDuplicate(inp, c)
  {
    again := exists key :: key in counts && counts[key] > 1 && key.0 == c.dataset;
    if again {
      var key :| key in counts && counts[key] > 1 && key.0 == c.dataset;
      assert Tally(counts, c.dataset, key.1) > 1;
    } else {
      forall file ensures Occurrences(inp.reports, c.dataset, file) <= 1 {
        assert Tally(counts, c.dataset, file) <= 1 by { assert (c.dataset, file).0 == c.dataset; }
      }
    }
  }

  method CollectFindings(inp: Inputs) returns (f: Findings)
    ensures f == FindingsOf(inp)
  {
    var unsealed, unregistered := CheckManifests(inp);
    var noInput, ambiguous := CheckInputs(inp, CONTRACTS);
    var missing, duplicate := CheckPresence(inp, CONTRACTS);
    var verdicts := VerifyReports(inp);
    f := Findings(unsealed, unregistered, noInput, ambiguous, missing, duplicate, false in verdicts,
      AnyUnevidenced(inp, verdicts), FixtureReady(inp, verdicts), BaselineReady(inp, verdicts), !CicTimezoneSafe(inp.reports));
  }

  /** run_audit: the blockers it collects, and the two verdicts read off them. */
  method RunAudit(inp: Inputs) returns (blockers: set<Blocker>, pipelineReady: bool, trainingReady: bool)
    ensures forall b :: b in blockers <==> Blocks(inp, FindingsOf(inp), b)
    ensures pipelineReady == PipelineReady(inp)
    ensures trainingReady == TrainingReady(inp)
  {
    var f := CollectFindings(inp);
    var manifests := FromManifests(inp, f);
    var reports := FromReports(inp, f);
    var policy := FromPolicy(inp, f);
    blockers := manifests + reports + policy;
    pipelineReady, trainingReady := ReadOff(inp, f, blockers);
  }

  method ReadOff(inp: Inputs, f: Findings, blockers: set<Blocker>) returns (pipelineReady: bool, trainingReady: bool)
    requires forall b :: b in blockers <==> Blocks(inp, f, b)
    ensures pipelineReady == Ready(inp, f) && trainingReady == Clear(inp, f)
  {
    pipelineReady := !exists b :: b in blockers && Gating(b);
    trainingReady := blockers == {};
  }

  predicate OfManifests(b: Blocker) {
    b.ManifestLoadFailed? || b.ManifestIntegrityFailed? || b.ManifestMissing? || b.ReportInputMissing? || b.ReportInputAmbiguous?
  }

  predicate OfReports(b: Blocker) {
    b.ReportMissing? || b.ReportDuplicate? || b.ReportVerificationFailed? || b.ReportEvidenceFailed?
  }

  method FromManifests(inp: Inputs, f: Findings) returns (blockers: set<Blocker>)
    ensures forall b :: b in blockers <==> OfManifests(b) && Blocks(inp, f, b)
  {
    blockers := {};
    if inp.manifestLoadFailed { blockers := blockers + {ManifestLoadFailed}; }
    if f.unsealed { blockers := blockers + {ManifestIntegrityFailed}; }
    if f.unregistered { blockers := blockers + {ManifestMissing}; }
    if f.noInput { blockers := blockers + {ReportInputMissing}; }
    if f.ambiguous { blockers := blockers + {ReportInputAmbiguous}; }
  }

  method FromReports(inp: Inputs, f: Findings) returns (blockers: set<Blocker>)
    ensures forall b :: b in blockers <==> OfReports(b) && Blocks(inp, f, b)
  {
    blockers := {};
    if f.missing { blockers := blockers + {ReportMissing}; }
    if f.duplicate { blockers := blockers + {ReportDuplicate}; }
    if f.unverified { blockers := blockers + {ReportVerificationFailed}; }
    if f.unevidenced { blockers := blockers + {ReportEvidenceFailed}; }
  }

  method FromPolicy(inp: Inputs, f: Findings) returns (blockers: set<Blocker>)
    ensures forall b :: b in blockers <==> !OfManifests(b) && !OfReports(b) && Blocks(inp, f, b)
  {
    blockers := set name | name in inp.furtherBlockers :: Further(name);
    if !inp.pathsIgnored { blockers := blockers + {PathsNotIgnored}; }
    if !f.fixture {
      blockers := blockers + {SyntheticBaselineMissing};
    } else if !f.baseline {
      blockers := blockers + {SyntheticNotFinal};
    }
    if f.timezoneUnsafe { blockers := blockers + {CicTimezoneUnsafe}; }
  }
}
