/**
 The phase-0 gate can be passed, and passing it does not keep every row: inputs with the exact key
 sets the audit approves, one of which hides another behind a shared stem.
 */
module GateExample {
  import opened Text
  import opened JsonValue
  import opened ContentScan
  import opened AuditReports
  import opened ReadinessGate
  import opened RowConservation
  import opened GatePayloads

  // `P(x) == true` in a contract hands the fact on unopened, which keeps the caller's proof small.

  // ----- Inputs -----

  function FilesOfExample(i: nat, rows: nat, lost: nat): seq<ManifestFile>
    requires i < 4
  {
    var file := ManifestFile(SOURCE, CONTRACTS[i].role, Some(rows));
    if i == 0 then [ManifestFile(HIDDEN, CONTRACTS[0].role, Some(lost)), file] else [file]
  }

  function ManifestOf(i: nat, rows: nat, lost: nat): Manifest
    requires i < 4
  {
    Manifest(CONTRACTS[i].dataset, FilesOfExample(i, rows, lost), true, true, true)
  }

  /** Four quality reports, then four profiles. */
  function ReportsOf(rows: nat): (r: seq<Report>)
    ensures |r| == 8
  {
    seq(8, k requires 0 <= k < 8 => if k < 4 then QualityOf(k, rows) else ProfileOf(k - 4, rows))
  }

  /** UNSW lists a second format of its capture, with `lost` rows of its own. */
  function Example(rows: nat, lost: nat, u: Unicode): Inputs {
    Inputs(seq(4, i requires 0 <= i < 4 => ManifestOf(i, rows, lost)), false, ReportsOf(rows), u, true, {})
  }

  // ----- Expectations -----

  function InputsOf(i: nat): seq<string> { if i == 0 then [HIDDEN, SOURCE] else [SOURCE] }

  function RowsOf(i: nat, rows: nat, lost: nat): map<string, int> {
    if i == 0 then map[HIDDEN := lost, SOURCE := rows] else map[SOURCE := rows]
  }

  lemma {:induction false} OneManifest(manifests: seq<Manifest>, i: nat)
    requires i < |manifests| && forall k :: i < k < |manifests| ==> manifests[k].name != manifests[i].name
    ensures FilesOf(manifests, manifests[i].name) == manifests[i].files
    ensures LastManifestVerified(manifests, manifests[i].name) == manifests[i].verified
  {
    var n := |manifests| - 1;
    if i < n { OneManifest(manifests[..n], i); }
  }

  lemma NamesDiffer(i: nat, k: nat)
    requires i < 4 && k < 4 && i != k
    ensures CONTRACTS[i].dataset != CONTRACTS[k].dataset && CONTRACTS[i].profile != CONTRACTS[k].profile
  {
  }

  lemma FilesListed(i: nat, rows: nat, lost: nat)
    requires i < 4
    ensures Chosen(FilesOfExample(i, rows, lost), CONTRACTS[i]) == InputsOf(i)
    ensures RowMap(FilesOfExample(i, rows, lost)) == RowsOf(i, rows, lost)
  {
    TwoFormats();
    var files := FilesOfExample(i, rows, lost);
    var last := files[|files| - 1..];
    assert last[1..] == [] && Chosen(last, CONTRACTS[i]) == [SOURCE];
    if i == 0 {
      assert files[1..] == last && files[..1][..0] == [] && RowMap(files[..1]) == map[HIDDEN := lost];
    } else {
      assert files[..0] == [];
    }
  }

  lemma OneReport(source: string)
    ensures QualityReports([source]) == map[QualityName(source) := source]
  {
    assert [source][..0] == [];
    assert QualityReports([source][..0]) == map[];
  }

  lemma SharedReport(a: string, b: string)
    requires QualityName(a) == QualityName(b)
    ensures QualityReports([a, b]) == map[QualityName(b) := b]
  {
    OneReport(a);
    assert [a, b][..1] == [a];
    assert QualityReports([a, b]) == QualityReports([a, b][..1])[QualityName(b) := b];
  }

  lemma ReportsNamed(i: nat)
    requires i < 4
    ensures QualityReports(InputsOf(i)) == map[QUALITY := SOURCE] && Sources(InputsOf(i)) == {SOURCE}
  {
    TwoFormats();
    if i == 0 { SharedReport(HIDDEN, SOURCE); } else { OneReport(SOURCE); }
    var q := QualityReports(InputsOf(i));
    assert q[QUALITY] in Sources(InputsOf(i));
  }

  lemma Expectations(i: nat, rows: nat, lost: nat, u: Unicode)
    requires i < 4
    ensures var inp, c := Example(rows, lost, u), CONTRACTS[i];
      && ExpectedInputs(inp, c) == InputsOf(i) && Rows(inp, c.dataset) == RowsOf(i, rows, lost)
      && ExpectedFiles(inp, c) == {QUALITY, c.profile} && ExpectedSources(inp, c) == {SOURCE}
      && LastManifestVerified(inp.manifests, c.dataset)
  {
    var inp := Example(rows, lost, u);
    forall k | i < k < 4 ensures inp.manifests[k].name != inp.manifests[i].name { NamesDiffer(i, k); }
    OneManifest(inp.manifests, i);
    FilesListed(i, rows, lost);
    ReportsNamed(i);
  }

  // ----- Matching -----

  /** All recordings agree, and there is one. */
  lemma {:induction false} RecordedOnce(reports: seq<Report>, dataset: string, source: string, rows: int, i: nat)
    requires i < |reports| && IsRecording(reports[i], dataset)
    requires forall k :: 0 <= k < |reports| && IsRecording(reports[k], dataset) ==>
      SourceOf(reports[k].payload) == Some(source) && TotalsOf(reports[k]).total == rows
    ensures Recorded(reports, dataset) == map[source := rows]
  {
    var n := |reports| - 1;
    if i < n { RecordedOnce(reports[..n], dataset, source, rows, i); } else { RecordedWithin(reports[..n], dataset, source, rows); }
  }

  lemma {:induction false} RecordedWithin(reports: seq<Report>, dataset: string, source: string, rows: int)
    requires forall k :: 0 <= k < |reports| && IsRecording(reports[k], dataset) ==>
      SourceOf(reports[k].payload) == Some(source) && TotalsOf(reports[k]).total == rows
    ensures Recorded(reports, dataset) == map[] || Recorded(reports, dataset) == map[source := rows]
  {
    if reports != [] {
      var n := |reports| - 1;
      RecordedWithin(reports[..n], dataset, source, rows);
      if IsRecording(reports[n], dataset) { assert Recorded(reports, dataset) == map[source := rows]; }
    }
  }

  lemma QualityRecords(r: Report, dataset: string)
    requires r.file == QUALITY && SourceOf(r.payload) == Some(SOURCE)
    ensures IsRecording(r, dataset) == (r.dataset == dataset)
  {
    TwoFormats();
  }

  lemma QualityRecording(i: nat, rows: nat)
    requires i < 4
    ensures IsRecording(QualityOf(i, rows), UNSW) == (CONTRACTS[i].dataset == UNSW)
    ensures SourceOf(QualityOf(i, rows).payload) == Some(SOURCE) && TotalsOf(QualityOf(i, rows)).total == rows
  {
    QualityApproved(i, rows, 0);
    QualityRecords(QualityOf(i, rows), UNSW);
  }

  lemma ProfileNotRecording(i: nat, rows: nat)
    requires i < 4
    ensures IsRecording(ProfileOf(i, rows), UNSW) == false
  {
    ProfilesAreNotQuality(CONTRACTS[i]);
  }

  lemma ReportAt(rows: nat, k: nat)
    requires k < 8
    ensures ReportsOf(rows)[k] == if k < 4 then QualityOf(k, rows) else ProfileOf(k - 4, rows)
  {
  }

  lemma RecordingAt(rows: nat, k: nat)
    requires k < 8 && IsRecording(ReportsOf(rows)[k], UNSW) == true
    ensures SourceOf(ReportsOf(rows)[k].payload) == Some(SOURCE) && TotalsOf(ReportsOf(rows)[k]).total == rows
  {
    ReportAt(rows, k);
    if k < 4 { QualityRecording(k, rows); } else { ProfileNotRecording(k - 4, rows); }
  }

  lemma UnswRecorded(rows: nat)
    ensures Recorded(ReportsOf(rows), UNSW) == map[SOURCE := rows]
  {
    var reports := ReportsOf(rows);
    forall k | 0 <= k < 8 && IsRecording(reports[k], UNSW)
      ensures SourceOf(reports[k].payload) == Some(SOURCE) && TotalsOf(reports[k]).total == rows
    {
      RecordingAt(rows, k);
    }
    ReportAt(rows, 0);
    QualityRecording(0, rows);
    RecordedOnce(reports, UNSW, SOURCE, rows, 0);
  }

  lemma SumOfOne(x: string, n: int)
    ensures SumOver({x}, map[x := n]) == n
  {
    SumWithout({x}, map[x := n], x);
    assert {x} - {x} == {};
  }

  /** What every matching needs to know of a profile and its dataset. */
  predicate Prepared(inp: Inputs, i: nat, r: Report, rows: nat)
    requires i < 4
  {
    && TotalsOf(r) == Totals(rows, rows, 0) && ExpectedSources(inp, CONTRACTS[i]) == {SOURCE}
    && QualityReports(ExpectedInputs(inp, CONTRACTS[i])) == map[QUALITY := SOURCE]
    && SOURCE in Rows(inp, CONTRACTS[i].dataset) && Rows(inp, CONTRACTS[i].dataset)[SOURCE] == rows
  }

  lemma QualityMatches(inp: Inputs, i: nat, r: Report, rows: nat, recorded: map<string, int>, total: int)
    requires i < 4 && Prepared(inp, i, r, rows) && r.file == QUALITY && SourceOf(r.payload) == Some(SOURCE)
    ensures TotalsMatch(inp, CONTRACTS[i], r, recorded, total) == true
  {
    TwoFormats();
    assert SOURCE != "unexpected" by { assert |SOURCE| == 5; }
  }

  lemma UnswMatches(inp: Inputs, r: Report, rows: nat, recorded: map<string, int>)
    requires Prepared(inp, 0, r, rows) && r.file == UNSW_PROFILE && recorded == map[SOURCE := rows]
    ensures TotalsMatch(inp, CONTRACTS[0], r, recorded, SumOver(ExpectedSources(inp, CONTRACTS[0]), recorded)) == true
  {
    ProfilesAreNotQuality(CONTRACTS[0]);
    SumOfOne(SOURCE, rows);
  }

  lemma EntryMatches(entry: Payload, all: map<string, int>, rows: nat)
    requires Tallied(entry, rows) && Get(entry, "source_file") == JText(SOURCE) && SOURCE in all && all[SOURCE] == rows
    ensures EntriesMatch(Items(JList([JObj(entry)])), {SOURCE}, all) == true
  {
    OneItem(entry);
    assert Column([entry], "source_file") == [JText(SOURCE)];
  }

  lemma EntriesSuffice(inp: Inputs, i: nat, r: Report, entry: Payload, rows: nat, recorded: map<string, int>, total: int)
    requires i in {1, 3} && Prepared(inp, i, r, rows) && r.file == CONTRACTS[i].profile
    requires Get(r.payload, if i == 1 then "files" else "sessions") == JList([JObj(entry)])
    requires Tallied(entry, rows) == true && Get(entry, "source_file") == JText(SOURCE)
    ensures TotalsMatch(inp, CONTRACTS[i], r, recorded, total) == true
  {
    ProfilesAreNotQuality(CONTRACTS[i]);
    EntryMatches(entry, Rows(inp, CONTRACTS[i].dataset), rows);
  }

  lemma MordorMatches(inp: Inputs, r: Report, rows: nat, recorded: map<string, int>, total: int)
    requires Prepared(inp, 2, r, rows) && r.file == MORDOR_PROFILE && SourceOf(r.payload) == Some(SOURCE)
    ensures TotalsMatch(inp, CONTRACTS[2], r, recorded, total) == true
  {
    ProfilesAreNotQuality(CONTRACTS[2]);
  }

  lemma ExamplePrepared(i: nat, r: Report, rows: nat, lost: nat, u: Unicode)
    requires i < 4 && TotalsOf(r) == Totals(rows, rows, 0)
    ensures Prepared(Example(rows, lost, u), i, r, rows) == true
  {
    Expectations(i, rows, lost, u);
    ReportsNamed(i);
    TwoFormats();
  }

  // ----- The verdicts -----

  ghost predicate Matches(inp: Inputs, c: DatasetContract, r: Report) {
    var recorded := Recorded(inp.reports, c.dataset);
    TotalsMatch(inp, c, r, recorded, SumOver(ExpectedSources(inp, c), recorded))
  }

  lemma QualityMatched(i: nat, rows: nat, lost: nat, u: Unicode)
    requires i < 4
    ensures Matches(Example(rows, lost, u), CONTRACTS[i], QualityOf(i, rows)) == true
  {
    var inp, c, r := Example(rows, lost, u), CONTRACTS[i], QualityOf(i, rows);
    QualityApproved(i, rows, 0);
    ExamplePrepared(i, r, rows, lost, u);
    var recorded := Recorded(inp.reports, c.dataset);
    QualityMatches(inp, i, r, rows, recorded, SumOver(ExpectedSources(inp, c), recorded));
  }

  lemma UnswMatched(rows: nat, lost: nat, u: Unicode)
    ensures Matches(Example(rows, lost, u), CONTRACTS[0], ProfileOf(0, rows)) == true
  {
    var r := ProfileOf(0, rows);
    UnswApproved(rows, 0);
    ExamplePrepared(0, r, rows, lost, u);
    UnswRecorded(rows);
    UnswMatches(Example(rows, lost, u), r, rows, map[SOURCE := rows]);
  }

  lemma CicMatched(rows: nat, lost: nat, u: Unicode)
    ensures Matches(Example(rows, lost, u), CONTRACTS[1], ProfileOf(1, rows)) == true
  {
    var inp, c, r := Example(rows, lost, u), CONTRACTS[1], ProfileOf(1, rows);
    CicApproved(rows, 0);
    CicFields(rows);
    FileTally(rows);
    ExamplePrepared(1, r, rows, lost, u);
    var recorded := Recorded(inp.reports, c.dataset);
    EntriesSuffice(inp, 1, r, SourceEntry(CIC_FILE_PROFILE_KEYS, rows), rows, recorded, SumOver(ExpectedSources(inp, c), recorded));
  }

  lemma MordorMatched(rows: nat, lost: nat, u: Unicode)
    ensures Matches(Example(rows, lost, u), CONTRACTS[2], ProfileOf(2, rows)) == true
  {
    var inp, c, r := Example(rows, lost, u), CONTRACTS[2], ProfileOf(2, rows);
    MordorApproved(rows);
    ExamplePrepared(2, r, rows, lost, u);
    var recorded := Recorded(inp.reports, c.dataset);
    MordorMatches(inp, r, rows, recorded, SumOver(ExpectedSources(inp, c), recorded));
  }

  lemma SyntheticMatched(rows: nat, lost: nat, u: Unicode)
    ensures Matches(Example(rows, lost, u), CONTRACTS[3], ProfileOf(3, rows)) == true
  {
    var inp, c, r := Example(rows, lost, u), CONTRACTS[3], ProfileOf(3, rows);
    SyntheticApproved(rows, 0);
    SessionsListed(rows);
    SessionTally(rows);
    ExamplePrepared(3, r, rows, lost, u);
    var recorded := Recorded(inp.reports, c.dataset);
    EntriesSuffice(inp, 3, r, SourceEntry(SYNTHETIC_SESSION_KEYS, rows), rows, recorded, SumOver(ExpectedSources(inp, c), recorded));
  }

  /** Approved and matched is verified. */
  lemma Verify(inp: Inputs, i: nat, r: Report, events: int)
    requires i < 4 && r.dataset == CONTRACTS[i].dataset && events == EventTotal(r.payload) && Scanned(inp, r) == true
    requires Approved(r, events, true) == true && Matches(inp, CONTRACTS[i], r) == true
    ensures ReportVerified(inp, r) == true
  {
    ContractsByName(CONTRACTS[i]);
  }

  lemma ProfileVerified(i: nat, rows: nat, lost: nat, u: Unicode)
    requires i < 4 && ValidUnicode(u) == true
    ensures ReportVerified(Example(rows, lost, u), ProfileOf(i, rows)) == true
  {
    var events := EventTotal(ProfileOf(i, rows).payload);
    if i == 0 { UnswApproved(rows, events); UnswMatched(rows, lost, u); }
    else if i == 1 { CicApproved(rows, events); CicMatched(rows, lost, u); }
    else if i == 2 { MordorApproved(rows); MordorMatched(rows, lost, u); }
    else { SyntheticApproved(rows, events); SyntheticMatched(rows, lost, u); }
    ProfileScanned(i, rows, lost, u);
    Verify(Example(rows, lost, u), i, ProfileOf(i, rows), events);
  }

  lemma ProfileScanned(i: nat, rows: nat, lost: nat, u: Unicode)
    requires i < 4 && ValidUnicode(u) == true
    ensures Scanned(Example(rows, lost, u), ProfileOf(i, rows)) == true
  {
    if i == 0 { UnswIsSanitized(u, rows); }
    else if i == 1 { CicIsSanitized(u, rows); }
    else if i == 2 { MordorIsSanitized(u, rows); }
    else { SyntheticIsSanitized(u, rows); }
  }

  lemma QualityVerified(i: nat, rows: nat, lost: nat, u: Unicode)
    requires i < 4 && ValidUnicode(u) == true
    ensures ReportVerified(Example(rows, lost, u), QualityOf(i, rows)) == true
  {
    var events := EventTotal(QualityOf(i, rows).payload);
    QualityApproved(i, rows, events);
    QualityMatched(i, rows, lost, u);
    QualityIsSanitized(u, i, rows);
    Verify(Example(rows, lost, u), i, QualityOf(i, rows), events);
  }

  lemma AllVerified(rows: nat, lost: nat, u: Unicode)
    requires ValidUnicode(u) == true
    ensures false !in Verdicts(Example(rows, lost, u))
  {
    var inp := Example(rows, lost, u);
    forall k | 0 <= k < 8 ensures Verdicts(inp)[k] {
      VerdictAt(inp, inp.reports, k);
      VerifiedAt(k, rows, lost, u);
    }
  }

  lemma VerifiedAt(k: nat, rows: nat, lost: nat, u: Unicode)
    requires k < 8 && ValidUnicode(u) == true
    ensures ReportVerified(Example(rows, lost, u), ReportsOf(rows)[k]) == true
  {
    ReportAt(rows, k);
    if k < 4 { QualityVerified(k, rows, lost, u); } else { ProfileVerified(k - 4, rows, lost, u); }
  }

  // ----- Every expected report once -----

  predicate SameKey(a: Report, b: Report) { a.dataset == b.dataset && a.file == b.file }

  lemma {:induction false} AtMostOnce(reports: seq<Report>, dataset: string, file: string)
    requires forall i, j :: 0 <= i < j < |reports| ==> !SameKey(reports[i], reports[j])
    ensures Occurrences(reports, dataset, file) <= 1
    ensures Occurrences(reports, dataset, file) == 1 ==> exists i :: 0 <= i < |reports| && reports[i].dataset == dataset && reports[i].file == file
  {
    if reports != [] {
      var n := |reports| - 1;
      AtMostOnce(reports[..n], dataset, file);
      if Occurrences(reports[..n], dataset, file) == 1 {
        var i :| 0 <= i < n && reports[..n][i].dataset == dataset && reports[..n][i].file == file;
        assert !SameKey(reports[i], reports[n]);
      }
    }
  }

  lemma KeysDiffer(rows: nat, i: nat, j: nat)
    requires i < j < 8
    ensures SameKey(ReportsOf(rows)[i], ReportsOf(rows)[j]) == false
  {
    ReportAt(rows, i);
    ReportAt(rows, j);
    var a, b := if i < 4 then i else i - 4, if j < 4 then j else j - 4;
    if a != b { NamesDiffer(a, b); } else { QualityIsNoProfile(); }
  }

  lemma OnceEach(rows: nat, dataset: string, file: string)
    ensures Occurrences(ReportsOf(rows), dataset, file) <= 1
  {
    var reports := ReportsOf(rows);
    forall k, j | 0 <= k < j < 8 ensures !SameKey(reports[k], reports[j]) { KeysDiffer(rows, k, j); }
    AtMostOnce(reports, dataset, file);
  }

  lemma ExampleOnce(rows: nat, verdicts: seq<bool>, k: nat)
    requires |verdicts| == 8 && false !in verdicts && k < 8
    ensures Evidenced(ReportsOf(rows), verdicts, ReportsOf(rows)[k].dataset, ReportsOf(rows)[k].file) == true
  {
    var r := ReportsOf(rows)[k];
    OnceEach(rows, r.dataset, r.file);
    OccursOnce(ReportsOf(rows), k);
    assert verdicts[k];
  }

  lemma ExampleEvidence(i: nat, rows: nat, lost: nat, u: Unicode)
    requires i < 4 && ValidUnicode(u) == true
    ensures EvidenceComplete(Example(rows, lost, u), Verdicts(Example(rows, lost, u)), CONTRACTS[i]) == true
  {
    var verdicts := Verdicts(Example(rows, lost, u));
    Expectations(i, rows, lost, u);
    AllVerified(rows, lost, u);
    ReportAt(rows, i);
    ReportAt(rows, i + 4);
    ExampleOnce(rows, verdicts, i);
    ExampleOnce(rows, verdicts, i + 4);
    BothSuffice(Example(rows, lost, u), verdicts, CONTRACTS[i]);
  }

  lemma BothSuffice(inp: Inputs, verdicts: seq<bool>, c: DatasetContract)
    requires |verdicts| == |inp.reports| && ExpectedFiles(inp, c) == {QUALITY, c.profile}
    requires Evidenced(inp.reports, verdicts, c.dataset, QUALITY) == true
    requires Evidenced(inp.reports, verdicts, c.dataset, c.profile) == true
    ensures EvidenceComplete(inp, verdicts, c) == true
  {
  }

  lemma {:induction false} FirstIs(reports: seq<Report>, i: nat)
    requires i < |reports| && forall k :: 0 <= k < i ==> !SameKey(reports[k], reports[i])
    ensures FirstPayload(reports, reports[i].dataset, reports[i].file) == reports[i].payload
  {
    if i > 0 {
      assert !SameKey(reports[0], reports[i]);
      FirstIs(reports[1..], i - 1);
    }
  }

  lemma FirstProfile(i: nat, rows: nat)
    requires i < 4
    ensures FirstPayload(ReportsOf(rows), CONTRACTS[i].dataset, CONTRACTS[i].profile) == PayloadOf(i, rows)
  {
    var reports := ReportsOf(rows);
    forall k | 0 <= k < i + 4 ensures !SameKey(reports[k], reports[i + 4]) { KeysDiffer(rows, k, i + 4); }
    ReportAt(rows, i + 4);
    FirstIs(reports, i + 4);
  }

  lemma FixturePasses(p: Payload, entry: Payload, rows: nat)
    requires SyntheticFields(p, entry) == true && CountFields(p, rows) == true
    ensures PipelineFixture(true, p) == true
  {
    assert Get(Gate(QUALITY_GATE_KEYS, true).fields, "passed") == JBool(true);
  }

  lemma ExampleFixture(rows: nat, lost: nat, u: Unicode)
    requires ValidUnicode(u) == true
    ensures FixtureReady(Example(rows, lost, u), Verdicts(Example(rows, lost, u))) == true
  {
    ExampleEvidence(3, rows, lost, u);
    Expectations(3, rows, lost, u);
    FirstProfile(3, rows);
    SyntheticFilled(rows);
    SyntheticCounted(rows);
    FixturePasses(SyntheticPayload(rows), SourceEntry(SYNTHETIC_SESSION_KEYS, rows), rows);
  }

  lemma ExampleTimezone(rows: nat)
    ensures CicTimezoneSafe(ReportsOf(rows)) == true
  {
    FirstProfile(1, rows);
    CicFields(rows);
  }

  // ----- The gate -----

  lemma ManifestsInOrder(rows: nat, lost: nat, u: Unicode)
    ensures AnyUnsealed(Example(rows, lost, u)) == false && AnyUnregistered(Example(rows, lost, u)) == false
  {
    var inp := Example(rows, lost, u);
    forall c | c in CONTRACTS ensures Registered(inp.manifests, c.dataset) {
      var i :| 0 <= i < 4 && CONTRACTS[i] == c;
      assert inp.manifests[i].name == c.dataset;
    }
  }

  lemma InputsInOrder(rows: nat, lost: nat, u: Unicode)
    ensures AnyWithoutInput(Example(rows, lost, u), CONTRACTS) == false && AnyAmbiguous(Example(rows, lost, u), CONTRACTS) == false
  {
    TwoFormats();
    forall c | c in CONTRACTS ensures ExpectedInputs(Example(rows, lost, u), c) in {[SOURCE], [HIDDEN, SOURCE]} {
      var i :| 0 <= i < 4 && CONTRACTS[i] == c;
      Expectations(i, rows, lost, u);
    }
  }

  lemma ReportsInOrder(rows: nat, lost: nat, u: Unicode)
    requires ValidUnicode(u) == true
    ensures var inp := Example(rows, lost, u);
      AnyMissing(inp, CONTRACTS) == false && AnyDuplicate(inp, CONTRACTS) == false && AnyUnevidenced(inp, Verdicts(inp)) == false
  {
    var inp := Example(rows, lost, u);
    forall c | c in CONTRACTS ensures EvidenceComplete(inp, Verdicts(inp), c) {
      var i :| 0 <= i < 4 && CONTRACTS[i] == c;
      ExampleEvidence(i, rows, lost, u);
    }
    forall d, file ensures Occurrences(inp.reports, d, file) <= 1 { OnceEach(rows, d, file); }
  }

  /** No finding but the fixture. */
  const PASSED := Findings(false, false, false, false, false, false, false, false, true, false, false)

  lemma PassedIsReady(inp: Inputs)
    requires !inp.manifestLoadFailed && inp.pathsIgnored
    ensures Ready(inp, PASSED) == true
  {
  }

  lemma ExampleFindings(rows: nat, lost: nat, u: Unicode)
    requires ValidUnicode(u) == true
    ensures FindingsOf(Example(rows, lost, u)) == PASSED
  {
    ManifestsInOrder(rows, lost, u);
    InputsInOrder(rows, lost, u);
    ReportsInOrder(rows, lost, u);
    AllVerified(rows, lost, u);
    ExampleFixture(rows, lost, u);
    ExampleTimezone(rows);
    NotBothReady(Example(rows, lost, u), Verdicts(Example(rows, lost, u)));
  }

  /** For all row counts there are inputs, with exactly the approved keys and harmless contents, that pass the gate. */
  lemma GateCanPass(rows: nat, lost: nat, u: Unicode)
    requires ValidUnicode(u)
    ensures PipelineReady(Example(rows, lost, u))
  {
    ExampleFindings(rows, lost, u);
    PassedIsReady(Example(rows, lost, u));
  }

  /** And the gate passes although the UNSW profile is short of its manifest by the rows of the hidden input. */
  lemma RowsCanBeLost(rows: nat, lost: nat, u: Unicode)
    requires ValidUnicode(u)
    ensures var inp, c := Example(rows, lost, u), CONTRACTS[0];
      && PipelineReady(inp) && IsProfile(inp, c, 4) && !StemsDistinct(ExpectedInputs(inp, c))
      && TotalsOf(inp.reports[4]).total == rows
      && SumList(ExpectedInputs(inp, c), Rows(inp, c.dataset)) == rows + lost
  {
    GateCanPass(rows, lost, u);
    Expectations(0, rows, lost, u);
    ReportAt(rows, 4);
    UnswApproved(rows, 0);
    HiddenRows(rows, lost);
  }

  lemma HiddenRows(rows: nat, lost: nat)
    ensures SumList(InputsOf(0), RowsOf(0, rows, lost)) == rows + lost && StemsDistinct(InputsOf(0)) == false
  {
    TwoFormats();
    assert InputsOf(0)[1..] == [SOURCE] && [SOURCE][1..] == [];
    assert SumList([SOURCE], RowsOf(0, rows, lost)) == rows;
    assert !IsLast(InputsOf(0), 0);
  }
}
