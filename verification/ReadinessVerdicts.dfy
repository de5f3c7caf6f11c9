/** When the profiles with an entry per source are verified, and what each blocker and both verdicts say. */
module ReadinessVerdicts {
  import opened Text
  import opened JsonValue
  import opened Numerals
  import opened ContentScan
  import opened AuditReports
  import opened ReadinessGate
  import opened RowConservation
  import opened ReadinessTerms

  // `P(x) == true` in a contract hands the fact on unopened, which keeps the caller's proof small.

  // ----- Entries per source -----

  /** One entry for each expected source, stating the rows its manifest has for it. */
  ghost predicate EntriesAre(entries: seq<Payload>, expected: set<string>, rows: map<string, int>) {
    exists names: seq<string> :: EntriesNamed(entries, names, expected, rows)
  }

  ghost predicate EntriesNamed(entries: seq<Payload>, names: seq<string>, expected: set<string>, rows: map<string, int>) {
    && |names| == |entries| && Distinct(names) && (forall x :: x in names <==> x in expected)
    && forall i :: 0 <= i < |names| ==>
      && Get(entries[i], "source_file") == JText(names[i])
      && Get(entries[i], "total_rows") == if names[i] in rows then JInt(rows[names[i]]) else JNull
  }

  lemma {:induction false} CountedIsDistinct(s: seq<string>)
    requires |Names(s)| == |s|
    ensures Distinct(s)
  {
    if s != [] {
      assert Names(s) == {s[0]} + Names(s[1..]);
      FewerNames(s[1..]);
      CountedIsDistinct(s[1..]);
      assert s[0] !in Names(s[1..]);
      forall i, j | 0 <= i < j < |s| ensures s[i] != s[j] {
        assert s[j] == s[1..][j - 1];
        if i > 0 { assert s[i] == s[1..][i - 1]; }
      }
    }
  }

  lemma MatchedAreNamed(entries: seq<Payload>, expected: set<string>, rows: map<string, int>)
    requires EntriesMatch(Some(entries), expected, rows)
    ensures EntriesAre(entries, expected, rows)
  {
    var names := SourceNames(entries);
    SourceNamesAre(entries, expected);
    assert |Names(names)| == |names|;
    CountedIsDistinct(names);
    var texts := set s | s in expected :: JText(s);
    forall i | 0 <= i < |entries| ensures Get(entries[i], "source_file") == JText(names[i]) {
      assert Column(entries, "source_file")[i] in texts;
    }
    assert forall x :: x in names <==> x in Names(names);
    assert EntriesNamed(entries, names, expected, rows);
  }

  lemma NamedAreMatched(entries: seq<Payload>, names: seq<string>, expected: set<string>, rows: map<string, int>)
    requires EntriesNamed(entries, names, expected, rows)
    ensures EntriesMatch(Some(entries), expected, rows)
  {
    DistinctCount(names);
    assert Names(names) == expected;
    var column, texts := Column(entries, "source_file"), set s | s in expected :: JText(s);
    forall s | s in expected ensures JText(s) in column {
      var i :| 0 <= i < |names| && names[i] == s;
      assert column[i] == JText(s);
    }
    forall i | 0 <= i < |column| ensures column[i] in texts { assert names[i] in expected; }
    assert (set j | j in column) == texts;
  }

  /** The objects of a list that holds nothing else. */
  ghost predicate ObjectList(j: Json, items: seq<Payload>) {
    j.JList? && |j.items| == |items| && forall i :: 0 <= i < |items| ==> j.items[i] == JObj(items[i])
  }

  lemma ItemsAre(j: Json)
    ensures Items(j).Some? ==> ObjectList(j, Items(j).value)
    ensures forall items :: ObjectList(j, items) ==> Items(j) == Some(items)
  {
    forall items | ObjectList(j, items) ensures Items(j) == Some(items) {
      assert forall i :: 0 <= i < |items| ==> j.items[i].fields == items[i];
      assert Items(j).value == items;
    }
  }

  // ----- CSE-CIC -----

  ghost predicate CicStates(inp: Inputs, report: Report, files: seq<Payload>, combined: Payload, t: nat, a: nat, r: nat) {
    var p := report.payload;
    && ObjectList(Get(p, "files"), files) && (forall i :: 0 <= i < |files| ==> files[i].Keys == CIC_FILE_PROFILE_KEYS)
    && Get(p, "combined") == JObj(combined) && combined.Keys == CIC_COMBINED_PROFILE_KEYS
    && CountsAre(combined, "total_rows", t, a, r)
    && EntriesAre(files, ExpectedSources(inp, CONTRACTS[1]), Rows(inp, CIC))
  }

  lemma CicParts(report: Report)
    requires report.file == CIC_PROFILE
    ensures OwnChecks(report) == true && TotalKey(report.file) == "total_rows"
    ensures SchemaApproved(report) <==>
      report.payload.Keys == CIC_PROFILE_KEYS && AllHaveKeys(Items(Get(report.payload, "files")), CIC_FILE_PROFILE_KEYS)
      && HasKeys(Get(report.payload, "combined"), CIC_COMBINED_PROFILE_KEYS)
  {
    ProfileNames();
    NoQualityProfile(CONTRACTS[1]);
  }

  lemma CicMatched(inp: Inputs, report: Report, t: nat, a: nat, r: nat)
    requires report.file == CIC_PROFILE && TotalsOf(report) == Totals(t, a, r) && a + r == t
    ensures TotalsMatched(inp, CONTRACTS[1], report) <==>
      EntriesMatch(Items(Get(report.payload, "files")), ExpectedSources(inp, CONTRACTS[1]), Rows(inp, CIC))
  {
    ProfileNames();
    NoQualityProfile(CONTRACTS[1]);
  }

  lemma CicGiven(inp: Inputs, report: Report) returns (files: seq<Payload>, combined: Payload, t: nat, a: nat, r: nat)
    requires report.file == CIC_PROFILE && SchemaApproved(report) == true
    requires exists t: nat, a: nat, r: nat :: Stated(inp, CONTRACTS[1], report, t, a, r)
    ensures CicStates(inp, report, files, combined, t, a, r)
  {
    t, a, r :| Stated(inp, CONTRACTS[1], report, t, a, r);
    CicParts(report);
    CountedTotals(report, t, a, r);
    CicMatched(inp, report, t, a, r);
    ItemsAre(Get(report.payload, "files"));
    files, combined := Items(Get(report.payload, "files")).value, Get(report.payload, "combined").fields;
    MatchedAreNamed(files, ExpectedSources(inp, CONTRACTS[1]), Rows(inp, CIC));
  }

  lemma CicEnough(inp: Inputs, report: Report, files: seq<Payload>, combined: Payload, t: nat, a: nat, r: nat)
    requires report.file == CIC_PROFILE && report.payload.Keys == CIC_PROFILE_KEYS && CicStates(inp, report, files, combined, t, a, r)
    ensures SchemaApproved(report) && Stated(inp, CONTRACTS[1], report, t, a, r)
  {
    CicParts(report);
    ItemsAre(Get(report.payload, "files"));
    assert SchemaApproved(report);
    assert Counted(report) == combined;
    CountedTotals(report, t, a, r);
    CicMatched(inp, report, t, a, r);
    var names :| EntriesNamed(files, names, ExpectedSources(inp, CONTRACTS[1]), Rows(inp, CIC));
    NamedAreMatched(files, names, ExpectedSources(inp, CONTRACTS[1]), Rows(inp, CIC));
  }

  /** The CSE-CIC profile is verified exactly when its files are the expected sources with their manifest rows and its
      combined counts add up; nothing compares the combined total with the files. */
  lemma CicVerifiedIff(inp: Inputs, report: Report)
    requires report.dataset == CIC && report.file == CIC_PROFILE
    ensures ReportVerified(inp, report) <==>
      report.payload.Keys == CIC_PROFILE_KEYS && Scanned(inp, report)
      && exists files, combined, t: nat, a: nat, r: nat :: CicStates(inp, report, files, combined, t, a, r)
  {
    assert CONTRACTS[1] in CONTRACTS;
    VerifiedStated(inp, CONTRACTS[1], report);
    CicParts(report);
    if ReportVerified(inp, report) {
      var files, combined, t, a, r := CicGiven(inp, report);
    }
    if report.payload.Keys == CIC_PROFILE_KEYS {
      if files, combined, t: nat, a: nat, r: nat :| CicStates(inp, report, files, combined, t, a, r) {
        CicEnough(inp, report, files, combined, t, a, r);
      }
    }
  }

  // ----- Synthetic -----

  /** A gate with results, that passed when none of them is false. */
  ghost predicate GateStates(p: Payload, key: string, sections: set<string>, gate: Payload, results: Payload) {
    && Get(p, key) == JObj(gate) && gate.Keys == sections && Get(gate, "results") == JObj(results) && results != map[]
    && (forall k :: k in results ==> results[k] == JBool(true) || results[k] == JBool(false))
    && Get(gate, "passed") == JBool(JBool(false) !in results.Values)
  }

  lemma GateIs(p: Payload, key: string, sections: set<string>)
    ensures GateConsistent(p, key, sections) <==> exists gate, results :: GateStates(p, key, sections, gate, results)
  {
    var gate := Get(p, key);
    if gate.JObj? {
      var results := Get(gate.fields, "results");
      if results.JObj? {
        assert (forall k :: k in results.fields ==> results.fields[k].JBool?) ==>
          ((forall k :: k in results.fields ==> results.fields[k] == JBool(true)) <==> JBool(false) !in results.fields.Values);
        assert GateConsistent(p, key, sections) ==> GateStates(p, key, sections, gate.fields, results.fields);
      }
    }
  }

  /** Every session states a count under the key, and they add up to n. */
  ghost predicate SessionsHave(sessions: seq<Payload>, key: string, n: nat) {
    && (forall i :: 0 <= i < |sessions| ==> exists m: nat :: Get(sessions[i], key) == JInt(m))
    && AllCounts(Column(sessions, key)) && Total(Column(sessions, key)) == n
  }

  ghost predicate SyntheticStates(inp: Inputs, report: Report, sessions: seq<Payload>, t: nat, a: nat, r: nat) {
    var p := report.payload;
    && ObjectList(Get(p, "sessions"), sessions) && (forall i :: 0 <= i < |sessions| ==> sessions[i].Keys == SYNTHETIC_SESSION_KEYS)
    && Get(p, "session_count") == JInt(|sessions|) && CountsAre(p, "total_rows", t, a, r)
    && SessionsHave(sessions, "total_rows", t) && SessionsHave(sessions, "accepted_count", a)
    && SessionsHave(sessions, "rejected_count", r)
    && EntriesAre(sessions, ExpectedSources(inp, CONTRACTS[3]), Rows(inp, SYNTHETIC))
  }

  ghost predicate GatesState(p: Payload) {
    && (exists gate, results :: GateStates(p, "quality_gates", {"configured", "results", "passed"}, gate, results))
    && exists gate, results :: GateStates(p, "training_quality_gates", {"configured", "observed", "results", "passed"}, gate, results)
  }

  lemma GatesAre(p: Payload)
    ensures GatesState(p) <==>
      GateConsistent(p, "quality_gates", QUALITY_GATE_KEYS) && GateConsistent(p, "training_quality_gates", TRAINING_GATE_KEYS)
  {
    GateIs(p, "quality_gates", QUALITY_GATE_KEYS);
    GateIs(p, "training_quality_gates", TRAINING_GATE_KEYS);
  }

  lemma ColumnIs(p: Payload, sessions: seq<Payload>, key: string, n: nat)
    requires Get(p, key) == JInt(n)
    ensures ColumnAddsUp(p, sessions, key) <==> SessionsHave(sessions, key, n)
  {
    if AllCounts(Column(sessions, key)) {
      forall i | 0 <= i < |sessions| ensures exists m: nat :: Get(sessions[i], key) == JInt(m) {
        assert Count(Column(sessions, key)[i]);
        assert Get(sessions[i], key) == JInt(Get(sessions[i], key).n);
      }
    }
  }

  lemma SyntheticParts(report: Report)
    requires report.file == SYNTHETIC_PROFILE
    ensures TotalKey(report.file) == "total_rows" && Counted(report) == report.payload
    ensures OwnChecks(report) <==> SessionsAddUp(report.payload) && GatesState(report.payload)
    ensures SchemaApproved(report) <==>
      report.payload.Keys == SYNTHETIC_PROFILE_KEYS && AllHaveKeys(Items(Get(report.payload, "sessions")), SYNTHETIC_SESSION_KEYS)
      && HasKeys(Get(report.payload, "quality_gates"), QUALITY_GATE_KEYS)
      && HasKeys(Get(report.payload, "training_quality_gates"), TRAINING_GATE_KEYS)
  {
    ProfileNames();
    NoQualityProfile(CONTRACTS[3]);
    GatesAre(report.payload);
  }

  lemma SyntheticMatched(inp: Inputs, report: Report, t: nat, a: nat, r: nat)
    requires report.file == SYNTHETIC_PROFILE && TotalsOf(report) == Totals(t, a, r) && a + r == t
    ensures TotalsMatched(inp, CONTRACTS[3], report) <==>
      EntriesMatch(Items(Get(report.payload, "sessions")), ExpectedSources(inp, CONTRACTS[3]), Rows(inp, SYNTHETIC))
  {
    ProfileNames();
    NoQualityProfile(CONTRACTS[3]);
  }

  lemma SessionsAre(p: Payload, sessions: seq<Payload>, t: nat, a: nat, r: nat)
    requires Items(Get(p, "sessions")) == Some(sessions)
    requires Get(p, "total_rows") == JInt(t) && Get(p, "accepted_count") == JInt(a) && Get(p, "rejected_count") == JInt(r)
    ensures SessionsAddUp(p) <==>
      Get(p, "session_count") == JInt(|sessions|) && SessionsHave(sessions, "total_rows", t)
      && SessionsHave(sessions, "accepted_count", a) && SessionsHave(sessions, "rejected_count", r)
  {
    ColumnIs(p, sessions, "total_rows", t);
    ColumnIs(p, sessions, "accepted_count", a);
    ColumnIs(p, sessions, "rejected_count", r);
  }

  lemma SyntheticGiven(inp: Inputs, report: Report) returns (sessions: seq<Payload>, t: nat, a: nat, r: nat)
    requires report.file == SYNTHETIC_PROFILE && SchemaApproved(report) == true && SessionsAddUp(report.payload) == true
    requires exists t: nat, a: nat, r: nat :: Stated(inp, CONTRACTS[3], report, t, a, r)
    ensures SyntheticStates(inp, report, sessions, t, a, r)
  {
    t, a, r :| Stated(inp, CONTRACTS[3], report, t, a, r);
    SyntheticParts(report);
    CountedTotals(report, t, a, r);
    SyntheticMatched(inp, report, t, a, r);
    ItemsAre(Get(report.payload, "sessions"));
    sessions := Items(Get(report.payload, "sessions")).value;
    SessionsAre(report.payload, sessions, t, a, r);
    MatchedAreNamed(sessions, ExpectedSources(inp, CONTRACTS[3]), Rows(inp, SYNTHETIC));
  }

  lemma SyntheticEnough(inp: Inputs, report: Report, sessions: seq<Payload>, t: nat, a: nat, r: nat)
    requires report.file == SYNTHETIC_PROFILE && report.payload.Keys == SYNTHETIC_PROFILE_KEYS
    requires SyntheticStates(inp, report, sessions, t, a, r) && GatesState(report.payload)
    ensures SchemaApproved(report) && SessionsAddUp(report.payload) && Stated(inp, CONTRACTS[3], report, t, a, r)
  {
    SyntheticParts(report);
    ItemsAre(Get(report.payload, "sessions"));
    assert SchemaApproved(report);
    SessionsAre(report.payload, sessions, t, a, r);
    CountedTotals(report, t, a, r);
    SyntheticMatched(inp, report, t, a, r);
    var names :| EntriesNamed(sessions, names, ExpectedSources(inp, CONTRACTS[3]), Rows(inp, SYNTHETIC));
    NamedAreMatched(sessions, names, ExpectedSources(inp, CONTRACTS[3]), Rows(inp, SYNTHETIC));
  }

  /** The synthetic profile is verified exactly when its sessions are the expected sources with their manifest rows, they
      add up to its counts, and each gate's verdict is that of its results. */
  lemma SyntheticVerifiedIff(inp: Inputs, report: Report)
    requires report.dataset == SYNTHETIC && report.file == SYNTHETIC_PROFILE
    ensures ReportVerified(inp, report) <==>
      report.payload.Keys == SYNTHETIC_PROFILE_KEYS && Scanned(inp, report) && GatesState(report.payload)
      && exists sessions, t: nat, a: nat, r: nat :: SyntheticStates(inp, report, sessions, t, a, r)
  {
    assert CONTRACTS[3] in CONTRACTS;
    VerifiedStated(inp, CONTRACTS[3], report);
    SyntheticParts(report);
    if ReportVerified(inp, report) {
      var sessions, t, a, r := SyntheticGiven(inp, report);
    }
    if report.payload.Keys == SYNTHETIC_PROFILE_KEYS && GatesState(report.payload) {
      if sessions, t: nat, a: nat, r: nat :| SyntheticStates(inp, report, sessions, t, a, r) {
        SyntheticEnough(inp, report, sessions, t, a, r);
      }
    }
  }

  // ----- Evidence -----

  predicate Named(r: Report, dataset: string, file: string) { r.dataset == dataset && r.file == file }

  /** The i-th report is the only one of this dataset and name. */
  predicate Sole(reports: seq<Report>, i: nat, dataset: string, file: string) {
    i < |reports| && forall k :: 0 <= k < |reports| ==> (Named(reports[k], dataset, file) <==> k == i)
  }

  predicate Twice(reports: seq<Report>, i: nat, j: nat, dataset: string, file: string) {
    i < j < |reports| && Named(reports[i], dataset, file) && Named(reports[j], dataset, file)
  }

  lemma {:induction false} OccursNever(reports: seq<Report>, dataset: string, file: string)
    ensures Occurrences(reports, dataset, file) == 0 <==> forall k :: 0 <= k < |reports| ==> !Named(reports[k], dataset, file)
  {
    if reports != [] {
      var less := reports[..|reports| - 1];
      OccursNever(less, dataset, file);
      assert forall k :: 0 <= k < |less| ==> less[k] == reports[k];
    }
  }

  lemma {:induction false} OccursTwice(reports: seq<Report>, dataset: string, file: string)
    ensures Occurrences(reports, dataset, file) > 1 <==> exists i: nat, j: nat :: Twice(reports, i, j, dataset, file)
  {
    if reports != [] {
      var n := |reports| - 1;
      OccursTwice(reports[..n], dataset, file);
      OccursNever(reports[..n], dataset, file);
      OneMoreOccurrence(reports, dataset, file);
    }
  }

  lemma OneMoreOccurrence(reports: seq<Report>, dataset: string, file: string)
    requires reports != []
    ensures var n := |reports| - 1;
      (exists i: nat, j: nat :: Twice(reports, i, j, dataset, file)) <==>
        ((exists i: nat, j: nat :: Twice(reports[..n], i, j, dataset, file))
        || (Named(reports[n], dataset, file) && exists k :: 0 <= k < n && Named(reports[..n][k], dataset, file)))
  {
    var n := |reports| - 1;
    if i: nat, j: nat :| Twice(reports, i, j, dataset, file) {
      if j < n { assert Twice(reports[..n], i, j, dataset, file); } else { assert reports[..n][i] == reports[i]; }
    }
    if i: nat, j: nat :| Twice(reports[..n], i, j, dataset, file) { assert Twice(reports, i, j, dataset, file); }
    if k: nat :| k < n && Named(reports[..n][k], dataset, file) && Named(reports[n], dataset, file) {
      assert Twice(reports, k, n, dataset, file);
    }
  }

  lemma OccursSolely(reports: seq<Report>, dataset: string, file: string)
    ensures Occurrences(reports, dataset, file) == 1 <==> exists i: nat :: Sole(reports, i, dataset, file)
  {
    OccursNever(reports, dataset, file);
    OccursTwice(reports, dataset, file);
    if Occurrences(reports, dataset, file) == 1 {
      var i: nat :| i < |reports| && Named(reports[i], dataset, file);
      forall k | 0 <= k < |reports| ensures Named(reports[k], dataset, file) <==> k == i {
        assert k < i ==> !Twice(reports, k, i, dataset, file);
        assert i < k ==> !Twice(reports, i, k, dataset, file);
      }
      assert Sole(reports, i, dataset, file);
    }
    if i: nat :| Sole(reports, i, dataset, file) {
      assert Named(reports[i], dataset, file);
      assert forall a: nat, b: nat :: !Twice(reports, a, b, dataset, file);
    }
  }

  /** Exactly one loaded report has this dataset and name, and it is verified. */
  ghost predicate SoleVerified(inp: Inputs, dataset: string, file: string) {
    exists i: nat :: Sole(inp.reports, i, dataset, file) && ReportVerified(inp, inp.reports[i])
  }

  lemma EvidencedIs(inp: Inputs, dataset: string, file: string)
    ensures Evidenced(inp.reports, Verdicts(inp), dataset, file) <==> SoleVerified(inp, dataset, file)
  {
    OccursSolely(inp.reports, dataset, file);
    forall i | 0 <= i < |inp.reports| ensures Verdicts(inp)[i] == ReportVerified(inp, inp.reports[i]) {
      VerdictAt(inp, inp.reports, i);
    }
    if Evidenced(inp.reports, Verdicts(inp), dataset, file) {
      var i: nat :| Sole(inp.reports, i, dataset, file);
    }
    if i: nat :| Sole(inp.reports, i, dataset, file) && ReportVerified(inp, inp.reports[i]) {
      assert Named(inp.reports[i], dataset, file) && Verdicts(inp)[i];
    }
  }

  /** The reports expected of a dataset: its profile, and a quality report for each input that is last of its stem. */
  ghost predicate IsExpected(inp: Inputs, c: DatasetContract, file: string) {
    file == c.profile || exists i: nat :: ReportOf(ExpectedInputs(inp, c), i, file)
  }

  lemma ExpectedAre(inp: Inputs, c: DatasetContract, file: string)
    ensures file in ExpectedFiles(inp, c) <==> IsExpected(inp, c, file)
  {
    QualityReportOf(ExpectedInputs(inp, c), file);
  }

  predicate First(reports: seq<Report>, i: nat, dataset: string, file: string) {
    i < |reports| && Named(reports[i], dataset, file) && forall k :: 0 <= k < i ==> !Named(reports[k], dataset, file)
  }

  /** The first report of this dataset and name decides. */
  lemma {:induction false} FirstPayloadIs(reports: seq<Report>, dataset: string, file: string, i: nat)
    requires First(reports, i, dataset, file)
    ensures FirstPayload(reports, dataset, file) == reports[i].payload
  {
    if i > 0 { FirstPayloadIs(reports[1..], dataset, file, i - 1); }
  }

  lemma {:induction false} NoPayload(reports: seq<Report>, dataset: string, file: string) returns (i: nat)
    requires FirstPayload(reports, dataset, file) != map[]
    ensures First(reports, i, dataset, file)
  {
    i := 0;
    if !Named(reports[0], dataset, file) {
      i := NoPayload(reports[1..], dataset, file);
      i := i + 1;
    }
  }

  // ----- Blockers -----

  /** The first CSE-CIC profile says that the time zone of its timestamps is unknown. */
  ghost predicate TimezoneStated(inp: Inputs) {
    exists i: nat :: First(inp.reports, i, CIC, CIC_PROFILE)
      && Get(inp.reports[i].payload, "timestamp_semantics") == JText("timezone-naive; source timezone unknown")
  }

  ghost predicate Evidence(inp: Inputs, c: DatasetContract) {
    forall file :: IsExpected(inp, c, file) ==> SoleVerified(inp, c.dataset, file)
  }

  ghost predicate PassedGate(p: Payload, key: string) { exists gate :: Get(p, key) == JObj(gate) && Get(gate, "passed") == JBool(true) }

  ghost predicate FixtureProfile(p: Payload) {
    && Get(p, "completed") == JBool(true) && Get(p, "classification") == JText("development_pipeline_fixture")
    && PassedGate(p, "quality_gates")
  }

  /** The synthetic evidence is complete, its last manifest verified, and its profile a fixture that passed its gates. */
  ghost predicate Fixture(inp: Inputs) {
    && Evidence(inp, CONTRACTS[3])
    && (exists i: nat :: LastOfName(inp.manifests, i, SYNTHETIC) && inp.manifests[i].verified)
    && exists i: nat :: First(inp.reports, i, SYNTHETIC, SYNTHETIC_PROFILE) && FixtureProfile(inp.reports[i].payload)
  }

  ghost predicate AllSealed(inp: Inputs) { forall m :: m in inp.manifests ==> m.verified && m.inputsExist && m.pathsRelative }

  ghost predicate AllVerified(inp: Inputs) { forall i :: 0 <= i < |inp.reports| ==> ReportVerified(inp, inp.reports[i]) }

  /** When each blocker is raised, said of what the audit reads. */
  ghost predicate Raised(inp: Inputs, b: Blocker) {
    match b
    case ManifestLoadFailed => inp.manifestLoadFailed
    case ManifestIntegrityFailed => !AllSealed(inp)
    case ManifestMissing => exists c :: c in CONTRACTS && forall m :: m in inp.manifests ==> m.name != c.dataset
    case ReportInputMissing => exists c :: c in CONTRACTS && ExpectedInputs(inp, c) == []
    case ReportInputAmbiguous => exists c :: c in CONTRACTS && !Distinct(ExpectedInputs(inp, c))
    case ReportMissing => exists c, file :: c in CONTRACTS && IsExpected(inp, c, file) && Absent(inp.reports, c.dataset, file)
    case ReportDuplicate => exists c, file :: c in CONTRACTS && Repeated(inp.reports, c.dataset, file)
    case ReportVerificationFailed => !AllVerified(inp)
    case ReportEvidenceFailed => exists c :: c in CONTRACTS && !Evidence(inp, c)
    case PathsNotIgnored => !inp.pathsIgnored
    case CicTimezoneUnsafe => !TimezoneStated(inp)
    case SyntheticBaselineMissing => !Fixture(inp)
    case SyntheticNotFinal => Fixture(inp)
    case Further(name) => name in inp.furtherBlockers
  }

  ghost predicate Absent(reports: seq<Report>, dataset: string, file: string) {
    forall k :: 0 <= k < |reports| ==> !Named(reports[k], dataset, file)
  }

  ghost predicate Repeated(reports: seq<Report>, dataset: string, file: string) {
    exists i: nat, j: nat :: Twice(reports, i, j, dataset, file)
  }

  lemma UnregisteredIs(inp: Inputs)
    ensures AnyUnregistered(inp) <==> Raised(inp, ManifestMissing)
  {
    forall c: DatasetContract ensures Registered(inp.manifests, c.dataset) <==> !forall m :: m in inp.manifests ==> m.name != c.dataset {
      if i :| 0 <= i < |inp.manifests| && inp.manifests[i].name == c.dataset { assert inp.manifests[i] in inp.manifests; }
    }
  }

  lemma MissingIs(inp: Inputs)
    ensures AnyMissing(inp, CONTRACTS) <==> Raised(inp, ReportMissing)
  {
    forall c: DatasetContract, file ensures file in ExpectedFiles(inp, c) <==> IsExpected(inp, c, file) { ExpectedAre(inp, c, file); }
    forall c: DatasetContract, file ensures Occurrences(inp.reports, c.dataset, file) == 0 <==> Absent(inp.reports, c.dataset, file) {
      OccursNever(inp.reports, c.dataset, file);
    }
  }

  lemma DuplicateIs(inp: Inputs)
    ensures AnyDuplicate(inp, CONTRACTS) <==> Raised(inp, ReportDuplicate)
  {
    forall c: DatasetContract, file ensures Occurrences(inp.reports, c.dataset, file) > 1 <==> Repeated(inp.reports, c.dataset, file) {
      OccursTwice(inp.reports, c.dataset, file);
    }
  }

  lemma UnverifiedIs(inp: Inputs)
    ensures false in Verdicts(inp) <==> Raised(inp, ReportVerificationFailed)
  {
    forall i | 0 <= i < |inp.reports| ensures Verdicts(inp)[i] == ReportVerified(inp, inp.reports[i]) {
      VerdictAt(inp, inp.reports, i);
    }
  }

  lemma EvidenceIs(inp: Inputs, c: DatasetContract)
    ensures EvidenceComplete(inp, Verdicts(inp), c) <==> Evidence(inp, c)
  {
    forall file ensures file in ExpectedFiles(inp, c) <==> IsExpected(inp, c, file) { ExpectedAre(inp, c, file); }
    forall file ensures Evidenced(inp.reports, Verdicts(inp), c.dataset, file) <==> SoleVerified(inp, c.dataset, file) {
      EvidencedIs(inp, c.dataset, file);
    }
  }

  lemma UnevidencedIs(inp: Inputs)
    ensures AnyUnevidenced(inp, Verdicts(inp)) <==> Raised(inp, ReportEvidenceFailed)
  {
    forall c: DatasetContract ensures EvidenceComplete(inp, Verdicts(inp), c) <==> Evidence(inp, c) { EvidenceIs(inp, c); }
  }

  lemma TimezoneIs(inp: Inputs)
    ensures CicTimezoneSafe(inp.reports) <==> TimezoneStated(inp)
  {
    var p := FirstPayload(inp.reports, CIC, CIC_PROFILE);
    if CicTimezoneSafe(inp.reports) {
      var i := NoPayload(inp.reports, CIC, CIC_PROFILE);
      FirstPayloadIs(inp.reports, CIC, CIC_PROFILE, i);
    }
    if i: nat :| First(inp.reports, i, CIC, CIC_PROFILE) { FirstPayloadIs(inp.reports, CIC, CIC_PROFILE, i); }
  }

  lemma {:induction false} LastManifest(manifests: seq<Manifest>, dataset: string)
    ensures LastManifestVerified(manifests, dataset) <==> exists i: nat :: LastOfName(manifests, i, dataset) && manifests[i].verified
  {
    if i: nat :| LastOfName(manifests, i, dataset) {
      FilesAreLast(manifests, dataset, i);
      assert forall j: nat :: LastOfName(manifests, j, dataset) ==> j == i;
    } else if LastManifestVerified(manifests, dataset) {
      var n := |manifests| - 1;
      assert !LastOfName(manifests, n, dataset);
      LastManifest(manifests[..n], dataset);
      var i: nat :| LastOfName(manifests[..n], i, dataset);
      assert LastOfName(manifests, i, dataset);
    }
  }

  lemma FixtureIs(inp: Inputs)
    ensures FixtureReady(inp, Verdicts(inp)) <==> Fixture(inp)
  {
    EvidenceIs(inp, CONTRACTS[3]);
    LastManifest(inp.manifests, SYNTHETIC);
    FixtureProfileIs(inp);
  }

  lemma FixtureProfileIs(inp: Inputs)
    ensures PipelineFixture(true, SyntheticProfile(inp.reports)) <==>
      exists i: nat :: First(inp.reports, i, SYNTHETIC, SYNTHETIC_PROFILE) && FixtureProfile(inp.reports[i].payload)
  {
    var p := SyntheticProfile(inp.reports);
    PassedGateIs(p);
    if p != map[] {
      var i := NoPayload(inp.reports, SYNTHETIC, SYNTHETIC_PROFILE);
      FirstPayloadIs(inp.reports, SYNTHETIC, SYNTHETIC_PROFILE, i);
    }
    if i: nat :| First(inp.reports, i, SYNTHETIC, SYNTHETIC_PROFILE) && FixtureProfile(inp.reports[i].payload) {
      FirstPayloadIs(inp.reports, SYNTHETIC, SYNTHETIC_PROFILE, i);
    }
  }

  lemma PassedGateIs(p: Payload)
    ensures PipelineFixture(true, p) <==> FixtureProfile(p)
  {
    var gate := Get(p, "quality_gates");
    if gate.JObj? { assert GatePassed(gate) ==> Get(p, "quality_gates") == JObj(gate.fields); }
  }

  /** Each blocker is raised exactly when the manifests and reports call for it. */
  lemma BlockersAre(inp: Inputs, b: Blocker)
    ensures Blocks(inp, FindingsOf(inp), b) <==> Raised(inp, b)
  {
    match b
    case ManifestMissing => UnregisteredIs(inp);
    case ReportMissing => MissingIs(inp);
    case ReportDuplicate => DuplicateIs(inp);
    case ReportVerificationFailed => UnverifiedIs(inp);
    case ReportEvidenceFailed => UnevidencedIs(inp);
    case CicTimezoneUnsafe => TimezoneIs(inp);
    case SyntheticBaselineMissing => FixtureIs(inp);
    case SyntheticNotFinal => FixtureIs(inp); TrainingIsNeverReady(inp);
    case _ =>
  }

  /** The pipeline is ready exactly when nothing is raised but further blockers and the one for a fixture. */
  lemma ReadyIff(inp: Inputs)
    ensures PipelineReady(inp) <==> forall b: Blocker :: b != SyntheticNotFinal && !b.Further? ==> !Raised(inp, b)
  {
    forall b: Blocker ensures Blocks(inp, FindingsOf(inp), b) <==> Raised(inp, b) { BlockersAre(inp, b); }
  }
}
