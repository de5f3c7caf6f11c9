/** What the gate decides, said of the manifests and reports themselves: which rows and inputs a dataset
    has, when a report is verified, and when each blocker is raised. */
module ReadinessTerms {
  import opened Text
  import opened JsonValue
  import opened Numerals
  import opened ContentScan
  import opened AuditReports
  import opened ReadinessGate
  import opened RowConservation

  // `P(x) == true` in a contract hands the fact on unopened, which keeps the caller's proof small.

  // ----- Manifests -----

  /** The i-th manifest is the last of its name. */
  predicate LastOfName(manifests: seq<Manifest>, i: nat, dataset: string) {
    && i < |manifests| && manifests[i].name == dataset
    && forall j :: i < j < |manifests| ==> manifests[j].name != dataset
  }

  /** A dataset has the files of its last manifest. */
  lemma {:induction false} FilesAreLast(manifests: seq<Manifest>, dataset: string, i: nat)
    requires LastOfName(manifests, i, dataset)
    ensures FilesOf(manifests, dataset) == manifests[i].files
    ensures LastManifestVerified(manifests, dataset) <==> manifests[i].verified
  {
    var n := |manifests| - 1;
    if i < n { FilesAreLast(manifests[..n], dataset, i); }
  }

  lemma {:induction false} NoFiles(manifests: seq<Manifest>, dataset: string)
    requires forall j :: 0 <= j < |manifests| ==> manifests[j].name != dataset
    ensures FilesOf(manifests, dataset) == [] && !LastManifestVerified(manifests, dataset)
  {
    if manifests != [] { NoFiles(manifests[..|manifests| - 1], dataset); }
  }

  predicate Counts(files: seq<ManifestFile>, i: nat, name: string) {
    i < |files| && files[i].basename == name && files[i].rows.Some?
  }

  /** The i-th file is the last of its name that says how many rows it has. */
  predicate LastCount(files: seq<ManifestFile>, i: nat, name: string) {
    Counts(files, i, name) && forall j :: i < j < |files| ==> !Counts(files, j, name)
  }

  /** A name has rows when a file of that name states them, and the last such file decides. */
  lemma {:induction false} RowsAreLast(files: seq<ManifestFile>, name: string)
    ensures name in RowMap(files) <==> exists i :: 0 <= i < |files| && Counts(files, i, name)
    ensures forall i :: 0 <= i < |files| && LastCount(files, i, name) ==>
      name in RowMap(files) && RowMap(files)[name] == files[i].rows.value
  {
    if files != [] {
      var n := |files| - 1;
      RowsAreLast(files[..n], name);
      if Counts(files, n, name) {
        assert name in RowMap(files) && RowMap(files)[name] == files[n].rows.value;
      } else {
        RowsOfFewer(files, name);
      }
    }
  }

  lemma RowsOfFewer(files: seq<ManifestFile>, name: string)
    requires files != [] && !Counts(files, |files| - 1, name)
    ensures var less := files[..|files| - 1];
      && (name in RowMap(files) <==> name in RowMap(less)) && (name in RowMap(files) ==> RowMap(files)[name] == RowMap(less)[name])
      && forall i :: 0 <= i < |files| ==>
        && (Counts(files, i, name) <==> Counts(less, i, name)) && (LastCount(files, i, name) <==> LastCount(less, i, name))
  {
    var less := files[..|files| - 1];
    assert forall i :: 0 <= i < |files| ==> (Counts(files, i, name) <==> Counts(less, i, name));
  }

  predicate IsInput(f: ManifestFile, c: DatasetContract) { f.role == c.role && f.basename !in c.excluded }

  /** The expected inputs are the files in the contract's role that it does not exclude, in order. */
  lemma {:induction false} InputsAre(files: seq<ManifestFile>, c: DatasetContract, x: string)
    ensures x in Chosen(files, c) <==> exists i :: 0 <= i < |files| && files[i].basename == x && IsInput(files[i], c)
  {
    if files != [] {
      InputsAre(files[1..], c, x);
      if i :| 0 <= i < |files| && files[i].basename == x && IsInput(files[i], c) {
        if i > 0 { assert files[1..][i - 1] == files[i]; }
      }
    }
  }

  lemma {:induction false} InputsInOrder(a: seq<ManifestFile>, b: seq<ManifestFile>, c: DatasetContract)
    ensures Chosen(a + b, c) == Chosen(a, c) + Chosen(b, c)
  {
    if a == [] {
      assert a + b == b;
    } else {
      assert (a + b)[1..] == a[1..] + b;
      InputsInOrder(a[1..], b, c);
    }
  }

  // ----- Names -----

  lemma {:induction false} LastDotIs(s: string, i: nat)
    requires i <= |s|
    ensures LastDot(s, i) >= 0 ==> s[LastDot(s, i)] == '.'
    ensures forall j :: LastDot(s, i) < j < i ==> s[j] != '.'
  {
    if i > 0 && s[i - 1] != '.' { LastDotIs(s, i - 1); }
  }

  /** A name loses its last extension, and one without an extension stays as it is. */
  lemma StemIs(name: string, extension: string)
    ensures name != "" && extension != "" && '.' !in extension ==> Stem(name + "." + extension) == name
    ensures '.' !in name ==> Stem(name) == name && Stem("." + name) == "." + name
    ensures Stem(name + ".") == name + "."
  {
    var s := name + "." + extension;
    LastDotIs(s, |s|);
    assert s[|name|] == '.';
    assert forall j :: |name| < j < |s| ==> s[j] == extension[j - |name| - 1];
    LastDotIs(name, |name|);
    LastDotIs("." + name, 1 + |name|);
    assert forall j :: 0 < j <= |name| ==> ("." + name)[j] == name[j - 1];
    LastDotIs(name + ".", |name| + 1);
  }

  ghost predicate NamesFile(p: Payload, x: string) { Get(p, "source_file") == JText(x) }

  /** "x" or "folder/x". */
  ghost predicate NamesSource(p: Payload, x: string) {
    Get(p, "source") == JText(x) || exists folder: string :: Get(p, "source") == JText(folder + "/" + x)
  }

  /** The source is a safe source_file, or else what follows the last slash of source. */
  lemma SourceIs(p: Payload, x: string)
    ensures SourceOf(p) == Some(x) <==>
      (SafeBasename(x) && (NamesFile(p, x) || (NamesSource(p, x) && forall y :: SafeBasename(y) ==> !NamesFile(p, y))))
  {
    var file, source := Get(p, "source_file"), Get(p, "source");
    if SourceOf(p) == Some(x) {
      if !NamesFile(p, x) {
        LastPartIs(source.s);
        assert forall y :: NamesFile(p, y) ==> file == JText(y);
      }
    } else if SafeBasename(x) && NamesSource(p, x) && (forall y :: SafeBasename(y) ==> !NamesFile(p, y)) {
      assert !(file.JText? && SafeBasename(file.s)) by { assert file.JText? ==> NamesFile(p, file.s); }
      assert AfterLast(source.s, '/') == x by { OnlyLastPart(source.s, x); }
    }
  }

  lemma LastPartIs(s: string)
    ensures AfterLast(s, '/') == s || exists folder: string :: s == folder + "/" + AfterLast(s, '/')
  {
    AfterLastIs(s, '/');
    if '/' in s {
      var i :| 0 <= i < |s| && s[i] == '/' && AfterLast(s, '/') == s[i + 1..];
      assert s == s[..i] + "/" + AfterLast(s, '/');
    }
  }

  lemma OnlyLastPart(s: string, x: string)
    requires '/' !in x && (s == x || exists folder: string :: s == folder + "/" + x)
    ensures AfterLast(s, '/') == x
  {
    if s != x {
      var folder: string :| s == folder + "/" + x;
      BehindSlash(folder, x);
    }
  }

  lemma {:induction false} BehindSlash(folder: string, x: string)
    requires '/' !in x
    ensures AfterLast(folder + "/" + x, '/') == x
  {
    var s := folder + "/" + x;
    assert s[|folder|] == '/';
    if folder == "" {
      assert s[1..] == x;
    } else {
      assert s[1..] == folder[1..] + "/" + x;
      BehindSlash(folder[1..], x);
    }
  }

  // ----- Recorded totals -----

  /** The i-th report is the last quality report that names x as its source. */
  predicate LastRecording(reports: seq<Report>, i: nat, dataset: string, x: string) {
    && i < |reports| && Records(reports[i], dataset, x)
    && forall j :: i < j < |reports| ==> !Records(reports[j], dataset, x)
  }

  predicate Records(r: Report, dataset: string, x: string) {
    r.dataset == dataset && IsQuality(r.file) && SourceOf(r.payload) == Some(x)
  }

  /** Sources with a recorded total are those some quality report names. */
  lemma {:induction false} RecordedNames(reports: seq<Report>, dataset: string, x: string)
    ensures x in Recorded(reports, dataset) <==> exists i :: 0 <= i < |reports| && Records(reports[i], dataset, x)
  {
    if reports != [] {
      var n := |reports| - 1;
      RecordedNames(reports[..n], dataset, x);
      OneMoreRecorded(reports, dataset, x);
      assert forall i :: 0 <= i < n ==> reports[..n][i] == reports[i];
    }
  }

  /** The recorded total of a source is that of its last quality report. */
  lemma {:induction false} RecordedIsLast(reports: seq<Report>, dataset: string, x: string, i: nat)
    requires LastRecording(reports, i, dataset, x)
    ensures x in Recorded(reports, dataset) && Recorded(reports, dataset)[x] == TotalsOf(reports[i]).total
  {
    var n := |reports| - 1;
    OneMoreRecorded(reports, dataset, x);
    if i < n { RecordedIsLast(reports[..n], dataset, x, i); }
  }

  lemma OneMoreRecorded(reports: seq<Report>, dataset: string, x: string)
    requires reports != []
    ensures var n := |reports| - 1;
      var now, before := Recorded(reports, dataset), Recorded(reports[..n], dataset);
      if Records(reports[n], dataset, x) then x in now && now[x] == TotalsOf(reports[n]).total
      else (x in now <==> x in before) && (x in now ==> now[x] == before[x])
  {
  }

  // ----- Counts -----

  /** Within a relative 1e-9 or an absolute 1e-12. */
  predicate Near(x: real, y: real) {
    Abs(x - y) <= 0.000000001 * Abs(x) || Abs(x - y) <= 0.000000001 * Abs(y) || Abs(x - y) <= 0.000000000001
  }

  /** The number j states, as an integer or not. */
  ghost predicate Number(j: Json, x: real) { j == JReal(x) || exists n: int :: j == JInt(n) && x == n as real }

  /** Counts that add up, with their rejection rate, of a completed run. */
  ghost predicate CountsAre(p: Payload, key: string, total: nat, accepted: nat, rejected: nat) {
    && Get(p, key) == JInt(total) && Get(p, "accepted_count") == JInt(accepted) && Get(p, "rejected_count") == JInt(rejected)
    && accepted + rejected == total && Get(p, "completed") == JBool(true)
    && exists rate :: Number(Get(p, "rejection_rate"), rate) && Near(rate, if total == 0 then 0.0 else rejected as real / total as real)
  }

  lemma CloseIsNear(x: real, y: real)
    ensures IsClose(x, y) <==> Near(x, y)
  {
    var a, b := Abs(x), Abs(y);
    assert 0.000000001 * Larger(a, b) == Larger(0.000000001 * a, 0.000000001 * b);
  }

  lemma RateIs(rate: Json, total: nat, rejected: nat)
    ensures RateConsistent(rate, total, rejected) <==>
      exists x :: Number(rate, x) && Near(x, if total == 0 then 0.0 else rejected as real / total as real)
  {
    var y := Rate(total, rejected);
    forall x ensures IsClose(x, y) <==> Near(x, y) { CloseIsNear(x, y); }
    if rate.JReal? { assert Number(rate, rate.r); }
    if rate.JInt? { assert Number(rate, rate.n as real); }
  }

  function TotalKey(file: string): string { if file == UNSW_PROFILE then "total_input_rows" else "total_rows" }

  /** The counts the schema calls for, and what the audit takes for the report's total. */
  lemma ConsistentCounts(report: Report)
    ensures CountsConsistent(report) && Get(Counted(report), "completed") == JBool(true) <==>
      exists t: nat, a: nat, r: nat :: CountsAre(Counted(report), TotalKey(report.file), t, a, r)
  {
    var p := Counted(report);
    var t, a, r := Get(p, TotalKey(report.file)), Get(p, "accepted_count"), Get(p, "rejected_count");
    if Count(t) && Count(a) && Count(r) {
      RateIs(Get(p, "rejection_rate"), t.n, r.n);
      assert CountsConsistent(report) && Get(p, "completed") == JBool(true) ==> CountsAre(p, TotalKey(report.file), t.n, a.n, r.n);
    }
    if t: nat, a: nat, r: nat :| CountsAre(p, TotalKey(report.file), t, a, r) {
      RateIs(Get(p, "rejection_rate"), t, r);
    }
  }

  lemma CountedTotals(report: Report, t: nat, a: nat, r: nat)
    requires SchemaApproved(report) == true && CountsAre(Counted(report), TotalKey(report.file), t, a, r) == true
    ensures TotalsOf(report) == Totals(t, a, r)
  {
    if report.file == UNSW_PROFILE {
      UnswNamesInputRows();
    } else {
      OnlyUnswNamesInputRows(report);
    }
  }

  lemma UnswNamesInputRows()
    ensures "total_input_rows" in UNSW_PROFILE_KEYS && !IsQuality(UNSW_PROFILE) && UNSW_PROFILE != CIC_PROFILE
  {
    assert CONTRACTS[0].profile == UNSW_PROFILE;
    ProfilesAreNotQuality(CONTRACTS[0]);
    assert |UNSW_PROFILE| != |CIC_PROFILE|;
  }

  // ----- Verified reports -----

  /** The checks the mordor and synthetic profiles have besides. */
  ghost predicate OwnChecks(report: Report) {
    && (report.file == SYNTHETIC_PROFILE ==>
        && SessionsAddUp(report.payload)
        && GateConsistent(report.payload, "quality_gates", QUALITY_GATE_KEYS)
        && GateConsistent(report.payload, "training_quality_gates", TRAINING_GATE_KEYS))
    && (report.file == MORDOR_PROFILE ==> EventsAddUp(report.payload, EventTotal(report.payload)))
  }

  ghost predicate TotalsMatched(inp: Inputs, c: DatasetContract, report: Report) {
    var recorded := Recorded(inp.reports, c.dataset);
    TotalsMatch(inp, c, report, recorded, SumOver(ExpectedSources(inp, c), recorded))
  }

  lemma VerifiedParts(inp: Inputs, c: DatasetContract, report: Report)
    requires c in CONTRACTS && report.dataset == c.dataset
    ensures ReportVerified(inp, report) <==>
      SchemaApproved(report) && Scanned(inp, report) && OwnChecks(report) && TotalsMatched(inp, c, report)
      && CountsConsistent(report) && Get(Counted(report), "completed") == JBool(true)
  {
    ContractsByName(c);
  }

  /** The i-th input is the last of its stem and this is its report's name. */
  predicate ReportOf(inputs: seq<string>, i: nat, file: string) {
    i < |inputs| && IsLast(inputs, i) && file == Stem(inputs[i]) + "_quality.json"
  }

  lemma QualityReportOf(inputs: seq<string>, file: string)
    ensures file in QualityReports(inputs) <==> exists i :: 0 <= i < |inputs| && ReportOf(inputs, i, file)
    ensures forall i :: 0 <= i < |inputs| && ReportOf(inputs, i, file) ==> file in QualityReports(inputs) && QualityReports(inputs)[file] == inputs[i]
  {
    if file in QualityReports(inputs) {
      var i := KeptIsLast(inputs, file);
      assert ReportOf(inputs, i, file);
    }
    forall i | 0 <= i < |inputs| && ReportOf(inputs, i, file) ensures file in QualityReports(inputs) && QualityReports(inputs)[file] == inputs[i] {
      LastIsKept(inputs, i);
    }
  }

  /** The report of the i-th input states the rows the manifest has for that input. */
  ghost predicate QualityStates(inp: Inputs, c: DatasetContract, report: Report, i: nat, t: nat, a: nat, r: nat) {
    var inputs, rows := ExpectedInputs(inp, c), Rows(inp, c.dataset);
    && ReportOf(inputs, i, report.file) && inputs[i] != "unexpected" && SourceOf(report.payload) == Some(inputs[i])
    && inputs[i] in rows && rows[inputs[i]] == t && CountsAre(report.payload, "total_rows", t, a, r)
  }

  lemma QualityParts(report: Report)
    requires IsQuality(report.file)
    ensures OwnChecks(report) == true && Counted(report) == report.payload && TotalKey(report.file) == "total_rows"
    ensures SchemaApproved(report) <==>
      report.payload.Keys <= if "source_file" in report.payload then CIC_QUALITY_KEYS else QUALITY_KEYS
  {
    QualityIsNoProfile(report.file);
  }

  lemma QualityMatched(inp: Inputs, c: DatasetContract, report: Report, t: nat, a: nat, r: nat)
    requires IsQuality(report.file) && TotalsOf(report) == Totals(t, a, r) && CountsAre(report.payload, "total_rows", t, a, r) == true
    ensures TotalsMatched(inp, c, report) <==> exists i: nat :: QualityStates(inp, c, report, i, t, a, r)
  {
    var inputs := ExpectedInputs(inp, c);
    QualityReportOf(inputs, report.file);
    if TotalsMatched(inp, c, report) {
      var i: nat :| i < |inputs| && ReportOf(inputs, i, report.file);
      assert QualityStates(inp, c, report, i, t, a, r);
    }
  }

  lemma QualityCounts(inp: Inputs, c: DatasetContract, report: Report, t: nat, a: nat, r: nat)
    requires IsQuality(report.file) && SchemaApproved(report) == true && CountsAre(report.payload, "total_rows", t, a, r) == true
    ensures TotalsMatched(inp, c, report) <==> exists i: nat :: QualityStates(inp, c, report, i, t, a, r)
  {
    QualityParts(report);
    CountedTotals(report, t, a, r);
    QualityMatched(inp, c, report, t, a, r);
  }

  lemma QualityStated(inp: Inputs, c: DatasetContract, report: Report)
    requires IsQuality(report.file) && SchemaApproved(report) == true
    ensures (TotalsMatched(inp, c, report) && CountsConsistent(report) && Get(report.payload, "completed") == JBool(true)) <==>
      exists i: nat, t: nat, a: nat, r: nat :: QualityStates(inp, c, report, i, t, a, r)
  {
    QualityParts(report);
    ConsistentCounts(report);
    forall t: nat, a: nat, r: nat | CountsAre(report.payload, "total_rows", t, a, r)
      ensures TotalsMatched(inp, c, report) <==> exists i: nat :: QualityStates(inp, c, report, i, t, a, r)
    {
      QualityCounts(inp, c, report, t, a, r);
    }
    StatesCounts(inp, c, report);
  }

  lemma StatesCounts(inp: Inputs, c: DatasetContract, report: Report)
    ensures forall i: nat, t: nat, a: nat, r: nat :: QualityStates(inp, c, report, i, t, a, r) ==> CountsAre(report.payload, "total_rows", t, a, r)
  {
  }

  /** A quality report is verified exactly when it is the report of an expected input and states that input's rows. */
  lemma QualityVerifiedIff(inp: Inputs, c: DatasetContract, report: Report)
    requires c in CONTRACTS && report.dataset == c.dataset && IsQuality(report.file)
    ensures ReportVerified(inp, report) <==>
      report.payload.Keys <= (if "source_file" in report.payload then CIC_QUALITY_KEYS else QUALITY_KEYS)
      && Scanned(inp, report) && exists i: nat, t: nat, a: nat, r: nat :: QualityStates(inp, c, report, i, t, a, r)
  {
    VerifiedParts(inp, c, report);
    QualityParts(report);
    if SchemaApproved(report) { QualityStated(inp, c, report); }
  }

  lemma QualityIsNoProfile(file: string)
    requires IsQuality(file)
    ensures file != UNSW_PROFILE && file != CIC_PROFILE && file != MORDOR_PROFILE && file != SYNTHETIC_PROFILE
  {
    forall c | c in CONTRACTS ensures file != c.profile { ProfilesAreNotQuality(c); }
    assert CONTRACTS[0].profile == UNSW_PROFILE && CONTRACTS[1].profile == CIC_PROFILE;
    assert CONTRACTS[2].profile == MORDOR_PROFILE && CONTRACTS[3].profile == SYNTHETIC_PROFILE;
  }

  // ----- Verified profiles -----

  ghost predicate Stated(inp: Inputs, c: DatasetContract, report: Report, t: nat, a: nat, r: nat) {
    CountsAre(Counted(report), TotalKey(report.file), t, a, r) && TotalsMatched(inp, c, report)
  }

  lemma VerifiedStated(inp: Inputs, c: DatasetContract, report: Report)
    requires c in CONTRACTS && report.dataset == c.dataset
    ensures ReportVerified(inp, report) <==>
      SchemaApproved(report) && Scanned(inp, report) && OwnChecks(report) && exists t: nat, a: nat, r: nat :: Stated(inp, c, report, t, a, r)
  {
    VerifiedParts(inp, c, report);
    StatedIs(inp, c, report);
  }

  lemma StatedIs(inp: Inputs, c: DatasetContract, report: Report)
    ensures TotalsMatched(inp, c, report) && CountsConsistent(report) && Get(Counted(report), "completed") == JBool(true) <==>
      exists t: nat, a: nat, r: nat :: Stated(inp, c, report, t, a, r)
  {
    ConsistentCounts(report);
    if TotalsMatched(inp, c, report) && CountsConsistent(report) && Get(Counted(report), "completed") == JBool(true) {
      var t: nat, a: nat, r: nat :| CountsAre(Counted(report), TotalKey(report.file), t, a, r);
      assert Stated(inp, c, report, t, a, r);
    }
    if t: nat, a: nat, r: nat :| Stated(inp, c, report, t, a, r) {
      assert CountsAre(Counted(report), TotalKey(report.file), t, a, r);
    }
  }

  /** A profile of another dataset, or one that is no profile at all, is never verified. */
  lemma StrayReportIsRefused(inp: Inputs, c: DatasetContract, report: Report)
    requires c in CONTRACTS && report.dataset == c.dataset && !IsQuality(report.file) && report.file != c.profile
    ensures !ReportVerified(inp, report)
  {
    VerifiedParts(inp, c, report);
    QualityReportOf(ExpectedInputs(inp, c), report.file);
    forall i: nat | i < |ExpectedInputs(inp, c)| ensures !ReportOf(ExpectedInputs(inp, c), i, report.file) {
      QualityNameIsQuality(ExpectedInputs(inp, c)[i]);
    }
  }

  lemma QualityNameIsQuality(x: string)
    ensures IsQuality(QualityName(x))
  {
    assert QualityName(x)[|Stem(x)|..] == QUALITY_SUFFIX;
  }

  lemma ProfileNames()
    ensures UNSW_PROFILE != CIC_PROFILE && UNSW_PROFILE != MORDOR_PROFILE && UNSW_PROFILE != SYNTHETIC_PROFILE
    ensures CIC_PROFILE != MORDOR_PROFILE && CIC_PROFILE != SYNTHETIC_PROFILE && MORDOR_PROFILE != SYNTHETIC_PROFILE
  {
    assert |UNSW_PROFILE| == 22 && |CIC_PROFILE| == 28 && |MORDOR_PROFILE| == 19 && |SYNTHETIC_PROFILE| == 26;
  }

  lemma NoQualityProfile(c: DatasetContract)
    requires c in CONTRACTS
    ensures !IsQuality(c.profile) == true
  {
    ProfilesAreNotQuality(c);
  }

  // ----- UNSW -----

  ghost predicate UnswStates(inp: Inputs, report: Report, t: nat, a: nat, r: nat) {
    var recorded, expected := Recorded(inp.reports, UNSW), ExpectedSources(inp, CONTRACTS[0]);
    && CountsAre(report.payload, "total_input_rows", t, a, r)
    && (forall x :: x in recorded <==> x in expected) && t == SumOver(expected, recorded)
  }

  lemma UnswStatedIs(inp: Inputs, report: Report, t: nat, a: nat, r: nat)
    requires report.file == UNSW_PROFILE && SchemaApproved(report) == true
    ensures Stated(inp, CONTRACTS[0], report, t, a, r) <==> UnswStates(inp, report, t, a, r)
  {
    UnswNamesInputRows();
    if CountsAre(report.payload, "total_input_rows", t, a, r) {
      CountedTotals(report, t, a, r);
      ProfileNames();
      assert (forall x :: x in Recorded(inp.reports, UNSW) <==> x in ExpectedSources(inp, CONTRACTS[0])) <==>
        Recorded(inp.reports, UNSW).Keys == ExpectedSources(inp, CONTRACTS[0]);
    }
  }

  lemma UnswParts(report: Report)
    requires report.file == UNSW_PROFILE
    ensures OwnChecks(report) == true
    ensures SchemaApproved(report) <==> report.payload.Keys == UNSW_PROFILE_KEYS
  {
    ProfileNames();
    UnswNamesInputRows();
  }

  /** The UNSW profile is verified exactly when it adds up the recorded totals of exactly the expected sources. */
  lemma UnswVerifiedIff(inp: Inputs, report: Report)
    requires report.dataset == UNSW && report.file == UNSW_PROFILE
    ensures ReportVerified(inp, report) <==>
      report.payload.Keys == UNSW_PROFILE_KEYS && Scanned(inp, report) && exists t: nat, a: nat, r: nat :: UnswStates(inp, report, t, a, r)
  {
    assert CONTRACTS[0] in CONTRACTS;
    VerifiedStated(inp, CONTRACTS[0], report);
    UnswParts(report);
    if SchemaApproved(report) {
      forall t: nat, a: nat, r: nat ensures Stated(inp, CONTRACTS[0], report, t, a, r) <==> UnswStates(inp, report, t, a, r) {
        UnswStatedIs(inp, report, t, a, r);
      }
    }
  }

  // ----- MORDOR -----

  /** At most 64 event ids with their counts, and an overflow, that make up the total. */
  ghost predicate EventsMakeUp(p: Payload, counts: Payload, overflow: nat, t: nat) {
    && Get(p, "event_id_counts") == JObj(counts) && |counts| <= 64 && (forall k :: k in counts ==> counts[k].JInt? && counts[k].n >= 0)
    && Get(p, "event_id_overflow_count") == JInt(overflow) && EventTotal(p) + overflow == t
  }

  ghost predicate MordorStates(inp: Inputs, report: Report, x: string, t: nat, a: nat, r: nat) {
    var p := report.payload;
    && CountsAre(p, "total_rows", t, a, r) && SourceOf(p) == Some(x) && SoleSource(inp, x, t)
    && exists counts, overflow: nat :: EventsMakeUp(p, counts, overflow, t)
  }

  lemma EventsAre(p: Payload, t: nat)
    requires Get(p, "total_rows") == JInt(t)
    ensures EventsAddUp(p, EventTotal(p)) <==> exists counts, overflow: nat :: EventsMakeUp(p, counts, overflow, t)
  {
    var counts, overflow := Get(p, "event_id_counts"), Get(p, "event_id_overflow_count");
    if EventsAddUp(p, EventTotal(p)) { assert EventsMakeUp(p, counts.fields, overflow.n, t); }
  }

  lemma MordorParts(report: Report)
    requires report.file == MORDOR_PROFILE
    ensures OwnChecks(report) <==> EventsAddUp(report.payload, EventTotal(report.payload))
    ensures Counted(report) == report.payload && TotalKey(report.file) == "total_rows"
    ensures SchemaApproved(report) <==>
      report.payload.Keys == MORDOR_PROFILE_KEYS
      && Get(report.payload, "dataset") == JText("mordor") && Get(report.payload, "classification") == JText("attack_test_only")
  {
    ProfileNames();
    NoQualityProfile(CONTRACTS[2]);
  }

  lemma OneSource(expected: set<string>, x: string)
    ensures expected == {x} <==> x in expected && |expected| == 1
  {
    if x in expected && |expected| == 1 {
      assert |expected - {x}| == 0;
      assert expected - {x} == {};
    }
  }

  ghost predicate SoleSource(inp: Inputs, x: string, t: nat) {
    ExpectedSources(inp, CONTRACTS[2]) == {x} && x in Rows(inp, MORDOR) && Rows(inp, MORDOR)[x] == t
  }

  lemma MordorStatedIs(inp: Inputs, report: Report, t: nat, a: nat, r: nat)
    requires report.file == MORDOR_PROFILE && SchemaApproved(report) == true
    ensures Stated(inp, CONTRACTS[2], report, t, a, r) && OwnChecks(report) <==> exists x :: MordorStates(inp, report, x, t, a, r)
  {
    MordorParts(report);
    if CountsAre(report.payload, "total_rows", t, a, r) {
      CountedTotals(report, t, a, r);
      EventsAre(report.payload, t);
      MordorMatched(inp, report, t, a, r);
      var source := SourceOf(report.payload);
      assert forall x :: MordorStates(inp, report, x, t, a, r) ==> source == Some(x);
      if source.Some? { assert MordorStates(inp, report, source.value, t, a, r) <==> SoleSource(inp, source.value, t) && OwnChecks(report); }
    }
  }

  lemma MordorMatched(inp: Inputs, report: Report, t: nat, a: nat, r: nat)
    requires report.file == MORDOR_PROFILE && TotalsOf(report) == Totals(t, a, r) && a + r == t
    ensures TotalsMatched(inp, CONTRACTS[2], report) <==>
      SourceOf(report.payload).Some? && SoleSource(inp, SourceOf(report.payload).value, t)
  {
    ProfileNames();
    NoQualityProfile(CONTRACTS[2]);
    var source := SourceOf(report.payload);
    if source.Some? { OneSource(ExpectedSources(inp, CONTRACTS[2]), source.value); }
  }

  /** The mordor profile is verified exactly when it states its one source's rows, event by event. */
  lemma MordorVerifiedIff(inp: Inputs, report: Report)
    requires report.dataset == MORDOR && report.file == MORDOR_PROFILE
    ensures ReportVerified(inp, report) <==>
      report.payload.Keys == MORDOR_PROFILE_KEYS && Get(report.payload, "dataset") == JText("mordor")
      && Get(report.payload, "classification") == JText("attack_test_only") && Scanned(inp, report)
      && exists x, t: nat, a: nat, r: nat :: MordorStates(inp, report, x, t, a, r)
  {
    assert CONTRACTS[2] in CONTRACTS;
    VerifiedStated(inp, CONTRACTS[2], report);
    MordorParts(report);
    if SchemaApproved(report) { MordorStatements(inp, report); }
  }

  lemma MordorStatements(inp: Inputs, report: Report)
    requires report.file == MORDOR_PROFILE && SchemaApproved(report) == true
    ensures (OwnChecks(report) && exists t: nat, a: nat, r: nat :: Stated(inp, CONTRACTS[2], report, t, a, r)) <==>
      exists x, t: nat, a: nat, r: nat :: MordorStates(inp, report, x, t, a, r)
  {
    if t: nat, a: nat, r: nat :| OwnChecks(report) && Stated(inp, CONTRACTS[2], report, t, a, r) {
      MordorStatedIs(inp, report, t, a, r);
    }
    if x, t: nat, a: nat, r: nat :| MordorStates(inp, report, x, t, a, r) {
      MordorStatedIs(inp, report, t, a, r);
    }
  }
}
