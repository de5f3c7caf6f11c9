/** Reports with exactly the keys the audit approves, all rows accepted, and the proof that it approves them. */
module GatePayloads {
  import opened Text
  import opened JsonValue
  import opened ContentScan
  import opened AuditReports
  import opened ReportKeys
  import opened ReadinessGate
  import opened RowConservation

  // `P(x) == true` in a contract hands the fact on unopened, which keeps the caller's proof small.

  const SOURCE := "a.tsv"
  const HIDDEN := "a.csv"
  const QUALITY := "a_quality.json"

  // ----- Payloads -----

  /** Exactly these keys, with the given values and null elsewhere. */
  function Fill(keys: set<string>, given: Payload): (p: Payload)
    ensures p.Keys == keys
    ensures forall k :: k in keys && k in given ==> Get(p, k) == given[k]
  {
    map k | k in keys :: if k in given then given[k] else JNull
  }

  const COUNT_KEYS := {"completed", "total_rows", "accepted_count", "rejected_count", "rejection_rate"}

  function Counts(rows: nat): (p: Payload)
    ensures p.Keys == COUNT_KEYS
  {
    map["completed" := JBool(true), "total_rows" := JInt(rows), "accepted_count" := JInt(rows),
        "rejected_count" := JInt(0), "rejection_rate" := JReal(0.0)]
  }

  /** A report or an entry of a profile about the one source. */
  function SourceEntry(keys: set<string>, rows: nat): (p: Payload)
    ensures p.Keys == keys
  {
    Fill(keys, Counts(rows) + map["source_file" := JText(SOURCE)])
  }

  const QUALITY_FILLED := COUNT_KEYS + {"source_file"}

  function Gate(sections: set<string>, passed: bool): Json {
    JObj(Fill(sections, map["results" := JObj(map["session_count" := JBool(passed)]), "passed" := JBool(passed)]))
  }

  function UnswPayload(rows: nat): Payload { Fill(UNSW_PROFILE_KEYS, Counts(rows) + map["total_input_rows" := JInt(rows)]) }

  function CicGiven(rows: nat): Payload {
    map["files" := JList([JObj(SourceEntry(CIC_FILE_PROFILE_KEYS, rows))]),
        "combined" := JObj(Fill(CIC_COMBINED_PROFILE_KEYS, Counts(rows))),
        "timestamp_semantics" := JText(UNKNOWN_TIMEZONE)]
  }

  function CicPayload(rows: nat): Payload { Fill(CIC_PROFILE_KEYS, CicGiven(rows)) }

  function MordorExtra(rows: nat): Payload {
    map["source_file" := JText(SOURCE), "dataset" := JText(MORDOR), "classification" := JText("attack_test_only"),
        "event_id_counts" := JObj(map[]), "event_id_overflow_count" := JInt(rows)]
  }

  function MordorPayload(rows: nat): Payload { Fill(MORDOR_PROFILE_KEYS, Counts(rows) + MordorExtra(rows)) }

  function SyntheticExtra(rows: nat): Payload {
    map["classification" := JText("development_pipeline_fixture"), "session_count" := JInt(1),
        "sessions" := JList([JObj(SourceEntry(SYNTHETIC_SESSION_KEYS, rows))]),
        "quality_gates" := Gate(QUALITY_GATE_KEYS, true), "training_quality_gates" := Gate(TRAINING_GATE_KEYS, false)]
  }

  function SyntheticPayload(rows: nat): Payload { Fill(SYNTHETIC_PROFILE_KEYS, Counts(rows) + SyntheticExtra(rows)) }

  function PayloadOf(i: nat, rows: nat): Payload
    requires i < 4
  {
    if i == 0 then UnswPayload(rows) else if i == 1 then CicPayload(rows)
    else if i == 2 then MordorPayload(rows) else SyntheticPayload(rows)
  }

  function QualityOf(i: nat, rows: nat): Report
    requires i < 4
  {
    Report(CONTRACTS[i].dataset, QUALITY, SourceEntry(QUALITY_FILLED, rows))
  }

  function ProfileOf(i: nat, rows: nat): Report
    requires i < 4
  {
    Report(CONTRACTS[i].dataset, CONTRACTS[i].profile, PayloadOf(i, rows))
  }

  lemma TwoFormats()
    ensures SOURCE != HIDDEN && Stem(SOURCE) == "a" == Stem(HIDDEN)
    ensures QualityName(SOURCE) == QUALITY == QualityName(HIDDEN) && IsQuality(QUALITY)
    ensures SOURCE !in CONTRACTS[0].excluded && HIDDEN !in CONTRACTS[0].excluded
  {
    assert SOURCE[2] != HIDDEN[2];
    assert LastDot(SOURCE, 5) == 1 && LastDot(HIDDEN, 5) == 1;
    assert "a" + QUALITY_SUFFIX == QUALITY && QUALITY[1..] == QUALITY_SUFFIX;
    assert |SOURCE| != |"NUSW-NB15_features.csv"|;
  }

  // ----- Approval -----

  /** The five counting fields, all rows accepted. */
  predicate CountFields(p: Payload, rows: nat) {
    && Get(p, "completed") == JBool(true) && Get(p, "total_rows") == JInt(rows) && Get(p, "accepted_count") == JInt(rows)
    && Get(p, "rejected_count") == JInt(0) && Get(p, "rejection_rate") == JReal(0.0)
  }

  lemma CountsAreCounted(rows: nat)
    ensures CountFields(Counts(rows), rows) == true
  {
  }

  lemma CountsCarry(keys: set<string>, extra: Payload, rows: nat)
    requires COUNT_KEYS <= keys && COUNT_KEYS !! extra.Keys
    ensures CountFields(Fill(keys, Counts(rows) + extra), rows) == true
  {
    CountsAreCounted(rows);
    var p, given := Fill(keys, Counts(rows) + extra), Counts(rows) + extra;
    forall k | k in COUNT_KEYS ensures Get(p, k) == Get(Counts(rows), k) {
      assert k in given && given[k] == Counts(rows)[k];
    }
  }

  lemma ExtraCarries(keys: set<string>, extra: Payload, rows: nat, k: string)
    requires k in keys && k in extra
    ensures Get(Fill(keys, Counts(rows) + extra), k) == extra[k]
  {
  }

  lemma NoneRejected(rows: nat)
    ensures RateConsistent(JReal(0.0), rows, 0) == true
  {
    assert Rate(rows, 0) == 0.0;
  }

  /** Counting fields make the counts consistent. */
  lemma CountsSuffice(r: Report, rows: nat)
    requires r.file != UNSW_PROFILE && CountFields(Counted(r), rows) && "total_input_rows" !in Counted(r)
    ensures CountsConsistent(r) == true && TotalsOf(r) == Totals(rows, rows, 0)
  {
    NoneRejected(rows);
  }

  lemma SourceSuffices(p: Payload)
    requires Get(p, "source_file") == JText(SOURCE)
    ensures SourceOf(p) == Some(SOURCE)
  {
    assert SafeBasename(SOURCE);
  }

  lemma SourceIsNoCount()
    ensures "source_file" !in COUNT_KEYS && "total_input_rows" !in COUNT_KEYS
  {
  }

  lemma EntryFields(keys: set<string>, rows: nat)
    requires COUNT_KEYS <= keys && "source_file" in keys
    ensures CountFields(SourceEntry(keys, rows), rows) == true && Get(SourceEntry(keys, rows), "source_file") == JText(SOURCE)
  {
    SourceIsNoCount();
    var extra: Payload := map["source_file" := JText(SOURCE)];
    assert extra.Keys == {"source_file"};
    CountsCarry(keys, extra, rows);
    ExtraCarries(keys, extra, rows, "source_file");
  }

  const TALLY_KEYS := {"total_rows", "accepted_count", "rejected_count"}

  predicate Tallied(p: Payload, rows: nat) {
    Get(p, "total_rows") == JInt(rows) && Get(p, "accepted_count") == JInt(rows) && Get(p, "rejected_count") == JInt(0)
  }

  lemma EntryTally(keys: set<string>, rows: nat)
    requires TALLY_KEYS <= keys && "source_file" in keys
    ensures Tallied(SourceEntry(keys, rows), rows) == true && Get(SourceEntry(keys, rows), "source_file") == JText(SOURCE)
  {
    SourceIsNoCount();
    CountsAreCounted(rows);
    var given := Counts(rows) + map["source_file" := JText(SOURCE)];
    forall k | k in TALLY_KEYS ensures Get(SourceEntry(keys, rows), k) == Get(Counts(rows), k) {
      assert k in COUNT_KEYS && given[k] == Counts(rows)[k];
    }
  }

  lemma SessionTally(rows: nat)
    ensures Tallied(SourceEntry(SYNTHETIC_SESSION_KEYS, rows), rows) == true
    ensures Get(SourceEntry(SYNTHETIC_SESSION_KEYS, rows), "source_file") == JText(SOURCE)
  {
    EntryTally(SYNTHETIC_SESSION_KEYS, rows);
  }

  lemma FileTally(rows: nat)
    ensures Tallied(SourceEntry(CIC_FILE_PROFILE_KEYS, rows), rows) == true
    ensures Get(SourceEntry(CIC_FILE_PROFILE_KEYS, rows), "source_file") == JText(SOURCE)
  {
    EntryTally(CIC_FILE_PROFILE_KEYS, rows);
  }

  lemma QualityKeys()
    ensures QUALITY_FILLED <= CIC_QUALITY_KEYS && "total_input_rows" !in QUALITY_FILLED
  {
  }

  lemma QualityApproved(i: nat, rows: nat, events: int)
    requires i < 4
    ensures Approved(QualityOf(i, rows), events, true) == true
    ensures TotalsOf(QualityOf(i, rows)) == Totals(rows, rows, 0) && SourceOf(QualityOf(i, rows).payload) == Some(SOURCE)
  {
    TwoFormats();
    QualityKeys();
    EntryFields(QUALITY_FILLED, rows);
    QualityIsNoProfile();
    CountsSuffice(QualityOf(i, rows), rows);
    SourceSuffices(QualityOf(i, rows).payload);
  }

  lemma QualityIsNoProfile()
    ensures QUALITY !in {UNSW_PROFILE, CIC_PROFILE, MORDOR_PROFILE, SYNTHETIC_PROFILE}
  {
    assert |QUALITY| == 14 && |UNSW_PROFILE| == 22 && |CIC_PROFILE| == 28 && |MORDOR_PROFILE| == 19 && |SYNTHETIC_PROFILE| == 26;
  }

  lemma UnswKeys()
    ensures COUNT_KEYS - {"total_rows"} <= UNSW_PROFILE_KEYS && "total_input_rows" in UNSW_PROFILE_KEYS
    ensures "total_input_rows" !in COUNT_KEYS
  {
  }

  lemma UnswFilled(rows: nat)
    ensures UnswPayload(rows).Keys == UNSW_PROFILE_KEYS && Get(UnswPayload(rows), "total_input_rows") == JInt(rows)
    ensures forall k :: k in COUNT_KEYS - {"total_rows"} ==> Get(UnswPayload(rows), k) == Get(Counts(rows), k)
  {
    UnswKeys();
    var given := Counts(rows) + map["total_input_rows" := JInt(rows)];
    forall k | k in COUNT_KEYS - {"total_rows"} ensures Get(UnswPayload(rows), k) == Get(Counts(rows), k) {
      assert k in given && given[k] == Counts(rows)[k];
    }
  }

  lemma UnswSuffices(p: Payload, rows: nat, events: int)
    requires p.Keys == UNSW_PROFILE_KEYS && "total_input_rows" in p && Get(p, "total_input_rows") == JInt(rows)
    requires Get(p, "completed") == JBool(true) && Get(p, "accepted_count") == JInt(rows)
    requires Get(p, "rejected_count") == JInt(0) && Get(p, "rejection_rate") == JReal(0.0)
    ensures Approved(Report(UNSW, UNSW_PROFILE, p), events, true) == true
    ensures TotalsOf(Report(UNSW, UNSW_PROFILE, p)) == Totals(rows, rows, 0)
  {
    ProfilesAreNotQuality(CONTRACTS[0]);
    NoneRejected(rows);
  }

  lemma UnswApproved(rows: nat, events: int)
    ensures Approved(ProfileOf(0, rows), events, true) == true && TotalsOf(ProfileOf(0, rows)) == Totals(rows, rows, 0)
  {
    UnswKeys();
    UnswFilled(rows);
    CountsAreCounted(rows);
    UnswSuffices(UnswPayload(rows), rows, events);
  }

  lemma OneItem(p: Payload)
    ensures Items(JList([JObj(p)])) == Some([p])
  {
    assert Items(JList([JObj(p)])).value == [p];
  }

  lemma CombinedFields(rows: nat)
    ensures CountFields(Fill(CIC_COMBINED_PROFILE_KEYS, Counts(rows)), rows) == true
  {
    CountsCarry(CIC_COMBINED_PROFILE_KEYS, map[], rows);
    assert Counts(rows) + map[] == Counts(rows);
  }

  lemma CicFields(rows: nat)
    ensures var p := CicPayload(rows);
      && Get(p, "files") == JList([JObj(SourceEntry(CIC_FILE_PROFILE_KEYS, rows))])
      && Get(p, "combined") == JObj(Fill(CIC_COMBINED_PROFILE_KEYS, Counts(rows)))
      && Get(p, "timestamp_semantics") == JText(UNKNOWN_TIMEZONE)
  {
  }

  lemma CicSuffices(r: Report, entry: Payload, combined: Payload, rows: nat, events: int)
    requires r.file == CIC_PROFILE && r.payload.Keys == CIC_PROFILE_KEYS
    requires Get(r.payload, "files") == JList([JObj(entry)]) && entry.Keys == CIC_FILE_PROFILE_KEYS
    requires Get(r.payload, "combined") == JObj(combined) && combined.Keys == CIC_COMBINED_PROFILE_KEYS
    requires CountFields(combined, rows) == true
    ensures Approved(r, events, true) == true && TotalsOf(r) == Totals(rows, rows, 0)
  {
    ProfilesAreNotQuality(CONTRACTS[1]);
    OneItem(entry);
    InputRowsInNoCombined();
    CountsSuffice(r, rows);
  }

  lemma CicApproved(rows: nat, events: int)
    ensures Approved(ProfileOf(1, rows), events, true) == true && TotalsOf(ProfileOf(1, rows)) == Totals(rows, rows, 0)
  {
    CombinedFields(rows);
    CicFields(rows);
    CicSuffices(ProfileOf(1, rows), SourceEntry(CIC_FILE_PROFILE_KEYS, rows), Fill(CIC_COMBINED_PROFILE_KEYS, Counts(rows)), rows, events);
  }

  lemma MordorKeys(rows: nat)
    ensures COUNT_KEYS <= MORDOR_PROFILE_KEYS && MordorExtra(rows).Keys <= MORDOR_PROFILE_KEYS
    ensures COUNT_KEYS !! MordorExtra(rows).Keys
  {
  }

  /** The fields of a Mordor profile beyond its counts. */
  predicate MordorFields(p: Payload, rows: nat) {
    && Get(p, "source_file") == JText(SOURCE) && Get(p, "dataset") == JText(MORDOR)
    && Get(p, "classification") == JText("attack_test_only")
    && Get(p, "event_id_counts") == JObj(map[]) && Get(p, "event_id_overflow_count") == JInt(rows)
  }

  lemma MordorFilled(rows: nat)
    ensures MordorFields(MordorPayload(rows), rows) == true && CountFields(MordorPayload(rows), rows) == true
  {
    MordorKeys(rows);
    var extra := MordorExtra(rows);
    CountsCarry(MORDOR_PROFILE_KEYS, extra, rows);
    assert MordorFields(extra, rows);
    forall k | k in extra ensures Get(MordorPayload(rows), k) == extra[k] { ExtraCarries(MORDOR_PROFILE_KEYS, extra, rows, k); }
  }

  lemma MordorSuffices(r: Report, rows: nat)
    requires r.file == MORDOR_PROFILE && r.payload.Keys == MORDOR_PROFILE_KEYS
    requires MordorFields(r.payload, rows) && CountFields(r.payload, rows) == true
    ensures Approved(r, 0, true) == true && EventTotal(r.payload) == 0
    ensures TotalsOf(r) == Totals(rows, rows, 0) && SourceOf(r.payload) == Some(SOURCE)
  {
    ProfilesAreNotQuality(CONTRACTS[2]);
    InputRowsInNoOtherProfile();
    CountsSuffice(r, rows);
    SourceSuffices(r.payload);
    assert Amounts(JObj(map[])) == map[];
  }

  lemma MordorApproved(rows: nat)
    ensures Approved(ProfileOf(2, rows), 0, true) == true && EventTotal(ProfileOf(2, rows).payload) == 0
    ensures TotalsOf(ProfileOf(2, rows)) == Totals(rows, rows, 0) && SourceOf(ProfileOf(2, rows).payload) == Some(SOURCE)
  {
    MordorFilled(rows);
    MordorSuffices(ProfileOf(2, rows), rows);
  }

  lemma SyntheticKeys(rows: nat)
    ensures COUNT_KEYS <= SYNTHETIC_PROFILE_KEYS && SyntheticExtra(rows).Keys <= SYNTHETIC_PROFILE_KEYS
  {
  }

  lemma SyntheticDisjoint(rows: nat)
    ensures COUNT_KEYS !! SyntheticExtra(rows).Keys
  {
  }

  /** The fields of a synthetic profile beyond its counts. */
  predicate SyntheticFields(p: Payload, entry: Payload) {
    && Get(p, "classification") == JText("development_pipeline_fixture") && Get(p, "session_count") == JInt(1)
    && Get(p, "sessions") == JList([JObj(entry)])
    && Get(p, "quality_gates") == Gate(QUALITY_GATE_KEYS, true)
    && Get(p, "training_quality_gates") == Gate(TRAINING_GATE_KEYS, false)
  }

  lemma SyntheticCounted(rows: nat)
    ensures CountFields(SyntheticPayload(rows), rows) == true
  {
    SyntheticKeys(rows);
    SyntheticDisjoint(rows);
    CountsCarry(SYNTHETIC_PROFILE_KEYS, SyntheticExtra(rows), rows);
  }

  lemma ExtraIsSynthetic(rows: nat)
    ensures SyntheticFields(SyntheticExtra(rows), SourceEntry(SYNTHETIC_SESSION_KEYS, rows)) == true
  {
  }

  lemma SyntheticFieldsCarry(p: Payload, extra: Payload, entry: Payload)
    requires SyntheticFields(extra, entry) && forall k :: k in extra ==> Get(p, k) == extra[k]
    ensures SyntheticFields(p, entry) == true
  {
  }

  lemma SyntheticFilled(rows: nat)
    ensures SyntheticFields(SyntheticPayload(rows), SourceEntry(SYNTHETIC_SESSION_KEYS, rows)) == true
  {
    SyntheticKeys(rows);
    ExtraIsSynthetic(rows);
    var extra := SyntheticExtra(rows);
    forall k | k in extra ensures Get(SyntheticPayload(rows), k) == extra[k] { ExtraCarries(SYNTHETIC_PROFILE_KEYS, extra, rows, k); }
    SyntheticFieldsCarry(SyntheticPayload(rows), extra, SourceEntry(SYNTHETIC_SESSION_KEYS, rows));
  }

  lemma SessionsListed(rows: nat)
    ensures Get(SyntheticPayload(rows), "sessions") == JList([JObj(SourceEntry(SYNTHETIC_SESSION_KEYS, rows))])
  {
    SyntheticFilled(rows);
  }

  lemma OneColumn(p: Payload, q: Payload, key: string, n: nat)
    requires Get(p, key) == JInt(n) == Get(q, key)
    ensures ColumnAddsUp(q, [p], key) == true
  {
    var column := [JInt(n)];
    assert Column([p], key) == column;
    assert column[1..] == [] && Total(column) == n + Total(column[1..]);
  }

  lemma SessionsHold(p: Payload, entry: Payload, rows: nat)
    requires SyntheticFields(p, entry) == true && CountFields(p, rows) == true && Tallied(entry, rows) == true
    ensures SessionsAddUp(p) == true
  {
    OneItem(entry);
    OneColumn(entry, p, "total_rows", rows);
    OneColumn(entry, p, "accepted_count", rows);
    OneColumn(entry, p, "rejected_count", 0);
  }

  lemma GateHolds(p: Payload, key: string, sections: set<string>, passed: bool)
    requires Get(p, key) == Gate(sections, passed) && "results" in sections && "passed" in sections
    ensures GateConsistent(p, key, sections) == true
  {
    var results := Get(Gate(sections, passed).fields, "results");
    assert results == JObj(map["session_count" := JBool(passed)]);
    assert results.fields["session_count"] == JBool(passed);
  }

  lemma SyntheticSuffices(p: Payload, entry: Payload, rows: nat, events: int)
    requires p.Keys == SYNTHETIC_PROFILE_KEYS && entry.Keys == SYNTHETIC_SESSION_KEYS
    requires SyntheticFields(p, entry) == true && CountFields(p, rows) == true && Tallied(entry, rows) == true
    ensures Approved(Report(SYNTHETIC, SYNTHETIC_PROFILE, p), events, true) == true
    ensures TotalsOf(Report(SYNTHETIC, SYNTHETIC_PROFILE, p)) == Totals(rows, rows, 0)
  {
    ProfilesAreNotQuality(CONTRACTS[3]);
    InputRowsInNoOtherProfile();
    CountsSuffice(Report(SYNTHETIC, SYNTHETIC_PROFILE, p), rows);
    SessionsHold(p, entry, rows);
    OneItem(entry);
    GateHolds(p, "quality_gates", QUALITY_GATE_KEYS, true);
    GateHolds(p, "training_quality_gates", TRAINING_GATE_KEYS, false);
  }

  lemma SyntheticPayloadApproved(rows: nat, events: int)
    ensures Approved(Report(SYNTHETIC, SYNTHETIC_PROFILE, SyntheticPayload(rows)), events, true) == true
    ensures TotalsOf(Report(SYNTHETIC, SYNTHETIC_PROFILE, SyntheticPayload(rows))) == Totals(rows, rows, 0)
  {
    SyntheticFilled(rows);
    SyntheticCounted(rows);
    SessionTally(rows);
    SyntheticSuffices(SyntheticPayload(rows), SourceEntry(SYNTHETIC_SESSION_KEYS, rows), rows, events);
  }

  lemma SyntheticApproved(rows: nat, events: int)
    ensures Approved(ProfileOf(3, rows), events, true) == true && TotalsOf(ProfileOf(3, rows)) == Totals(rows, rows, 0)
  {
    SyntheticPayloadApproved(rows, events);
  }

  // ----- Contents -----

  lemma SourceIsMild() ensures MildText(SOURCE) { assert Lacks(SOURCE, 'd'); }
  lemma MordorIsMild() ensures MildText(MORDOR) { assert Lacks(MORDOR, 'a'); }
  lemma AttackTestOnly() ensures MildText("attack_test_only") { assert Lacks("attack_test_only", 'd'); }
  lemma Fixture() ensures MildText("development_pipeline_fixture") { assert Lacks("development_pipeline_fixture", 'a'); }
  lemma TimezoneIsQuiet() ensures Quiet(UNKNOWN_TIMEZONE) && '.' !in UNKNOWN_TIMEZONE { }
  lemma TimezoneHasNoSecret() ensures NoSecret(UNKNOWN_TIMEZONE) { }
  lemma TimezoneLacks() ensures Lacks(UNKNOWN_TIMEZONE, 'd') { }
  lemma Timezone() ensures MildText(UNKNOWN_TIMEZONE) == true { TimezoneIsQuiet(); TimezoneHasNoSecret(); TimezoneLacks(); }

  ghost predicate ValuesSanitized(u: Unicode, p: Payload) { forall k :: k in p ==> Sanitized(u, p[k]) }

  lemma FillIsSanitized(u: Unicode, keys: set<string>, given: Payload)
    requires ValidUnicode(u) == true && AllMild(keys) == true && ValuesSanitized(u, given) == true
    ensures Sanitized(u, JObj(Fill(keys, given))) == true
  {
    var p := Fill(keys, given);
    forall k | k in p ensures KeyAllowed(u, k) && Sanitized(u, p[k]) { MildKeyIsAllowed(u, k); }
  }

  lemma MergeIsSanitized(u: Unicode, p: Payload, q: Payload)
    requires ValuesSanitized(u, p) == true && ValuesSanitized(u, q) == true
    ensures ValuesSanitized(u, p + q) == true
  {
  }

  lemma CountsAreSanitized(u: Unicode, rows: nat)
    ensures ValuesSanitized(u, Counts(rows)) == true
  {
  }

  lemma OneValue(u: Unicode, k: string, v: Json)
    requires Sanitized(u, v) == true
    ensures ValuesSanitized(u, map[k := v]) == true
  {
  }

  lemma FiveValues(u: Unicode, a: string, x: Json, b: string, y: Json, c: string, z: Json, d: string, v: Json, e: string, w: Json)
    requires Sanitized(u, x) == true && Sanitized(u, y) == true && Sanitized(u, z) == true
    requires Sanitized(u, v) == true && Sanitized(u, w) == true
    ensures ValuesSanitized(u, map[a := x, b := y, c := z, d := v, e := w]) == true
    ensures ValuesSanitized(u, map[a := x, b := y, c := z]) == true && ValuesSanitized(u, map[a := x, b := y]) == true
  {
  }

  lemma EntryIsSanitized(u: Unicode, keys: set<string>, rows: nat)
    requires ValidUnicode(u) == true && AllMild(keys) == true
    ensures Sanitized(u, JObj(SourceEntry(keys, rows))) == true
  {
    SourceIsMild();
    MildIsNotSensitive(u, SOURCE);
    CountsAreSanitized(u, rows);
    OneValue(u, "source_file", JText(SOURCE));
    MergeIsSanitized(u, Counts(rows), map["source_file" := JText(SOURCE)]);
    FillIsSanitized(u, keys, Counts(rows) + map["source_file" := JText(SOURCE)]);
  }

  lemma ListOfOne(u: Unicode, j: Json)
    requires Sanitized(u, j) == true
    ensures Sanitized(u, JList([j])) == true
  {
  }

  lemma QualityIsSanitized(u: Unicode, i: nat, rows: nat)
    requires ValidUnicode(u) == true && i < 4
    ensures Sanitized(u, JObj(QualityOf(i, rows).payload)) == true
  {
    assert AllMild(QUALITY_FILLED) by {
      SourceFile(); Completed(); TotalRows(); AcceptedCount(); RejectedCount(); RejectionRate();
    }
    EntryIsSanitized(u, QUALITY_FILLED, rows);
  }

  lemma UnswIsSanitized(u: Unicode, rows: nat)
    requires ValidUnicode(u) == true
    ensures Sanitized(u, JObj(UnswPayload(rows))) == true
  {
    UnswKeysAreMild();
    CountsAreSanitized(u, rows);
    OneValue(u, "total_input_rows", JInt(rows));
    MergeIsSanitized(u, Counts(rows), map["total_input_rows" := JInt(rows)]);
    FillIsSanitized(u, UNSW_PROFILE_KEYS, Counts(rows) + map["total_input_rows" := JInt(rows)]);
  }

  lemma CicPartsAreSanitized(u: Unicode, rows: nat)
    requires ValidUnicode(u) == true
    ensures Sanitized(u, JList([JObj(SourceEntry(CIC_FILE_PROFILE_KEYS, rows))])) == true
    ensures Sanitized(u, JObj(Fill(CIC_COMBINED_PROFILE_KEYS, Counts(rows)))) == true
    ensures Sanitized(u, JText(UNKNOWN_TIMEZONE)) == true
  {
    CicFileKeysAreMild();
    EntryIsSanitized(u, CIC_FILE_PROFILE_KEYS, rows);
    ListOfOne(u, JObj(SourceEntry(CIC_FILE_PROFILE_KEYS, rows)));
    CountsAreSanitized(u, rows);
    FillIsSanitized(u, CIC_COMBINED_PROFILE_KEYS, Counts(rows));
    Timezone();
    MildIsNotSensitive(u, UNKNOWN_TIMEZONE);
  }

  lemma CicIsSanitized(u: Unicode, rows: nat)
    requires ValidUnicode(u) == true
    ensures Sanitized(u, JObj(CicPayload(rows))) == true
  {
    CicPartsAreSanitized(u, rows);
    CicKeysAreMild();
    FiveValues(u, "files", JList([JObj(SourceEntry(CIC_FILE_PROFILE_KEYS, rows))]),
      "combined", JObj(Fill(CIC_COMBINED_PROFILE_KEYS, Counts(rows))), "timestamp_semantics", JText(UNKNOWN_TIMEZONE), "", JNull, "", JNull);
    FillIsSanitized(u, CIC_PROFILE_KEYS, CicGiven(rows));
  }

  lemma MordorIsSanitized(u: Unicode, rows: nat)
    requires ValidUnicode(u) == true
    ensures Sanitized(u, JObj(MordorPayload(rows))) == true
  {
    SourceIsMild(); MordorIsMild(); AttackTestOnly();
    MildIsNotSensitive(u, SOURCE);
    MildIsNotSensitive(u, MORDOR);
    MildIsNotSensitive(u, "attack_test_only");
    FiveValues(u, "source_file", JText(SOURCE), "dataset", JText(MORDOR), "classification", JText("attack_test_only"),
      "event_id_counts", JObj(map[]), "event_id_overflow_count", JInt(rows));
    CountsAreSanitized(u, rows);
    MergeIsSanitized(u, Counts(rows), MordorExtra(rows));
    MordorKeysAreMild();
    FillIsSanitized(u, MORDOR_PROFILE_KEYS, Counts(rows) + MordorExtra(rows));
  }

  lemma SubsetIsMild(some: set<string>, all: set<string>)
    requires some <= all && AllMild(all) == true
    ensures AllMild(some) == true
  {
  }

  lemma OneField(u: Unicode, k: string, v: Json)
    requires KeyAllowed(u, k) == true && Sanitized(u, v) == true
    ensures Sanitized(u, JObj(map[k := v])) == true
  {
  }

  lemma GateIsSanitized(u: Unicode, sections: set<string>, passed: bool)
    requires ValidUnicode(u) == true && sections <= TRAINING_GATE_KEYS
    ensures Sanitized(u, Gate(sections, passed)) == true
  {
    GateKeysAreMild();
    SubsetIsMild(sections, TRAINING_GATE_KEYS);
    SessionCount();
    MildKeyIsAllowed(u, "session_count");
    var results := JObj(map["session_count" := JBool(passed)]);
    OneField(u, "session_count", JBool(passed));
    FiveValues(u, "results", results, "passed", JBool(passed), "", JNull, "", JNull, "", JNull);
    FillIsSanitized(u, sections, map["results" := results, "passed" := JBool(passed)]);
  }

  lemma SyntheticIsSanitized(u: Unicode, rows: nat)
    requires ValidUnicode(u) == true
    ensures Sanitized(u, JObj(SyntheticPayload(rows))) == true
  {
    SessionKeysAreMild();
    EntryIsSanitized(u, SYNTHETIC_SESSION_KEYS, rows);
    ListOfOne(u, JObj(SourceEntry(SYNTHETIC_SESSION_KEYS, rows)));
    GateIsSanitized(u, QUALITY_GATE_KEYS, true);
    GateIsSanitized(u, TRAINING_GATE_KEYS, false);
    Fixture();
    MildIsNotSensitive(u, "development_pipeline_fixture");
    FiveValues(u, "classification", JText("development_pipeline_fixture"), "session_count", JInt(1),
      "sessions", JList([JObj(SourceEntry(SYNTHETIC_SESSION_KEYS, rows))]),
      "quality_gates", Gate(QUALITY_GATE_KEYS, true), "training_quality_gates", Gate(TRAINING_GATE_KEYS, false));
    CountsAreSanitized(u, rows);
    MergeIsSanitized(u, Counts(rows), SyntheticExtra(rows));
    SyntheticKeysAreMild();
    FillIsSanitized(u, SYNTHETIC_PROFILE_KEYS, Counts(rows) + SyntheticExtra(rows));
  }
}
