/** One audited report: its totals, its source, and the checks on its keys, counts and gates. */
module AuditReports {
  import opened Text
  import opened JsonValue
  import opened Numerals

  type Payload = map<string, Json>

  datatype Report = Report(dataset: string, file: string, payload: Payload)

  const UNSW := "unsw_nb15"
  const CIC := "cse_cic_ids2018"
  const MORDOR := "mordor"
  const SYNTHETIC := "synthetic_lab"
  const UNSW_PROFILE := "unsw_nb15_profile.json"
  const CIC_PROFILE := "cse_cic_ids2018_profile.json"
  const MORDOR_PROFILE := "mordor_profile.json"
  const SYNTHETIC_PROFILE := "synthetic_lab_profile.json"
  const EVENT_ID_CATEGORY_LIMIT := 64

  const QUALITY_SUFFIX := "_quality.json"

  predicate IsQuality(file: string) {
    |file| >= |QUALITY_SUFFIX| && file[|file| - |QUALITY_SUFFIX|..] == QUALITY_SUFFIX
  }

  // ----- Sums -----

  /** A sum over a set of names; a name without an entry adds nothing. */
  ghost function SumOver(names: set<string>, rows: map<string, int>): int {
    if names == {} then 0 else var x :| x in names; Entry(rows, x) + SumOver(names - {x}, rows)
  }

  function Entry(rows: map<string, int>, name: string): int { if name in rows then rows[name] else 0 }

  function SumList(names: seq<string>, rows: map<string, int>): int {
    if names == [] then 0 else Entry(rows, names[0]) + SumList(names[1..], rows)
  }

  /** The sum may be taken in any order. */
  lemma {:induction false} SumWithout(names: set<string>, rows: map<string, int>, x: string)
    requires x in names
    ensures SumOver(names, rows) == Entry(rows, x) + SumOver(names - {x}, rows)
  {
    var y :| y in names && SumOver(names, rows) == Entry(rows, y) + SumOver(names - {y}, rows);
    if y != x {
      SumWithout(names - {y}, rows, x);
      SumWithout(names - {x}, rows, y);
      assert names - {y} - {x} == names - {x} - {y};
    }
  }

  /** sum() over a set comprehension. */
  method Sum(names: set<string>, rows: map<string, int>) returns (total: int)
    ensures total == SumOver(names, rows)
  {
    total := 0;
    var left := names;
    while left != {}
      invariant total + SumOver(left, rows) == SumOver(names, rows)
      decreases left
    {
      var x :| x in left;
      SumWithout(left, rows, x);
      total := total + Entry(rows, x);
      left := left - {x};
    }
  }

  // ----- One report -----

  predicate Count(j: Json) { j.JInt? && j.n >= 0 }

  /** The part of a report that holds its counts. */
  function Counted(report: Report): Payload {
    if report.file == CIC_PROFILE then
      var combined := Get(report.payload, "combined");
      if combined.JObj? then combined.fields else map[]
    else report.payload
  }

  datatype Totals = Totals(total: int, accepted: int, rejected: int)

  /** _report_totals. */
  function TotalsOf(report: Report): Totals {
    var p := Counted(report);
    var key := if "total_input_rows" in p then "total_input_rows" else "total_rows";
    var t, a, r := Get(p, key), Get(p, "accepted_count"), Get(p, "rejected_count");
    if t.JInt? && a.JInt? && r.JInt? then Totals(t.n, a.n, r.n) else Totals(0, 0, 0)
  }

  predicate SafeBasename(s: string) { s != "" && s != "." && s != ".." && '/' !in s }

  /** _report_source_basename. */
  function SourceOf(payload: Payload): Option<string> {
    var file, source := Get(payload, "source_file"), Get(payload, "source");
    if file.JText? && SafeBasename(file.s) then Some(file.s)
    else if source.JText? && SafeBasename(AfterLast(source.s, '/')) then Some(AfterLast(source.s, '/'))
    else None
  }

  /** A list all of whose items are objects. */
  function Items(j: Json): Option<seq<Payload>> {
    if j.JList? && (forall i :: 0 <= i < |j.items| ==> j.items[i].JObj?)
    then Some(seq(|j.items|, i requires 0 <= i < |j.items| && j.items[i].JObj? => j.items[i].fields)) else None
  }

  function Column(items: seq<Payload>, key: string): seq<Json> {
    seq(|items|, i requires 0 <= i < |items| => Get(items[i], key))
  }

  predicate AllCounts(values: seq<Json>) { forall i :: 0 <= i < |values| ==> Count(values[i]) }

  function Total(values: seq<Json>): int
    requires AllCounts(values)
  {
    if values == [] then 0 else values[0].n + Total(values[1..])
  }

  predicate ColumnAddsUp(payload: Payload, items: seq<Payload>, key: string) {
    AllCounts(Column(items, key)) && Get(payload, key) == JInt(Total(Column(items, key)))
  }

  /** The session checks of _synthetic_profile_errors. */
  predicate SessionsAddUp(payload: Payload) {
    var sessions := Items(Get(payload, "sessions"));
    && sessions.Some? && Get(payload, "session_count") == JInt(|sessions.value|)
    && ColumnAddsUp(payload, sessions.value, "total_rows")
    && ColumnAddsUp(payload, sessions.value, "accepted_count")
    && ColumnAddsUp(payload, sessions.value, "rejected_count")
  }

  /** The integer entries of an object. */
  function Amounts(j: Json): map<string, int> {
    if j.JObj? then map k | k in j.fields && j.fields[k].JInt? :: j.fields[k].n else map[]
  }

  /** _mordor_profile_errors, given the sum of the event-id counts. */
  predicate EventsAddUp(payload: Payload, events: int) {
    var counts, overflow, total := Get(payload, "event_id_counts"), Get(payload, "event_id_overflow_count"), Get(payload, "total_rows");
    && counts.JObj? && |counts.fields| <= EVENT_ID_CATEGORY_LIMIT
    && (forall k :: k in counts.fields ==> Count(counts.fields[k]))
    && Count(overflow) && total.JInt? && events + overflow.n == total.n
  }

  ghost function EventTotal(payload: Payload): int {
    var amounts := Amounts(Get(payload, "event_id_counts"));
    SumOver(amounts.Keys, amounts)
  }

  // ----- What a report may contain -----

  const QUALITY_KEYS := {
    "source", "completed", "total_rows", "accepted_count", "rejected_count", "rejection_rate",
    "rejection_details"}
  const CIC_QUALITY_KEYS := QUALITY_KEYS + {
    "source_file", "expected_column_count", "canonical_label_counts", "attack_category_counts"}
  const CIC_PROFILE_KEYS := {
    "dataset", "benchmark_role", "network_behavior_v1_feature_order", "timestamp_semantics", "files",
    "combined"}
  const UNSW_PROFILE_KEYS := {
    "completed", "total_input_rows", "accepted_count", "rejected_count", "rejection_rate", "rejection_details",
    "canonical_label_counts", "raw_numeric_label_counts", "attack_category_counts", "protocol_counts",
    "service_counts", "connection_state_counts", "blank_optional_attack_category_count", "numeric_ranges",
    "earliest_timestamp", "latest_timestamp", "label_inconsistency_counts", "label_inconsistency_examples"}
  const MORDOR_PROFILE_KEYS := {
    "dataset", "source_file", "classification", "completed", "total_rows", "accepted_count", "rejected_count",
    "rejection_rate", "rejection_details", "event_id_counts", "event_id_overflow_count",
    "field_presence_counts", "process_event_count", "earliest_timestamp", "latest_timestamp"}
  const SYNTHETIC_PROFILE_KEYS := {
    "dataset", "classification", "completed", "total_rows", "accepted_count", "rejected_count",
    "rejection_rate", "rejection_details", "session_count", "sessions", "event_type_counts", "label_counts",
    "host_behavior_v1_aggregate", "quality_gates", "training_quality_gates"}
  const SYNTHETIC_SESSION_KEYS := {
    "source_file", "completed", "total_rows", "accepted_count", "rejected_count", "duration_seconds",
    "event_type_counts"}
  const CIC_FILE_PROFILE_KEYS := {
    "source_file", "completed", "total_rows", "accepted_count", "rejected_count", "rejection_rate",
    "rejection_details", "label_counts", "attack_category_counts", "protocol_counts", "numeric_ranges",
    "earliest_source_timestamp", "latest_source_timestamp"}
  const CIC_COMBINED_PROFILE_KEYS := CIC_FILE_PROFILE_KEYS - {"source_file"}
  const QUALITY_GATE_KEYS := {"configured", "results", "passed"}
  const TRAINING_GATE_KEYS := {"configured", "observed", "results", "passed"}

  predicate AllHaveKeys(items: Option<seq<Payload>>, keys: set<string>) {
    items.Some? && forall i :: 0 <= i < |items.value| ==> items.value[i].Keys == keys
  }

  predicate HasKeys(j: Json, keys: set<string>) { j.JObj? && j.fields.Keys == keys }

  /** _report_schema_errors finds none. */
  predicate SchemaApproved(report: Report) {
    var p := report.payload;
    if IsQuality(report.file) then p.Keys <= if "source_file" in p then CIC_QUALITY_KEYS else QUALITY_KEYS
    else if report.file == CIC_PROFILE then
      && p.Keys == CIC_PROFILE_KEYS && AllHaveKeys(Items(Get(p, "files")), CIC_FILE_PROFILE_KEYS)
      && HasKeys(Get(p, "combined"), CIC_COMBINED_PROFILE_KEYS)
    else if report.file == UNSW_PROFILE then p.Keys == UNSW_PROFILE_KEYS
    else if report.file == MORDOR_PROFILE then
      p.Keys == MORDOR_PROFILE_KEYS && Get(p, "dataset") == JText(MORDOR) && Get(p, "classification") == JText("attack_test_only")
    else
      && report.file == SYNTHETIC_PROFILE && p.Keys == SYNTHETIC_PROFILE_KEYS
      && AllHaveKeys(Items(Get(p, "sessions")), SYNTHETIC_SESSION_KEYS)
      && HasKeys(Get(p, "quality_gates"), QUALITY_GATE_KEYS) && HasKeys(Get(p, "training_quality_gates"), TRAINING_GATE_KEYS)
  }

  /** _gate_errors finds none: at least one result, and passed says whether all of them hold. */
  predicate GateConsistent(p: Payload, key: string, sections: set<string>) {
    var gate := Get(p, key);
    && HasKeys(gate, sections)
    && var results := Get(gate.fields, "results");
       && results.JObj? && results.fields != map[]
       && (forall k :: k in results.fields ==> results.fields[k].JBool?)
       && Get(gate.fields, "passed") == JBool(forall k :: k in results.fields ==> results.fields[k] == JBool(true))
  }

  function Larger(x: real, y: real): real { if x < y then y else x }

  /** math.isclose with abs_tol=1e-12. */
  predicate IsClose(a: real, b: real) {
    Abs(a - b) <= Larger(0.000000001 * Larger(Abs(a), Abs(b)), 0.000000000001)
  }

  function Rate(total: nat, rejected: nat): real { if total == 0 then 0.0 else rejected as real / total as real }

  predicate RateConsistent(rate: Json, total: nat, rejected: nat) {
    (rate.JReal? && IsClose(rate.r, Rate(total, rejected))) || (rate.JInt? && IsClose(rate.n as real, Rate(total, rejected)))
  }

  /** _count_arithmetic_errors finds none; UNSW's profile alone names its total differently. */
  predicate CountsConsistent(report: Report) {
    var p := Counted(report);
    var key := if report.file == UNSW_PROFILE then "total_input_rows" else "total_rows";
    var t, a, r := Get(p, key), Get(p, "accepted_count"), Get(p, "rejected_count");
    Count(t) && Count(a) && Count(r) && a.n + r.n == t.n && RateConsistent(Get(p, "rejection_rate"), t.n, r.n)
  }

  /** inspect_report_payload finds no error, given the sum of the event-id counts and the content scan. */
  predicate Approved(report: Report, events: int, sanitized: bool) {
    && SchemaApproved(report) && CountsConsistent(report) && sanitized
    && Get(Counted(report), "completed") == JBool(true)
    && (report.file == SYNTHETIC_PROFILE ==>
        && SessionsAddUp(report.payload)
        && GateConsistent(report.payload, "quality_gates", QUALITY_GATE_KEYS)
        && GateConsistent(report.payload, "training_quality_gates", TRAINING_GATE_KEYS))
    && (report.file == MORDOR_PROFILE ==> EventsAddUp(report.payload, events))
  }

  lemma InputRowsInNoQuality()
    ensures "total_input_rows" !in CIC_QUALITY_KEYS
  {
  }

  lemma InputRowsInNoCombined()
    ensures "total_input_rows" !in CIC_COMBINED_PROFILE_KEYS
  {
  }

  lemma InputRowsInNoOtherProfile()
    ensures "total_input_rows" !in MORDOR_PROFILE_KEYS && "total_input_rows" !in SYNTHETIC_PROFILE_KEYS
  {
  }

  /** The approved keys admit UNSW's name for the total in its profile only. */
  lemma OnlyUnswNamesInputRows(report: Report)
    requires SchemaApproved(report) && report.file != UNSW_PROFILE
    ensures "total_input_rows" !in Counted(report)
  {
    InputRowsInNoQuality();
    InputRowsInNoCombined();
    InputRowsInNoOtherProfile();
  }
}
