/**
 The SOAR contract server as a step machine. Handler threads test an idempotency key under
 the lock, release it, pass the body and ledger gates, and commit the key under the lock
 later; the ledger, its file and the process itself may change or fail between any two steps.
 */
module ContractServer {
  import opened Text

  datatype Scope = Verify | Callback

  // ----- The key store -----

  /** Two in-memory key sets and the key table of the ledger file, when that file exists. */
  datatype Store = Store(verify: set<string>, callback: set<string>, table: Option<set<(Scope, string)>>)

  function Memory(s: Store, scope: Scope): set<string> {
    if scope == Verify then s.verify else s.callback
  }

  /** _idempotency_is_replay; readOk is false when SQLite raises. */
  predicate Replayed(s: Store, scope: Scope, key: string, readOk: bool) {
    key in Memory(s, scope) || (s.table.Some? && readOk && (scope, key) in s.table.value)
  }

  /** _idempotency_commit; explicitPath says whether a ledger path is configured. */
  function Remembered(s: Store, scope: Scope, key: string, explicitPath: bool, writeOk: bool): Store {
    var table :=
      if (explicitPath || s.table.Some?) && writeOk
      then Some((if s.table.Some? then s.table.value else {}) + {(scope, key)})
      else s.table;
    if scope == Verify then Store(s.verify + {key}, s.callback, table)
    else Store(s.verify, s.callback + {key}, table)
  }

  /** A committed key is a replay in its own scope and changes nothing for any other scope or key. */
  lemma CommitAffectsOnlyItsKey(s: Store, scope: Scope, key: string, explicitPath: bool, writeOk: bool,
                                scope': Scope, key': string, readOk: bool)
    ensures Replayed(Remembered(s, scope, key, explicitPath, writeOk), scope', key', readOk)
       <==> (scope', key') == (scope, key) || Replayed(s, scope', key', readOk)
  {
  }

  class KeyStore {
    var seenVerify: set<string>
    var seenCallback: set<string>
    var table: Option<set<(Scope, string)>>
    const explicitPath: bool

    ghost function View(): Store reads this { Store(seenVerify, seenCallback, table) }

    constructor (explicitPath: bool, table: Option<set<(Scope, string)>>)
      ensures View() == Store({}, {}, table) && this.explicitPath == explicitPath
    {
      seenVerify, seenCallback := {}, {};
      this.table := table;
      this.explicitPath := explicitPath;
    }

    method IsReplay(scope: Scope, key: string, readOk: bool) returns (replay: bool)
      ensures replay == Replayed(View(), scope, key, readOk)
    {
      if key in (if scope == Verify then seenVerify else seenCallback) { return true; }
      if table.None? { return false; }
      if !readOk { return false; }
      replay := (scope, key) in table.value;
    }

    method Commit(scope: Scope, key: string, writeOk: bool)
      modifies this
      ensures View() == Remembered(old(View()), scope, key, explicitPath, writeOk)
    {
      if scope == Verify { seenVerify := seenVerify + {key}; } else { seenCallback := seenCallback + {key}; }
      if !explicitPath && table.None? { return; }
      if !writeOk { return; }
      table := Some((if table.Some? then table.value else {}) + {(scope, key)});
    }
  }

  // ----- Requests and the world -----

  datatype Request = Request(scope: Scope, key: string, playbookId: string, candidateId: string)

  datatype Record = Record(candidateId: string, state: string)

  /** How far a handler thread has come. */
  datatype Phase =
    | Arrived
    | Checked
    | BodyRead
    | LedgerOpen
    | ChainSeen
    | RecordSeen
    | TimingDone
    | Committed
    | Answered(status: nat)
    | Died

  datatype World = World(
    store: Store,
    explicitPath: bool,
    chainValid: bool,
    records: map<string, Record>,
    timed: set<string>,
    requests: map<nat, Request>,
    phases: map<nat, Phase>)

  datatype Event =
    | Arrive(id: nat, request: Request)
    | Refuse(id: nat, status: nat)
    | Die(id: nat)
    | Check(id: nat, readOk: bool)
    | ReadBody(id: nat)
    | OpenLedger(id: nat)
    | VerifyChain(id: nat)
    | ReadRecord(id: nat)
    | RecordTiming(id: nat)
    | Commit(id: nat, writeOk: bool)
    | Reply(id: nat)
    | LedgerChange(chainValid: bool, records: map<string, Record>)
    | FileLost
    | FileCreated
    | Restart

  predicate Live(w: World, id: nat) {
    id in w.phases && id in w.requests && !w.phases[id].Answered? && !w.phases[id].Died?
  }

  /** get_record finds the playbook, its candidate is blank or the caller's, and it was approved. */
  predicate Approved(w: World, r: Request) {
    && r.playbookId in w.records
    && (w.records[r.playbookId].candidateId == "" || w.records[r.playbookId].candidateId == r.candidateId)
    && w.records[r.playbookId].state in {"approved", "executed_simulated"}
  }

  predicate Enabled(w: World, e: Event) {
    match e
    case Arrive(id, _) => id !in w.requests && id !in w.phases
    case Refuse(id, status) =>
      && Live(w, id) && !w.phases[id].Committed?
      && (if w.phases[id].Arrived? then status in {400, 403, 500} else status in {400, 403})
    case Die(id) => Live(w, id) && !w.phases[id].Arrived?
    case Check(id, _) => Live(w, id) && w.phases[id].Arrived?
    case ReadBody(id) =>
      Live(w, id) && w.phases[id].Checked? && w.requests[id].playbookId != "" && w.requests[id].candidateId != ""
    case OpenLedger(id) => Live(w, id) && w.phases[id].BodyRead? && w.store.table.Some?
    case VerifyChain(id) => Live(w, id) && w.phases[id].LedgerOpen? && w.chainValid
    case ReadRecord(id) => Live(w, id) && w.phases[id].ChainSeen? && Approved(w, w.requests[id])
    case RecordTiming(id) => Live(w, id) && w.phases[id].RecordSeen? && w.requests[id].scope == Callback
    case Commit(id, _) =>
      && Live(w, id)
      && if w.requests[id].scope == Callback then w.phases[id].TimingDone? else w.phases[id].RecordSeen?
    case Reply(id) => Live(w, id) && w.phases[id].Committed?
    case LedgerChange(_, _) => true
    case FileLost => w.store.table.Some?
    case FileCreated => w.store.table.None?
    case Restart => true
  }

  function Move(w: World, id: nat, p: Phase): World { w.(phases := w.phases[id := p]) }

  function Apply(w: World, e: Event): World
    requires Enabled(w, e)
  {
    match e
    case Arrive(id, request) => w.(requests := w.requests[id := request], phases := w.phases[id := Arrived])
    case Refuse(id, status) => Move(w, id, Answered(status))
    case Die(id) => Move(w, id, Died)
    case Check(id, readOk) =>
      var r := w.requests[id];
      Move(w, id, if Replayed(w.store, r.scope, r.key, readOk) then Answered(409) else Checked)
    case ReadBody(id) => Move(w, id, BodyRead)
    case OpenLedger(id) => Move(w, id, LedgerOpen)
    case VerifyChain(id) => Move(w, id, ChainSeen)
    case ReadRecord(id) => Move(w, id, RecordSeen)
    case RecordTiming(id) => Move(w, id, TimingDone).(timed := w.timed + {w.requests[id].playbookId})
    case Commit(id, writeOk) =>
      var r := w.requests[id];
      Move(w, id, Committed).(store := Remembered(w.store, r.scope, r.key, w.explicitPath, writeOk))
    case Reply(id) => Move(w, id, Answered(200))
    case LedgerChange(chainValid, records) => w.(chainValid := chainValid, records := records)
    case FileLost => w.(store := w.store.(table := None))
    case FileCreated => w.(store := w.store.(table := Some({})))
    case Restart => w.(store := w.store.(verify := {}, callback := {}), phases := map[])
  }

  predicate Initial(w: World) {
    w.requests == map[] && w.phases == map[] && w.store.verify == {} && w.store.callback == {}
  }

  /** The worlds a server passes through and the events between them. */
  datatype Run = Run(worlds: seq<World>, events: seq<Event>)

  ghost predicate StepAt(r: Run, i: nat)
    requires |r.worlds| == |r.events| + 1 && i < |r.events|
  {
    Enabled(r.worlds[i], r.events[i]) && r.worlds[i + 1] == Apply(r.worlds[i], r.events[i])
  }

  /** A run from an idle server: every event is enabled where it happens and has its effect. */
  ghost predicate IsRun(r: Run) {
    && |r.worlds| == |r.events| + 1 && Initial(r.worlds[0])
    && forall i :: 0 <= i < |r.events| ==> StepAt(r, i)
  }

  // ----- A request only moves forward -----

  function PhaseRank(p: Phase): nat {
    match p
    case Arrived => 1
    case Checked => 2
    case BodyRead => 3
    case LedgerOpen => 4
    case ChainSeen => 5
    case RecordSeen => 6
    case TimingDone => 7
    case Committed => 8
    case Answered(_) => 9
    case Died => 9
  }

  /** 0 before arrival, 9 once answered, dead or lost with the process. */
  function Rank(w: World, id: nat): nat {
    if id in w.phases then PhaseRank(w.phases[id]) else if id in w.requests then 9 else 0
  }

  ghost predicate Known(w: World) { w.phases.Keys <= w.requests.Keys }

  lemma StepMovesForward(w: World, e: Event, id: nat)
    requires Known(w) && Enabled(w, e)
    ensures var w' := Apply(w, e);
      && Known(w') && Rank(w, id) <= Rank(w', id)
      && (id in w.requests ==> id in w'.requests && w'.requests[id] == w.requests[id])
  {
  }

  lemma {:induction false} RequestsMoveForward(r: Run, i: nat, j: nat, id: nat)
    requires IsRun(r) && i <= j <= |r.events|
    ensures Known(r.worlds[i]) && Known(r.worlds[j]) && Rank(r.worlds[i], id) <= Rank(r.worlds[j], id)
    ensures id in r.worlds[i].requests ==>
      id in r.worlds[j].requests && r.worlds[j].requests[id] == r.worlds[i].requests[id]
    decreases j
  {
    if j > 0 {
      RequestsMoveForward(r, if i < j then i else j - 1, j - 1, id);
      assert StepAt(r, j - 1);
      StepMovesForward(r.worlds[j - 1], r.events[j - 1], id);
    }
  }

  // ----- How a phase is entered -----

  ghost function PhaseOf(w: World, id: nat): Option<Phase> {
    if id in w.phases then Some(w.phases[id]) else None
  }

  /** The last event that put id into its phase. */
  lemma {:induction false} Entered(r: Run, i: nat, id: nat) returns (j: nat)
    requires IsRun(r) && i <= |r.events| && PhaseOf(r.worlds[i], id).Some?
    ensures j < i && PhaseOf(r.worlds[j + 1], id) == PhaseOf(r.worlds[i], id) != PhaseOf(r.worlds[j], id)
    ensures StepAt(r, j)
    decreases i
  {
    assert i > 0;
    if PhaseOf(r.worlds[i - 1], id) == PhaseOf(r.worlds[i], id) {
      j := Entered(r, i - 1, id);
    } else {
      j := i - 1;
      assert StepAt(r, j);
    }
  }

  /** Which event enters which phase, from where, and under which observation. */
  lemma EntryEvent(w: World, e: Event, id: nat)
    requires Enabled(w, e) && PhaseOf(Apply(w, e), id).Some? && PhaseOf(Apply(w, e), id) != PhaseOf(w, id)
    ensures match Apply(w, e).phases[id]
      case Arrived => e.Arrive? && e.id == id
      case Checked => e.Check? && e.id == id && PhaseOf(w, id) == Some(Arrived)
      case BodyRead => e == ReadBody(id) && PhaseOf(w, id) == Some(Checked)
      case LedgerOpen => e == OpenLedger(id) && PhaseOf(w, id) == Some(BodyRead)
      case ChainSeen => e == VerifyChain(id) && PhaseOf(w, id) == Some(LedgerOpen) && w.chainValid
      case RecordSeen =>
        e == ReadRecord(id) && PhaseOf(w, id) == Some(ChainSeen) && id in w.requests && Approved(w, w.requests[id])
      case TimingDone => e == RecordTiming(id) && PhaseOf(w, id) == Some(RecordSeen)
      case Committed =>
        && e.Commit? && e.id == id && id in w.requests
        && PhaseOf(w, id) == Some(if w.requests[id].scope == Callback then TimingDone else RecordSeen)
      case Answered(status) =>
        && (status == 200 ==> e == Reply(id) && PhaseOf(w, id) == Some(Committed))
        && (status != 200 ==> (e.Refuse? || e.Check?) && e.id == id && PhaseOf(w, id) != Some(Committed))
      case Died => true
  {
  }

  /** The gates behind a commit, as moments of the run. */
  datatype Gates = Gates(check: nat, body: nat, ledger: nat, chain: nat, record: nat, timing: nat)

  /** Found unused; a body naming playbook and candidate; a ledger file; a valid chain; a record that was approved
      or executed, for no candidate in particular or this one; then (for a callback) the timing write; and only
      then the commit. */
  ghost predicate GatesPassed(r: Run, id: nat, k: nat, g: Gates) {
    && IsRun(r) && k < |r.events| && id in r.worlds[k].requests
    && g.check < g.body < g.ledger < g.chain < g.record < k
    && r.events[g.check].Check? && r.events[g.check].id == id && PhaseOf(r.worlds[g.check + 1], id) == Some(Checked)
    && r.events[g.body] == ReadBody(id) && r.events[g.ledger] == OpenLedger(id) && r.events[g.chain] == VerifyChain(id)
    && r.events[g.record] == ReadRecord(id)
    && var q, records := r.worlds[k].requests[id], r.worlds[g.record].records;
    && q.playbookId != "" && q.candidateId != ""
    && r.worlds[g.ledger].store.table.Some? && r.worlds[g.chain].chainValid
    && q.playbookId in records
    && (records[q.playbookId].state == "approved" || records[q.playbookId].state == "executed_simulated")
    && (records[q.playbookId].candidateId == "" || records[q.playbookId].candidateId == q.candidateId)
    && (q.scope == Callback ==>
        && g.record < g.timing < k && r.events[g.timing] == RecordTiming(id)
        && q.playbookId in r.worlds[g.timing + 1].timed)
  }

  lemma GatesBehindLedger(r: Run, i: nat, id: nat) returns (g: Gates)
    requires IsRun(r) && i <= |r.events| && PhaseOf(r.worlds[i], id) == Some(LedgerOpen)
    ensures g.check < g.body < g.ledger < i
    ensures r.events[g.check].Check? && r.events[g.check].id == id && PhaseOf(r.worlds[g.check + 1], id) == Some(Checked)
    ensures r.events[g.body] == ReadBody(id) && StepAt(r, g.body)
    ensures r.events[g.ledger] == OpenLedger(id) && StepAt(r, g.ledger)
  {
    var ledger := Entered(r, i, id);
    EntryEvent(r.worlds[ledger], r.events[ledger], id);
    var body := Entered(r, ledger, id);
    EntryEvent(r.worlds[body], r.events[body], id);
    var check := Entered(r, body, id);
    EntryEvent(r.worlds[check], r.events[check], id);
    g := Gates(check, body, ledger, 0, 0, 0);
  }

  lemma GatesBehindRecord(r: Run, i: nat, id: nat) returns (g: Gates)
    requires IsRun(r) && i <= |r.events| && PhaseOf(r.worlds[i], id) == Some(RecordSeen)
    ensures g.check < g.body < g.ledger < g.chain < g.record < i
    ensures r.events[g.check].Check? && r.events[g.check].id == id && PhaseOf(r.worlds[g.check + 1], id) == Some(Checked)
    ensures r.events[g.body] == ReadBody(id) && StepAt(r, g.body)
    ensures r.events[g.ledger] == OpenLedger(id) && StepAt(r, g.ledger)
    ensures r.events[g.chain] == VerifyChain(id) && StepAt(r, g.chain)
    ensures r.events[g.record] == ReadRecord(id) && StepAt(r, g.record)
  {
    var record := Entered(r, i, id);
    EntryEvent(r.worlds[record], r.events[record], id);
    var chain := Entered(r, record, id);
    EntryEvent(r.worlds[chain], r.events[chain], id);
    g := GatesBehindLedger(r, chain, id);
    g := g.(chain := chain, record := record);
  }

  /** Every committed key had its gates passed first, in order. */
  lemma CommitHasPassedGates(r: Run, k: nat, id: nat) returns (g: Gates)
    requires IsRun(r) && k < |r.events| && r.events[k].Commit? && r.events[k].id == id
    ensures GatesPassed(r, id, k, g)
  {
    assert StepAt(r, k);
    if r.worlds[k].requests[id].scope == Callback {
      var timing := Entered(r, k, id);
      EntryEvent(r.worlds[timing], r.events[timing], id);
      g := GatesBehindRecord(r, timing, id);
      g := g.(timing := timing);
      RequestsMoveForward(r, timing, k, id);
    } else {
      g := GatesBehindRecord(r, k, id);
    }
    RequestsMoveForward(r, g.body, k, id);
    RequestsMoveForward(r, g.record, k, id);
    GateObservations(r.worlds[g.body], r.worlds[g.ledger], r.worlds[g.chain], r.worlds[g.record], id);
  }

  lemma GateObservations(body: World, ledger: World, chain: World, record: World, id: nat)
    requires Enabled(body, ReadBody(id)) && Enabled(ledger, OpenLedger(id))
    requires Enabled(chain, VerifyChain(id)) && Enabled(record, ReadRecord(id))
    ensures body.requests[id].playbookId != "" && body.requests[id].candidateId != ""
    ensures ledger.store.table.Some? && chain.chainValid
    ensures var q := record.requests[id];
      && q.playbookId in record.records && record.records[q.playbookId].state in {"approved", "executed_simulated"}
      && record.records[q.playbookId].candidateId in {"", q.candidateId}
  {
  }

  /** A waiting handler passes its next gate exactly when the gate's observation holds: both ids named, a ledger
      file, a valid chain, and a record that is there, approved or executed, and not for another candidate. */
  lemma GatesAreExact(w: World, id: nat)
    requires id in w.requests && id in w.phases
    ensures w.phases[id] == Checked ==>
      (Enabled(w, ReadBody(id)) <==> w.requests[id].playbookId != "" && w.requests[id].candidateId != "")
    ensures w.phases[id] == BodyRead ==> (Enabled(w, OpenLedger(id)) <==> w.store.table.Some?)
    ensures w.phases[id] == LedgerOpen ==> (Enabled(w, VerifyChain(id)) <==> w.chainValid)
    ensures w.phases[id] == ChainSeen ==>
      (Enabled(w, ReadRecord(id)) <==>
        && w.requests[id].playbookId in w.records
        && (w.records[w.requests[id].playbookId].state == "approved"
            || w.records[w.requests[id].playbookId].state == "executed_simulated")
        && (w.records[w.requests[id].playbookId].candidateId == ""
            || w.records[w.requests[id].playbookId].candidateId == w.requests[id].candidateId))
  {
  }

  /** Every 200 was preceded by its own commit. */
  lemma ReplyFollowsCommit(r: Run, j: nat, id: nat) returns (k: nat)
    requires IsRun(r) && j < |r.events| && r.events[j] == Reply(id)
    ensures k < j && r.events[k].Commit? && r.events[k].id == id
  {
    assert StepAt(r, j);
    k := Entered(r, j, id);
    EntryEvent(r.worlds[k], r.events[k], id);
  }

  // ----- What the stores hold -----

  ghost predicate Asks(w: World, id: nat, scope: Scope, key: string) {
    id in w.requests && w.requests[id].scope == scope && w.requests[id].key == key
  }

  /** Event k commits this key. */
  ghost predicate CommitsKey(r: Run, k: nat, scope: Scope, key: string)
    requires |r.worlds| == |r.events| + 1
  {
    k < |r.events| && r.events[k].Commit? && Asks(r.worlds[k], r.events[k].id, scope, key)
  }

  ghost predicate IsFirstCommit(r: Run, n: nat, scope: Scope, key: string)
    requires |r.worlds| == |r.events| + 1
  {
    CommitsKey(r, n, scope, key) && forall k :: 0 <= k < n ==> !CommitsKey(r, k, scope, key)
  }

  ghost predicate NoRestart(r: Run, i: nat, j: nat) {
    forall k :: i <= k < j && k < |r.events| ==> r.events[k] != Restart
  }

  ghost predicate NoFileLost(r: Run, i: nat, j: nat) {
    forall k :: i <= k < j && k < |r.events| ==> r.events[k] != FileLost
  }

  /** Event k commits this key and writes it to the table. */
  ghost predicate WritesKey(r: Run, k: nat, scope: Scope, key: string)
    requires |r.worlds| == |r.events| + 1
  {
    && CommitsKey(r, k, scope, key) && r.events[k].writeOk
    && (r.worlds[k].explicitPath || r.worlds[k].store.table.Some?)
  }

  ghost predicate Tabled(w: World, scope: Scope, key: string) {
    w.store.table.Some? && (scope, key) in w.store.table.value
  }

  lemma StepKeepsMemory(w: World, e: Event, scope: Scope, key: string)
    requires Enabled(w, e)
    ensures key in Memory(Apply(w, e).store, scope) <==>
      e != Restart && (key in Memory(w.store, scope) || (e.Commit? && Asks(w, e.id, scope, key)))
  {
  }

  /** A scope's memory holds exactly the keys committed in that scope since the last restart. */
  lemma {:induction false} MemoryIsCommits(r: Run, i: nat, scope: Scope, key: string)
    requires IsRun(r) && i <= |r.events|
    ensures key in Memory(r.worlds[i].store, scope) <==> exists k :: 0 <= k < i && CommitsKey(r, k, scope, key) && NoRestart(r, k, i)
  {
    if i > 0 {
      MemoryIsCommits(r, i - 1, scope, key);
      assert StepAt(r, i - 1);
      StepKeepsMemory(r.worlds[i - 1], r.events[i - 1], scope, key);
      if key in Memory(r.worlds[i].store, scope) {
        if key in Memory(r.worlds[i - 1].store, scope) {
          var k :| 0 <= k < i - 1 && CommitsKey(r, k, scope, key) && NoRestart(r, k, i - 1);
          assert NoRestart(r, k, i);
        } else {
          assert CommitsKey(r, i - 1, scope, key) && NoRestart(r, i - 1, i);
        }
      }
      if k :| 0 <= k < i && CommitsKey(r, k, scope, key) && NoRestart(r, k, i) {
        assert r.events[i - 1] != Restart;
        if k < i - 1 { assert NoRestart(r, k, i - 1); }
      }
    }
  }

  lemma StepKeepsTable(w: World, e: Event, scope: Scope, key: string)
    requires Enabled(w, e)
    ensures Tabled(Apply(w, e), scope, key) <==>
      && e != FileLost
      && (Tabled(w, scope, key)
          || (e.Commit? && Asks(w, e.id, scope, key) && e.writeOk && (w.explicitPath || w.store.table.Some?)))
  {
  }

  /** The key was put into the table at the start or by event k < i, and the file was not lost since. */
  ghost predicate TableHistory(r: Run, i: nat, scope: Scope, key: string)
    requires IsRun(r) && i <= |r.events|
  {
    || (Tabled(r.worlds[0], scope, key) && NoFileLost(r, 0, i))
    || exists k :: 0 <= k < i && WritesKey(r, k, scope, key) && NoFileLost(r, k, i)
  }

  /** The table holds exactly the keys it started with and those written since, unless the file was lost:
      restarts, failed reads and failed writes of other keys play no part. */
  lemma {:induction false} TableIsCommits(r: Run, i: nat, scope: Scope, key: string)
    requires IsRun(r) && i <= |r.events|
    ensures Tabled(r.worlds[i], scope, key) <==> TableHistory(r, i, scope, key)
  {
    if i > 0 {
      TableIsCommits(r, i - 1, scope, key);
      assert StepAt(r, i - 1);
      StepKeepsTable(r.worlds[i - 1], r.events[i - 1], scope, key);
      HistoryStep(r, i, scope, key);
    }
  }

  lemma HistoryStep(r: Run, i: nat, scope: Scope, key: string)
    requires IsRun(r) && 0 < i <= |r.events|
    ensures TableHistory(r, i, scope, key) <==>
      r.events[i - 1] != FileLost && (TableHistory(r, i - 1, scope, key) || WritesKey(r, i - 1, scope, key))
  {
    if TableHistory(r, i, scope, key) && !(Tabled(r.worlds[0], scope, key) && NoFileLost(r, 0, i)) {
      var k :| 0 <= k < i && WritesKey(r, k, scope, key) && NoFileLost(r, k, i);
      if k < i - 1 { assert NoFileLost(r, k, i - 1); }
    }
    if r.events[i - 1] != FileLost {
      if k :| 0 <= k < i - 1 && WritesKey(r, k, scope, key) && NoFileLost(r, k, i - 1) {
        assert NoFileLost(r, k, i);
      }
      if WritesKey(r, i - 1, scope, key) { assert NoFileLost(r, i - 1, i); }
    }
  }

  /** The key was committed since the last restart. */
  ghost predicate RecentlyCommitted(r: Run, i: nat, scope: Scope, key: string)
    requires IsRun(r) && i <= |r.events|
  {
    exists k :: 0 <= k < i && CommitsKey(r, k, scope, key) && NoRestart(r, k, i)
  }

  /** A check is answered 409 exactly when its key was committed since the last restart, or the table can be
      read and holds it by its history; otherwise the request passes. */
  lemma CheckOutcome(r: Run, m: nat, id: nat, scope: Scope, key: string)
    requires IsRun(r) && m < |r.events| && r.events[m].Check? && r.events[m].id == id && Asks(r.worlds[m], id, scope, key)
    ensures PhaseOf(r.worlds[m + 1], id) == Some(Answered(409))
       <==> RecentlyCommitted(r, m, scope, key) || (r.events[m].readOk && TableHistory(r, m, scope, key))
    ensures PhaseOf(r.worlds[m + 1], id) in {Some(Answered(409)), Some(Checked)}
  {
    assert StepAt(r, m);
    MemoryIsCommits(r, m, scope, key);
    TableIsCommits(r, m, scope, key);
  }

  /** What makes the check at m see the commit at n: no restart came between, or the commit was written,
      the file was not lost between them, and the check can read it. */
  ghost predicate Remembering(r: Run, n: nat, m: nat, scope: Scope, key: string)
    requires |r.worlds| == |r.events| + 1
  {
    || NoRestart(r, n, m)
    || (m < |r.events| && r.events[m].Check? && r.events[m].readOk && WritesKey(r, n, scope, key) && NoFileLost(r, n, m))
  }

  /** Every later check of the key sees the commit at n. */
  ghost predicate AlwaysRemembered(r: Run, n: nat, scope: Scope, key: string)
    requires |r.worlds| == |r.events| + 1
  {
    forall m :: n < m < |r.events| && r.events[m].Check? && Asks(r.worlds[m], r.events[m].id, scope, key)
      ==> Remembering(r, n, m, scope, key)
  }

  // ----- Replays are refused -----

  /** A request whose check comes after a commit of its key is answered 409 and never 200. */
  lemma CheckAfterCommitIsRefused(r: Run, n: nat, m: nat, b: nat, scope: Scope, key: string)
    requires IsRun(r) && n < m < |r.events| && CommitsKey(r, n, scope, key) && Remembering(r, n, m, scope, key)
    requires r.events[m].Check? && r.events[m].id == b && Asks(r.worlds[m], b, scope, key)
    ensures PhaseOf(r.worlds[m + 1], b) == Some(Answered(409))
    ensures forall j :: 0 <= j < |r.events| ==> r.events[j] != Reply(b)
  {
    CheckOutcome(r, m, b, scope, key);
    assert StepAt(r, m);
    forall j | 0 <= j < |r.events| ensures r.events[j] != Reply(b) {
      assert StepAt(r, j);
      if r.events[j] == Reply(b) {
        if j > m {
          RequestsMoveForward(r, m + 1, j, b);
        } else {
          RequestsMoveForward(r, j + 1, m, b);
        }
      }
    }
  }

  /** Requests for a key that are past its check and have not committed. */
  ghost function PastCheck(w: World, scope: Scope, key: string): set<nat> {
    set id | id in w.phases && Asks(w, id, scope, key) && 2 <= Rank(w, id) <= 7
  }

  /** Between its check and its commit a request stays past the check. */
  lemma PastCheckBetween(r: Run, c: nat, n: nat, k: nat, b: nat, scope: Scope, key: string)
    requires IsRun(r) && c < n <= k < |r.events| && Asks(r.worlds[c], b, scope, key)
    requires r.events[c].Check? && r.events[c].id == b && r.events[k].Commit? && r.events[k].id == b
    ensures b in PastCheck(r.worlds[n], scope, key)
  {
    assert StepAt(r, c);
    assert Rank(r.worlds[c + 1], b) >= 2;
    assert StepAt(r, k);
    assert Rank(r.worlds[k], b) <= 7;
    RequestsMoveForward(r, c, n, b);
    RequestsMoveForward(r, c + 1, n, b);
    RequestsMoveForward(r, n, k, b);
  }

  /** A request answered 200 was already past the check when its key was first committed. */
  lemma ReplierWasPastCheck(r: Run, n: nat, j: nat, scope: Scope, key: string)
    requires IsRun(r) && IsFirstCommit(r, n, scope, key)
    requires n < |r.events| && j < |r.events| && r.events[j].Reply? && Asks(r.worlds[j], r.events[j].id, scope, key)
    requires AlwaysRemembered(r, n, scope, key)
    ensures r.events[j].id in PastCheck(r.worlds[n], scope, key)
  {
    var b := r.events[j].id;
    var k := ReplyFollowsCommit(r, j, b);
    var c := AskedAtCheck(r, k, j, b, scope, key);
    if n < c {
      CheckAfterCommitIsRefused(r, n, c, b, scope, key);
    } else {
      PastCheckBetween(r, c, n, k, b, scope, key);
    }
  }

  lemma AskedAtCheck(r: Run, k: nat, j: nat, b: nat, scope: Scope, key: string) returns (c: nat)
    requires IsRun(r) && k < j < |r.events| && r.events[k].Commit? && r.events[k].id == b && Asks(r.worlds[j], b, scope, key)
    ensures c < k && r.events[c].Check? && r.events[c].id == b && Asks(r.worlds[c], b, scope, key) && CommitsKey(r, k, scope, key)
  {
    var g := CommitHasPassedGates(r, k, b);
    c := g.check;
    assert StepAt(r, c);
    RequestsMoveForward(r, c, k, b);
    RequestsMoveForward(r, k, j, b);
  }

  /** The requests for a key that were answered 200. */
  ghost function Repliers(r: Run, scope: Scope, key: string): set<nat>
    requires |r.worlds| == |r.events| + 1
  {
    set j | 0 <= j < |r.events| && r.events[j].Reply? && Asks(r.worlds[j], r.events[j].id, scope, key) :: r.events[j].id
  }

  /** The number of 200s for a key is bounded by the requests past the check at its first commit. */
  lemma RepliesAreBounded(r: Run, n: nat, scope: Scope, key: string)
    requires IsRun(r) && IsFirstCommit(r, n, scope, key)
    requires n < |r.events| && AlwaysRemembered(r, n, scope, key)
    ensures Repliers(r, scope, key) <= PastCheck(r.worlds[n], scope, key)
    ensures |Repliers(r, scope, key)| <= |PastCheck(r.worlds[n], scope, key)|
  {
    forall b | b in Repliers(r, scope, key) ensures b in PastCheck(r.worlds[n], scope, key) {
      var j :| 0 <= j < |r.events| && r.events[j] == Reply(b) && Asks(r.worlds[j], b, scope, key);
      ReplierWasPastCheck(r, n, j, scope, key);
    }
    SubsetSize(Repliers(r, scope, key), PastCheck(r.worlds[n], scope, key));
  }

  lemma {:induction false} SubsetSize(a: set<nat>, b: set<nat>)
    requires a <= b
    ensures |a| <= |b|
  {
    if a != {} {
      var x :| x in a;
      SubsetSize(a - {x}, b - {x});
    }
  }

  lemma {:induction false} FirstCommit(r: Run, k: nat, scope: Scope, key: string) returns (n: nat)
    requires IsRun(r) && k < |r.events| && CommitsKey(r, k, scope, key)
    ensures n <= k && IsFirstCommit(r, n, scope, key)
    decreases k
  {
    if i :| 0 <= i < k && CommitsKey(r, i, scope, key) {
      n := FirstCommit(r, i, scope, key);
    } else {
      n := k;
    }
  }

  /** When requests for a key never overlap and every check sees the key's first commit, at most one of
      them is answered 200, restarts included. */
  lemma AtMostOneWithoutOverlap(r: Run, scope: Scope, key: string)
    requires IsRun(r)
    requires forall n :: 0 <= n < |r.events| && IsFirstCommit(r, n, scope, key) ==> AlwaysRemembered(r, n, scope, key)
    requires forall i :: 0 <= i <= |r.events| ==> |PastCheck(r.worlds[i], scope, key)| <= 1
    ensures |Repliers(r, scope, key)| <= 1
  {
    if b :| b in Repliers(r, scope, key) {
      var j :| 0 <= j < |r.events| && r.events[j] == Reply(b) && Asks(r.worlds[j], b, scope, key);
      var k := ReplyFollowsCommit(r, j, b);
      RequestsMoveForward(r, k, j, b);
      assert StepAt(r, k);
      assert CommitsKey(r, k, scope, key);
      var n := FirstCommit(r, k, scope, key);
      RepliesAreBounded(r, n, scope, key);
    }
  }

  /** Only commits add keys: a request answered anything but 200 never committed. */
  lemma RefusedNeverCommitted(r: Run, i: nat, id: nat, k: nat)
    requires IsRun(r) && i <= |r.events| && k < |r.events|
    requires PhaseOf(r.worlds[i], id).Some? && r.worlds[i].phases[id].Answered? && r.worlds[i].phases[id].status != 200
    ensures !(r.events[k].Commit? && r.events[k].id == id)
  {
    var j := Entered(r, i, id);
    EntryEvent(r.worlds[j], r.events[j], id);
    assert StepAt(r, k);
    if r.events[k].Commit? && r.events[k].id == id {
      if k < j {
        RequestsMoveForward(r, k + 1, j, id);
      } else {
        RequestsMoveForward(r, j + 1, k, id);
      }
    }
  }

  /** No other event of a request touches a key store. */
  lemma OnlyCommitsTouchKeys(w: World, e: Event)
    requires Enabled(w, e) && !e.Commit? && e != FileLost && e != FileCreated && e != Restart
    ensures Apply(w, e).store == w.store
  {
  }
}
