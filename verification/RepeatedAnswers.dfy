/**
 Runs of the contract server in which one key is answered 200 twice: overlapping requests, and a key
 table that cannot be read after a restart.
 */
module RepeatedAnswers {
  import opened Text
  import opened ContractServer

  ghost function Last(r: Run): World
    requires r.worlds != []
  {
    r.worlds[|r.worlds| - 1]
  }

  /** next goes on from r without a restart, a lost file or a failed write. */
  ghost predicate Continues(r: Run, next: Run) {
    && IsRun(r) && IsRun(next) && r.worlds <= next.worlds && r.events <= next.events
    && forall k :: |r.events| <= k < |next.events| ==>
      next.events[k] != Restart && next.events[k] != FileLost && (next.events[k].Commit? ==> next.events[k].writeOk)
  }

  lemma Extend(r: Run, e: Event) returns (next: Run)
    requires IsRun(r) && Enabled(Last(r), e)
    ensures IsRun(next) && next.events == r.events + [e] && next.worlds == r.worlds + [Apply(Last(r), e)]
  {
    next := Run(r.worlds + [Apply(Last(r), e)], r.events + [e]);
    forall i | 0 <= i < |next.events| ensures StepAt(next, i) {
      if i < |r.events| { assert StepAt(r, i); }
    }
  }

  /** The rest of the world, as seen by one handler's gates. */
  ghost predicate SameAround(w: World, later: World, id: nat) {
    && later.requests == w.requests && later.records == w.records && later.chainValid == w.chainValid
    && later.phases.Keys == w.phases.Keys && (forall x :: x in w.phases && x != id ==> later.phases[x] == w.phases[x])
    && (w.store.table.Some? ==> later.store.table.Some?)
  }

  lemma Gate(r: Run, e: Event, id: nat, p: Phase) returns (next: Run)
    requires IsRun(r) && Enabled(Last(r), e)
    requires (e, p) in {(ReadBody(id), BodyRead), (OpenLedger(id), LedgerOpen), (VerifyChain(id), ChainSeen),
                        (ReadRecord(id), RecordSeen), (RecordTiming(id), TimingDone), (Commit(id, true), Committed)}
    ensures Continues(r, next) && SameAround(Last(r), Last(next), id) && PhaseOf(Last(next), id) == Some(p)
  {
    next := Extend(r, e);
  }

  /** A request at a phase, with a valid chain and an approved record before it. */
  ghost predicate Ready(w: World, id: nat, p: Phase) {
    && id in w.requests && PhaseOf(w, id) == Some(p)
    && w.requests[id].playbookId != "" && w.requests[id].candidateId != ""
    && Approved(w, w.requests[id]) && w.store.table.Some? && w.chainValid
  }

  lemma ReadLedger(r: Run, id: nat) returns (next: Run)
    requires IsRun(r) && Ready(Last(r), id, Checked)
    ensures Continues(r, next) && SameAround(Last(r), Last(next), id) && Ready(Last(next), id, ChainSeen)
  {
    next := Gate(r, ReadBody(id), id, BodyRead);
    next := Gate(next, OpenLedger(id), id, LedgerOpen);
    next := Gate(next, VerifyChain(id), id, ChainSeen);
  }

  lemma CommitAfterLedger(r: Run, id: nat) returns (next: Run)
    requires IsRun(r) && Ready(Last(r), id, ChainSeen)
    ensures Continues(r, next) && SameAround(Last(r), Last(next), id) && PhaseOf(Last(next), id) == Some(Committed)
  {
    next := Gate(r, ReadRecord(id), id, RecordSeen);
    if Last(r).requests[id].scope == Callback {
      next := Gate(next, RecordTiming(id), id, TimingDone);
    }
    next := Gate(next, Commit(id, true), id, Committed);
  }

  /** A checked request with a valid chain and an approved record can go on to its 200. */
  lemma Finish(r: Run, id: nat) returns (next: Run)
    requires IsRun(r) && Ready(Last(r), id, Checked)
    ensures Continues(r, next) && SameAround(Last(r), Last(next), id)
    ensures id in Repliers(next, Last(r).requests[id].scope, Last(r).requests[id].key)
  {
    var committed := ReadLedger(r, id);
    committed := CommitAfterLedger(committed, id);
    next := Extend(committed, Reply(id));
    var j := |committed.events|;
    assert next.events[j] == Reply(id) && next.worlds[j] == Last(committed);
    assert Asks(next.worlds[j], id, Last(r).requests[id].scope, Last(r).requests[id].key);
  }

  lemma RepliersStay(r: Run, next: Run, scope: Scope, key: string)
    requires Continues(r, next)
    ensures Repliers(r, scope, key) <= Repliers(next, scope, key)
  {
    forall id | id in Repliers(r, scope, key) ensures id in Repliers(next, scope, key) {
      var j :| 0 <= j < |r.events| && r.events[j] == Reply(id) && Asks(r.worlds[j], id, scope, key);
      assert next.events[j] == Reply(id) && next.worlds[j] == r.worlds[j];
    }
  }

  /** From every run that has two requests for one key past the check, both can be answered 200. */
  lemma OverlapAnswersTwice(r: Run, a: nat, b: nat) returns (next: Run)
    requires IsRun(r) && a != b && Ready(Last(r), a, Checked) && Ready(Last(r), b, Checked)
    requires Last(r).requests[a].scope == Last(r).requests[b].scope && Last(r).requests[a].key == Last(r).requests[b].key
    ensures Continues(r, next) && Repliers(next, Last(r).requests[a].scope, Last(r).requests[a].key) >= {a, b}
  {
    var scope, key := Last(r).requests[a].scope, Last(r).requests[a].key;
    var first := Finish(r, a);
    assert Ready(Last(first), b, Checked);
    next := Finish(first, b);
    RepliersStay(first, next, scope, key);
  }

  /** A server with an approved record for q, and q's first request past its check. */
  lemma OneChecked(q: Request) returns (r: Run)
    requires q.playbookId != "" && q.candidateId != ""
    ensures IsRun(r) && Ready(Last(r), 0, Checked) && Last(r).requests == map[0 := q]
    ensures r.events == [Arrive(0, q), Check(0, true)] && r.worlds[0].store.table.Some?
  {
    var records := map[q.playbookId := Record(q.candidateId, "approved")];
    r := Run([World(Store({}, {}, Some({})), true, true, records, {}, map[], map[])], []);
    r := Extend(r, Arrive(0, q));
    r := Extend(r, Check(0, true));
  }

  /** Such runs exist for every request. */
  lemma OverlapHappens(q: Request) returns (r: Run)
    requires q.playbookId != "" && q.candidateId != ""
    ensures IsRun(r) && Ready(Last(r), 0, Checked) && Ready(Last(r), 1, Checked)
    ensures Last(r).requests == map[0 := q, 1 := q]
  {
    var records := map[q.playbookId := Record(q.candidateId, "approved")];
    r := Run([World(Store({}, {}, Some({})), true, true, records, {}, map[], map[])], []);
    r := Extend(r, Arrive(0, q));
    r := Extend(r, Arrive(1, q));
    r := Extend(r, Check(0, true));
    r := Extend(r, Check(1, true));
  }

  /** Request b arrives after a restart and its check cannot read the table. */
  lemma RestartAndMisread(r: Run, q: Request, b: nat) returns (next: Run)
    requires IsRun(r) && b !in Last(r).requests && q.playbookId != "" && q.candidateId != ""
    requires Approved(Last(r), q) && Last(r).store.table.Some? && Last(r).chainValid
    ensures IsRun(next) && r.worlds <= next.worlds && next.events == r.events + [Restart, Arrive(b, q), Check(b, false)]
    ensures Ready(Last(next), b, Checked) && Last(next).requests[b] == q && Last(next).phases.Keys == {b}
  {
    next := Extend(r, Restart);
    next := Extend(next, Arrive(b, q));
    next := Extend(next, Check(b, false));
  }

  /** The file exists from the start and is never lost, and every write succeeds. */
  ghost predicate WritesPersist(r: Run) {
    && r.worlds != [] && r.worlds[0].store.table.Some? && NoFileLost(r, 0, |r.events|)
    && forall k :: 0 <= k < |r.events| && r.events[k].Commit? ==> r.events[k].writeOk
  }

  lemma StillPersists(r: Run, next: Run)
    requires Continues(r, next) && WritesPersist(r)
    ensures WritesPersist(next)
  {
    assert next.worlds[0] == r.worlds[0];
    forall k | 0 <= k < |next.events| ensures next.events[k] != FileLost && (next.events[k].Commit? ==> next.events[k].writeOk) {
      if k < |r.events| { assert next.events[k] == r.events[k]; }
    }
  }

  /** Although the file is never lost and every write succeeds, a table that cannot be read after a restart lets
      a second, later request for the key be answered 200. */
  lemma UnreadableTableAnswersTwice(q: Request) returns (r: Run)
    requires q.playbookId != "" && q.candidateId != ""
    ensures IsRun(r) && WritesPersist(r) && Repliers(r, q.scope, q.key) >= {0, 1}
    ensures exists i, j :: 0 <= i < j < |r.events| && r.events[i] == Reply(0) && r.events[j] == Arrive(1, q)
  {
    var start := OneChecked(q);
    var first := Finish(start, 0);
    StillPersists(start, first);
    var again := RestartAndMisread(first, q, 1);
    assert WritesPersist(again) by { assert again.worlds[0] == first.worlds[0]; }
    r := Finish(again, 1);
    StillPersists(again, r);
    var i := ReplyStays(first, again, r, q);
    assert again.events[|first.events| + 1] == r.events[|first.events| + 1];
  }

  lemma ReplyStays(first: Run, again: Run, r: Run, q: Request) returns (i: nat)
    requires IsRun(first) && 0 in Repliers(first, q.scope, q.key) && Continues(again, r)
    requires first.worlds <= again.worlds && first.events <= again.events
    ensures i < |first.events| && r.events[i] == Reply(0) && 0 in Repliers(r, q.scope, q.key)
  {
    i :| 0 <= i < |first.events| && first.events[i] == Reply(0) && Asks(first.worlds[i], 0, q.scope, q.key);
    assert again.events[i] == first.events[i] && again.worlds[i] == first.worlds[i];
    assert r.events[i] == again.events[i] && r.worlds[i] == again.worlds[i];
  }
}
