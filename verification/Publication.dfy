/**
 Publishing the residual audit: the loop that writes the total size into the file it
 measures, the recovery file, the atomic rename, a crash or an error at any step, and the
 evidence viewer's check of what was published.
 */
module Publication {
  import opened Text
  import opened Numerals
  import opened JsonValue

  // `P(x) == true` in a contract hands the fact on unopened, which keeps the caller's proof small.

  // ----- The recorded size -----

  function IntText(n: int): string {
    if n < 0 then "-" + Decimal(-n) else Decimal(n)
  }

  /** Total bytes of the staged directory while output_bytes is recorded as n: only the digits of n vary. */
  function Measured(base: nat, n: int): nat { base + |IntText(n)| }

  lemma {:induction false} PowersGrow(k: nat)
    ensures Pow10(k) > k && Pow10(k + 1) == 10 * Pow10(k)
  {
    if k > 0 { PowersGrow(k - 1); }
  }

  /** Adding a digit count to a base changes the digit count by at most one. */
  lemma LengthAfterMeasuring(base: nat, d: nat)
    requires d >= 1 && base < Pow10(d)
    ensures |Decimal(base + d)| <= d + 1
    ensures |Decimal(base + d + 1)| <= d + 1
  {
    PowersGrow(d);
    DecimalLength(base + d, d + 1);
    DecimalLength(base + d + 1, d + 1);
  }

  lemma LongerNumber(a: nat, b: nat)
    requires a <= b
    ensures |Decimal(a)| <= |Decimal(b)|
  {
    DecimalLength(a, |Decimal(b)|);
    DecimalLength(b, |Decimal(b)|);
  }

  function DigitCount(n: nat): nat { |Decimal(n)| }

  lemma DigitCountsSettle(base: nat, d: nat, e: nat)
    requires d == DigitCount(base + 2) && e == DigitCount(base + d)
    ensures DigitCount(base + e) == e
  {
    DecimalLength(base + 2, d);
    LengthAfterMeasuring(base, d);
    if d == 1 {
      LongerNumber(base + d, base + 2);
    } else {
      LongerNumber(base + 2, base + d);
      LongerNumber(base + d, base + e);
    }
  }

  /** From the first measurement on, two more rounds settle the value. */
  lemma SizeSettles(base: nat)
    ensures var x1 := Measured(base, -1);
      var x2 := Measured(base, x1);
      var x3 := Measured(base, x2);
      Measured(base, x3) == x3
  {
    assert IntText(-1) == "-" + Decimal(1) && |Decimal(1)| == 1;
    var d := DigitCount(base + 2);
    DigitCountsSettle(base, d, DigitCount(base + d));
  }

  const MAX_ROUNDS := 10

  /** The measuring loop of publish_aggregates; unstable is its for-else error. */
  method SettleOutputBytes(base: nat) returns (outputBytes: int, rounds: nat, unstable: bool)
    ensures !unstable && rounds <= 4
    ensures outputBytes == Measured(base, outputBytes) && outputBytes == Settled(base)
  {
    outputBytes, rounds, unstable := -1, 0, true;
    ghost var x1 := Measured(base, -1);
    ghost var x2 := Measured(base, x1);
    ghost var x3 := Measured(base, x2);
    SizeSettles(base);
    while rounds < MAX_ROUNDS && unstable
      invariant unstable ==> rounds <= 3
      invariant unstable ==> outputBytes == if rounds == 0 then -1 else if rounds == 1 then x1 else if rounds == 2 then x2 else x3
      invariant !unstable ==> rounds <= 4 && outputBytes == Measured(base, outputBytes) && outputBytes == x3
      decreases MAX_ROUNDS - rounds, unstable
    {
      var measured := Measured(base, outputBytes);
      rounds := rounds + 1;
      if measured == outputBytes { unstable := false; } else { outputBytes := measured; }
    }
  }

  /** The settled value, as a function of the base size. */
  function Settled(base: nat): (n: nat)
    ensures n == Measured(base, n)
  {
    SizeSettles(base);
    Measured(base, Measured(base, Measured(base, -1)))
  }

  // ----- Reports -----

  type Report = map<string, Json>

  /** The module's fixed expectations, and SHA-256 of the canonical JSON as an arbitrary function. */
  datatype Contract = Contract(
    recoverySchema: string,
    identity: string,
    required: Report -> bool,
    maxBytes: nat,
    sha: Report -> string,
    base: Report -> nat)

  datatype Recovery = Unreadable | Recovery(schema: string, identity: string, digest: string, report: Report)

  predicate HasResources(r: Report) { "resources" in r && r["resources"].JObj? }

  /** What _load_recovery demands of the retained report's fields, resources and cohorts. */
  predicate MeetsContract(c: Contract, r: Report) {
    HasResources(r) && c.required(r)
  }

  function RecoveryFor(c: Contract, r: Report): Recovery { Recovery(c.recoverySchema, c.identity, c.sha(r), r) }

  /** _load_recovery raises unless this holds. */
  predicate Loads(c: Contract, f: Recovery) {
    f.Recovery? && f.digest == c.sha(f.report) && f.schema == c.recoverySchema && f.identity == c.identity
    && MeetsContract(c, f.report)
  }

  function SetBytes(r: Report, n: int): Report
    requires HasResources(r)
  {
    r["resources" := JObj(r["resources"].fields["output_bytes" := JInt(n)])]
  }

  function PopBytes(r: Report): Report
    requires HasResources(r)
  {
    r["resources" := JObj(r["resources"].fields - {"output_bytes"})]
  }

  /** load_evidence's binding of the published report to the recovery file. */
  predicate ViewerBinds(c: Contract, audit: Report, f: Recovery) {
    && f.Recovery? && HasResources(audit) && HasResources(f.report)
    && PopBytes(f.report) == PopBytes(audit)
    && f.digest == c.sha(f.report) && f.identity == c.identity
  }

  lemma BytesDoNotMatter(r: Report, n: int)
    requires HasResources(r)
    ensures HasResources(SetBytes(r, n)) && PopBytes(SetBytes(r, n)) == PopBytes(r)
  {
    var fields := r["resources"].fields;
    assert fields["output_bytes" := JInt(n)] - {"output_bytes"} == fields - {"output_bytes"};
  }

  // ----- The protocol -----

  /** The staged directory, file by file. */
  datatype Directory = Directory(csv: Option<Report>, diagnostics: Option<Report>, chart: Option<Report>, aggregate: Option<Report>)

  const EMPTY := Directory(None, None, None, None)

  /** What is on disk under the names any later run or the viewer reads. */
  datatype Disk = Disk(output: Option<Directory>, recovery: Option<Recovery>)

  /** The publishing process: where it stands, and its private temporary files. */
  datatype Process = Idle | Publishing(report: Report, stage: nat, temporary: Option<Recovery>, staging: Directory)

  datatype World = World(disk: Disk, process: Process)

  datatype Event =
    | Begin(computed: Option<Report>)
    | Advance
    | Draft(n: int)
    | Error
    | Crash

  function Start(r: Report): Process { Publishing(r, 0, None, EMPTY) }

  /** run_audit up to publish_aggregates: an existing recovery file replaces the computation. */
  function BeginRun(c: Contract, d: Disk, computed: Option<Report>): Process {
    match d.recovery
    case Some(f) => if Loads(c, f) then Start(f.report) else Idle
    case None => if d.output.Some? || computed.None? then Idle else Start(computed.value)
  }

  function Complete(c: Contract, r: Report): Directory
    requires HasResources(r)
  {
    Directory(Some(r), Some(r), Some(r), Some(SetBytes(r, Settled(c.base(r)))))
  }

  function Publish(c: Contract, w: World): World
    requires w.process.Publishing? && HasResources(w.process.report)
  {
    var p, d := w.process, w.disk;
    var next := p.(stage := p.stage + 1);
    match p.stage
    case 0 => if d.output.Some? then World(d, Idle) else World(d, next)
    case 1 => World(d, next.(temporary := Some(RecoveryFor(c, p.report))))
    case 2 => World(d.(recovery := p.temporary), next.(temporary := None))
    case 3 => World(d, next.(staging := EMPTY))
    case 4 => World(d, next.(staging := p.staging.(csv := Some(p.report))))
    case 5 => World(d, next.(staging := p.staging.(diagnostics := Some(p.report))))
    case 6 => World(d, next.(staging := p.staging.(chart := Some(p.report))))
    case 7 => World(d, next.(staging := p.staging.(aggregate := Some(SetBytes(p.report, Settled(c.base(p.report)))))))
    case 8 => if Settled(c.base(p.report)) > c.maxBytes then World(d, Idle) else World(d, next)
    case _ => World(d.(output := Some(p.staging)), Idle)
  }

  predicate Enabled(c: Contract, w: World, e: Event) {
    match e
    case Begin(computed) => w.process.Idle? && (computed.Some? ==> MeetsContract(c, computed.value))
    case Advance => w.process.Publishing? && HasResources(w.process.report)
    case Draft(_) => w.process.Publishing? && HasResources(w.process.report) && w.process.stage == 7
    case Error => w.process.Publishing?
    case Crash => true
  }

  /** Errors clean up and crashes do not, but both only ever leave private temporary files behind. */
  function Apply(c: Contract, w: World, e: Event): World
    requires Enabled(c, w, e)
  {
    match e
    case Begin(computed) => World(w.disk, BeginRun(c, w.disk, computed))
    case Advance => Publish(c, w)
    case Draft(n) => World(w.disk, w.process.(staging := w.process.staging.(aggregate := Some(SetBytes(w.process.report, n)))))
    case Error => World(w.disk, Idle)
    case Crash => World(w.disk, Idle)
  }

  function Run(c: Contract, w: World, es: seq<Event>): World {
    if es == [] then w else
      var before := Run(c, w, es[..|es| - 1]);
      if Enabled(c, before, es[|es| - 1]) then Apply(c, before, es[|es| - 1]) else before
  }

  // ----- What every step keeps -----

  /** The staged files match the stage, and from stage 3 on the recovery file is this report's. */
  ghost predicate ProcessSound(c: Contract, w: World) {
    w.process.Publishing? ==>
      var p := w.process;
      && MeetsContract(c, p.report) && p.stage <= 9
      && (p.stage >= 1 ==> w.disk.output.None?)
      && (p.stage == 2 ==> p.temporary == Some(RecoveryFor(c, p.report)))
      && (p.stage >= 3 ==> w.disk.recovery == Some(RecoveryFor(c, p.report)))
      && (p.stage >= 5 ==> p.staging.csv == Some(p.report))
      && (p.stage >= 6 ==> p.staging.diagnostics == Some(p.report))
      && (p.stage >= 7 ==> p.staging.chart == Some(p.report))
      && (p.stage >= 8 ==> p.staging == Complete(c, p.report))
      && (w.disk.recovery.Some? ==> w.disk.recovery == Some(RecoveryFor(c, p.report)))
  }

  /** The output is absent, or complete for a report whose recovery file is in place. */
  ghost predicate OutputSound(c: Contract, d: Disk) {
    d.output.Some? ==>
      && d.recovery.Some? && Loads(c, d.recovery.value)
      && d.output.value == Complete(c, d.recovery.value.report)
  }

  ghost predicate Sound(c: Contract, w: World) { ProcessSound(c, w) && OutputSound(c, w.disk) }

  lemma StepKeepsSound(c: Contract, w: World, e: Event)
    requires Sound(c, w) && Enabled(c, w, e)
    ensures Sound(c, Apply(c, w, e))
  {
  }

  /** With a crash or error after any step, the output directory is only ever absent or complete. */
  lemma {:induction false} OutputIsAbsentOrComplete(c: Contract, w: World, es: seq<Event>)
    requires Sound(c, w)
    ensures Sound(c, Run(c, w, es))
  {
    if es != [] {
      var before := es[..|es| - 1];
      OutputIsAbsentOrComplete(c, w, before);
      if Enabled(c, Run(c, w, before), es[|es| - 1]) {
        StepKeepsSound(c, Run(c, w, before), es[|es| - 1]);
      }
    }
  }

  /** Whatever is published passes the viewer's check against the recovery file beside it. */
  lemma PublishedBinds(c: Contract, w: World, es: seq<Event>)
    requires Sound(c, w) && Run(c, w, es).disk.output.Some?
    ensures var d := Run(c, w, es).disk;
      && d.recovery.Some? && d.output.value.aggregate.Some?
      && ViewerBinds(c, d.output.value.aggregate.value, d.recovery.value)
  {
    OutputIsAbsentOrComplete(c, w, es);
    var f := Run(c, w, es).disk.recovery.value;
    BytesDoNotMatter(f.report, Settled(c.base(f.report)));
  }

  /** Once a recovery file exists it never changes, whatever later runs compute, and an output
      that appears afterwards is complete for its report. */
  lemma {:induction false} RecoveryIsFinal(c: Contract, w: World, es: seq<Event>)
    requires Sound(c, w) && w.disk.recovery.Some?
    ensures var d := Run(c, w, es).disk;
      && d.recovery == w.disk.recovery
      && (d.output == w.disk.output
          || (Loads(c, w.disk.recovery.value) && d.output == Some(Complete(c, w.disk.recovery.value.report))))
  {
    if es != [] {
      var before := es[..|es| - 1];
      RecoveryIsFinal(c, w, before);
      OutputIsAbsentOrComplete(c, w, before);
      OutputIsAbsentOrComplete(c, w, es);
    }
  }

  function Advances(n: nat): (es: seq<Event>)
    ensures |es| == n
  {
    seq(n, _ => Advance)
  }

  lemma {:induction false} RunConcat(c: Contract, w: World, a: seq<Event>, b: seq<Event>)
    ensures Run(c, w, a + b) == Run(c, Run(c, w, a), b)
    decreases |b|
  {
    if b == [] {
      assert a + b == a;
    } else {
      assert (a + b)[..|a + b| - 1] == a + b[..|b| - 1];
      RunConcat(c, w, a, b[..|b| - 1]);
    }
  }

  lemma StageAdvances(c: Contract, w: World)
    requires Sound(c, w) == true && w.process.Publishing? && w.process.stage < 9 && w.disk.output.None?
    requires w.process.stage == 8 ==> Settled(c.base(w.process.report)) <= c.maxBytes
    ensures HasResources(w.process.report)
    ensures var w' := Publish(c, w);
      && Sound(c, w') == true && w'.process.Publishing? && w'.process.stage == w.process.stage + 1
      && w'.process.report == w.process.report && w'.disk.output.None?
  {
    StepKeepsSound(c, w, Advance);
  }

  lemma LastStagePublishes(c: Contract, w: World)
    requires Sound(c, w) == true && w.process.Publishing? && w.process.stage == 9
    ensures HasResources(w.process.report)
    ensures Publish(c, w).disk == Disk(Some(Complete(c, w.process.report)), Some(RecoveryFor(c, w.process.report)))
  {
  }

  lemma FirstAdvance(c: Contract, w: World, n: nat)
    requires w.process.Publishing? && HasResources(w.process.report)
    ensures Run(c, w, Advances(n + 1)) == Run(c, Publish(c, w), Advances(n))
  {
    assert Advances(n + 1) == [Advance] + Advances(n);
    RunConcat(c, w, [Advance], Advances(n));
    assert [Advance][..0] == [];
  }

  /** Left alone, a process at any stage finishes its publication. */
  lemma {:induction false} UninterruptedPublishes(c: Contract, w: World)
    requires Sound(c, w) == true && w.process.Publishing? && w.process.stage <= 9 && w.disk.output.None?
    requires Settled(c.base(w.process.report)) <= c.maxBytes
    ensures Run(c, w, Advances(10 - w.process.stage)).disk
         == Disk(Some(Complete(c, w.process.report)), Some(RecoveryFor(c, w.process.report)))
    decreases 10 - w.process.stage
  {
    if w.process.stage == 9 {
      LastStagePublishes(c, w);
      FirstAdvance(c, w, 0);
    } else {
      StageAdvances(c, w);
      FirstAdvance(c, w, 9 - w.process.stage);
      UninterruptedPublishes(c, Publish(c, w));
    }
  }

  lemma {:induction false} IdleStays(c: Contract, w: World, n: nat)
    requires w.process.Idle?
    ensures Run(c, w, Advances(n)) == w
  {
    if n > 0 {
      assert Advances(n)[..n - 1] == Advances(n - 1);
      IdleStays(c, w, n - 1);
    }
  }

  /** A report over budget is given up at its stage, and nothing on disk changes on the way there. */
  lemma {:induction false} OverBudgetStops(c: Contract, w: World, n: nat)
    requires Sound(c, w) && w.process.Publishing? && w.process.stage <= 8 && w.disk.output.None?
    requires w.disk.recovery == Some(RecoveryFor(c, w.process.report)) && Settled(c.base(w.process.report)) > c.maxBytes
    ensures Run(c, w, Advances(n)).disk == w.disk
    decreases n
  {
    if n > 0 {
      FirstAdvance(c, w, n - 1);
      var w' := Publish(c, w);
      if w.process.stage == 8 {
        IdleStays(c, w', n - 1);
      } else {
        StepKeepsSound(c, w, Advance);
        OverBudgetStops(c, w', n - 1);
      }
    }
  }

  lemma FirstEvent(c: Contract, w: World, e: Event, n: nat)
    requires Enabled(c, w, e)
    ensures Run(c, w, [e] + Advances(n)) == Run(c, Apply(c, w, e), Advances(n))
  {
    RunConcat(c, w, [e], Advances(n));
    assert [e][..0] == [];
  }

  /** A recovery file loads exactly when it is readable, of this schema and identity, true to its digest, and its
      report meets the contract. */
  lemma LoadingIsExact(c: Contract, f: Recovery)
    ensures Loads(c, f) <==>
      && f.Recovery? && f.schema == c.recoverySchema && f.identity == c.identity && f.digest == c.sha(f.report)
      && "resources" in f.report && f.report["resources"].JObj? && c.required(f.report)
  {
  }

  lemma LoadedIsWritten(c: Contract, f: Recovery)
    requires Loads(c, f)
    ensures f == RecoveryFor(c, f.report) && HasResources(f.report)
    ensures c.required(f.report)
  {
  }

  /** A whole run that finds a recovery file: whatever would have been computed, the retained report is published
      if and only if the file loads, there is no output yet and the settled size is within budget; in every
      other case the disk is left as it was. */
  lemma RecoveryRunOutcome(c: Contract, d: Disk, f: Recovery, computed: Option<Report>)
    requires d.recovery == Some(f) && (computed.Some? ==> MeetsContract(c, computed.value))
    ensures Run(c, World(d, Idle), [Begin(computed)] + Advances(10)).disk
         == if Loads(c, f) && d.output.None? && Settled(c.base(f.report)) <= c.maxBytes
            then Disk(Some(Complete(c, f.report)), Some(f)) else d
  {
    var w := World(d, BeginRun(c, d, computed));
    FirstEvent(c, World(d, Idle), Begin(computed), 10);
    if !Loads(c, f) {
      IdleStays(c, w, 10);
    } else {
      LoadedIsWritten(c, f);
      RetainedRun(c, w);
    }
  }

  lemma RetainedRun(c: Contract, w: World)
    requires w.process.Publishing? && w.process == Start(w.process.report) && MeetsContract(c, w.process.report)
    requires w.disk.recovery == Some(RecoveryFor(c, w.process.report))
    ensures Run(c, w, Advances(10)).disk
         == if w.disk.output.None? && Settled(c.base(w.process.report)) <= c.maxBytes
            then Disk(Some(Complete(c, w.process.report)), w.disk.recovery) else w.disk
  {
    if w.disk.output.Some? {
      FirstAdvance(c, w, 9);
      IdleStays(c, Publish(c, w), 9);
    } else if Settled(c.base(w.process.report)) <= c.maxBytes {
      UninterruptedPublishes(c, w);
    } else {
      OverBudgetStops(c, w, 10);
    }
  }

  /** The first three steps put the report's recovery file in place. */
  lemma RecoveryIsWritten(c: Contract, w: World, n: nat) returns (w': World)
    requires Sound(c, w) == true && w.process.Publishing? && w.process.stage == 0 && w.disk.output.None?
    ensures Run(c, w, Advances(n + 3)) == Run(c, w', Advances(n))
    ensures Sound(c, w') == true && w'.process.Publishing? && w'.process.stage == 3
    ensures w'.process.report == w.process.report
    ensures w'.disk == Disk(None, Some(RecoveryFor(c, w.process.report)))
  {
    StageAdvances(c, w);
    FirstAdvance(c, w, n + 2);
    var w1 := Publish(c, w);
    StageAdvances(c, w1);
    FirstAdvance(c, w1, n + 1);
    var w2 := Publish(c, w1);
    StageAdvances(c, w2);
    FirstAdvance(c, w2, n);
    w' := Publish(c, w2);
  }

  /** A whole run without a recovery file: with an output present or nothing computed the disk is left as it was;
      otherwise the recovery file is the computed report's, and the output is complete for it if and only if the
      settled size is within budget. */
  lemma FirstRunOutcome(c: Contract, d: Disk, computed: Option<Report>)
    requires d.recovery == None && (computed.Some? ==> MeetsContract(c, computed.value))
    ensures var r := Run(c, World(d, Idle), [Begin(computed)] + Advances(10)).disk;
      if d.output.Some? || computed.None? then r == d
      else
        && r.recovery == Some(Recovery(c.recoverySchema, c.identity, c.sha(computed.value), computed.value))
        && r.output == (if Settled(c.base(computed.value)) <= c.maxBytes then Some(Complete(c, computed.value)) else None)
  {
    var w := World(d, BeginRun(c, d, computed));
    FirstEvent(c, World(d, Idle), Begin(computed), 10);
    if d.output.Some? || computed.None? {
      IdleStays(c, w, 10);
    } else {
      var w' := RecoveryIsWritten(c, w, 7);
      if Settled(c.base(computed.value)) <= c.maxBytes {
        UninterruptedPublishes(c, w');
      } else {
        OverBudgetStops(c, w', 7);
      }
    }
  }

  /** Equal but for one entry. */
  ghost predicate AgreeExcept<V>(a: map<string, V>, b: map<string, V>, except: string) {
    a.Keys - {except} == b.Keys - {except} && forall k :: k in a && k in b && k != except ==> a[k] == b[k]
  }

  lemma AgreeWithout<V>(a: map<string, V>, b: map<string, V>, except: string)
    ensures AgreeExcept(a, b, except) <==> a - {except} == b - {except}
  {
    var x, y := a - {except}, b - {except};
    if x == y {
      assert x.Keys == a.Keys - {except} && y.Keys == b.Keys - {except};
      forall k | k in a && k in b && k != except ensures a[k] == b[k] { assert k in x && x[k] == y[k]; }
    }
    if AgreeExcept(a, b, except) {
      assert forall k :: k in x <==> k in a.Keys - {except};
      assert forall k :: k in y <==> k in b.Keys - {except};
    }
  }

  /** What the viewer's check accepts: the two reports agree on everything but output_bytes, and the recovery file
      carries its report's digest and the expected identity. */
  lemma BindingIsExact(c: Contract, audit: Report, f: Recovery)
    requires f.Recovery? && HasResources(audit) && HasResources(f.report)
    ensures ViewerBinds(c, audit, f) <==>
      && f.digest == c.sha(f.report) && f.identity == c.identity
      && AgreeExcept(audit, f.report, "resources")
      && AgreeExcept(audit["resources"].fields, f.report["resources"].fields, "output_bytes")
  {
    var a, b := PopBytes(audit), PopBytes(f.report);
    AgreeWithout(audit, f.report, "resources");
    AgreeWithout(audit["resources"].fields, f.report["resources"].fields, "output_bytes");
    assert a - {"resources"} == audit - {"resources"} && b - {"resources"} == f.report - {"resources"};
    SplitEntry(a, "resources");
    SplitEntry(b, "resources");
  }

  lemma SplitEntry(a: Report, k: string)
    requires k in a
    ensures a == (a - {k})[k := a[k]]
  {
  }

  /** After a crash anywhere past the recovery write, one undisturbed run publishes the retained report. */
  lemma CrashIsRecovered(c: Contract, w: World, computed: Option<Report>)
    requires Sound(c, w) && w.process.Publishing? && w.process.stage >= 3
    requires Settled(c.base(w.process.report)) <= c.maxBytes && (computed.Some? ==> MeetsContract(c, computed.value))
    ensures Run(c, w, [Crash] + ([Begin(computed)] + Advances(10))).disk
         == Disk(Some(Complete(c, w.process.report)), Some(RecoveryFor(c, w.process.report)))
  {
    RunConcat(c, w, [Crash], [Begin(computed)] + Advances(10));
    assert [Crash][..0] == [];
    assert Run(c, w, [Crash]) == World(w.disk, Idle);
    RecoveryRunOutcome(c, w.disk, RecoveryFor(c, w.process.report), computed);
  }

  /** The size recorded in a published report is the published directory's size. */
  lemma RecordedBytesAreReal(c: Contract, r: Report)
    requires HasResources(r)
    ensures var recorded := Complete(c, r).aggregate.value;
      && HasResources(recorded) && "output_bytes" in recorded["resources"].fields
      && var n := recorded["resources"].fields["output_bytes"]; n.JInt? && n.n == Measured(c.base(r), n.n)
  {
  }
}
