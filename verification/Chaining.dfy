/**
 Chaining ends: when every rule is one-shot, the loop "dispatch, result event, ingest, dispatch"
 runs dry on its own, and what it leaves behind is finished work.
 */
module Chaining {
  import opened Core
  import opened StoreModel
  import opened StoreLaws
  import opened Engine
  import opened WorkerSafety
  import opened WakeUps
  import opened Counting

  predicate AllOneShot(db: Db) {
    forall r :: r in db.rules ==> db.rules[r].oneShot
  }

  // ---------- Work still to come ----------

  ghost function Unconsumed(db: Db): set<string> {
    set r | r in db.rules && !db.rules[r].consumed
  }

  /** Rows still to be dispatched: the pending ones, and before the boot reset the running ones too. */
  predicate InQueue(c: Continuation, booting: bool) {
    c.state.Pending? || (booting && c.state.Running?)
  }

  ghost function Queue(db: Db, booting: bool): set<string> {
    set id | id in db.conts && InQueue(db.conts[id], booting)
  }

  /** An upper bound on the dispatches still to come: each one needs a queued row or an unconsumed rule. */
  ghost function Backlog(s: Sys): nat {
    |Unconsumed(s.db)| + |Queue(s.db, s.disp.Booting?)|
  }

  // ---------- The measure ----------

  // Weights for at most n pending sessions. A futile worker (no pending row) costs a wake-up and
  // with it one more scan; a worker that will find a row is cheap, because the row pays for the rest.
  function ScanWeight(n: nat): nat { 4 * n + 2 }
  function TokenWeight(n: nat): nat { ScanWeight(n) + 1 }
  function LeaverWeight(n: nat): nat { TokenWeight(n) + 1 }
  function ExitWeight(n: nat): nat { LeaverWeight(n) + 1 }
  function NotifyWeight(n: nat): nat { ExitWeight(n) + 3 + TokenWeight(n) }
  function RowWeight(n: nat): nat { NotifyWeight(n) + ExitWeight(n) + 12 }

  function PcWeight(n: nat, pc: WorkerPc, pending: bool): nat {
    match pc
    case Top => if pending then 3 else ExitWeight(n) + 2
    case Fetching => if pending then 2 else ExitWeight(n) + 1
    case Claiming(_) => 1
    case LookingUp(_) => NotifyWeight(n) + 7
    case Starting(_) => NotifyWeight(n) + 6
    case InResume(_) => NotifyWeight(n) + 5
    case Returned(_, _, _) => NotifyWeight(n) + 4
    case Judging(_, _, _) => NotifyWeight(n) + 3
    case Recording(_, _, _) => NotifyWeight(n) + 2
    case Emitting(_, _) => NotifyWeight(n) + 1
    case Notifying => NotifyWeight(n)
    case Exiting => ExitWeight(n)
  }

  function EntryWeight(n: nat, pending: bool): nat {
    if pending then 4 else ExitWeight(n) + 3
  }

  ghost function WorkerWeights(n: nat, db: Db, workers: map<string, WorkerPc>): map<string, nat> {
    map w | w in workers :: PcWeight(n, workers[w], HasPending(db, w))
  }

  ghost function EntryWeights(n: nat, db: Db, todo: set<string>): map<string, nat> {
    map w | w in todo :: EntryWeight(n, HasPending(db, w))
  }

  ghost function DispWeight(n: nat, db: Db, disp: DispPc): nat {
    match disp
    case Booting => ScanWeight(n) + 1
    case Scanning => ScanWeight(n)
    case Spawning(todo) => 1 + Total(EntryWeights(n, db, todo))
    case _ => 0
  }

  /** The part of the measure that follows the goroutines. */
  ghost function Bustle(n: nat, s: Sys): nat {
    DispWeight(n, s.db, s.disp) + Total(WorkerWeights(n, s.db, s.workers))
    + (if s.token then TokenWeight(n) else 0)
    + s.leaving * LeaverWeight(n) + s.owing * LeaverWeight(n)
  }

  ghost function Measure(n: nat, s: Sys): nat {
    Backlog(s) * RowWeight(n) + Bustle(n, s)
  }

  // ---------- Steps that only move goroutines ----------

  lemma MoveWeight(n: nat, db: Db, workers: map<string, WorkerPc>, w: string, pc: WorkerPc)
    requires w in workers
    ensures Total(WorkerWeights(n, db, workers[w := pc])) + PcWeight(n, workers[w], HasPending(db, w))
         == Total(WorkerWeights(n, db, workers)) + PcWeight(n, pc, HasPending(db, w))
  {
    var m := WorkerWeights(n, db, workers);
    var v := PcWeight(n, pc, HasPending(db, w));
    assert WorkerWeights(n, db, workers[w := pc]) == m[w := v];
    TotalSplit(m, w);
    TotalUpdate(m, w, v);
  }

  lemma SpawnWeight(n: nat, db: Db, workers: map<string, WorkerPc>, w: string)
    requires w !in workers
    ensures Total(WorkerWeights(n, db, workers[w := Top]))
         == Total(WorkerWeights(n, db, workers)) + PcWeight(n, Top, HasPending(db, w))
  {
    var m := WorkerWeights(n, db, workers);
    var v := PcWeight(n, Top, HasPending(db, w));
    assert WorkerWeights(n, db, workers[w := Top]) == m[w := v];
    TotalUpdate(m, w, v);
    assert m - {w} == m;
  }

  lemma ExitWeightGone(n: nat, db: Db, workers: map<string, WorkerPc>, w: string)
    requires w in workers && workers[w].Exiting?
    ensures Total(WorkerWeights(n, db, workers - {w})) + ExitWeight(n) == Total(WorkerWeights(n, db, workers))
  {
    var m := WorkerWeights(n, db, workers);
    assert WorkerWeights(n, db, workers - {w}) == m - {w};
    TotalSplit(m, w);
  }

  lemma EntryGone(n: nat, db: Db, todo: set<string>, w: string)
    requires w in todo
    ensures Total(EntryWeights(n, db, todo - {w})) + EntryWeight(n, HasPending(db, w))
         == Total(EntryWeights(n, db, todo))
  {
    var m := EntryWeights(n, db, todo);
    assert EntryWeights(n, db, todo - {w}) == m - {w};
    TotalSplit(m, w);
  }

  /** A scan lists each pending session once, so its answer is no longer than the queue. */
  lemma ScanSize(n: nat, db: Db)
    requires |Queue(db, false)| <= n
    ensures Total(EntryWeights(n, db, PendingSessions(db))) <= 4 * n
  {
    var m := EntryWeights(n, db, PendingSessions(db));
    TotalAllEqual(m, 4);
    assert m.Keys == PendingSessions(db) && |m| == |m.Keys|;
    var f := map id | id in Queue(db, false) :: db.conts[id].sessionId;
    forall w | w in PendingSessions(db) ensures exists id :: id in Queue(db, false) && f[id] == w {
      var id :| IsPending(db, w, id);
      assert id in Queue(db, false) && f[id] == w;
    }
    ImageSize(Queue(db, false), f, PendingSessions(db));
  }

  /** More pending sessions only make goroutines cheaper. */
  lemma MorePending(n: nat, db: Db, db': Db, disp: DispPc, workers: map<string, WorkerPc>)
    requires forall w :: HasPending(db, w) ==> HasPending(db', w)
    ensures DispWeight(n, db', disp) <= DispWeight(n, db, disp)
    ensures Total(WorkerWeights(n, db', workers)) <= Total(WorkerWeights(n, db, workers))
  {
    TotalMonotone(WorkerWeights(n, db', workers), WorkerWeights(n, db, workers));
    if disp.Spawning? {
      TotalMonotone(EntryWeights(n, db', disp.todo), EntryWeights(n, db, disp.todo));
    }
  }

  lemma SamePending(n: nat, db: Db, db': Db, disp: DispPc, workers: map<string, WorkerPc>)
    requires forall w :: HasPending(db, w) <==> HasPending(db', w)
    ensures DispWeight(n, db', disp) == DispWeight(n, db, disp)
    ensures Total(WorkerWeights(n, db', workers)) == Total(WorkerWeights(n, db, workers))
  {
    MorePending(n, db, db', disp, workers);
    MorePending(n, db', db, disp, workers);
  }

  lemma OutShrinks(n: nat, s: Sys, o: Outside)
    requires OutEnabled(s, o) && Driven(Out(o))
    ensures Backlog(OutApply(s, o)) == Backlog(s) && Bustle(n, OutApply(s, o)) < Bustle(n, s)
  {
    hide Total, WorkerWeights, DispWeight;
    OneMore(s.leaving - (if o.LeaverWakes? then 1 else 0), LeaverWeight(n));
    OneMore(s.owing - (if o.ProducerWakes? then 1 else 0), LeaverWeight(n));
  }

  /** Moving a worker to a lighter program counter, with at most a wake-up on top. */
  ghost predicate Lighter(n: nat, s: Sys, w: string, k: Work)
    requires WorkEnabled(s, w, k)
  {
    PcWeight(n, WorkPc(s, w, k), HasPending(s.db, w)) + (if k.Notify? then TokenWeight(n) else 0)
      < PcWeight(n, s.workers[w], HasPending(s.db, w))
  }

  lemma WorkIsLighter(n: nat, s: Sys, w: string, k: Work)
    requires WorkEnabled(s, w, k) && !s.cancelled && !k.Claim? && !k.Deregister?
    requires k.Fetch? && k.found.Some? ==> HasPending(s.db, w)
    ensures Lighter(n, s, w, k)
  {
    hide OpOk, NewRows, JudgeRun, IsOldestPending;
  }

  lemma FetchFindsPending(s: Sys, w: string, k: Work)
    requires WorkEnabled(s, w, k) && k.Fetch? && k.found.Some?
    ensures HasPending(s.db, w)
  {
    assert IsPending(s.db, w, k.found.value);
  }

  /** The calls of these steps leave every queue as it is. */
  lemma SameQueue(s: Sys, w: string, k: Work)
    requires WorkEnabled(s, w, k) && WorkerOk(s.db.conts, w, s.workers[w]) && !k.Claim? && !k.Emit?
    ensures forall x, id :: IsPending(WorkApply(s, w, k).db, x, id) <==> IsPending(s.db, x, id)
    ensures WorkApply(s, w, k).db.rules == s.db.rules
  {
    hide OpOk, ApplyLedger, WorkHistory, WorkPc;
  }

  lemma SameQueueMeans(db: Db, db': Db)
    requires forall x, id :: IsPending(db', x, id) <==> IsPending(db, x, id)
    ensures Queue(db', false) == Queue(db, false)
    ensures forall x :: HasPending(db, x) <==> HasPending(db', x)
  {
    forall x ensures HasPending(db, x) <==> HasPending(db', x) {
      if id :| IsPending(db, x, id) { assert IsPending(db', x, id); }
      if id :| IsPending(db', x, id) { assert IsPending(db, x, id); }
    }
    forall id ensures id in Queue(db', false) <==> id in Queue(db, false) {
      if id in db.conts {
        assert IsPending(db', db.conts[id].sessionId, id) <==> IsPending(db, db.conts[id].sessionId, id);
      }
      if id in db'.conts {
        assert IsPending(db', db'.conts[id].sessionId, id) <==> IsPending(db, db'.conts[id].sessionId, id);
      }
    }
  }

  lemma WorkShrinks(n: nat, s: Sys, w: string, k: Work)
    requires WorkEnabled(s, w, k) && WorkerOk(s.db.conts, w, s.workers[w]) && !s.cancelled && !s.disp.Booting?
    requires !k.Claim? && !k.Emit?
    ensures Backlog(WorkApply(s, w, k)) == Backlog(s) && Bustle(n, WorkApply(s, w, k)) < Bustle(n, s)
  {
    var s' := WorkApply(s, w, k);
    SameQueue(s, w, k);
    SameQueueMeans(s.db, s'.db);
    SamePending(n, s.db, s'.db, s.disp, s'.workers);
    hide Total, WorkerWeights, DispWeight, OpOk, ApplyOp, ApplyLedger, WorkHistory, HasPending, Queue, PcWeight;
    if k.Deregister? {
      ExitWeightGone(n, s.db, s.workers, w);
      OneMore(s.leaving, LeaverWeight(n));
    } else {
      if k.Fetch? && k.found.Some? { FetchFindsPending(s, w, k); }
      WorkIsLighter(n, s, w, k);
      MoveWeight(n, s.db, s.workers, w, WorkPc(s, w, k));
    }
  }

  lemma DisShrinks(n: nat, s: Sys, d: Dispatch)
    requires DisEnabled(s, d) && !d.Tick? && !d.BootReset? && !s.cancelled && Backlog(s) <= n
    requires s.disp.Draining? ==> s.cancelled
    ensures Backlog(DisApply(s, d)) == Backlog(s) && Bustle(n, DisApply(s, d)) < Bustle(n, s)
  {
    match d
    case Scan => ScanSize(n, s.db);
    case Spawn(w) =>
      EntryGone(n, s.db, s.disp.todo, w);
      if w !in s.workers { SpawnWeight(n, s.db, s.workers, w); }
    case _ =>
  }

  /** The boot reset queues again exactly the rows that were counted as queued before it. */
  lemma BootShrinks(n: nat, s: Sys, at: Instant)
    requires DisEnabled(s, BootReset(at)) && s.workers == map[]
    ensures Backlog(DisApply(s, BootReset(at))) == Backlog(s)
    ensures Bustle(n, DisApply(s, BootReset(at))) < Bustle(n, s)
  {
    var s' := DisApply(s, BootReset(at));
    assert Queue(s'.db, false) == Queue(s.db, true);
    assert WorkerWeights(n, s'.db, s'.workers) == WorkerWeights(n, s.db, s.workers);
  }

  // ---------- Claiming a row ----------

  lemma ClaimPending(db: Db, w: string, id: string, at: Instant)
    requires IsPending(db, w, id)
    ensures forall x :: x != w ==> (HasPending(ClaimDb(db, id, at), x) <==> HasPending(db, x))
    ensures Queue(ClaimDb(db, id, at), false) == Queue(db, false) - {id}
  {
    var db' := ClaimDb(db, id, at);
    forall x | x != w ensures HasPending(db', x) <==> HasPending(db, x) {
      if j :| IsPending(db, x, j) { assert IsPending(db', x, j); }
      if j :| IsPending(db', x, j) { assert IsPending(db, x, j); }
    }
  }

  /** Only the snapshot entry of that session can get dearer, and by less than a row is worth. */
  lemma ClaimDispWeight(n: nat, db: Db, db': Db, disp: DispPc, w: string)
    requires forall x :: x != w ==> (HasPending(db', x) <==> HasPending(db, x))
    ensures DispWeight(n, db', disp) <= DispWeight(n, db, disp) + ExitWeight(n) + 3
  {
    hide EntryWeights, HasPending, Total;
    if disp.Spawning? {
      if w in disp.todo {
        EntryGone(n, db, disp.todo, w);
        EntryGone(n, db', disp.todo, w);
      }
      SameEntries(n, db, db', disp.todo - {w}, w);
      assert w !in disp.todo ==> disp.todo - {w} == disp.todo;
    }
  }

  lemma SameEntries(n: nat, db: Db, db': Db, todo: set<string>, w: string)
    requires w !in todo && forall x :: x != w ==> (HasPending(db', x) <==> HasPending(db, x))
    ensures EntryWeights(n, db', todo) == EntryWeights(n, db, todo)
  {
    hide HasPending;
  }

  lemma ClaimWorkerWeight(n: nat, db: Db, db': Db, workers: map<string, WorkerPc>, w: string, c: Continuation)
    requires forall x :: x != w ==> (HasPending(db', x) <==> HasPending(db, x))
    requires w in workers && workers[w].Claiming?
    ensures Total(WorkerWeights(n, db', workers[w := LookingUp(c)]))
         == Total(WorkerWeights(n, db, workers)) + NotifyWeight(n) + 6
  {
    assert WorkerWeights(n, db', workers[w := LookingUp(c)]) == WorkerWeights(n, db, workers[w := LookingUp(c)]);
    MoveWeight(n, db, workers, w, LookingUp(c));
  }

  lemma ClaimShrinks(n: nat, s: Sys, w: string, k: Work)
    requires WorkEnabled(s, w, k) && k.Claim? && !s.disp.Booting?
    requires IsPending(s.db, w, s.workers[w].c.id)
    ensures Backlog(WorkApply(s, w, k)) + 1 == Backlog(s)
    ensures Bustle(n, WorkApply(s, w, k)) < Bustle(n, s) + RowWeight(n)
  {
    var s', id := WorkApply(s, w, k), s.workers[w].c.id;
    assert s'.db == ClaimDb(s.db, id, k.at) && s'.workers == s.workers[w := LookingUp(s.workers[w].c)];
    ClaimPending(s.db, w, id, k.at);
    ClaimDispWeight(n, s.db, s'.db, s.disp, w);
    ClaimWorkerWeight(n, s.db, s'.db, s.workers, w, s.workers[w].c);
    assert id in Queue(s.db, false);
    hide Total, WorkerWeights, DispWeight, OpOk, ApplyOp, ApplyLedger, HasPending;
  }

  // ---------- Ingesting a result event ----------

  lemma IngestConsumes(db: Db, ev: Event, at: Instant, mint: map<string, Mint>)
    requires MintOk(db, ev, at, mint) && AllOneShot(db)
    ensures AllOneShot(IngestDb(db, ev, at, mint))
    ensures |Unconsumed(IngestDb(db, ev, at, mint))| == |Unconsumed(db)| - |Firing(db, ev, at)|
  {
    FiringIsUnconsumed(db, ev, at);
    hide MintOk, Firing, RowsFor;
    var db', fire := IngestDb(db, ev, at, mint), Firing(db, ev, at);
    assert db'.rules == Consume(db.rules, fire);
    assert Unconsumed(db') == Unconsumed(db) - fire;
  }

  lemma FiringIsUnconsumed(db: Db, ev: Event, at: Instant)
    ensures Firing(db, ev, at) <= Unconsumed(db)
  {
    hide Fired;
  }

  lemma IngestQueues(db: Db, ev: Event, at: Instant, mint: map<string, Mint>, booting: bool)
    requires MintOk(db, ev, at, mint)
    ensures |Queue(IngestDb(db, ev, at, mint), booting)| <= |Queue(db, booting)| + |Firing(db, ev, at)|
  {
    var fire := Firing(db, ev, at);
    var born := RowsFor(db.rules, fire, ev, at, mint).Keys;
    InjectionSize(born, fire, map id | id in mint :: mint[id].ruleId);
    hide Firing;
    QueueGrowsBy(db, IngestDb(db, ev, at, mint), born, booting);
  }

  lemma IngestKeepsPending(db: Db, ev: Event, at: Instant, mint: map<string, Mint>, w: string)
    requires MintOk(db, ev, at, mint) && HasPending(db, w)
    ensures HasPending(IngestDb(db, ev, at, mint), w)
  {
    hide Firing;
    var id :| IsPending(db, w, id);
    assert IsPending(IngestDb(db, ev, at, mint), w, id);
  }

  /** Each row an ingest creates is paid for with a rule it consumes. */
  lemma IngestTrades(db: Db, ev: Event, at: Instant, mint: map<string, Mint>, booting: bool)
    requires MintOk(db, ev, at, mint) && AllOneShot(db)
    ensures var db' := IngestDb(db, ev, at, mint);
      && AllOneShot(db')
      && |Unconsumed(db')| + |Queue(db', booting)| <= |Unconsumed(db)| + |Queue(db, booting)|
      && forall w :: HasPending(db, w) ==> HasPending(db', w)
  {
    hide MintOk, IngestDb, AllOneShot, HasPending, Unconsumed, Queue;
    IngestConsumes(db, ev, at, mint);
    IngestQueues(db, ev, at, mint, booting);
    forall w | HasPending(db, w) ensures HasPending(IngestDb(db, ev, at, mint), w) {
      IngestKeepsPending(db, ev, at, mint, w);
    }
  }

  lemma QueueGrowsBy(db: Db, db': Db, born: set<string>, booting: bool)
    requires forall id :: id in db'.conts ==> id in born || (id in db.conts && db'.conts[id] == db.conts[id])
    ensures |Queue(db', booting)| <= |Queue(db, booting)| + |born|
  {
    assert Queue(db', booting) <= Queue(db, booting) + born;
    Subset(Queue(db', booting), Queue(db, booting) + born);
  }

  lemma Subset(a: set<string>, b: set<string>)
    requires a <= b
    ensures |a| <= |b|
  {
    assert b == a + (b - a);
  }

  lemma EmitIsIngest(s: Sys, w: string, k: Work)
    requires WorkEnabled(s, w, k) && k.Emit?
    ensures var ev := ResultEvent(s.workers[w].c, s.workers[w].v, k.evId, k.at);
      && MintOk(s.db, ev, k.at, k.mint)
      && WorkApply(s, w, k).db == IngestDb(s.db, ev, k.at, k.mint)
      && WorkApply(s, w, k).workers == s.workers[w := WorkPc(s, w, k)]
  {
    hide IngestDb, MintOk, ApplyLedger, WorkHistory;
  }

  lemma EmitShrinks(n: nat, s: Sys, w: string, k: Work)
    requires WorkEnabled(s, w, k) && k.Emit? && AllOneShot(s.db) && !s.disp.Booting? && !s.cancelled
    ensures Backlog(WorkApply(s, w, k)) <= Backlog(s) && Bustle(n, WorkApply(s, w, k)) < Bustle(n, s)
    ensures AllOneShot(WorkApply(s, w, k).db)
  {
    hide Total, WorkerWeights, DispWeight, OpOk, ApplyOp, ApplyLedger, HasPending, Queue, Unconsumed, PcWeight,
         AllOneShot, IngestDb, MintOk, WorkHistory, WorkPc, ResultEvent;
    var s', ev := WorkApply(s, w, k), ResultEvent(s.workers[w].c, s.workers[w].v, k.evId, k.at);
    EmitIsIngest(s, w, k);
    IngestTrades(s.db, ev, k.at, k.mint, false);
    WorkIsLighter(n, s, w, k);
    MoveWeight(n, s.db, s.workers, w, WorkPc(s, w, k));
    MorePending(n, s.db, s'.db, s.disp, s'.workers);
  }

  // ---------- Every driven step shrinks the measure ----------

  predicate IsDispatch(a: Action) { a.Wrk? && a.k.Claim? }

  /** How many steps of the run are of this kind. */
  function Count(run: seq<Action>, kind: Action -> bool): nat {
    if run == [] then 0 else (if kind(run[0]) then 1 else 0) + Count(run[1..], kind)
  }

  function Dispatches(run: seq<Action>): nat { Count(run, IsDispatch) }

  ghost predicate Settling(s: Sys) { Safe(s) && !s.cancelled && AllOneShot(s.db) }

  lemma OneShotKept(db: Db, led: Ledger, op: Op)
    requires OpOk(db, led, op) && AllOneShot(db) && !op.OpAddRule?
    ensures AllOneShot(ApplyOp(db, op))
  {
  }

  /** One step: the backlog never grows, a dispatch uses some of it up, and otherwise the bustle shrinks. */
  lemma StepShrinks(n: nat, s: Sys, a: Action)
    requires Settling(s) && Driven(a) && Enabled(s, a) && Backlog(s) <= n
    ensures Backlog(Apply(s, a)) + (if IsDispatch(a) then 1 else 0) <= Backlog(s)
    ensures Bustle(n, Apply(s, a)) < Bustle(n, s) + (if IsDispatch(a) then RowWeight(n) else 0)
  {
    match a
    case Out(o) => OutShrinks(n, s, o);
    case Dis(d) => if d.BootReset? { BootShrinks(n, s, d.at); } else { DisShrinks(n, s, d); }
    case Wrk(w, k) =>
      assert WorkerOk(s.db.conts, w, s.workers[w]);
      assert !s.disp.Booting?;
      hide Safe, Backlog, Bustle, WorkApply, OpOk;
      if k.Claim? { ClaimShrinks(n, s, w, k); }
      else if k.Emit? { EmitShrinks(n, s, w, k); }
      else { WorkShrinks(n, s, w, k); }
  }

  lemma MeasureShrinks(n: nat, s: Sys, a: Action)
    requires Settling(s) && Driven(a) && Enabled(s, a) && Backlog(s) <= n
    ensures Measure(n, Apply(s, a)) < Measure(n, s)
  {
    hide Settling, Apply, Enabled, Backlog, Bustle, RowWeight;
    StepShrinks(n, s, a);
    var b, b' := Backlog(s), Backlog(Apply(s, a));
    if IsDispatch(a) { OneMore(b', RowWeight(n)); Times(b' + 1, b, RowWeight(n)); } else { Times(b', b, RowWeight(n)); }
  }

  lemma Times(x: nat, y: nat, z: nat)
    requires x <= y
    ensures x * z <= y * z
  {
  }

  // ---------- Other steps, and what each may cost ----------

  predicate IsTick(a: Action) { a == Dis(Tick) }

  /** Sweeps, registrations and rule removals: they bring in no work. */
  predicate IsUpkeep(a: Action) { a.Out? && a.o.Administer? && !a.o.op.OpAddRule? }

  predicate IsInjection(a: Action) { a.Out? && a.o.Inject? }
  predicate IsManual(a: Action) { a.Out? && a.o.RunManually? }

  /** What the daemon does while nobody injects events or runs anything by hand; it sweeps at boot and every hour. */
  predicate Unattended(a: Action) { Driven(a) || IsTick(a) || IsUpkeep(a) }

  /** Every step but shutdown, a crash and the adding of rules. */
  predicate Ordinary(a: Action) { Unattended(a) || IsInjection(a) || IsManual(a) }

  function Ticks(run: seq<Action>): nat { Count(run, IsTick) }
  function Upkeeps(run: seq<Action>): nat { Count(run, IsUpkeep) }
  function Injections(run: seq<Action>): nat { Count(run, IsInjection) }
  function Manuals(run: seq<Action>): nat { Count(run, IsManual) }

  /** How many steps this one may bring, itself included: a scan, a wake-up, or a whole row. */
  function Cost(n: nat, a: Action): nat {
    if IsTick(a) then ScanWeight(n) + 1
    else if IsUpkeep(a) then 1
    else if IsInjection(a) then LeaverWeight(n) + 1
    else if IsManual(a) then RowWeight(n) + LeaverWeight(n) + 1
    else 0
  }

  function Allowance(n: nat, run: seq<Action>): nat {
    Ticks(run) * (ScanWeight(n) + 1) + Upkeeps(run) + Injections(run) * (LeaverWeight(n) + 1)
    + Manuals(run) * (RowWeight(n) + LeaverWeight(n) + 1)
  }

  lemma AllowanceOfStep(n: nat, run: seq<Action>)
    requires run != []
    ensures Allowance(n, run) == Cost(n, run[0]) + Allowance(n, run[1..])
  {
    hide ScanWeight, LeaverWeight, RowWeight;
    OneMore(Ticks(run[1..]), ScanWeight(n) + 1);
    OneMore(Injections(run[1..]), LeaverWeight(n) + 1);
    OneMore(Manuals(run[1..]), RowWeight(n) + LeaverWeight(n) + 1);
  }

  /** A tick costs one scan and nothing else. */
  lemma TickStep(n: nat, s: Sys)
    requires Settling(s) && DisEnabled(s, Tick)
    ensures Backlog(DisApply(s, Tick)) == Backlog(s)
    ensures Measure(n, DisApply(s, Tick)) == Measure(n, s) + ScanWeight(n)
  {
    hide Safe, Total, WorkerWeights, ScanWeight, RowWeight;
  }

  /** Upkeep leaves every queue as it is and can only take rules away. */
  lemma UpkeepTables(db: Db, op: Op, booting: bool)
    requires op.OpRemoveRule? || op.OpRegister? || op.OpSweep?
    ensures var db' := ApplyOp(db, op);
      Queue(db', booting) == Queue(db, booting) && Unconsumed(db') <= Unconsumed(db)
    ensures forall w :: HasPending(db, w) <==> HasPending(ApplyOp(db, op), w)
  {
    var db' := ApplyOp(db, op);
    forall w ensures HasPending(db, w) <==> HasPending(db', w) {
      if id :| IsPending(db, w, id) { assert IsPending(db', w, id); }
      if id :| IsPending(db', w, id) { assert IsPending(db, w, id); }
    }
  }

  lemma UpkeepStep(n: nat, s: Sys, o: Outside)
    requires OutEnabled(s, o) && IsUpkeep(Out(o))
    ensures Backlog(OutApply(s, o)) <= Backlog(s) && Bustle(n, OutApply(s, o)) == Bustle(n, s)
  {
    hide Total, WorkerWeights, DispWeight, OpOk, ApplyOp, ApplyLedger, HasPending, Queue, Unconsumed;
    var db' := ApplyOp(s.db, o.op);
    UpkeepTables(s.db, o.op, s.disp.Booting?);
    Subset(Unconsumed(db'), Unconsumed(s.db));
    SamePending(n, s.db, db', s.disp, s.workers);
  }

  lemma InjectIsIngest(s: Sys, o: Outside)
    requires OutEnabled(s, o) && o.Inject?
    ensures MintOk(s.db, o.ev, o.at, o.mint)
    ensures var s' := OutApply(s, o);
      s'.db == IngestDb(s.db, o.ev, o.at, o.mint) && s' == s.(db := s'.db, led := s'.led, owing := s'.owing)
      && s'.owing <= s.owing + 1
  {
    hide IngestDb, MintOk, ApplyLedger, NewRows;
  }

  /** An injection trades rules for rows like any ingest, and owes at most one wake-up. */
  lemma InjectionStep(n: nat, s: Sys, o: Outside)
    requires OutEnabled(s, o) && o.Inject? && AllOneShot(s.db)
    ensures Backlog(OutApply(s, o)) <= Backlog(s) && Bustle(n, OutApply(s, o)) <= Bustle(n, s) + LeaverWeight(n)
  {
    hide Total, WorkerWeights, DispWeight, OutEnabled, OutApply, HasPending, Queue, Unconsumed, AllOneShot, IngestDb,
         MintOk, LeaverWeight, TokenWeight;
    var s' := OutApply(s, o);
    InjectIsIngest(s, o);
    IngestTrades(s.db, o.ev, o.at, o.mint, s.disp.Booting?);
    MorePending(n, s.db, s'.db, s.disp, s.workers);
    Times(s'.owing, s.owing + 1, LeaverWeight(n));
    OneMore(s.owing, LeaverWeight(n));
  }

  lemma InsertKeepsPending(db: Db, row: Continuation, w: string)
    requires row.id !in db.conts && HasPending(db, w)
    ensures HasPending(InsertDb(db, row), w)
  {
    var id :| IsPending(db, w, id);
    assert IsPending(InsertDb(db, row), w, id);
  }

  /** A manual run is one more row to dispatch, and owes a wake-up. */
  lemma ManualStep(n: nat, s: Sys, o: Outside)
    requires OutEnabled(s, o) && o.RunManually?
    ensures Backlog(OutApply(s, o)) <= Backlog(s) + 1 && Bustle(n, OutApply(s, o)) <= Bustle(n, s) + LeaverWeight(n)
  {
    hide Total, WorkerWeights, DispWeight, HasPending, Queue, ApplyLedger, LeaverWeight, TokenWeight;
    var s' := OutApply(s, o);
    QueueGrowsBy(s.db, s'.db, {o.row.id}, s.disp.Booting?);
    forall w | HasPending(s.db, w) ensures HasPending(s'.db, w) { InsertKeepsPending(s.db, o.row, w); }
    MorePending(n, s.db, s'.db, s.disp, s.workers);
    OneMore(s.owing, LeaverWeight(n));
  }

  lemma OrdinaryCalls(s: Sys, a: Action)
    requires Ordinary(a) && Enabled(s, a) && !s.cancelled
    ensures !CallOf(s, a).OpAddRule? && !Apply(s, a).cancelled
  {
    hide OpOk, ApplyOp, ApplyLedger, WorkHistory, WorkPc;
  }

  lemma SettlingStep(s: Sys, a: Action)
    requires Settling(s) && Ordinary(a) && Enabled(s, a)
    ensures Settling(Apply(s, a))
  {
    hide Safe, Apply, Enabled, Ordinary, CallOf, ApplyOp, OpOk, AllOneShot;
    SafeStep(s, a);
    StepIsCall(s, a);
    OrdinaryCalls(s, a);
    OneShotKept(s.db, s.led, CallOf(s, a));
  }

  /** A step that is not the dispatcher's or a worker's adds at most its cost. */
  lemma OutsideStep(n: nat, s: Sys, a: Action)
    requires Settling(s) && (IsUpkeep(a) || IsInjection(a) || IsManual(a)) && Enabled(s, a)
    ensures Backlog(Apply(s, a)) <= Backlog(s) + (if IsManual(a) then 1 else 0)
    ensures 1 + Measure(n, Apply(s, a)) <= Measure(n, s) + Cost(n, a)
  {
    hide Backlog, Bustle, RowWeight, LeaverWeight, Safe, OutEnabled, OutApply, AllOneShot;
    var b, b' := Backlog(s), Backlog(Apply(s, a));
    if IsUpkeep(a) {
      UpkeepStep(n, s, a.o);
      Times(b', b, RowWeight(n));
    } else if IsInjection(a) {
      InjectionStep(n, s, a.o);
      Times(b', b, RowWeight(n));
    } else {
      ManualStep(n, s, a.o);
      Times(b', b + 1, RowWeight(n));
      OneMore(b, RowWeight(n));
    }
  }

  /** One step, whichever it is. */
  lemma OrdinaryStep(n: nat, s: Sys, a: Action)
    requires Settling(s) && Ordinary(a) && Enabled(s, a) && Backlog(s) <= n
    ensures Settling(Apply(s, a))
    ensures Backlog(Apply(s, a)) + (if IsDispatch(a) then 1 else 0) <= Backlog(s) + (if IsManual(a) then 1 else 0)
    ensures 1 + Measure(n, Apply(s, a)) <= Measure(n, s) + Cost(n, a)
  {
    hide Settling, Backlog, Measure, ScanWeight, LeaverWeight, RowWeight, OutEnabled, OutApply, WorkEnabled, WorkApply;
    SettlingStep(s, a);
    if IsTick(a) {
      TickStep(n, s);
    } else if Driven(a) {
      StepShrinks(n, s, a);
      MeasureShrinks(n, s, a);
    } else {
      OutsideStep(n, s, a);
    }
  }

  /** Run length is bounded by the measure and what outside steps and ticks may cost; dispatches by the backlog. */
  lemma {:induction false} OrdinaryRunsEnd(n: nat, s: Sys, run: seq<Action>)
    requires Settling(s) && IsRun(s, run) && (forall i :: 0 <= i < |run| ==> Ordinary(run[i]))
    requires Backlog(s) + Manuals(run) <= n
    ensures |run| + Measure(n, End(s, run)) <= Measure(n, s) + Allowance(n, run)
    ensures Dispatches(run) + Backlog(End(s, run)) <= Backlog(s) + Manuals(run)
    ensures Settling(End(s, run))
    decreases |run|
  {
    hide Settling, Apply, Enabled, Backlog, Measure, Allowance, Cost, Ordinary;
    if run == [] {
    } else {
      OrdinaryStep(n, s, run[0]);
      OrdinaryRunsEnd(n, Apply(s, run[0]), run[1..]);
      AllowanceOfStep(n, run);
    }
  }

  lemma {:induction false} NoneOf(run: seq<Action>, kind: Action -> bool)
    requires forall i :: 0 <= i < |run| ==> !kind(run[i])
    ensures Count(run, kind) == 0
  {
    if run == [] {
    } else {
      NoneOf(run[1..], kind);
    }
  }

  /** While nobody injects or runs anything by hand, however often the tick fires and whatever upkeep is done. */
  lemma UnattendedRunsEnd(n: nat, s: Sys, run: seq<Action>)
    requires Settling(s) && IsRun(s, run) && (forall i :: 0 <= i < |run| ==> Unattended(run[i])) && Backlog(s) <= n
    ensures |run| + Measure(n, End(s, run)) <= Measure(n, s) + Ticks(run) * (ScanWeight(n) + 1) + Upkeeps(run)
    ensures Dispatches(run) + Backlog(End(s, run)) <= Backlog(s)
    ensures Settling(End(s, run))
  {
    hide Settling, IsRun, End, Backlog, Measure, ScanWeight, LeaverWeight, RowWeight;
    NoneOf(run, IsInjection);
    NoneOf(run, IsManual);
    OrdinaryRunsEnd(n, s, run);
  }

  /**
   From any reachable state in which every rule is one-shot and shutdown has not been raised, along
   any run without shutdown, crash and new rules: the daemon dispatches at most one row per row now
   queued, per rule not yet consumed and per manual run, whatever events are injected. Beyond a fixed
   allowance for each tick, upkeep step, injection and manual run it takes at most `Measure` steps,
   and where only the tick can move it no row is pending or running.
   */
  lemma ChainingTerminates(init: Sys, history: seq<Action>, run: seq<Action>)
    requires Init(init) && IsRun(init, history) && !End(init, history).cancelled
    requires AllOneShot(End(init, history).db)
    requires IsRun(End(init, history), run) && forall i :: 0 <= i < |run| ==> Ordinary(run[i])
    ensures var s := End(init, history);
      var n := Backlog(s) + Manuals(run);
      && Dispatches(run) <= Backlog(s) + Manuals(run)
      && |run| <= Measure(n, s) + Ticks(run) * (ScanWeight(n) + 1) + Upkeeps(run)
                  + Injections(run) * (LeaverWeight(n) + 1) + Manuals(run) * (RowWeight(n) + LeaverWeight(n) + 1)
      && (!CanStep(End(s, run)) ==>
            forall id :: id in End(s, run).db.conts ==> End(s, run).db.conts[id].state.Terminal())
  {
    hide Init, IsRun, End, Safe, WakeInv, AllOneShot, Backlog, Measure, CanStep, Count, ScanWeight, LeaverWeight,
         RowWeight, Ordinary, Dispatches;
    StartsAwake(init);
    SafeAlways(init, history);
    WakeRun(init, history);
    SettlingRunEnds(End(init, history), run);
  }

  lemma SettlingMeans(s: Sys)
    ensures Settling(s) <==> Safe(s) && !s.cancelled && AllOneShot(s.db)
  {
  }

  lemma SettlingRunEnds(s: Sys, run: seq<Action>)
    requires Safe(s) && WakeInv(s) && !s.cancelled && AllOneShot(s.db)
    requires IsRun(s, run) && forall i :: 0 <= i < |run| ==> Ordinary(run[i])
    ensures var n := Backlog(s) + Manuals(run); |run| <= Measure(n, s) + Allowance(n, run)
    ensures Dispatches(run) <= Backlog(s) + Manuals(run)
    ensures !CanStep(End(s, run)) ==>
      forall id :: id in End(s, run).db.conts ==> End(s, run).db.conts[id].state.Terminal()
  {
    hide *;
    SettlingMeans(s);
    OrdinaryRunsEnd(Backlog(s) + Manuals(run), s, run);
    SettlingMeans(End(s, run));
    SilenceIsDone(s, run);
  }

  /** Where only the tick can move the daemon, everything is finished. */
  lemma SilenceIsDone(s: Sys, run: seq<Action>)
    requires Safe(s) && WakeInv(s) && IsRun(s, run) && !End(s, run).cancelled
    ensures !CanStep(End(s, run)) ==>
      forall id :: id in End(s, run).db.conts ==> End(s, run).db.conts[id].state.Terminal()
  {
    hide Safe, WakeInv, CanStep, IsRun, End;
    SafeAlways(s, run);
    WakeRun(s, run);
    forall id | id in End(s, run).db.conts && !End(s, run).db.conts[id].state.Terminal()
      ensures CanStep(End(s, run))
    {
      WorkMovesOn(End(s, run), id);
    }
  }

  /** Between two ticks: the steps the daemon takes before it falls silent are bounded outright, upkeep apart. */
  lemma SilentWithoutTicks(init: Sys, history: seq<Action>, run: seq<Action>)
    requires Init(init) && IsRun(init, history) && !End(init, history).cancelled
    requires AllOneShot(End(init, history).db)
    requires IsRun(End(init, history), run) && forall i :: 0 <= i < |run| ==> Driven(run[i]) || IsUpkeep(run[i])
    ensures var s := End(init, history); |run| <= Measure(Backlog(s), s) + Upkeeps(run)
  {
    hide Init, IsRun, End, Safe, AllOneShot, Measure, Backlog, ScanWeight;
    NoneOf(run, IsTick);
    StartsAwake(init);
    SafeAlways(init, history);
    SettlingMeans(End(init, history));
    UnattendedRunsEnd(Backlog(End(init, history)), End(init, history), run);
  }

  /** Silence can be reached from anywhere, by the daemon's own steps and without anything going wrong. */
  lemma {:induction false} SilenceIsReachable(n: nat, s: Sys) returns (run: seq<Action>)
    requires Settling(s) && Backlog(s) <= n
    ensures IsRun(s, run) && !CanStep(End(s, run))
    ensures forall i :: 0 <= i < |run| ==> Driven(run[i]) && Favourable(run[i])
    decreases Measure(n, s)
  {
    run := [];
    hide Settling, Apply, Enabled, Backlog, Measure, CanStep, Driven, Favourable;
    if CanStep(s) {
      SettlingBooks(s);
      var a := CanStepWell(s);
      DrivenIsOrdinary(a);
      StepShrinks(n, s, a);
      MeasureShrinks(n, s, a);
      SettlingStep(s, a);
      var rest := SilenceIsReachable(n, Apply(s, a));
      run := [a] + rest;
      assert run[1..] == rest;
    }
  }

  lemma SettlingBooks(s: Sys)
    requires Settling(s)
    ensures RowsKept(s.db, s.led)
  {
  }

  lemma DrivenIsOrdinary(a: Action)
    requires Driven(a)
    ensures Ordinary(a)
  {
  }
}
