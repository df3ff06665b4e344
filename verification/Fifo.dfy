/**
 First in, first out per session, across crashes: whatever was dispatched was created before
 whatever still waits. Exactly when a run keeps that is decided row by row, as rows are created.
 */
module Fifo {
  import opened Core
  import opened StoreModel
  import opened StoreLaws
  import opened Engine
  import opened WorkerSafety
  import opened RunHistory

  /** The row finished by being run (rows that failed to render were never dispatched). */
  predicate Dispatched(conts: map<string, Continuation>, verdicts: map<string, Verdict>, i: string)
    requires i in conts
  {
    conts[i].state.Terminal() && i in verdicts
  }

  /** In one session, finished runs come before the running row, and both before every pending row. */
  predicate PairInOrder(conts: map<string, Continuation>, verdicts: map<string, Verdict>, i: string, j: string)
    requires i in conts && j in conts
  {
    conts[i].sessionId == conts[j].sessionId ==>
      && (Dispatched(conts, verdicts, i) && conts[j].state.Running? ==> Before(conts[i], conts[j]))
      && ((Dispatched(conts, verdicts, i) || conts[i].state.Running?) && conts[j].state.Pending?
          ==> Before(conts[i], conts[j]))
  }

  ghost predicate InOrder(conts: map<string, Continuation>, verdicts: map<string, Verdict>) {
    forall i, j :: i in conts && j in conts ==> PairInOrder(conts, verdicts, i, j)
  }

  /** A worker about to claim has fetched the oldest pending row, and it still is. */
  ghost predicate ClaimersInOrder(db: Db, workers: map<string, WorkerPc>) {
    forall w :: w in workers && workers[w].Claiming? ==> IsOldestPending(db, w, workers[w].c.id)
  }

  ghost predicate FifoInv(s: Sys) {
    InOrder(s.db.conts, s.hist.verdicts) && ClaimersInOrder(s.db, s.workers)
  }

  // ---------- When a new row comes in time ----------

  /** Everything dispatched or running in the row's session was created before it. */
  ghost predicate AfterDispatched(conts: map<string, Continuation>, verdicts: map<string, Verdict>, row: Continuation) {
    forall i :: i in conts && conts[i].sessionId == row.sessionId
                && (Dispatched(conts, verdicts, i) || conts[i].state.Running?)
                ==> Before(conts[i], row)
  }

  /** A row some worker has fetched to claim next was created before the new one, if it is of the same session. */
  ghost predicate AfterFetched(db: Db, workers: map<string, WorkerPc>, row: Continuation) {
    var w := row.sessionId;
    w in workers && workers[w].Claiming? ==>
      workers[w].c.id in db.conts && Before(db.conts[workers[w].c.id], row)
  }

  ghost predicate InTime(s: Sys, rows: map<string, Continuation>) {
    forall n :: n in rows && rows[n].state.Pending? ==>
      AfterDispatched(s.db.conts, s.hist.verdicts, rows[n]) && AfterFetched(s.db, s.workers, rows[n])
  }

  /** The rows the step creates. */
  ghost function RowsOf(s: Sys, a: Action): map<string, Continuation>
    requires Enabled(s, a)
  {
    StepIsCall(s, a);
    NewRows(s.db, CallOf(s, a))
  }

  /** Every row of the run, when it is created, comes after what its session has dispatched, runs or has fetched. */
  ghost predicate TimelyRun(s: Sys, run: seq<Action>)
    requires IsRun(s, run)
    decreases |run|
  {
    run == [] || (InTime(s, RowsOf(s, run[0])) && TimelyRun(Apply(s, run[0]), run[1..]))
  }

  /** First in, first out, in every state of the run. */
  ghost predicate FifoThroughout(s: Sys, run: seq<Action>)
    requires IsRun(s, run)
    decreases |run|
  {
    FifoInv(s) && (run == [] || FifoThroughout(Apply(s, run[0]), run[1..]))
  }

  /** A simple way to be in time: every new row is stamped later than every stored one. */
  ghost predicate Stamped(db: Db, rows: map<string, Continuation>) {
    forall i, n :: i in db.conts && n in rows ==> db.conts[i].createdAt < rows[n].createdAt
  }

  ghost predicate StampedRun(s: Sys, run: seq<Action>)
    requires IsRun(s, run)
    decreases |run|
  {
    run == [] || (Stamped(s.db, RowsOf(s, run[0])) && StampedRun(Apply(s, run[0]), run[1..]))
  }

  // ---------- Adding rows: the order is kept exactly if they come in time ----------

  lemma AddingKeepsOrder(conts: map<string, Continuation>, rows: map<string, Continuation>,
                         verdicts: map<string, Verdict>)
    requires InOrder(conts, verdicts) && conts.Keys !! rows.Keys
    requires forall n :: n in rows ==> rows[n].state.Pending? || (rows[n].state.Failed? && n !in verdicts)
    ensures InOrder(conts + rows, verdicts) <==>
      forall n :: n in rows && rows[n].state.Pending? ==> AfterDispatched(conts, verdicts, rows[n])
  {
    var conts' := conts + rows;
    hide Before;
    if InOrder(conts', verdicts) {
      forall i, n | i in conts && n in rows ensures PairInOrder(conts', verdicts, i, n) {}
    }
    forall i, j | i in conts && j in conts ensures PairInOrder(conts', verdicts, i, j) {
      assert PairInOrder(conts, verdicts, i, j);
    }
  }

  lemma AddingKeepsOldest(db: Db, db': Db, rows: map<string, Continuation>, w: string, id: string)
    requires IsOldestPending(db, w, id) && db.conts.Keys !! rows.Keys && db'.conts == db.conts + rows
    ensures IsOldestPending(db', w, id) <==>
      forall n :: n in rows && rows[n].state.Pending? && rows[n].sessionId == w ==> Before(db.conts[id], rows[n])
  {
    hide Before;
    forall n | n in rows && rows[n].state.Pending? && rows[n].sessionId == w ensures IsPending(db', w, n) {}
    forall j | IsPending(db', w, j) && j !in rows ensures IsPending(db, w, j) {}
    assert IsPending(db', w, id);
  }

  lemma AddingKeepsClaimers(db: Db, db': Db, workers: map<string, WorkerPc>, rows: map<string, Continuation>)
    requires ClaimersInOrder(db, workers) && db.conts.Keys !! rows.Keys && db'.conts == db.conts + rows
    ensures ClaimersInOrder(db', workers) <==>
      forall n :: n in rows && rows[n].state.Pending? ==> AfterFetched(db, workers, rows[n])
  {
    OldestIsStored(db, workers);
    hide IsOldestPending, Before;
    forall w | w in workers && workers[w].Claiming? {
      AddingKeepsOldest(db, db', rows, w, workers[w].c.id);
    }
  }

  lemma OldestIsStored(db: Db, workers: map<string, WorkerPc>)
    requires ClaimersInOrder(db, workers)
    ensures forall w :: w in workers && workers[w].Claiming? ==> workers[w].c.id in db.conts
  {
  }

  /** A step that adds these rows, and moves no worker that is about to claim. */
  ghost predicate Adds(s: Sys, s': Sys, rows: map<string, Continuation>) {
    && s.db.conts.Keys !! rows.Keys && s'.db.conts == s.db.conts + rows && s'.hist.verdicts == s.hist.verdicts
    && (forall n :: n in rows ==> rows[n].state.Pending? || (rows[n].state.Failed? && n !in s.hist.verdicts))
    && (forall w :: (w in s'.workers && s'.workers[w].Claiming?) <==> (w in s.workers && s.workers[w].Claiming?))
    && (forall w :: w in s.workers && s.workers[w].Claiming? ==> s'.workers[w] == s.workers[w])
  }

  lemma SameClaimers(db: Db, workers: map<string, WorkerPc>, workers': map<string, WorkerPc>)
    requires forall w :: (w in workers' && workers'[w].Claiming?) <==> (w in workers && workers[w].Claiming?)
    requires forall w :: w in workers && workers[w].Claiming? ==> workers'[w] == workers[w]
    ensures ClaimersInOrder(db, workers') <==> ClaimersInOrder(db, workers)
  {
    hide IsOldestPending;
  }

  lemma AddingIff(s: Sys, s': Sys, rows: map<string, Continuation>)
    requires FifoInv(s) && Adds(s, s', rows)
    ensures FifoInv(s') <==> InTime(s, rows)
  {
    hide InOrder, ClaimersInOrder, AfterDispatched, AfterFetched;
    AddingKeepsOrder(s.db.conts, rows, s.hist.verdicts);
    AddingKeepsClaimers(s.db, s'.db, s.workers, rows);
    SameClaimers(s'.db, s.workers, s'.workers);
  }

  /**
   A manual row, whatever its stamp, keeps the first-in-first-out invariant if and only if it is
   later than everything its session has dispatched or is running, and than the row the session's
   worker has already fetched.
   */
  lemma ManualKeepsFifoIff(s: Sys, row: Continuation)
    requires FifoInv(s) && OutEnabled(s, RunManually(row))
    ensures FifoInv(OutApply(s, RunManually(row))) <==>
      && (forall i :: i in s.db.conts && s.db.conts[i].sessionId == row.sessionId
                      && (Dispatched(s.db.conts, s.hist.verdicts, i) || s.db.conts[i].state.Running?)
                      ==> Before(s.db.conts[i], row))
      && (row.sessionId in s.workers && s.workers[row.sessionId].Claiming? ==>
            s.workers[row.sessionId].c.id in s.db.conts
            && Before(s.db.conts[s.workers[row.sessionId].c.id], row))
  {
    hide FifoInv, Dispatched, Before, OutEnabled, OutApply, Adds;
    var rows := map[row.id := row];
    ManualAddsOne(s, row);
    AddingIff(s, OutApply(s, RunManually(row)), rows);
    assert InTime(s, rows) <==>
      AfterDispatched(s.db.conts, s.hist.verdicts, rows[row.id]) && AfterFetched(s.db, s.workers, rows[row.id]);
  }

  lemma ManualAddsOne(s: Sys, row: Continuation)
    requires OutEnabled(s, RunManually(row))
    ensures Adds(s, OutApply(s, RunManually(row)), map[row.id := row]) && row.state.Pending?
  {
    hide ApplyLedger, RuleIdUsed, MintOk;
    assert s.db.conts[row.id := row] == s.db.conts + map[row.id := row];
  }

  // ---------- Steps that add nothing ----------

  /** Nothing is added or changed, and nothing unfinished disappears. */
  ghost predicate Thins(conts: map<string, Continuation>, conts': map<string, Continuation>) {
    && (forall id :: id in conts' ==> id in conts && conts'[id] == conts[id])
    && (forall id :: id in conts && !conts[id].state.Terminal() ==> id in conts')
  }

  lemma ThinningKeepsOrder(conts: map<string, Continuation>, conts': map<string, Continuation>,
                           verdicts: map<string, Verdict>)
    requires InOrder(conts, verdicts) && Thins(conts, conts')
    ensures InOrder(conts', verdicts)
  {
    forall i, j | i in conts' && j in conts' ensures PairInOrder(conts', verdicts, i, j) {
      assert PairInOrder(conts, verdicts, i, j);
    }
  }

  lemma ThinningKeepsOldest(db: Db, db': Db, w: string, id: string)
    requires IsOldestPending(db, w, id) && Thins(db.conts, db'.conts)
    ensures IsOldestPending(db', w, id)
  {
    forall j | IsPending(db', w, j) && j != id ensures Before(db'.conts[id], db'.conts[j]) {
      assert IsPending(db, w, j);
    }
  }

  lemma ClaimKeepsOrder(db: Db, verdicts: map<string, Verdict>, w: string, id: string, at: Instant)
    requires InOrder(db.conts, verdicts) && IsOldestPending(db, w, id) && id !in verdicts
    requires forall j :: j in db.conts && db.conts[j].sessionId == w ==> !db.conts[j].state.Running?
    ensures InOrder(ClaimDb(db, id, at).conts, verdicts)
    ensures forall x, j :: x != w && IsOldestPending(db, x, j) ==> IsOldestPending(ClaimDb(db, id, at), x, j)
  {
    var conts, conts' := db.conts, ClaimDb(db, id, at).conts;
    forall i, j | i in conts' && j in conts' ensures PairInOrder(conts', verdicts, i, j)
    {
      assert PairInOrder(conts, verdicts, i, j);
      if conts'[j].state.Pending? { assert IsPending(db, conts[j].sessionId, j); }
    }
    forall x, j | x != w && IsOldestPending(db, x, j) ensures IsOldestPending(ClaimDb(db, id, at), x, j) {
      forall m | IsPending(ClaimDb(db, id, at), x, m) && m != j ensures Before(conts'[j], conts'[m]) {
        assert IsPending(db, x, m);
      }
    }
  }

  lemma RecordKeepsOrder(db: Db, verdicts: map<string, Verdict>, id: string, v: Verdict, at: Instant)
    requires InOrder(db.conts, verdicts) && OneRunning(db.conts) && v.state.Terminal()
    requires id in db.conts && db.conts[id].state.Running?
    ensures InOrder(RecordDb(db, id, v, at).conts, verdicts[id := v])
    ensures forall x, j :: IsOldestPending(db, x, j) ==> IsOldestPending(RecordDb(db, id, v, at), x, j)
  {
    var conts, conts', verdicts' := db.conts, RecordDb(db, id, v, at).conts, verdicts[id := v];
    forall i, j | i in conts' && j in conts' ensures PairInOrder(conts', verdicts', i, j)
    {
      assert PairInOrder(conts, verdicts, i, j);
    }
    forall x, j | IsOldestPending(db, x, j) ensures IsOldestPending(RecordDb(db, id, v, at), x, j) {
      forall m | IsPending(RecordDb(db, id, v, at), x, m) && m != j ensures Before(conts'[j], conts'[m]) {
        assert IsPending(db, x, m);
      }
    }
  }

  lemma ResetKeepsOrder(db: Db, verdicts: map<string, Verdict>, at: Instant)
    requires InOrder(db.conts, verdicts)
    ensures InOrder(ResetDb(db, at).conts, verdicts)
  {
    var conts, conts' := db.conts, ResetDb(db, at).conts;
    forall i, j | i in conts' && j in conts' ensures PairInOrder(conts', verdicts, i, j)
    {
      assert PairInOrder(conts, verdicts, i, j);
    }
  }

  // ---------- Steps ----------

  lemma CallThins(s: Sys, op: Op)
    requires OpOk(s.db, s.led, op) && QuietOp(op) && NewRows(s.db, op) == map[]
    ensures Thins(s.db.conts, ApplyOp(s.db, op).conts)
  {
    hide OpOk, ApplyOp;
    forall id { QuietRow(s.db, s.led, op, id); }
  }

  /** A quiet step without new rows keeps both halves, if the worker that moves (if any) is not newly claiming. */
  lemma QuietFifo(s: Sys, op: Op, workers': map<string, WorkerPc>)
    requires FifoInv(s) && OpOk(s.db, s.led, op) && QuietOp(op) && NewRows(s.db, op) == map[]
    requires forall w :: w in workers' && workers'[w].Claiming? ==>
      || (w in s.workers && s.workers[w] == workers'[w])
      || IsOldestPending(s.db, w, workers'[w].c.id)
    ensures InOrder(ApplyOp(s.db, op).conts, s.hist.verdicts) && ClaimersInOrder(ApplyOp(s.db, op), workers')
  {
    CallThins(s, op);
    ThinningKeepsOrder(s.db.conts, ApplyOp(s.db, op).conts, s.hist.verdicts);
    forall w | w in workers' && workers'[w].Claiming?
      ensures IsOldestPending(ApplyOp(s.db, op), w, workers'[w].c.id)
    {
      ThinningKeepsOldest(s.db, ApplyOp(s.db, op), w, workers'[w].c.id);
    }
  }

  lemma OutFifo(s: Sys, o: Outside)
    requires FifoInv(s) && OutEnabled(s, o) && !o.RunManually? && RowsOf(s, Out(o)) == map[]
    ensures FifoInv(OutApply(s, o))
  {
    hide InOrder, ClaimersInOrder, OpOk, ApplyOp, ApplyLedger, NewRows;
    match o
    case Inject(ev, at, mint) => QuietFifo(s, OpIngest(ev, at, mint), s.workers);
    case Administer(op) => QuietFifo(s, op, s.workers);
    case Crash => NoCall(s.db, s.led); QuietFifo(s, OpNone, map[]);
    case _ =>
  }

  lemma DisFifo(s: Sys, d: Dispatch)
    requires Tracked(s) && FifoInv(s) && DisEnabled(s, d)
    ensures FifoInv(DisApply(s, d))
  {
    if d.BootReset? { ResetKeepsOrder(s.db, s.hist.verdicts, d.at); }
  }

  lemma ClaimFifo(s: Sys, w: string, k: Work)
    requires Tracked(s) && FifoInv(s) && WorkEnabled(s, w, k) && k.Claim?
    ensures FifoInv(WorkApply(s, w, k))
  {
    hide Tracked, InOrder, IsOldestPending, ApplyLedger, OpOk;
    var id := s.workers[w].c.id;
    ClaimableRow(s, w, k.at);
    ClaimKeepsOrder(s.db, s.hist.verdicts, w, id, k.at);
  }

  lemma ClaimableRow(s: Sys, w: string, at: Instant)
    requires Tracked(s) && w in s.workers && s.workers[w].Claiming?
    ensures s.workers[w].c.id !in s.hist.verdicts
    ensures s.workers[w].c.id in s.db.conts && s.db.conts[s.workers[w].c.id].state.Pending?
    ensures forall j :: j in s.db.conts && s.db.conts[j].sessionId == w ==> !s.db.conts[j].state.Running?
  {
    hide HistInv, ResultInv;
    ClaimKeeps(s.db.conts, s.workers, s.disp, s.cancelled, w, at);
    PendingIsUnjudged(s, s.workers[w].c.id);
  }

  lemma PendingIsUnjudged(s: Sys, id: string)
    requires HistInvOf(s) && id in s.db.conts && s.db.conts[id].state.Pending?
    ensures id !in s.hist.verdicts
  {
    assert RowHistory(s.db.conts[id], s.hist, id);
  }

  lemma RecordFifo(s: Sys, w: string, k: Work)
    requires Tracked(s) && FifoInv(s) && WorkEnabled(s, w, k) && k.Record?
    ensures FifoInv(WorkApply(s, w, k))
  {
    hide StoreInv, HistInvOf, ResultInv, InOrder, IsOldestPending, ApplyLedger;
    WorkersRow(s, w);
    RecordKeepsOrder(s.db, s.hist.verdicts, s.workers[w].c.id, s.workers[w].v, k.at);
  }

  lemma MoveFifo(s: Sys, w: string, k: Work)
    requires Tracked(s) && FifoInv(s) && WorkEnabled(s, w, k) && !k.Claim? && !k.Record?
    requires NewRows(s.db, WorkCall(s.workers[w], k)) == map[]
    ensures FifoInv(WorkApply(s, w, k))
  {
    if k.Fetch? { FetchedIsOldest(s, w, k); } else { NotClaiming(s, w, k); }
    hide Safe, HistInvOf, ResultInv, InOrder, ClaimersInOrder, OpOk, ApplyOp, ApplyLedger;
    QuietFifo(s, WorkCall(s.workers[w], k), WorkApply(s, w, k).workers);
  }

  lemma FetchedIsOldest(s: Sys, w: string, k: Work)
    requires RowsKept(s.db, s.led) && WorkEnabled(s, w, k) && k.Fetch?
    ensures WorkPc(s, w, k).Claiming? ==> IsOldestPending(s.db, w, WorkPc(s, w, k).c.id)
  {
  }

  lemma NotClaiming(s: Sys, w: string, k: Work)
    requires WorkEnabled(s, w, k) && !k.Fetch?
    ensures !WorkPc(s, w, k).Claiming?
  {
  }

  lemma ManualAdds(s: Sys, o: Outside)
    requires OutEnabled(s, o)
    ensures o.RunManually? ==> RowsOf(s, Out(o)) != map[]
  {
    if o.RunManually? { assert o.row.id in RowsOf(s, Out(o)); }
  }

  lemma PlainFifoStep(s: Sys, a: Action)
    requires Tracked(s) && FifoInv(s) && Enabled(s, a) && RowsOf(s, a) == map[]
    ensures FifoInv(Apply(s, a))
  {
    hide Tracked, FifoInv;
    match a
    case Out(o) => ManualAdds(s, o); OutFifo(s, o);
    case Dis(d) => DisFifo(s, d);
    case Wrk(w, k) =>
      if k.Claim? { ClaimFifo(s, w, k); }
      else if k.Record? { RecordFifo(s, w, k); }
      else { MoveFifo(s, w, k); }
  }

  // ---------- Steps that add rows ----------

  lemma NewRowsFresh(s: Sys, op: Op)
    requires Tracked(s) && OpOk(s.db, s.led, op) && (op.OpIngest? || op.OpInsert?)
    ensures var rows := NewRows(s.db, op);
      && s.db.conts.Keys !! rows.Keys && ApplyOp(s.db, op).conts == s.db.conts + rows
      && (forall n :: n in rows ==> (rows[n].state.Pending? || rows[n].state.Failed?) && n !in s.hist.verdicts)
  {
    StoreBooks(s);
    hide Tracked, OpOk, ApplyOp, NewRows, RowsKept;
    RowsAfter(s.db, s.led, op);
    AddedConts(s.db, s.led, op);
    forall n | n in NewRows(s.db, op) ensures n !in s.hist.verdicts && n in ApplyOp(s.db, op).conts {
      UnusedIsUnjudged(s, n);
      QuietRow(s.db, s.led, op, n);
    }
  }

  lemma StoreBooks(s: Sys)
    requires Tracked(s)
    ensures RowsKept(s.db, s.led)
  {
  }

  lemma UnusedIsUnjudged(s: Sys, n: string)
    requires Tracked(s) && n !in s.led.created
    ensures n !in s.hist.verdicts
  {
    assert NoHistory(s.hist, n);
  }

  lemma AddedConts(db: Db, led: Ledger, op: Op)
    requires OpOk(db, led, op) && (op.OpIngest? || op.OpInsert?)
    ensures ApplyOp(db, op).conts == db.conts + NewRows(db, op)
  {
    hide MintOk, Firing, RowsFor;
  }

  lemma AddingSteps(s: Sys, a: Action)
    requires Enabled(s, a) && RowsOf(s, a) != map[]
    ensures CallOf(s, a).OpIngest? || CallOf(s, a).OpInsert?
    ensures (a.Out? && (a.o.Inject? || a.o.RunManually?)) || (a.Wrk? && a.k.Emit?)
  {
    hide OpOk, RowsFor, Firing;
  }

  lemma AddingMovesNoClaimer(s: Sys, a: Action)
    requires Enabled(s, a) && ((a.Out? && (a.o.Inject? || a.o.RunManually?)) || (a.Wrk? && a.k.Emit?))
    ensures var workers, workers' := s.workers, Apply(s, a).workers;
      && Apply(s, a).hist.verdicts == s.hist.verdicts
      && (forall w :: (w in workers' && workers'[w].Claiming?) <==> (w in workers && workers[w].Claiming?))
      && (forall w :: w in workers && workers[w].Claiming? ==> workers'[w] == workers[w])
  {
    hide OpOk, ApplyOp, ApplyLedger, NewRows, ResultEvent;
  }

  lemma AddingStepAdds(s: Sys, a: Action)
    requires Tracked(s) && Enabled(s, a) && RowsOf(s, a) != map[]
    ensures Adds(s, Apply(s, a), RowsOf(s, a))
  {
    hide Tracked, Enabled, Apply, CallOf, OpOk, ApplyOp, ApplyLedger, NewRows;
    AddingSteps(s, a);
    StepIsCall(s, a);
    NewRowsFresh(s, CallOf(s, a));
    AddingMovesNoClaimer(s, a);
  }

  /** Every step, whatever it creates: the invariant survives exactly if the new rows come in time. */
  lemma StepKeepsFifoIff(s: Sys, a: Action)
    requires Tracked(s) && FifoInv(s) && Enabled(s, a)
    ensures FifoInv(Apply(s, a)) <==>
      forall n :: n in RowsOf(s, a) && RowsOf(s, a)[n].state.Pending? ==>
        && AfterDispatched(s.db.conts, s.hist.verdicts, RowsOf(s, a)[n])
        && AfterFetched(s.db, s.workers, RowsOf(s, a)[n])
  {
    hide Tracked, FifoInv, Enabled, Apply, RowsOf, AfterDispatched, AfterFetched, Adds;
    if RowsOf(s, a) == map[] {
      PlainFifoStep(s, a);
    } else {
      AddingStepAdds(s, a);
      AddingIff(s, Apply(s, a), RowsOf(s, a));
    }
    assert InTime(s, RowsOf(s, a)) <==> FifoInv(Apply(s, a));
  }

  // ---------- Whole runs ----------

  /** The exact condition over runs: the order holds in every state if and only if every row comes in time. */
  lemma {:induction false} FifoThroughoutIff(s: Sys, run: seq<Action>)
    requires Tracked(s) && FifoInv(s) && IsRun(s, run)
    ensures FifoThroughout(s, run) <==> TimelyRun(s, run)
    decreases |run|
  {
    hide Tracked, FifoInv, Apply, Enabled, RowsOf, AfterDispatched, AfterFetched;
    if run == [] {
    } else {
      TrackedStep(s, run[0]);
      StepKeepsFifoIff(s, run[0]);
      if FifoInv(Apply(s, run[0])) {
        FifoThroughoutIff(Apply(s, run[0]), run[1..]);
      } else {
        NotThroughout(Apply(s, run[0]), run[1..]);
      }
    }
  }

  lemma NotThroughout(s: Sys, run: seq<Action>)
    requires IsRun(s, run) && !FifoInv(s)
    ensures !FifoThroughout(s, run)
  {
  }

  lemma {:induction false} ThroughoutToTheEnd(s: Sys, run: seq<Action>)
    requires IsRun(s, run) && FifoThroughout(s, run)
    ensures FifoInv(End(s, run))
    decreases |run|
  {
    hide FifoInv, Apply, Enabled;
    if run == [] {
    } else {
      ThroughoutToTheEnd(Apply(s, run[0]), run[1..]);
    }
  }

  lemma StampedIsInTime(s: Sys, rows: map<string, Continuation>)
    requires FifoInv(s) && Stamped(s.db, rows)
    ensures InTime(s, rows)
  {
    OldestIsStored(s.db, s.workers);
    hide FifoInv, Dispatched;
  }

  /** Increasing creation stamps are in time. */
  lemma {:induction false} StampedRunIsTimely(s: Sys, run: seq<Action>)
    requires Tracked(s) && FifoInv(s) && IsRun(s, run) && StampedRun(s, run)
    ensures TimelyRun(s, run)
    decreases |run|
  {
    hide Tracked, FifoInv, Apply, Enabled, RowsOf, AfterDispatched, AfterFetched, Stamped;
    if run == [] {
    } else {
      StampedIsInTime(s, RowsOf(s, run[0]));
      TrackedStep(s, run[0]);
      StepKeepsFifoIff(s, run[0]);
      StampedRunIsTimely(Apply(s, run[0]), run[1..]);
    }
  }

  /**
   In every reachable state: per session, finished runs were queued before the running row and
   both before everything pending; and a worker about to claim holds the oldest pending row.
   */
  lemma FifoAlways(s: Sys, run: seq<Action>)
    requires Init(s) && IsRun(s, run) && TimelyRun(s, run)
    ensures InOrder(End(s, run).db.conts, End(s, run).hist.verdicts)
    ensures ClaimersInOrder(End(s, run).db, End(s, run).workers)
  {
    StartsInOrder(s);
    hide Tracked, Init, IsRun, End, TimelyRun, FifoThroughout, InOrder, ClaimersInOrder;
    FifoThroughoutIff(s, run);
    ThroughoutToTheEnd(s, run);
  }

  lemma StartsInOrder(s: Sys)
    requires Init(s)
    ensures Tracked(s) && FifoInv(s)
  {
  }

  /** A row found running at boot is, after the reset, the next its session runs. */
  lemma RecoveredRowIsNext(s: Sys, run: seq<Action>, at: Instant, id: string)
    requires Init(s) && IsRun(s, run) && TimelyRun(s, run) && DisEnabled(End(s, run), BootReset(at))
    requires var e := End(s, run); id in e.db.conts && e.db.conts[id].state.Running?
    ensures var e := End(s, run);
      IsOldestPending(DisApply(e, BootReset(at)).db, e.db.conts[id].sessionId, id)
  {
    hide Init, IsRun, End, TimelyRun, FifoThroughout, Tracked, FifoInv, IsOldestPending, DisEnabled;
    StartsInOrder(s);
    TrackedAlways(s, run);
    FifoThroughoutIff(s, run);
    ThroughoutToTheEnd(s, run);
    RecoveredHere(End(s, run), at, id);
  }

  lemma RecoveredHere(e: Sys, at: Instant, id: string)
    requires Tracked(e) && FifoInv(e) && DisEnabled(e, BootReset(at))
    requires id in e.db.conts && e.db.conts[id].state.Running?
    ensures IsOldestPending(DisApply(e, BootReset(at)).db, e.db.conts[id].sessionId, id)
  {
    hide StoreInv, HistInvOf, ResultInv, InOrder, ClaimersInOrder, ResetDb, IsOldestPending, CountResets, ApplyLedger;
    RecoveredFirst(e.db, e.hist.verdicts, at, id);
  }

  lemma RecoveredFirst(db: Db, verdicts: map<string, Verdict>, at: Instant, id: string)
    requires InOrder(db.conts, verdicts) && OneRunning(db.conts)
    requires id in db.conts && db.conts[id].state.Running?
    ensures IsOldestPending(ResetDb(db, at), db.conts[id].sessionId, id)
  {
    var db' := ResetDb(db, at);
    forall j | IsPending(db', db.conts[id].sessionId, j) && j != id
      ensures Before(db'.conts[id], db'.conts[j])
    {
      assert PairInOrder(db.conts, verdicts, id, j);
    }
  }

  // ---------- What a late stamp does ----------

  const EARLY := ManualRow("a", "rule-a", "event-a", "s", "go", 4)
  const LATE := ManualRow("b", "rule-b", "event-b", "s", "go", 5)

  function Scene(conts: map<string, Continuation>, disp: DispPc, workers: map<string, WorkerPc>, owing: nat): Sys {
    Sys(Db(map[], map[], map[], conts), Ledger(conts, {}, map[]), History(map[], map[], map[], map[]),
        false, false, disp, workers, 0, owing)
  }

  const LATE_ONLY := map["b" := LATE]
  const LATE_AND_EARLY := map["b" := LATE, "a" := EARLY]

  lemma SceneBoots()
    ensures Init(Scene(map[], Booting, map[], 0)) && Enabled(Scene(map[], Booting, map[], 0), Dis(BootReset(0)))
    ensures Apply(Scene(map[], Booting, map[], 0), Dis(BootReset(0))) == Scene(map[], Scanning, map[], 0)
  {
  }

  lemma LateIsQueued()
    ensures Enabled(Scene(map[], Scanning, map[], 0), Out(RunManually(LATE)))
    ensures Apply(Scene(map[], Scanning, map[], 0), Out(RunManually(LATE))) == Scene(LATE_ONLY, Scanning, map[], 1)
  {
  }

  lemma LateIsScanned()
    ensures Enabled(Scene(LATE_ONLY, Scanning, map[], 1), Dis(Scan))
    ensures Apply(Scene(LATE_ONLY, Scanning, map[], 1), Dis(Scan)) == Scene(LATE_ONLY, Spawning({"s"}), map[], 1)
  {
    var db := Scene(LATE_ONLY, Scanning, map[], 1).db;
    assert IsPending(db, "s", "b");
    assert PendingSessions(db) == {"s"};
  }

  lemma LateIsFetched()
    ensures Enabled(Scene(LATE_ONLY, Spawning({"s"}), map[], 1), Dis(Spawn("s")))
    ensures Apply(Scene(LATE_ONLY, Spawning({"s"}), map[], 1), Dis(Spawn("s")))
         == Scene(LATE_ONLY, Spawning({}), map["s" := Top], 1)
    ensures Enabled(Scene(LATE_ONLY, Spawning({}), map["s" := Top], 1), Wrk("s", CheckTop))
    ensures Apply(Scene(LATE_ONLY, Spawning({}), map["s" := Top], 1), Wrk("s", CheckTop))
         == Scene(LATE_ONLY, Spawning({}), map["s" := Fetching], 1)
    ensures Enabled(Scene(LATE_ONLY, Spawning({}), map["s" := Fetching], 1), Wrk("s", Fetch(Some("b"))))
    ensures Apply(Scene(LATE_ONLY, Spawning({}), map["s" := Fetching], 1), Wrk("s", Fetch(Some("b"))))
         == Scene(LATE_ONLY, Spawning({}), map["s" := Claiming(LATE)], 1)
  {
    NoCall(Scene(LATE_ONLY, Spawning({}), map[], 1).db, Scene(LATE_ONLY, Spawning({}), map[], 1).led);
    hide ApplyOp, ApplyLedger;
    assert {"s"} - {"s"} == {};
    assert IsOldestPending(Scene(LATE_ONLY, Spawning({}), map[], 1).db, "s", "b");
  }

  lemma EarlyIsQueuedLate()
    ensures Enabled(Scene(LATE_ONLY, Spawning({}), map["s" := Claiming(LATE)], 1), Out(RunManually(EARLY)))
    ensures Apply(Scene(LATE_ONLY, Spawning({}), map["s" := Claiming(LATE)], 1), Out(RunManually(EARLY)))
         == Scene(LATE_AND_EARLY, Spawning({}), map["s" := Claiming(LATE)], 2)
  {
  }

  lemma ClaimOvertakes(e: Sys)
    requires e == Scene(LATE_AND_EARLY, Spawning({}), map["s" := Claiming(LATE)], 2)
    ensures InOrder(e.db.conts, e.hist.verdicts) && Enabled(e, Wrk("s", Claim(6)))
    ensures !InOrder(Apply(e, Wrk("s", Claim(6))).db.conts, e.hist.verdicts)
  {
    var conts' := Apply(e, Wrk("s", Claim(6))).db.conts;
    assert conts' == LATE_AND_EARLY["b" := LATE.(state := Running, updatedAt := 6)];
    assert !PairInOrder(conts', e.hist.verdicts, "b", "a");
  }

  /**
   Why a fetched row matters: the row with the earlier stamp is inserted when the later one has
   been fetched but not claimed. The table is still in order; the claim then overtakes it.
   */
  lemma LateStampOvertakes() returns (run: seq<Action>, e: Sys)
    ensures Reached(run, e) && InOrder(e.db.conts, e.hist.verdicts) && Enabled(e, Wrk("s", Claim(6)))
    ensures !InOrder(Apply(e, Wrk("s", Claim(6))).db.conts, e.hist.verdicts)
  {
    hide Reached, Enabled, Apply, InOrder, Init;
    SceneBoots();
    LateIsQueued();
    LateIsScanned();
    LateIsFetched();
    EarlyIsQueuedLate();
    run, e := [], Scene(map[], Booting, map[], 0);
    ReachedStart(e);
    var steps := [Dis(BootReset(0)), Out(RunManually(LATE)), Dis(Scan), Dis(Spawn("s")), Wrk("s", CheckTop),
                  Wrk("s", Fetch(Some("b"))), Out(RunManually(EARLY))];
    ReachedNext(run, e, steps[0]); run, e := run + [steps[0]], Apply(e, steps[0]);
    ReachedNext(run, e, steps[1]); run, e := run + [steps[1]], Apply(e, steps[1]);
    ReachedNext(run, e, steps[2]); run, e := run + [steps[2]], Apply(e, steps[2]);
    ReachedNext(run, e, steps[3]); run, e := run + [steps[3]], Apply(e, steps[3]);
    ReachedNext(run, e, steps[4]); run, e := run + [steps[4]], Apply(e, steps[4]);
    ReachedNext(run, e, steps[5]); run, e := run + [steps[5]], Apply(e, steps[5]);
    ReachedNext(run, e, steps[6]); run, e := run + [steps[6]], Apply(e, steps[6]);
    ClaimOvertakes(e);
  }
}
