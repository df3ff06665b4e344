/** Who may be running what: the ownership of running rows, over every interleaving. */
module WorkerSafety {
  import opened Core
  import opened StoreModel
  import opened StoreLaws
  import opened Engine

  // ---------- How a step can change the continuation table ----------

  /** Only fresh pending or failed rows appear, only finished rows disappear, nothing else changes. */
  ghost predicate Quiet(conts: map<string, Continuation>, conts': map<string, Continuation>) {
    && (forall id :: id in conts && !conts[id].state.Terminal() ==> id in conts' && conts'[id] == conts[id])
    && (forall id :: id in conts' ==>
          if id in conts then conts'[id] == conts[id]
          else conts'[id].id == id && (conts'[id].state.Pending? || conts'[id].state.Failed?))
  }

  predicate QuietOp(op: Op) { !op.OpClaim? && !op.OpRecord? && !op.OpReset? }

  lemma QuietRow(db: Db, led: Ledger, op: Op, id: string)
    requires OpOk(db, led, op) && QuietOp(op)
    ensures id in db.conts && !db.conts[id].state.Terminal() ==>
      id in ApplyOp(db, op).conts && ApplyOp(db, op).conts[id] == db.conts[id]
    ensures id in ApplyOp(db, op).conts ==>
      if id in db.conts then ApplyOp(db, op).conts[id] == db.conts[id]
      else id in NewRows(db, op) && ApplyOp(db, op).conts[id] == NewRows(db, op)[id]
           && NewRows(db, op)[id].id == id
           && (NewRows(db, op)[id].state.Pending? || NewRows(db, op)[id].state.Failed?)
  {
  }

  lemma QuietChange(db: Db, led: Ledger, op: Op)
    requires OpOk(db, led, op) && QuietOp(op)
    ensures Quiet(db.conts, ApplyOp(db, op).conts)
  {
    forall id { QuietRow(db, led, op, id); }
  }

  // ---------- The invariant ----------

  /** A worker's copy of a row is the stored row, in the state its program counter implies. */
  ghost predicate WorkerOk(conts: map<string, Continuation>, w: string, pc: WorkerPc) {
    && (pc.Claiming? ==>
          pc.c.sessionId == w && pc.c.id in conts && SameRow(pc.c, conts[pc.c.id]) && conts[pc.c.id].state.Pending?)
    && (pc.Holding() ==>
          pc.c.sessionId == w && pc.c.id in conts && SameRow(pc.c, conts[pc.c.id]) && conts[pc.c.id].state.Running?)
    && (pc.Emitting? ==> pc.c.sessionId == w)
    && (pc.Returned? || pc.Judging? || pc.Recording? || pc.Emitting? ==> pc.v.state.Terminal())
  }

  /** A running row belongs to its session's worker, awaits boot recovery, or was left behind by shutdown. */
  ghost predicate Owned(c: Continuation, workers: map<string, WorkerPc>, disp: DispPc, cancelled: bool) {
    || disp.Booting?
    || (c.sessionId in workers && workers[c.sessionId].Holding() && workers[c.sessionId].c.id == c.id)
    || (cancelled && (c.sessionId in workers ==> workers[c.sessionId].Top? || workers[c.sessionId].Exiting?))
  }

  ghost predicate OneRunning(conts: map<string, Continuation>) {
    forall i, j ::
      (&& i in conts && j in conts && conts[i].state.Running? && conts[j].state.Running?
       && conts[i].sessionId == conts[j].sessionId)
      ==> i == j
  }

  ghost predicate WorkerInv(conts: map<string, Continuation>, workers: map<string, WorkerPc>, disp: DispPc,
                            cancelled: bool)
  {
    && (disp.Booting? ==> workers == map[])
    && (forall w :: w in workers ==> WorkerOk(conts, w, workers[w]))
    && (forall id :: id in conts && conts[id].state.Running? ==> Owned(conts[id], workers, disp, cancelled))
    && OneRunning(conts)
  }

  ghost predicate Safe(s: Sys) {
    && StoreInv(s.db, s.led)
    && WorkerInv(s.db.conts, s.workers, s.disp, s.cancelled)
    && (s.disp.Draining? || s.disp.Stopped? ==> s.cancelled)
    && (s.disp.Stopped? ==> s.workers == map[] && s.leaving == 0)
  }

  // ---------- What each kind of step keeps ----------

  lemma QuietKeeps(conts: map<string, Continuation>, conts': map<string, Continuation>,
                   workers: map<string, WorkerPc>, disp: DispPc, cancelled: bool)
    requires WorkerInv(conts, workers, disp, cancelled) && Quiet(conts, conts')
    ensures WorkerInv(conts', workers, disp, cancelled)
  {
  }

  /** A worker may move on as long as it does not drop its running row, except into shutdown. */
  lemma MoveKeeps(conts: map<string, Continuation>, workers: map<string, WorkerPc>, disp: DispPc, cancelled: bool,
                  w: string, pc: WorkerPc)
    requires WorkerInv(conts, workers, disp, cancelled) && w in workers && WorkerOk(conts, w, pc)
    requires workers[w].Holding() ==> (pc.Holding() && pc.c.id == workers[w].c.id) || (cancelled && pc.Top?)
    requires cancelled && (workers[w].Top? || workers[w].Exiting?) ==> pc.Top? || pc.Exiting?
    ensures WorkerInv(conts, workers[w := pc], disp, cancelled)
  {
  }

  lemma SpawnKeeps(conts: map<string, Continuation>, workers: map<string, WorkerPc>, disp: DispPc, disp': DispPc,
                   cancelled: bool, w: string)
    requires WorkerInv(conts, workers, disp, cancelled) && w !in workers
    requires !disp.Booting? && !disp'.Booting?
    ensures WorkerInv(conts, workers[w := Top], disp', cancelled)
  {
  }

  lemma DeregisterKeeps(conts: map<string, Continuation>, workers: map<string, WorkerPc>, disp: DispPc,
                        cancelled: bool, w: string)
    requires WorkerInv(conts, workers, disp, cancelled) && w in workers && workers[w].Exiting?
    ensures WorkerInv(conts, workers - {w}, disp, cancelled)
  {
  }

  /** A claim always finds its row pending, and no other row of the session running. */
  lemma ClaimKeeps(conts: map<string, Continuation>, workers: map<string, WorkerPc>, disp: DispPc, cancelled: bool,
                   w: string, at: Instant)
    requires WorkerInv(conts, workers, disp, cancelled) && w in workers && workers[w].Claiming?
    requires forall id :: id in conts ==> conts[id].id == id
    ensures var c := workers[w].c;
      && c.id in conts && conts[c.id].state.Pending?
      && (forall j :: j in conts && conts[j].sessionId == w ==> !conts[j].state.Running?)
      && WorkerInv(conts[c.id := conts[c.id].(state := Running, updatedAt := at)], workers[w := LookingUp(c)],
                   disp, cancelled)
  {
  }

  lemma RecordKeeps(conts: map<string, Continuation>, workers: map<string, WorkerPc>, disp: DispPc, cancelled: bool,
                    w: string, v: Verdict, at: Instant)
    requires WorkerInv(conts, workers, disp, cancelled) && w in workers && workers[w].Holding()
    requires forall id :: id in conts ==> conts[id].id == id
    requires v.state.Terminal()
    ensures var c := workers[w].c;
      WorkerInv(conts[c.id := Finish(conts[c.id], v, at)], workers[w := Emitting(c, v)], disp, cancelled)
  {
  }

  lemma ResetKeeps(db: Db, disp: DispPc, cancelled: bool, at: Instant)
    requires WorkerInv(db.conts, map[], disp, cancelled)
    ensures WorkerInv(ResetDb(db, at).conts, map[], Scanning, cancelled)
    ensures forall id :: id in ResetDb(db, at).conts ==> !ResetDb(db, at).conts[id].state.Running?
  {
  }

  // ---------- One step, and whole runs ----------

  ghost predicate WorkerInvOf(s: Sys) { WorkerInv(s.db.conts, s.workers, s.disp, s.cancelled) }

  lemma OutKeeps(s: Sys, o: Outside)
    requires WorkerInvOf(s) && OutEnabled(s, o)
    ensures WorkerInvOf(OutApply(s, o)) && Quiet(s.db.conts, OutApply(s, o).db.conts)
  {
    match o {
      case Inject(ev, at, mint) => QuietChange(s.db, s.led, OpIngest(ev, at, mint));
      case RunManually(row) => QuietChange(s.db, s.led, OpInsert(row));
      case Administer(op) => QuietChange(s.db, s.led, op);
      case _ =>
    }
    QuietKeeps(s.db.conts, OutApply(s, o).db.conts, s.workers, s.disp, s.cancelled);
  }

  lemma DisKeeps(s: Sys, d: Dispatch)
    requires Safe(s) && DisEnabled(s, d)
    ensures WorkerInvOf(DisApply(s, d))
  {
    match d
    case BootReset(at) => ResetKeeps(s.db, s.disp, s.cancelled, at);
    case Spawn(w) =>
      if w !in s.workers { SpawnKeeps(s.db.conts, s.workers, s.disp, DisApply(s, d).disp, s.cancelled, w); }
    case _ =>
  }

  /** The worker that moves keeps hold of its row, unless shutdown lets go of it. */
  ghost predicate GoodMove(conts: map<string, Continuation>, cancelled: bool, w: string, pc: WorkerPc, pc': WorkerPc) {
    && WorkerOk(conts, w, pc')
    && (pc.Holding() ==> (pc'.Holding() && pc'.c.id == pc.c.id) || (cancelled && pc'.Top?))
    && (cancelled && (pc.Top? || pc.Exiting?) ==> pc'.Exiting?)
  }

  lemma LookUpMoves(s: Sys, w: string)
    requires w in s.workers && s.workers[w].LookingUp?
    ensures var c, pc := s.workers[w].c, AfterLookUp(s.db, s.workers[w].c, s.cancelled);
      pc.Holding() && pc.c == c && !pc.Recording? && !pc.Returned? && (pc.Judging? ==> pc.v.state.Terminal())
  {
  }

  lemma WorkMoves(s: Sys, w: string, k: Work)
    requires WorkEnabled(s, w, k) && WorkerOk(s.db.conts, w, s.workers[w]) && !k.Claim? && !k.Record? && !k.Fetch?
    ensures GoodMove(s.db.conts, s.cancelled, w, s.workers[w], WorkPc(s, w, k))
  {
    hide OpOk, NewRows, AfterLookUp, WorkCall;
    if k.LookUp? { LookUpMoves(s, w); }
  }

  lemma FetchMoves(s: Sys, w: string, k: Work)
    requires WorkEnabled(s, w, k) && k.Fetch?
    requires forall id :: id in s.db.conts ==> s.db.conts[id].id == id
    ensures GoodMove(s.db.conts, s.cancelled, w, s.workers[w], WorkPc(s, w, k))
  {
  }

  lemma WorkKeeps(s: Sys, w: string, k: Work)
    requires Safe(s) && WorkEnabled(s, w, k)
    ensures WorkerInvOf(WorkApply(s, w, k))
  {
    hide Safe, WorkEnabled, WorkApply, WorkerInvOf;
    match k
    case Claim(at) => ClaimStepKeeps(s, w, k);
    case Record(at) => RecordStepKeeps(s, w, k);
    case Deregister => DeregisterStepKeeps(s, w, k);
    case _ => MoveStep(s, w, k);
  }

  lemma ClaimStepKeeps(s: Sys, w: string, k: Work)
    requires Safe(s) && WorkEnabled(s, w, k) && k.Claim?
    ensures WorkerInvOf(WorkApply(s, w, k))
  {
    hide WorkerInv, ApplyLedger, RulesKept, OneShotFresh, OneShotOnce, PairsUnique, WorkHistory;
    ClaimKeeps(s.db.conts, s.workers, s.disp, s.cancelled, w, k.at);
  }

  lemma RecordStepKeeps(s: Sys, w: string, k: Work)
    requires Safe(s) && WorkEnabled(s, w, k) && k.Record?
    ensures WorkerInvOf(WorkApply(s, w, k))
  {
    assert WorkerOk(s.db.conts, w, s.workers[w]);
    hide WorkerInv, ApplyLedger, RulesKept, OneShotFresh, OneShotOnce, PairsUnique, WorkHistory;
    RecordKeeps(s.db.conts, s.workers, s.disp, s.cancelled, w, s.workers[w].v, k.at);
  }

  lemma DeregisterStepKeeps(s: Sys, w: string, k: Work)
    requires Safe(s) && WorkEnabled(s, w, k) && k.Deregister?
    ensures WorkerInvOf(WorkApply(s, w, k))
  {
    hide WorkerInv, ApplyLedger, StoreInv, WorkHistory;
    DeregisterKeeps(s.db.conts, s.workers, s.disp, s.cancelled, w);
  }

  lemma MoveStep(s: Sys, w: string, k: Work)
    requires Safe(s) && WorkEnabled(s, w, k) && !k.Claim? && !k.Record? && !k.Deregister?
    ensures WorkerInvOf(WorkApply(s, w, k))
  {
    if k.Fetch? { FetchMoves(s, w, k); } else { WorkMoves(s, w, k); }
    MoveKeeps(s.db.conts, s.workers, s.disp, s.cancelled, w, WorkPc(s, w, k));
    QuietChange(s.db, s.led, WorkCall(s.workers[w], k));
    QuietKeeps(s.db.conts, WorkApply(s, w, k).db.conts, s.workers[w := WorkPc(s, w, k)], s.disp, s.cancelled);
  }

  lemma StoreInvStep(s: Sys, a: Action)
    requires StoreInv(s.db, s.led) && Enabled(s, a)
    ensures StoreInv(Apply(s, a).db, Apply(s, a).led)
  {
    StepIsCall(s, a);
    StoreInvByOp(s.db, s.led, CallOf(s, a));
  }

  lemma SafeStep(s: Sys, a: Action)
    requires Safe(s) && Enabled(s, a)
    ensures Safe(Apply(s, a))
  {
    StoreInvStep(s, a);
    match a
    case Out(o) => OutKeeps(s, o);
    case Dis(d) => DisKeeps(s, d);
    case Wrk(w, k) => WorkKeeps(s, w, k);
  }

  lemma {:induction false} SafeAlways(s: Sys, run: seq<Action>)
    requires Safe(s) && IsRun(s, run)
    ensures Safe(End(s, run))
    decreases |run|
  {
    if run == [] {
    } else {
      SafeStep(s, run[0]);
      SafeAlways(Apply(s, run[0]), run[1..]);
    }
  }

  lemma StartsSafe(s: Sys)
    requires Init(s)
    ensures Safe(s)
  {
  }

  /**
   In every reachable state a session has at most one running row, what a worker holds is the
   running row of its session, and after draining no worker is left. That a session has only one
   worker goroutine to begin with is `Goroutines.MutualExclusion`.
   */
  lemma RunningRowsAreHeld(s: Sys, run: seq<Action>)
    requires Init(s) && IsRun(s, run)
    ensures var e := End(s, run);
      && OneRunning(e.db.conts)
      && (forall w :: w in e.workers && e.workers[w].Holding() ==>
            var c := e.workers[w].c;
            && c.sessionId == w && c.id in e.db.conts
            && SameRow(c, e.db.conts[c.id]) && e.db.conts[c.id].state.Running?)
      && (e.disp.Stopped? ==> e.workers == map[])
  {
    StartsSafe(s);
    hide Init, IsRun, End, StoreInv;
    SafeAlways(s, run);
  }

  /** A fetched row is still pending when its worker claims it: a claim never loses a race. */
  lemma ClaimNeverFails(s: Sys, run: seq<Action>, w: string, at: Instant)
    requires Init(s) && IsRun(s, run) && WorkEnabled(End(s, run), w, Claim(at))
    ensures var e := End(s, run);
      WorkPc(e, w, Claim(at)) == LookingUp(e.workers[w].c)
  {
    StartsSafe(s);
    hide Init, IsRun, End, StoreInv;
    SafeAlways(s, run);
  }
}
