/**
 What the daemon can be brought to do: from any state, after a crash and a restart, with nothing
 else coming in, it can serve the queue of a session up to any row in it, with any outcomes.
 */
module Serving {
  import opened Core
  import opened StoreModel
  import opened StoreLaws
  import opened Engine
  import opened WorkerSafety
  import opened WakeUps

  /** Steps that bring in neither events nor rules. */
  predicate Calm(a: Action) {
    !(a.Out? && (a.o.Inject? || (a.o.Administer? && a.o.op.OpAddRule?)))
  }

  /** Some run of calm steps leads from `s` to `e`. */
  ghost predicate Leads(s: Sys, e: Sys) {
    exists run :: IsRun(s, run) && (forall k :: 0 <= k < |run| ==> Calm(run[k])) && End(s, run) == e
  }

  lemma LeadsNowhere(s: Sys)
    ensures Leads(s, s)
  {
    var run: seq<Action> := [];
    assert IsRun(s, run) && End(s, run) == s;
  }

  lemma LeadsOn(s: Sys, e: Sys, a: Action)
    requires Leads(s, e) && Enabled(e, a) && Calm(a)
    ensures Leads(s, Apply(e, a))
  {
    hide Enabled, Apply, Calm, IsRun, End;
    var run :| IsRun(s, run) && (forall k :: 0 <= k < |run| ==> Calm(run[k])) && End(s, run) == e;
    RunThen(s, run, a);
  }

  // ---------- One worker step at a time ----------

  /** The session is the only one served, and its worker is at `pc`. */
  ghost predicate Serves(e: Sys, w: string, pc: WorkerPc) {
    e.workers == map[w := pc] && !e.cancelled && !e.disp.Booting?
  }

  /** Nothing is created and nothing is reported between these states; only rows and sessions change. */
  ghost predicate SameRecords(e: Sys, e': Sys) {
    e'.led == e.led && e'.db.rules == e.db.rules && e'.hist.results == e.hist.results
  }

  /** The step moves the worker as it should, and makes its call. */
  ghost predicate Stepped(e: Sys, e': Sys, w: string, pc: WorkerPc, op: Op)
    requires op.OpIngest? ==> MintOk(e.db, op.ev, op.at, op.mint)
  {
    Serves(e', w, pc) && SameRecords(e, e') && e'.db == ApplyOp(e.db, op) && e'.disp == e.disp
  }

  predicate Steady(k: Work) { !k.Emit? && !k.Notify? && !k.Deregister? }

  lemma WorkSteps(s: Sys, e: Sys, w: string, pc: WorkerPc, k: Work) returns (e': Sys)
    requires Leads(s, e) && Serves(e, w, pc) && Steady(k) && WorkEnabled(e, w, k)
    ensures Leads(s, e') && Stepped(e, e', w, WorkPc(e, w, k), WorkCall(pc, k))
  {
    e' := WorkApply(e, w, k);
    LeadsOn(s, e, Wrk(w, k));
    SteadyCall(e, w, pc, k);
    hide WorkPc, OpOk, ApplyOp, ApplyLedger, Leads;
    assert map[w := pc][w := WorkPc(e, w, k)] == map[w := WorkPc(e, w, k)];
  }

  lemma SteadyCall(e: Sys, w: string, pc: WorkerPc, k: Work)
    requires Serves(e, w, pc) && Steady(k) && WorkEnabled(e, w, k)
    ensures var op := WorkCall(pc, k);
      && (op.OpNone? || op.OpClaim? || op.OpSetSession? || op.OpRecord?)
      && ApplyLedger(e.db, e.led, op) == e.led && ApplyOp(e.db, op).rules == e.db.rules
  {
    SameBooks(e.db, e.led, WorkCall(pc, k));
    hide ApplyLedger;
  }

  // ---------- Serving the oldest row ----------

  /** The session's next run would start. */
  predicate CanResume(db: Db, w: string) { w in db.sessions && db.sessions[w].agent in ADAPTERS }

  ghost predicate RowsNamed(db: Db) { forall id :: id in db.conts ==> db.conts[id].id == id }

  /** Just restarted: recovery done, no workers, and session `w` can run. */
  ghost predicate Ready(e: Sys, w: string) {
    && e.disp.Scanning? && e.workers == map[] && !e.cancelled && CanResume(e.db, w) && RowsNamed(e.db)
    && forall id :: id in e.db.conts ==> !e.db.conts[id].state.Running?
  }

  lemma FetchOldest(s: Sys, e: Sys, w: string, y: string) returns (e': Sys)
    requires Leads(s, e) && Ready(e, w) && IsOldestPending(e.db, w, y)
    ensures Leads(s, e') && Serves(e', w, Claiming(e.db.conts[y])) && SameRecords(e, e') && e'.db == e.db
  {
    hide Leads;
    var e1 := e.(disp := Spawning(PendingSessions(e.db)));
    assert HasPending(e.db, w) by { assert IsPending(e.db, w, y); }
    assert Enabled(e, Dis(Scan)) && Apply(e, Dis(Scan)) == e1;
    LeadsOn(s, e, Dis(Scan));
    var e2 := Apply(e1, Dis(Spawn(w)));
    LeadsOn(s, e1, Dis(Spawn(w)));
    assert Serves(e2, w, Top);
    NoCall(e.db, e.led);
    hide OpOk, ApplyOp, ApplyLedger, Ready, SameRecords;
    var e3 := WorkSteps(s, e2, w, Top, CheckTop);
    assert e3.db == e.db;
    e' := WorkSteps(s, e3, w, Fetching, Fetch(Some(y)));
    SameRecordsThen(e, e3, e');
  }

  lemma SameRecordsThen(a: Sys, b: Sys, c: Sys)
    requires SameRecords(b, c) && b.led == a.led && b.db.rules == a.db.rules && b.hist.results == a.hist.results
    ensures SameRecords(a, c)
  {
  }

  lemma ClaimAndLookUp(s: Sys, e: Sys, w: string, c: Continuation) returns (e': Sys)
    requires Leads(s, e) && Serves(e, w, Claiming(c)) && c.sessionId == w && CanResume(e.db, w)
    requires c.id in e.db.conts && e.db.conts[c.id].state.Pending?
    ensures Leads(s, e') && Serves(e', w, Starting(c)) && SameRecords(e, e') && CanResume(e'.db, w)
    ensures e'.db.conts == e.db.conts[c.id := e.db.conts[c.id].(state := Running, updatedAt := 0)]
  {
    hide Leads, ApplyLedger;
    var e1 := WorkSteps(s, e, w, Claiming(c), Claim(0));
    e' := WorkSteps(s, e1, w, LookingUp(c), LookUp);
  }

  /** A step that changes no row, and leaves the session able to run. */
  ghost predicate Advanced(e: Sys, e': Sys, w: string, pc: WorkerPc) {
    Serves(e', w, pc) && SameRecords(e, e') && e'.db.conts == e.db.conts && CanResume(e'.db, w)
  }

  lemma AdvancedThen(a: Sys, b: Sys, c: Sys, w: string, pc: WorkerPc, pc': WorkerPc)
    requires Advanced(a, b, w, pc) && Advanced(b, c, w, pc')
    ensures Advanced(a, c, w, pc')
  {
  }

  lemma StartMoves(s: Sys, e: Sys, w: string, c: Continuation) returns (e': Sys)
    requires Leads(s, e) && Serves(e, w, Starting(c)) && c.sessionId == w && CanResume(e.db, w)
    ensures Leads(s, e') && Advanced(e, e', w, InResume(c))
  {
    hide Leads;
    e' := WorkSteps(s, e, w, Starting(c), Start(0));
  }

  lemma ReturnMoves(s: Sys, e: Sys, w: string, c: Continuation, res: RunResult) returns (e': Sys)
    requires Leads(s, e) && Serves(e, w, InResume(c)) && CanResume(e.db, w)
    ensures Leads(s, e') && Advanced(e, e', w, Returned(c, JudgeRun(res, None), false))
  {
    hide Leads, JudgeRun;
    e' := WorkSteps(s, e, w, InResume(c), Return(res, None));
  }

  lemma RestMoves(s: Sys, e: Sys, w: string, c: Continuation, v: Verdict) returns (e': Sys)
    requires Leads(s, e) && Serves(e, w, Returned(c, v, false)) && c.sessionId == w && CanResume(e.db, w)
    ensures Leads(s, e') && Advanced(e, e', w, Judging(c, v, false))
  {
    hide Leads;
    e' := WorkSteps(s, e, w, Returned(c, v, false), MarkWaiting(0));
  }

  lemma JudgeMoves(s: Sys, e: Sys, w: string, c: Continuation, v: Verdict) returns (e': Sys)
    requires Leads(s, e) && Serves(e, w, Judging(c, v, false)) && CanResume(e.db, w)
    ensures Leads(s, e') && Advanced(e, e', w, Recording(c, v, false))
  {
    hide Leads;
    e' := WorkSteps(s, e, w, Judging(c, v, false), Judge);
  }

  lemma AdvancedServes(e: Sys, e': Sys, w: string, pc: WorkerPc)
    requires Advanced(e, e', w, pc)
    ensures Serves(e', w, pc) && CanResume(e'.db, w)
  {
  }

  lemma RunAndRest(s: Sys, e: Sys, w: string, c: Continuation, res: RunResult) returns (e': Sys)
    requires Leads(s, e) && Serves(e, w, Starting(c)) && c.sessionId == w && CanResume(e.db, w)
    ensures Leads(s, e') && Advanced(e, e', w, Recording(c, JudgeRun(res, None), false))
  {
    hide *;
    var v := JudgeRun(res, None);
    var e1 := StartMoves(s, e, w, c);
    AdvancedServes(e, e1, w, InResume(c));
    var e2 := ReturnMoves(s, e1, w, c, res);
    AdvancedServes(e1, e2, w, Returned(c, v, false));
    AdvancedThen(e, e1, e2, w, InResume(c), Returned(c, v, false));
    var e3 := RestMoves(s, e2, w, c, v);
    AdvancedServes(e2, e3, w, Judging(c, v, false));
    AdvancedThen(e, e2, e3, w, Returned(c, v, false), Judging(c, v, false));
    e' := JudgeMoves(s, e3, w, c, v);
    AdvancedThen(e, e3, e', w, Judging(c, v, false), Recording(c, v, false));
  }

  lemma RecordSteps(s: Sys, e: Sys, w: string, c: Continuation, v: Verdict) returns (e': Sys)
    requires Leads(s, e) && Serves(e, w, Recording(c, v, false)) && CanResume(e.db, w) && c.id in e.db.conts
    ensures Leads(s, e') && Serves(e', w, Emitting(c, v)) && SameRecords(e, e') && CanResume(e'.db, w)
    ensures e'.db.conts == e.db.conts[c.id := Finish(e.db.conts[c.id], v, 0)]
  {
    hide Leads;
    e' := WorkSteps(s, e, w, Recording(c, v, false), Record(0));
  }

  /** What serving one row changes in the tables. */
  ghost predicate OnlyRow(db: Db, db': Db, y: string) {
    && y in db'.conts && db'.conts.Keys == db.conts.Keys && db'.conts[y].id == y
    && forall id :: id in db.conts && id != y ==> db'.conts[id] == db.conts[id]
  }

  /** The oldest row runs with the given outcome, up to the point where its result is to be reported. */
  lemma ServeOldest(s: Sys, e: Sys, w: string, y: string, res: RunResult) returns (e': Sys)
    requires Leads(s, e) && Ready(e, w) && IsOldestPending(e.db, w, y)
    ensures Leads(s, e') && Serves(e', w, Emitting(e.db.conts[y], JudgeRun(res, None))) && SameRecords(e, e')
    ensures CanResume(e'.db, w) && OnlyRow(e.db, e'.db, y)
    ensures e'.db.conts[y].state == JudgeRun(res, None).state
  {
    hide Leads, JudgeRun, Ready, IsOldestPending, Serves, CanResume;
    OldestIsThere(e, w, y);
    var c := e.db.conts[y];
    var e1 := FetchOldest(s, e, w, y);
    var e2 := ClaimAndLookUp(s, e1, w, c);
    var e3 := RunAndRest(s, e2, w, c, res);
    e' := RecordSteps(s, e3, w, c, JudgeRun(res, None));
  }

  lemma OldestIsThere(e: Sys, w: string, y: string)
    requires Ready(e, w) && IsOldestPending(e.db, w, y)
    ensures y in e.db.conts && e.db.conts[y].id == y && e.db.conts[y].sessionId == w && e.db.conts[y].state.Pending?
    ensures CanResume(e.db, w)
  {
  }

  // ---------- Serving a queue up to one row ----------

  ghost function PendingOf(db: Db, w: string): set<string> {
    set id | id in db.conts && IsPending(db, w, id)
  }

  const FAILS := RunResult("", 1, "", 0)
  const SUCCEEDS := RunResult("", 0, "", 0)

  /** Crash and recovery: whatever was going on, the daemon can start over. */
  lemma StartOver(s: Sys, e: Sys, w: string) returns (e': Sys)
    requires Leads(s, e) && CanResume(e.db, w) && RowsNamed(e.db)
    ensures Leads(s, e') && Ready(e', w) && SameRecords(e, e')
    ensures e'.db.conts.Keys == e.db.conts.Keys
    ensures forall id :: id in e.db.conts ==> e'.db.conts[id] == ResetRow(e.db.conts[id], 0)
  {
    hide Leads;
    LeadsOn(s, e, Out(Crash));
    var e1 := Apply(e, Out(Crash));
    LeadsOn(s, e1, Dis(BootReset(0)));
    e' := Apply(e1, Dis(BootReset(0)));
    ResetBooks(e.db, e.led);
    hide ApplyLedger;
  }

  lemma ResetBooks(db: Db, led: Ledger)
    ensures ApplyLedger(db, led, OpReset(0)) == led
  {
    assert db.conts.Keys - ResetDb(db, 0).conts.Keys == {};
    assert led.created + map[] == led.created && led.swept + {} == led.swept;
  }

  /** A crash is a fresh start on the same tables: nothing else survives it. */
  lemma RestartIsBoot(s: Sys, init: Sys)
    requires Init(init)
    ensures Enabled(s, Out(Crash)) && Apply(s, Out(Crash)) == init.(db := s.db, led := s.led, hist := s.hist)
  {
  }

  /** A row before the wanted one is run without success and its report lost in a crash. */
  lemma SkipOldest(s: Sys, e: Sys, w: string, y: string) returns (e': Sys)
    requires Leads(s, e) && Ready(e, w) && IsOldestPending(e.db, w, y)
    ensures Leads(s, e') && Ready(e', w) && SameRecords(e, e') && OnlyRow(e.db, e'.db, y)
    ensures e'.db.conts[y].state.Terminal()
  {
    NothingRuns(e, w);
    hide Leads, IsOldestPending, Ready, CanResume, Serves;
    var e1 := ServeOldest(s, e, w, y, FAILS);
    assert JudgeRun(FAILS, None).state.Failed?;
    e' := StartOver(s, e1, w);
  }

  lemma NothingRuns(e: Sys, w: string)
    requires Ready(e, w)
    ensures RowsNamed(e.db) && forall id :: id in e.db.conts ==> !e.db.conts[id].state.Running?
  {
  }

  /** Any waiting row of the session can be run to completion, without creating or reporting anything on the way. */
  lemma {:induction false} ServeUpTo(s: Sys, e: Sys, w: string, x: string) returns (e': Sys)
    requires Leads(s, e) && Ready(e, w) && IsPending(e.db, w, x)
    ensures Leads(s, e') && Serves(e', w, Emitting(e.db.conts[x], JudgeRun(SUCCEEDS, None))) && SameRecords(e, e')
    decreases PendingOf(e.db, w)
  {
    hide Leads, Ready, Serves, JudgeRun;
    var y := HeadOf(e, w, x);
    if y == x {
      e' := ServeOldest(s, e, w, x, SUCCEEDS);
    } else {
      var e1 := SkipOldest(s, e, w, y);
      assert y in PendingOf(e.db, w) && y !in PendingOf(e1.db, w);
      assert PendingOf(e1.db, w) <= PendingOf(e.db, w);
      e' := ServeUpTo(s, e1, w, x);
    }
  }

  lemma HeadOf(e: Sys, w: string, x: string) returns (y: string)
    requires Ready(e, w) && IsPending(e.db, w, x)
    ensures IsOldestPending(e.db, w, y)
  {
    var found := FetchIsPossible(e.db, w);
    y := found.value;
  }
}
