/**
 A step waits for the completion of the step it names. Exactly when can nothing else start it?
 The condition is on the state at hand: what is stored, what is unfinished, what is being reported.
 */
module StepOwnership {
  import opened Core
  import opened StoreModel
  import opened StoreLaws
  import opened Engine
  import opened WorkerSafety
  import opened RunHistory
  import opened WakeUps
  import opened Counting
  import opened Chains
  import opened Serving
  import Workflow

  // ---------- The condition ----------

  /** The rule can still create rows that report under `l` before anything completes under `l`. */
  predicate Supplies(r: Rule, l: string) { !r.consumed && RuleSource(r) == l && r.selector != DoneOf(l) }

  /** The worker is about to report a completion under `l`. */
  predicate Reporting(pc: WorkerPc, l: string) { pc.Emitting? && pc.v.state.Completed? && RowSource(pc.c) == l }

  /** Whatever is stored and may yet complete under `l` is `own`'s: rules that can fire, and unfinished rows. */
  ghost predicate ClearTables(db: Db, l: string, own: string) {
    && (forall q :: q in db.rules && Supplies(db.rules[q], l) ==> q == own)
    && (forall id :: id in db.conts && !db.conts[id].state.Terminal() && RowSource(db.conts[id]) == l
          ==> db.conts[id].ruleId == own)
  }

  ghost predicate ClearReports(workers: map<string, WorkerPc>, l: string, own: string) {
    forall w :: w in workers && Reporting(workers[w], l) ==> workers[w].c.ruleId == own
  }

  /** Only rule `own` may yet complete under `l`: by what is stored, and by the reports under way. */
  ghost predicate Clear(s: Sys, l: string, own: string) {
    l != "manual" && ClearTables(s.db, l, own) && ClearReports(s.workers, l, own)
  }

  /** From now on no event is injected that poses as the completion, and no rule added that could supply one. */
  predicate Undisturbed(a: Action, l: string, own: string) {
    match a
    case Out(Inject(ev, _, _)) => !DoneOf(l).Matches(ev)
    case Out(Administer(OpAddRule(q))) => Supplies(q, l) ==> q.id == own
    case _ => true
  }

  predicate UndisturbedRun(run: seq<Action>, l: string, own: string) {
    forall k :: 0 <= k < |run| ==> Undisturbed(run[k], l, own)
  }

  /** Whatever rule `r` created was started by the one result event of a completed row of rule `own`. */
  ghost predicate OwnStart(e: Sys, l: string, r: string, own: string) {
    forall id :: id in e.led.created && e.led.created[id].ruleId == r ==> CausedByRule(e, l, id, own)
  }

  ghost predicate CausedByRule(e: Sys, l: string, id: string, own: string) {
    exists cause :: Caused(e, l, id, cause) && e.led.created[cause].ruleId == own
  }

  // ---------- It suffices ----------

  ghost predicate Unfired(db: Db, r: string) { r in db.rules && !db.rules[r].consumed }

  /** The invariant: what `r` created is `own`'s doing, and while it has created nothing the way is clear. */
  ghost predicate Guarded(s: Sys, l: string, r: string, own: string) {
    && WaitsFor(s.led, r, l) && s.led.rulesEver[r].oneShot && s.led.rulesEver[r].expiresAt.None?
    && OwnStart(s, l, r, own)
    && (Unfired(s.db, r) ==> Clear(s, l, own))
  }

  /** An event the waiting rule is hit by consumes it. */
  lemma HitConsumes(db: Db, led: Ledger, op: Op, r: string, l: string)
    requires StoreInv(db, led) && OpOk(db, led, op) && op.OpIngest? && DoneOf(l).Matches(op.ev)
    requires WaitsFor(led, r, l) && led.rulesEver[r].oneShot && led.rulesEver[r].expiresAt.None?
    ensures !Unfired(ApplyOp(db, op), r)
  {
    hide MintOk, RowsFor;
    if Unfired(db, r) {
      assert RuleKept(db, led, r);
      assert !Fired(db.conts, r, op.ev.id);
    }
  }

  /** A rule is not brought back: unfired after a call means unfired before. */
  lemma UnfiredBefore(db: Db, led: Ledger, op: Op, r: string)
    requires OpOk(db, led, op) && r in led.rulesEver && Unfired(ApplyOp(db, op), r)
    ensures Unfired(db, r)
  {
    hide MintOk, RowsFor, Firing;
  }

  /** Without such an event, the rules that can supply completions afterwards could before, or were added. */
  lemma SuppliersKept(db: Db, led: Ledger, op: Op, l: string, q: string)
    requires OpOk(db, led, op) && q in ApplyOp(db, op).rules && Supplies(ApplyOp(db, op).rules[q], l)
    ensures (q in db.rules && Supplies(db.rules[q], l)) || (op.OpAddRule? && op.rule.id == q && Supplies(op.rule, l))
  {
    hide MintOk, RowsFor, Firing;
  }

  /** An unfinished row afterwards was one before, or is new and its rule could supply it, or is a manual one. */
  lemma UnfinishedKept(db: Db, led: Ledger, op: Op, l: string, id: string)
    requires StoreInv(db, led) && OpOk(db, led, op) && (op.OpIngest? ==> !DoneOf(l).Matches(op.ev)) && l != "manual"
    requires op.OpRecord? ==> op.verdict.state.Terminal()
    requires id in ApplyOp(db, op).conts && !ApplyOp(db, op).conts[id].state.Terminal()
    requires RowSource(ApplyOp(db, op).conts[id]) == l
    ensures var c := ApplyOp(db, op).conts[id];
      || (id in db.conts && !db.conts[id].state.Terminal() && RowSource(db.conts[id]) == l
          && db.conts[id].ruleId == c.ruleId)
      || (c.ruleId in db.rules && Supplies(db.rules[c.ruleId], l))
  {
    RowAfter(db, led, op, id);
    if id in NewRows(db, op) {
      NewRowSupplied(db, led, op, l, id);
    } else {
      UnfinishedWas(db, op, id);
    }
    hide OpOk, ApplyOp, NewRows, StoreInv;
  }

  lemma NewRowSupplied(db: Db, led: Ledger, op: Op, l: string, id: string)
    requires StoreInv(db, led) && OpOk(db, led, op) && (op.OpIngest? ==> !DoneOf(l).Matches(op.ev)) && l != "manual"
    requires id in NewRows(db, op) && RowSource(NewRows(db, op)[id]) == l
    ensures var r := NewRows(db, op)[id].ruleId; r in db.rules && Supplies(db.rules[r], l)
  {
    NewRowRule(db, led, op, id);
    hide MintOk;
  }

  lemma UnfinishedWas(db: Db, op: Op, id: string)
    requires op.OpIngest? ==> MintOk(db, op.ev, op.at, op.mint)
    requires op.OpRecord? ==> op.verdict.state.Terminal()
    requires id in db.conts && id in ApplyOp(db, op).conts && !ApplyOp(db, op).conts[id].state.Terminal()
    requires id !in NewRows(db, op)
    ensures !db.conts[id].state.Terminal()
  {
    hide MintOk, Firing;
  }

  lemma WorkerReports(s: Sys, w: string, k: Work, l: string, own: string)
    requires Tracked(s) && WorkEnabled(s, w, k) && Clear(s, l, own) && !k.Deregister?
    ensures Reporting(WorkPc(s, w, k), l) ==> WorkPc(s, w, k).c.ruleId == own
  {
    hide Tracked, Clear, OpOk, NewRows, RowSource;
    if k.Record? && RowSource(s.workers[w].c) == l { RecorderIsOwn(s, w, l, own); }
  }

  lemma RecorderIsOwn(s: Sys, w: string, l: string, own: string)
    requires Tracked(s) && Clear(s, l, own) && w in s.workers && s.workers[w].Recording?
    requires RowSource(s.workers[w].c) == l
    ensures s.workers[w].c.ruleId == own
  {
    assert WorkerOk(s.db.conts, w, s.workers[w]);
    hide Tracked;
  }

  /** A step other than the worker's own leaves it where it is, or starts it. */
  lemma OthersStay(s: Sys, a: Action, w: string)
    requires Enabled(s, a) && w in Apply(s, a).workers && !(a.Wrk? && a.w == w)
    ensures Apply(s, a).workers[w].Top? || (w in s.workers && Apply(s, a).workers[w] == s.workers[w])
  {
    hide WorkEnabled, OutEnabled, OpOk, ApplyOp, ApplyLedger, WorkPc, WorkHistory, WorkCall, NewRows;
  }

  lemma MoverIs(s: Sys, a: Action)
    requires Enabled(s, a) && a.Wrk? && a.w in Apply(s, a).workers
    ensures WorkEnabled(s, a.w, a.k) && !a.k.Deregister? && Apply(s, a).workers[a.w] == WorkPc(s, a.w, a.k)
  {
    hide WorkEnabled, OpOk, ApplyOp, ApplyLedger, WorkPc, WorkHistory, WorkCall;
  }

  lemma ReportsKept(s: Sys, a: Action, l: string, own: string, w: string)
    requires Tracked(s) && Enabled(s, a) && Clear(s, l, own) && w in Apply(s, a).workers
    ensures Reporting(Apply(s, a).workers[w], l) ==> Apply(s, a).workers[w].c.ruleId == own
  {
    hide Tracked, Enabled, Apply, ClearTables;
    if a.Wrk? && a.w == w {
      MoverIs(s, a);
      WorkerReports(s, w, a.k, l, own);
    } else {
      OthersStay(s, a, w);
    }
  }

  /** Recorded verdicts are final ones. */
  lemma RecordsFinal(s: Sys, a: Action)
    requires Tracked(s) && Enabled(s, a)
    ensures CallOf(s, a).OpRecord? ==> CallOf(s, a).verdict.state.Terminal()
  {
    hide HistInvOf, ResultInv, StoreInv, OpOk;
    if a.Wrk? { assert WorkerOk(s.db.conts, a.w, s.workers[a.w]); }
  }

  lemma AddsOnlyByAdmin(s: Sys, a: Action, l: string, own: string)
    requires Enabled(s, a) && Undisturbed(a, l, own) && CallOf(s, a).OpAddRule?
    ensures Supplies(CallOf(s, a).rule, l) ==> CallOf(s, a).rule.id == own
  {
    hide OpOk, ResultEvent;
  }

  lemma TablesStayClear(db: Db, led: Ledger, op: Op, l: string, own: string)
    requires ClearTables(db, l, own) && l != "manual" && StoreInv(db, led) && OpOk(db, led, op)
    requires (op.OpIngest? ==> !DoneOf(l).Matches(op.ev)) && (op.OpRecord? ==> op.verdict.state.Terminal())
    requires op.OpAddRule? && Supplies(op.rule, l) ==> op.rule.id == own
    ensures ClearTables(ApplyOp(db, op), l, own)
  {
    var db' := ApplyOp(db, op);
    hide StoreInv, OpOk, ApplyOp, Supplies, RowSource, DoneOf;
    forall q | q in db'.rules && Supplies(db'.rules[q], l) ensures q == own {
      SuppliersKept(db, led, op, l, q);
    }
    forall id | id in db'.conts && !db'.conts[id].state.Terminal() && RowSource(db'.conts[id]) == l
      ensures db'.conts[id].ruleId == own
    {
      UnfinishedKept(db, led, op, l, id);
    }
  }

  lemma ClearStep(s: Sys, a: Action, l: string, own: string)
    requires Tracked(s) && Clear(s, l, own) && Enabled(s, a) && Undisturbed(a, l, own)
    requires CallOf(s, a).OpIngest? ==> !DoneOf(l).Matches(CallOf(s, a).ev)
    ensures Clear(Apply(s, a), l, own)
  {
    StoreInvOf(s);
    hide Tracked, StoreInv, Enabled, Apply, CallOf, OpOk, ApplyOp, ApplyLedger, Supplies, Reporting, Undisturbed,
         DoneOf, ClearTables;
    StepIsCall(s, a);
    RecordsFinal(s, a);
    if CallOf(s, a).OpAddRule? { AddsOnlyByAdmin(s, a, l, own); }
    TablesStayClear(s.db, s.led, CallOf(s, a), l, own);
    forall w | w in Apply(s, a).workers && Reporting(Apply(s, a).workers[w], l)
      ensures Apply(s, a).workers[w].c.ruleId == own
    {
      ReportsKept(s, a, l, own, w);
    }
  }

  // ---------- The rows of the waiting rule ----------

  lemma OldStartKept(s: Sys, a: Action, l: string, own: string, id: string)
    requires Tracked(s) && Enabled(s, a) && id in s.led.created && CausedByRule(s, l, id, own)
    ensures CausedByRule(Apply(s, a), l, id, own)
  {
    StoreInvOf(s);
    hide Tracked, StoreInv, Enabled, Apply, CallOf, OpOk, ApplyOp, ApplyLedger;
    var cause :| Caused(s, l, id, cause) && s.led.created[cause].ruleId == own;
    CausedStays(s, a, l, id, cause);
    StepIsCall(s, a);
    LedgerGrows(s, CallOf(s, a));
  }

  /** The rule fires: then it was unfired, so the way was clear, and the event is a report of `own`'s row. */
  lemma NewStartOwn(s: Sys, a: Action, l: string, r: string, own: string, id: string)
    requires Tracked(s) && Guarded(s, l, r, own) && Enabled(s, a) && Undisturbed(a, l, own) && l != ""
    requires id in NewRows(s.db, CallOf(s, a)) && NewRows(s.db, CallOf(s, a))[id].ruleId == r
    requires id in Apply(s, a).led.created && Apply(s, a).led.created[id] == NewRows(s.db, CallOf(s, a))[id]
    ensures CausedByRule(Apply(s, a), l, id, own)
  {
    StoreInvOf(s);
    hide Tracked, StoreInv, OpOk, Enabled, Apply, ApplyOp, ApplyLedger, NewRows, CallOf, WaitsFor, OwnStart, Clear,
         DoneOf, Caused, CausedByRule, Undisturbed, Unfired;
    StepIsCall(s, a);
    FiredWasUnfired(s.db, s.led, CallOf(s, a), r, id);
    NewRowHit(s.db, s.led, CallOf(s, a), id, l);
    HitIsReport(s, a, l, own);
    ReportStarts(s, a.w, a.k, l, own, id);
    WorkerMoves(s, a);
  }

  /** In an undisturbed run, an event that passes for the completion is a report. */
  lemma HitIsReport(s: Sys, a: Action, l: string, own: string)
    requires Enabled(s, a) && Undisturbed(a, l, own) && CallOf(s, a).OpIngest? && DoneOf(l).Matches(CallOf(s, a).ev)
    ensures a.Wrk? && a.k.Emit? && WorkEnabled(s, a.w, a.k)
    ensures CallOf(s, a).ev == ResultEvent(s.workers[a.w].c, s.workers[a.w].v, a.k.evId, a.k.at)
  {
    IngestingSteps(s, a);
    hide CallOf, OpOk, ResultEvent, DoneOf;
  }

  lemma WorkerMoves(s: Sys, a: Action)
    requires Enabled(s, a) && a.Wrk?
    ensures WorkEnabled(s, a.w, a.k) && Apply(s, a) == WorkApply(s, a.w, a.k)
  {
    hide WorkEnabled, WorkApply;
  }

  lemma ReportStarts(s: Sys, w: string, k: Work, l: string, own: string, id: string)
    requires Tracked(s) && Clear(s, l, own) && l != "" && k.Emit? && WorkEnabled(s, w, k)
    requires DoneOf(l).Matches(ResultEvent(s.workers[w].c, s.workers[w].v, k.evId, k.at))
    requires id in WorkApply(s, w, k).led.created
    requires WorkApply(s, w, k).led.created[id].eventId == ResultEvent(s.workers[w].c, s.workers[w].v, k.evId, k.at).id
    ensures CausedByRule(WorkApply(s, w, k), l, id, own)
  {
    EmittingNow(s, w, k);
    hide Tracked, Clear, OpOk, WorkEnabled, WorkApply, ResultEvent, DoneOf, Caused;
    EmitCauses(s, w, k, id, l);
    ReporterIsOwn(s, w, k, l, own);
    assert Caused(WorkApply(s, w, k), l, id, s.workers[w].c.id);
  }

  lemma FiredWasUnfired(db: Db, led: Ledger, op: Op, r: string, id: string)
    requires StoreInv(db, led) && OpOk(db, led, op) && r in led.rulesEver
    requires id in NewRows(db, op) && NewRows(db, op)[id].ruleId == r
    ensures Unfired(db, r)
  {
    NewRowRule(db, led, op, id);
    hide NewRows, MintOk;
  }

  lemma ReporterIsOwn(s: Sys, w: string, k: Work, l: string, own: string)
    requires Tracked(s) && Clear(s, l, own) && l != "" && k.Emit? && WorkEnabled(s, w, k)
    requires DoneOf(l).Matches(ResultEvent(s.workers[w].c, s.workers[w].v, k.evId, k.at))
    ensures var id, created := s.workers[w].c.id, WorkApply(s, w, k).led.created;
      id in created && created[id].ruleId == own
  {
    EmittingNow(s, w, k);
    hide Tracked, OpOk, WorkApply, ResultEvent, WorkEnabled;
    var pc := s.workers[w];
    ResultHits(pc.c, pc.v, k.evId, k.at, l);
    assert Reporting(pc, l);
    ReporterKept(s, w, k);
  }

  lemma EmitterRow(s: Sys, w: string)
    requires Tracked(s) && w in s.workers && s.workers[w].Emitting?
    ensures s.workers[w].c.id in s.led.created && s.led.created[s.workers[w].c.id].ruleId == s.workers[w].c.ruleId
  {
    assert EmitterOk(s.led.created, s.hist, s.workers[w]);
  }

  lemma ReporterKept(s: Sys, w: string, k: Work)
    requires Tracked(s) && k.Emit? && WorkEnabled(s, w, k)
    ensures var id := s.workers[w].c.id;
      id in WorkApply(s, w, k).led.created && WorkApply(s, w, k).led.created[id].ruleId == s.workers[w].c.ruleId
  {
    StoreInvOf(s);
    EmittingNow(s, w, k);
    EmitFields(s, w, k);
    hide Tracked, StoreInv, OpOk, WorkApply, Commit, ResultEvent, WorkEnabled;
    EmitterRow(s, w);
    LedgerGrows(s, WorkCall(s.workers[w], k));
  }

  lemma StartsKept(s: Sys, a: Action, l: string, r: string, own: string)
    requires Tracked(s) && Guarded(s, l, r, own) && Enabled(s, a) && Undisturbed(a, l, own) && l != ""
    ensures OwnStart(Apply(s, a), l, r, own)
  {
    StoreInvOf(s);
    StepIsCall(s, a);
    LedgerGrows(s, CallOf(s, a));
    hide Tracked, StoreInv, Enabled, Apply, CallOf, OpOk, ApplyOp, ApplyLedger, CausedByRule, Undisturbed, NewRows,
         Clear, WaitsFor, Unfired;
    var e := Apply(s, a);
    forall id | id in e.led.created && e.led.created[id].ruleId == r ensures CausedByRule(e, l, id, own) {
      if id in s.led.created {
        OldStartKept(s, a, l, own, id);
      } else {
        NewRowIs(s.db, s.led, CallOf(s, a), id);
        NewStartOwn(s, a, l, r, own, id);
      }
    }
  }

  lemma RuleRemembered(db: Db, led: Ledger, op: Op, r: string, l: string)
    requires OpOk(db, led, op) && WaitsFor(led, r, l) && led.rulesEver[r].oneShot && led.rulesEver[r].expiresAt.None?
    ensures var led' := ApplyLedger(db, led, op);
      WaitsFor(led', r, l) && led'.rulesEver[r].oneShot && led'.rulesEver[r].expiresAt.None?
  {
    hide NewRows, ApplyOp;
  }

  lemma GuardedStep(s: Sys, a: Action, l: string, r: string, own: string)
    requires Tracked(s) && Guarded(s, l, r, own) && Enabled(s, a) && Undisturbed(a, l, own) && l != ""
    ensures Guarded(Apply(s, a), l, r, own)
  {
    StoreInvOf(s);
    StepIsCall(s, a);
    StartsKept(s, a, l, r, own);
    RuleRemembered(s.db, s.led, CallOf(s, a), r, l);
    hide Tracked, StoreInv, Enabled, Apply, CallOf, OpOk, ApplyOp, ApplyLedger, OwnStart, Undisturbed, Clear,
         Unfired, DoneOf;
    if Unfired(Apply(s, a).db, r) {
      UnfiredBefore(s.db, s.led, CallOf(s, a), r);
      if CallOf(s, a).OpIngest? && DoneOf(l).Matches(CallOf(s, a).ev) {
        HitConsumes(s.db, s.led, CallOf(s, a), r, l);
      } else {
        ClearStep(s, a, l, own);
      }
    }
  }

  lemma {:induction false} GuardedRun(s: Sys, run: seq<Action>, l: string, r: string, own: string)
    requires Tracked(s) && Guarded(s, l, r, own) && IsRun(s, run) && l != ""
    requires UndisturbedRun(run, l, own)
    ensures Guarded(End(s, run), l, r, own)
    decreases |run|
  {
    hide Tracked, Guarded, Apply, Enabled, Undisturbed;
    if run == [] {
    } else {
      TrackedStep(s, run[0]);
      GuardedStep(s, run[0], l, r, own);
      GuardedRun(Apply(s, run[0]), run[1..], l, r, own);
    }
  }

  lemma WaitingIsGuarded(s: Sys, r: Rule, l: string, own: string)
    requires Tracked(s) && Workflow.Waits(s.db, s.led, r) && r.selector == DoneOf(l) && Clear(s, l, own)
    ensures Guarded(s, l, r.id, own)
  {
    StoreInvOf(s);
    assert RuleKept(s.db, s.led, r.id);
    hide Tracked, StoreInv, Clear, DoneOf;
  }

  /**
   In a clear state, and as long as nobody injects a posing event or adds a supplying rule, whatever
   starts the waiting step is the one result event of the completed row of the step it names.
   */
  lemma ClearMeansOwnStart(s: Sys, run: seq<Action>, r: Rule, l: string, own: string)
    requires Tracked(s) && Workflow.Waits(s.db, s.led, r) && r.selector == DoneOf(l) && l != "" && Clear(s, l, own)
    requires IsRun(s, run) && UndisturbedRun(run, l, own)
    ensures OwnStart(End(s, run), l, r.id, own)
  {
    hide *;
    WaitingIsGuarded(s, r, l, own);
    GuardedRun(s, run, l, r.id, own);
    GuardedMeans(End(s, run), l, r.id, own);
  }

  lemma GuardedMeans(s: Sys, l: string, r: string, own: string)
    requires Guarded(s, l, r, own)
    ensures OwnStart(s, l, r, own)
  {
  }

  // ---------- It is needed ----------

  /** Reporting one row adds nothing to what is on record for the others. */
  lemma OthersUnreported(s: Sys, w: string, k: Work, id: string)
    requires WorkEnabled(s, w, k) && k.Emit? && id != s.workers[w].c.id
    ensures WorkApply(s, w, k).hist.Results(id) == s.hist.Results(id)
  {
    hide OpOk, ApplyOp, ApplyLedger, WorkPc, ResultEvent;
  }

  ghost function ReportedIds(h: History): set<string> {
    set id, i | id in h.results && 0 <= i < |h.results[id]| :: h.results[id][i].id
  }

  lemma NotReported(h: History, evId: string, id: string)
    requires evId !in ReportedIds(h)
    ensures forall i :: 0 <= i < |h.Results(id)| ==> h.Results(id)[i].id != evId
  {
    forall i | 0 <= i < |h.Results(id)| ensures h.Results(id)[i].id != evId {
      assert h.results[id][i].id in ReportedIds(h);
    }
  }

  lemma RowsAreEntered(s: Sys)
    requires Tracked(s)
    ensures s.db.conts.Keys <= s.led.created.Keys
  {
  }

  /** A report under a name of its own can be made whenever a worker is about to report. */
  lemma FreshReport(s: Sys, w: string) returns (k: Work)
    requires Tracked(s) && w in s.workers && s.workers[w].Emitting?
    ensures k.Emit? && WorkEnabled(s, w, k) && k.evId !in ReportedIds(s.hist)
  {
    RowsAreEntered(s);
    hide Tracked, WorkEnabled, ResultEvent, MintOk, OpOk, ReportedIds, Repeat;
    var pc := s.workers[w];
    var n := LongerThanAll(ReportedIds(s.hist));
    var evId := Repeat(n + 1);
    ResultId(pc.c, pc.v, evId, 0);
    var mint := EmitIsPossible(s.db, s.led, ResultEvent(pc.c, pc.v, evId, 0), 0);
    k := Emit(evId, 0, mint);
    EmitEnabled(s, w, k);
  }

  lemma EmitEnabled(s: Sys, w: string, k: Work)
    requires w in s.workers && s.workers[w].Emitting? && k.Emit?
    requires OpOk(s.db, s.led, OpIngest(ResultEvent(s.workers[w].c, s.workers[w].v, k.evId, k.at), k.at, k.mint))
    ensures WorkEnabled(s, w, k)
  {
    hide OpOk, ResultEvent;
  }

  /** The one record that names a fresh event is that of the row reported with it. */
  lemma CauseIsReporter(s: Sys, w: string, k: Work, l: string, id: string, cause: string)
    requires Tracked(s) && k.Emit? && WorkEnabled(s, w, k) && k.evId !in ReportedIds(s.hist)
    requires Caused(WorkApply(s, w, k), l, id, cause) && WorkApply(s, w, k).led.created[id].eventId == k.evId
    ensures cause == s.workers[w].c.id
  {
    EmittingNow(s, w, k);
    hide Tracked, WorkEnabled, WorkApply, ReportedIds, RowSource, OpOk;
    if cause != s.workers[w].c.id {
      OthersUnreported(s, w, k, cause);
      NotReported(s.hist, k.evId, cause);
    }
  }

  lemma SafeOf(s: Sys)
    requires Tracked(s)
    ensures Safe(s)
  {
  }

  /** Row `id` of rule `r` was started by row `cause`, which is not `own`'s, and by nothing of `own`'s. */
  ghost predicate StartedByOther(e: Sys, l: string, r: string, own: string, id: string, cause: string) {
    && Caused(e, l, id, cause) && e.led.created[id].ruleId == r && e.led.created[cause].ruleId != own
    && !CausedByRule(e, l, id, own)
  }

  lemma OtherIsNotOwn(e: Sys, l: string, r: string, own: string, id: string, cause: string)
    requires StartedByOther(e, l, r, own, id, cause)
    ensures !OwnStart(e, l, r, own)
  {
    hide CausedByRule;
  }

  /** A foreign row whose completion is about to be reported under `l` can start the waiting step. */
  lemma ForeignReport(s: Sys, w: string, r: Rule, l: string, own: string) returns (k: Work, id: string)
    requires Tracked(s) && Workflow.Waits(s.db, s.led, r) && r.selector == DoneOf(l) && l != ""
    requires w in s.workers && Reporting(s.workers[w], l) && s.workers[w].c.ruleId != own
    ensures k.Emit? && WorkEnabled(s, w, k) && StartedByOther(WorkApply(s, w, k), l, r.id, own, id, s.workers[w].c.id)
  {
    SafeOf(s);
    hide Tracked, Safe, WorkEnabled, WorkApply, ReportedIds, RowSource, DoneOf, Caused, Workflow.Waits, ResultEvent;
    k := FreshReport(s, w);
    EmissionStartsStepIff(s, w, k, r, l);
    ReporterKept(s, w, k);
    var e, pc := WorkApply(s, w, k), s.workers[w];
    id :| id in e.led.created && e.led.created[id].ruleId == r.id;
    ResultHits(pc.c, pc.v, k.evId, k.at, l);
    ResultId(pc.c, pc.v, k.evId, k.at);
    EmitCauses(s, w, k, id, l);
    forall cause | Caused(e, l, id, cause) ensures e.led.created[cause].ruleId != own {
      CauseIsReporter(s, w, k, l, id, cause);
    }
  }

  /** Some undisturbed run ends with the waiting step started by a row of another rule. */
  ghost predicate Misled(s: Sys, l: string, r: string, own: string) {
    exists run, id, cause ::
      IsRun(s, run) && UndisturbedRun(run, l, own) && StartedByOther(End(s, run), l, r, own, id, cause)
  }

  lemma CalmIsUndisturbed(run: seq<Action>, l: string, own: string)
    requires forall k :: 0 <= k < |run| ==> Calm(run[k])
    ensures UndisturbedRun(run, l, own)
  {
    forall k | 0 <= k < |run| ensures Undisturbed(run[k], l, own) { assert Calm(run[k]); }
  }

  lemma MisledBy(s: Sys, e: Sys, l: string, r: string, own: string, id: string, cause: string)
    requires Leads(s, e) && StartedByOther(e, l, r, own, id, cause)
    ensures Misled(s, l, r, own)
  {
    hide Calm, IsRun, End, StartedByOther, UndisturbedRun;
    var run :| IsRun(s, run) && (forall k :: 0 <= k < |run| ==> Calm(run[k])) && End(s, run) == e;
    CalmIsUndisturbed(run, l, own);
    assert StartedByOther(End(s, run), l, r, own, id, cause);
  }

  lemma MisledAfter(s: Sys, a: Action, l: string, r: string, own: string)
    requires Enabled(s, a) && Undisturbed(a, l, own) && Misled(Apply(s, a), l, r, own)
    ensures Misled(s, l, r, own)
  {
    hide Enabled, Apply, Undisturbed, StartedByOther;
    var run, id, cause :| IsRun(Apply(s, a), run) && UndisturbedRun(run, l, own)
      && StartedByOther(End(Apply(s, a), run), l, r, own, id, cause);
    assert ([a] + run)[1..] == run;
    assert IsRun(s, [a] + run) && UndisturbedRun([a] + run, l, own);
    assert StartedByOther(End(s, [a] + run), l, r, own, id, cause);
  }

  lemma LeadsTracked(s: Sys, e: Sys)
    requires Tracked(s) && Leads(s, e)
    ensures Tracked(e)
  {
    hide Tracked, IsRun, End, Calm;
    var run :| IsRun(s, run) && (forall k :: 0 <= k < |run| ==> Calm(run[k])) && End(s, run) == e;
    TrackedAlways(s, run);
  }

  lemma ReportMisleads(s: Sys, e: Sys, w: string, r: Rule, l: string, own: string)
    requires Tracked(s) && Leads(s, e) && Workflow.Waits(e.db, e.led, r) && r.selector == DoneOf(l) && l != ""
    requires w in e.workers && Reporting(e.workers[w], l) && e.workers[w].c.ruleId != own
    ensures Misled(s, l, r.id, own)
  {
    var cause := e.workers[w].c.id;
    hide *;
    LeadsTracked(s, e);
    var k, id := ForeignReport(e, w, r, l, own);
    WorkIsAStep(e, w, k);
    LeadsOn(s, e, Wrk(w, k));
    MisledBy(s, Apply(e, Wrk(w, k)), l, r.id, own, id, cause);
  }

  lemma WorkIsAStep(e: Sys, w: string, k: Work)
    requires WorkEnabled(e, w, k)
    ensures Enabled(e, Wrk(w, k)) && Calm(Wrk(w, k)) && Apply(e, Wrk(w, k)) == WorkApply(e, w, k)
  {
  }

  /** Registering the session with an agent the daemon knows changes nothing else. */
  lemma RegisterAgent(s: Sys, w: string) returns (e: Sys)
    ensures Leads(s, e) && CanResume(e.db, w) && SameRecords(s, e) && e.db.conts == s.db.conts
  {
    var a := Out(Administer(OpRegister(Session(w, "claude", "/", Waiting, 0, 0), 0)));
    e := Apply(s, a);
    LeadsNowhere(s);
    LeadsOn(s, s, a);
    assert s.db.conts.Keys - e.db.conts.Keys == {};
    assert s.led.created + map[] == s.led.created && s.led.swept + {} == s.led.swept;
  }

  lemma RowsNamedIn(s: Sys)
    requires Tracked(s)
    ensures RowsNamed(s.db)
  {
  }

  lemma StillWaits(s: Sys, e: Sys, r: Rule)
    requires SameRecords(s, e) && Workflow.Waits(s.db, s.led, r)
    ensures Workflow.Waits(e.db, e.led, r)
  {
  }

  lemma SucceedsReports(e: Sys, w: string, c: Continuation, l: string)
    requires Serves(e, w, Emitting(c, JudgeRun(SUCCEEDS, None))) && RowSource(c) == l
    ensures w in e.workers && Reporting(e.workers[w], l) && e.workers[w].c == c
  {
  }

  /** Any unfinished row can be brought to the point where its completion is about to be reported. */
  lemma RowCanComplete(s: Sys, x: string) returns (e: Sys)
    requires Tracked(s) && x in s.db.conts && !s.db.conts[x].state.Terminal()
    ensures Leads(s, e) && SameRecords(s, e)
    ensures var c := s.db.conts[x]; var w := c.sessionId;
      && w in e.workers && Reporting(e.workers[w], RowSource(c)) && e.workers[w].c.ruleId == c.ruleId
  {
    RowsNamedIn(s);
    hide Tracked, Leads, CanResume, Ready, Serves, JudgeRun, Reporting, RowsNamed;
    var c := s.db.conts[x];
    var e1 := RegisterAgent(s, c.sessionId);
    SameNames(s.db, e1.db);
    var e2 := StartOver(s, e1, c.sessionId);
    assert IsPending(e2.db, c.sessionId, x) && RowSource(e2.db.conts[x]) == RowSource(c);
    hide ResetRow, SameRecords, RowSource, IsPending;
    e := ServeUpTo(s, e2, c.sessionId, x);
    SucceedsReports(e, c.sessionId, e2.db.conts[x], RowSource(c));
  }

  lemma SameNames(db: Db, db': Db)
    requires RowsNamed(db) && db'.conts == db.conts
    ensures RowsNamed(db')
  {
  }

  /** An unfinished foreign row can be run to completion, and its report starts the step. */
  lemma RowMisleads(s: Sys, r: Rule, l: string, own: string, x: string)
    requires Tracked(s) && Workflow.Waits(s.db, s.led, r) && r.selector == DoneOf(l) && l != ""
    requires x in s.db.conts && !s.db.conts[x].state.Terminal() && RowSource(s.db.conts[x]) == l
    requires s.db.conts[x].ruleId != own
    ensures Misled(s, l, r.id, own)
  {
    hide *;
    var e := RowCanComplete(s, x);
    StillWaits(s, e, r);
    ReportMisleads(s, e, s.db.conts[x].sessionId, r, l, own);
  }

  // ---------- Rules that can supply a row, and manual runs ----------

  /** An event the rule selects which does not pass for a completion under `l`. */
  function Trigger(q: Rule, l: string, id: string): Event {
    Event(id, q.selector.kind, if q.selector.source == "" then l + "x" else q.selector.source, map[], 0)
  }

  function BeforeExpiry(q: Rule): Instant { if q.expiresAt.Some? then q.expiresAt.value - 1 else 0 }

  lemma TriggerIsHarmless(q: Rule, l: string, id: string)
    requires Supplies(q, l) && l != ""
    ensures Selected(q, Trigger(q, l, id), BeforeExpiry(q)) && !DoneOf(l).Matches(Trigger(q, l, id))
  {
    assert |l + "x"| != |l|;
  }

  lemma HarmlessStep(s: Sys, a: Action, r: Rule, l: string, own: string)
    requires Tracked(s) && Workflow.Waits(s.db, s.led, r) && r.selector == DoneOf(l) && Enabled(s, a) && a.Out?
    requires a.o.RunManually? || (a.o.Inject? && !DoneOf(l).Matches(a.o.ev))
    ensures Undisturbed(a, l, own) && Tracked(Apply(s, a)) && Workflow.Waits(Apply(s, a).db, Apply(s, a).led, r)
  {
    StoreInvOf(s);
    hide Tracked, StoreInv, Workflow.Waits, Enabled, Apply, OpOk, ApplyOp, ApplyLedger;
    TrackedStep(s, a);
    StepIsCall(s, a);
    Workflow.StaysWaiting(s.db, s.led, CallOf(s, a), r);
  }

  /** A rule selected by an event that no row answers yet creates an unfinished row, if its prompt renders. */
  lemma SelectedFires(db: Db, led: Ledger, ev: Event, at: Instant, mint: map<string, Mint>, q: string)
    returns (x: string)
    requires RuleKept(db, led, q) && MintOk(db, ev, at, mint) && (forall id :: id in mint ==> mint[id].rendered.Ok?)
    requires q in db.rules && Selected(db.rules[q], ev, at) && !Fired(db.conts, q, ev.id)
    ensures var conts := IngestDb(db, ev, at, mint).conts;
      x in conts && !conts[x].state.Terminal() && conts[x].ruleId == q && RowSource(conts[x]) == RuleSource(db.rules[q])
  {
    hide Selected, Fired;
    assert q in Firing(db, ev, at) && Covered(mint, q);
    x :| x in mint && mint[x].ruleId == q;
  }

  lemma FreshEvent(db: Db, q: string) returns (id: string)
    ensures id != "" && !Fired(db.conts, q, id)
  {
    var n := LongerThanAll(set i | i in db.conts :: db.conts[i].eventId);
    id := Repeat(n + 1);
  }

  lemma StoredRule(s: Sys, q: string)
    requires Tracked(s)
    ensures RuleKept(s.db, s.led, q) && s.db.conts.Keys <= s.led.created.Keys
  {
    RowsAreEntered(s);
    StoreInvOf(s);
    hide Tracked;
  }

  /** The rule can be made to create an unfinished row. */
  lemma SupplierFires(s: Sys, l: string, q: string) returns (a: Action, x: string)
    requires Tracked(s) && q in s.db.rules && Supplies(s.db.rules[q], l) && l != ""
    ensures a.Out? && a.o.Inject? && Enabled(s, a) && !DoneOf(l).Matches(a.o.ev)
    ensures var conts := Apply(s, a).db.conts;
      x in conts && !conts[x].state.Terminal() && conts[x].ruleId == q && RowSource(conts[x]) == l
  {
    StoredRule(s, q);
    hide Tracked, BeforeExpiry, DoneOf, MintOk, Fired, IngestDb, Selected, ApplyLedger, RowSource, RuleKept, NewRows;
    var rule := s.db.rules[q];
    var id := FreshEvent(s.db, q);
    var ev, at := Trigger(rule, l, id), BeforeExpiry(rule);
    TriggerIsHarmless(rule, l, id);
    var mint := EmitIsPossible(s.db, s.led, ev, at);
    a := Out(Inject(ev, at, mint));
    x := SelectedFires(s.db, s.led, ev, at, mint, q);
  }

  lemma SupplierMisleads(s: Sys, r: Rule, l: string, own: string, q: string)
    requires Tracked(s) && Workflow.Waits(s.db, s.led, r) && r.selector == DoneOf(l) && l != ""
    requires q in s.db.rules && Supplies(s.db.rules[q], l) && q != own
    ensures Misled(s, l, r.id, own)
  {
    hide *;
    var a, x := SupplierFires(s, l, q);
    HarmlessStep(s, a, r, l, own);
    RowMisleads(Apply(s, a), r, l, own, x);
    MisledAfter(s, a, l, r.id, own);
  }

  lemma ManualFires(s: Sys, own: string) returns (a: Action, x: string)
    requires Tracked(s)
    ensures a.Out? && a.o.RunManually? && Enabled(s, a)
    ensures var conts := Apply(s, a).db.conts;
      x in conts && !conts[x].state.Terminal() && conts[x].ruleId != own && RowSource(conts[x]) == "manual"
      && conts[x].ruleId !in s.led.rulesEver
  {
    RowsAreEntered(s);
    hide Tracked, Enabled, Apply;
    x := FreshRowId(s.led);
    var q := FreshRuleId(s.led, own);
    a := Out(RunManually(ManualRow(x, q, "e", "s", "", 0)));
    ManualStep(s, a.o.row);
  }

  lemma ManualStep(s: Sys, row: Continuation)
    requires OpOk(s.db, s.led, OpInsert(row))
    ensures Enabled(s, Out(RunManually(row)))
    ensures Apply(s, Out(RunManually(row))).db.conts == s.db.conts[row.id := row]
  {
    hide OpOk, ApplyLedger;
  }

  lemma FreshRowId(led: Ledger) returns (id: string)
    ensures id !in led.created
  {
    var n := LongerThanAll(led.created.Keys);
    id := Repeat(n);
  }

  lemma FreshRuleId(led: Ledger, own: string) returns (q: string)
    ensures !RuleIdUsed(led, q) && q != own
  {
    var m := LongerThanAll(led.rulesEver.Keys + (set i | i in led.created :: led.created[i].ruleId) + {own});
    q := Repeat(m);
  }

  lemma ManualMisleads(s: Sys, r: Rule, own: string)
    requires Tracked(s) && Workflow.Waits(s.db, s.led, r) && r.selector == DoneOf("manual")
    ensures Misled(s, "manual", r.id, own)
  {
    hide *;
    var a, x := ManualFires(s, own);
    HarmlessStep(s, a, r, "manual", own);
    RowMisleads(Apply(s, a), r, "manual", own, x);
    MisledAfter(s, a, "manual", r.id, own);
  }

  /** In a state that is not clear the condition fails outright: the step can be started by a row of another rule. */
  lemma UnclearMisleads(s: Sys, r: Rule, l: string, own: string)
    requires Tracked(s) && Workflow.Waits(s.db, s.led, r) && r.selector == DoneOf(l) && l != "" && !Clear(s, l, own)
    ensures Misled(s, l, r.id, own)
  {
    hide Tracked, Workflow.Waits, DoneOf, Supplies, RowSource, Misled;
    if l == "manual" {
      ManualMisleads(s, r, own);
    } else if q :| q in s.db.rules && Supplies(s.db.rules[q], l) && q != own {
      SupplierMisleads(s, r, l, own, q);
    } else if x :| x in s.db.conts && !s.db.conts[x].state.Terminal() && RowSource(s.db.conts[x]) == l
                   && s.db.conts[x].ruleId != own {
      RowMisleads(s, r, l, own, x);
    } else {
      var w :| w in s.workers && Reporting(s.workers[w], l) && s.workers[w].c.ruleId != own;
      LeadsNowhere(s);
      ReportMisleads(s, s, w, r, l, own);
    }
  }

  /**
   The exact condition, on the state at hand: a rule waits for the completion of `l`. Whatever it
   creates later is started by rule `own`'s completed row, in every run that injects no posing event
   and adds no supplying rule, if and only if the state is clear of other suppliers of `l`.
   */
  lemma OwnStartIff(s: Sys, r: Rule, l: string, own: string)
    requires Tracked(s) && Workflow.Waits(s.db, s.led, r) && r.selector == DoneOf(l) && l != ""
    ensures (forall run :: IsRun(s, run) && UndisturbedRun(run, l, own) ==> OwnStart(End(s, run), l, r.id, own))
      <==> Clear(s, l, own)
  {
    hide Tracked, IsRun, End, Workflow.Waits, DoneOf, Clear, OwnStart, UndisturbedRun, StartedByOther;
    if Clear(s, l, own) {
      forall run | IsRun(s, run) && UndisturbedRun(run, l, own) ensures OwnStart(End(s, run), l, r.id, own) {
        ClearMeansOwnStart(s, run, r, l, own);
      }
    } else {
      UnclearMisleads(s, r, l, own);
      var run, id, cause :| IsRun(s, run) && UndisturbedRun(run, l, own)
        && StartedByOther(End(s, run), l, r.id, own, id, cause);
      OtherIsNotOwn(End(s, run), l, r.id, own, id, cause);
    }
  }

  // ---------- And so is what is asked of the run ----------

  /** Adding a foreign rule that can supply completions of `l` opens the way to a foreign start. */
  lemma AddedRuleMisleads(s: Sys, q: Rule, r: Rule, l: string, own: string)
    requires Tracked(s) && Workflow.Waits(s.db, s.led, r) && r.selector == DoneOf(l) && l != ""
    requires Enabled(s, Out(Administer(OpAddRule(q)))) && Supplies(q, l) && q.id != own
    ensures Misled(Apply(s, Out(Administer(OpAddRule(q)))), l, r.id, own)
  {
    StoreInvOf(s);
    var a := Out(Administer(OpAddRule(q)));
    hide Tracked, StoreInv, Workflow.Waits, Enabled, Apply, OpOk, ApplyLedger, Supplies, DoneOf, Misled;
    TrackedStep(s, a);
    StepIsCall(s, a);
    Workflow.StaysWaiting(s.db, s.led, CallOf(s, a), r);
    SupplierMisleads(Apply(s, a), r, l, own, q.id);
  }

  /** An injected event that poses as the completion, under an id not reported before, starts the step by itself. */
  lemma PosingEventStarts(s: Sys, ev: Event, at: Instant, mint: map<string, Mint>, r: Rule, l: string)
    returns (id: string)
    requires Tracked(s) && Workflow.Waits(s.db, s.led, r) && r.selector == DoneOf(l)
    requires Enabled(s, Out(Inject(ev, at, mint))) && DoneOf(l).Matches(ev) && ev.id !in ReportedIds(s.hist)
    ensures var e := Apply(s, Out(Inject(ev, at, mint)));
      id in e.led.created && e.led.created[id].ruleId == r.id && forall cause :: !Caused(e, l, id, cause)
  {
    StoreInvOf(s);
    var a := Out(Inject(ev, at, mint));
    var e := Apply(s, a);
    assert e.hist == s.hist;
    hide Tracked, StoreInv, Workflow.Waits, Enabled, Apply, OpOk, ApplyLedger, DoneOf, ReportedIds;
    StepIsCall(s, a);
    var c := Workflow.FiresOnHit(s.db, s.led, CallOf(s, a), r);
    id := c.id;
    forall cause ensures !Caused(e, l, id, cause) { NotReported(s.hist, ev.id, cause); }
  }
}
