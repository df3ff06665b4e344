/**
 A linear workflow gets to its end: once its first event is in, and as long as its runs succeed and
 nothing interferes, the daemon does not fall silent before every step has run and been reported.
 */
module Completion {
  import opened Core
  import opened StoreModel
  import opened StoreLaws
  import opened Engine
  import opened WorkerSafety
  import opened RunHistory
  import opened WakeUps
  import opened Chaining
  import opened Chains
  import opened Serving
  import opened StepOwnership
  import Workflow

  // ---------- What is asked of the run ----------

  predicate Renders(mint: map<string, Mint>, rs: set<string>) {
    forall id :: id in mint && mint[id].ruleId in rs ==> mint[id].rendered.Ok?
  }

  /**
   No crash, no shutdown; the workflow's rules `rs` stay, their prompts render, its session is not
   given an agent the daemon does not know, and its runs succeed. Everything else is free.
   */
  predicate Smooth(a: Action, session: string, rs: set<string>) {
    match a
    case Out(Crash) => false
    case Out(Cancel) => false
    case Out(Administer(OpRemoveRule(r))) => r !in rs
    case Out(Administer(OpRegister(row, _))) => row.sessionId == session ==> row.agent in ADAPTERS
    case Out(Inject(_, _, mint)) => Renders(mint, rs)
    case Wrk(_, Emit(_, _, mint)) => Renders(mint, rs)
    case Wrk(w, Return(res, err)) => w == session ==> err.None? && res.exitCode == 0
    case _ => true
  }

  predicate SmoothRun(run: seq<Action>, session: string, rs: set<string>) {
    forall k :: 0 <= k < |run| ==> Smooth(run[k], session, rs)
  }

  /** A sweep, if this is one, does not delete the session; `Retention.SweptSessionsExactly` says when it would. */
  predicate Spares(s: Sys, a: Action, session: string) {
    CallOf(s, a).OpSweep? ==> session in SweepDb(s.db, CallOf(s, a).at, CallOf(s, a).policy).sessions
  }

  ghost predicate SweepsSpare(s: Sys, run: seq<Action>, session: string)
    requires IsRun(s, run)
    decreases |run|
  {
    run == [] || (Spares(s, run[0], session) && SweepsSpare(Apply(s, run[0]), run[1..], session))
  }

  /** No sweep deletes the session while a step's rule still waits. */
  lemma WaitingStepSpares(s: Sys, a: Action, session: string, r: Rule)
    requires session in s.db.sessions && Workflow.Waits(s.db, s.led, r) && r.sessionId == session
    ensures Spares(s, a, session)
  {
    hide CallOf;
    if CallOf(s, a).OpSweep? {
      assert s.db.rules[r.id].Active(CallOf(s, a).at);
      assert Armed(s.db.rules, session, CallOf(s, a).at);
    }
  }

  // ---------- Where a step is on its way ----------

  /** The rule's row ran to completion and was reported. */
  ghost predicate ReportedRow(s: Sys, r: Rule, id: string) {
    && id in s.led.created && s.led.created[id].ruleId == r.id && RowSource(s.led.created[id]) == RuleSource(r)
    && id in s.hist.verdicts && s.hist.verdicts[id].state.Completed? && |s.hist.Results(id)| == 1
  }

  ghost predicate BeingReported(s: Sys, session: string, id: string) {
    session in s.workers && s.workers[session].Emitting? && s.workers[session].c.id == id
    && s.workers[session].v.state.Completed?
  }

  ghost predicate Unfinished(s: Sys, id: string) { id in s.db.conts && !s.db.conts[id].state.Terminal() }

  ghost predicate RowOnTrack(s: Sys, r: Rule, id: string) {
    && id in s.led.created && s.led.created[id].ruleId == r.id && RowSource(s.led.created[id]) == RuleSource(r)
    && s.led.created[id].sessionId == r.sessionId
    && (Unfinished(s, id) || BeingReported(s, r.sessionId, id) || ReportedRow(s, r, id))
  }

  ghost predicate Started(s: Sys, r: Rule) {
    exists id :: id in s.led.created && s.led.created[id].ruleId == r.id
  }

  /** The rule waits, or the row it created is on its way to be reported as completed. */
  ghost predicate OnTrack(s: Sys, r: Rule) {
    Workflow.Waits(s.db, s.led, r) || exists id :: RowOnTrack(s, r, id)
  }

  /** Once the rule's row is reported, the next rule has started. */
  ghost predicate HandedOn(s: Sys, r: Rule, next: Rule) {
    (exists id :: ReportedRow(s, r, id)) ==> Started(s, next)
  }

  /** What the session's worker has in hand of the workflow succeeded. */
  predicate Sound(pc: WorkerPc, rs: set<string>) {
    (pc.Returned? || pc.Judging? || pc.Recording? || pc.Emitting?) && pc.c.ruleId in rs ==> pc.v.state.Completed?
  }

  /** Not shutting down, the session can be resumed, and its worker has no failure of the workflow in hand. */
  ghost predicate Healthy(s: Sys, session: string, rs: set<string>) {
    !s.cancelled && CanResume(s.db, session) && (session in s.workers ==> Sound(s.workers[session], rs))
  }

  /** One-shot rules of one session, each waiting for the completion of the one before it. */
  ghost predicate IsChain(rules: seq<Rule>, session: string, rs: set<string>) {
    && (forall i :: 0 <= i < |rules| ==>
          rules[i].id in rs && rules[i].sessionId == session && RuleSource(rules[i]) != "")
    && (forall i :: 0 < i < |rules| ==> rules[i].selector == DoneOf(RuleSource(rules[i - 1])))
  }

  ghost predicate AllOnTrack(s: Sys, rules: seq<Rule>) {
    && (forall i :: 0 <= i < |rules| ==> OnTrack(s, rules[i]))
    && (forall i :: 0 < i < |rules| ==> HandedOn(s, rules[i - 1], rules[i]))
  }

  // ---------- The session and its worker ----------

  lemma SessionKept(db: Db, led: Ledger, op: Op, session: string)
    requires OpOk(db, led, op) && CanResume(db, session)
    requires op.OpSweep? ==> session in SweepDb(db, op.at, op.policy).sessions
    requires op.OpRegister? && op.session.sessionId == session ==> op.session.agent in ADAPTERS
    ensures CanResume(ApplyOp(db, op), session)
  {
    hide MintOk, Firing, RowsFor;
  }

  lemma SmoothCalls(s: Sys, a: Action, session: string, rs: set<string>)
    requires Enabled(s, a) && Smooth(a, session, rs)
    ensures var op := CallOf(s, a);
      && (op.OpRegister? && op.session.sessionId == session ==> op.session.agent in ADAPTERS)
      && (op.OpRemoveRule? ==> op.id !in rs) && (op.OpIngest? ==> Renders(op.mint, rs))
  {
    hide OpOk, Renders, ResultEvent;
  }

  lemma NotCancelled(s: Sys, a: Action, session: string, rs: set<string>)
    requires Enabled(s, a) && Smooth(a, session, rs) && !s.cancelled
    ensures !Apply(s, a).cancelled
  {
    hide OpOk, ApplyOp, ApplyLedger, NewRows, WorkCall, WorkPc, WorkHistory, Renders;
  }

  lemma WorkerStaysSound(s: Sys, k: Work, session: string, rs: set<string>)
    requires Healthy(s, session, rs) && WorkEnabled(s, session, k) && WorkerOk(s.db.conts, session, s.workers[session])
    requires Smooth(Wrk(session, k), session, rs)
    ensures Sound(WorkPc(s, session, k), rs)
  {
    hide OpOk, NewRows, WorkCall, Renders;
  }

  lemma WorkerIsOk(s: Sys, w: string)
    requires Tracked(s) && w in s.workers
    ensures WorkerOk(s.db.conts, w, s.workers[w])
  {
  }

  lemma HealthyStep(s: Sys, a: Action, session: string, rs: set<string>)
    requires Tracked(s) && Healthy(s, session, rs) && Enabled(s, a) && Smooth(a, session, rs) && Spares(s, a, session)
    ensures Healthy(Apply(s, a), session, rs)
  {
    hide Tracked, Enabled, Apply, Smooth, CallOf, OpOk, ApplyOp, ApplyLedger, CanResume, WorkerOk;
    StepIsCall(s, a);
    SmoothCalls(s, a, session, rs);
    SessionKept(s.db, s.led, CallOf(s, a), session);
    NotCancelled(s, a, session, rs);
    if session in Apply(s, a).workers {
      if a.Wrk? && a.w == session {
        MoverIs(s, a);
        MoverWas(s, session, a.k);
        WorkerIsOk(s, session);
        WorkerStaysSound(s, a.k, session, rs);
      } else {
        OthersStay(s, a, session);
      }
    }
  }

  lemma MoverWas(s: Sys, w: string, k: Work)
    requires WorkEnabled(s, w, k)
    ensures w in s.workers
  {
  }

  // ---------- One row ----------

  lemma WorkerResults(s: Sys, w: string, k: Work, id: string)
    requires WorkEnabled(s, w, k) && WorkHistory(s, w, k).Results(id) != s.hist.Results(id)
    ensures k.Emit? && s.workers[w].c.id == id
  {
    hide OpOk, WorkPc, ResultEvent, WorkCall;
  }

  /** A row's result events come from its own report only. */
  lemma ResultsCome(s: Sys, a: Action, id: string)
    requires Enabled(s, a) && Apply(s, a).hist.Results(id) != s.hist.Results(id)
    ensures a.Wrk? && a.k.Emit? && WorkEnabled(s, a.w, a.k) && s.workers[a.w].c.id == id
  {
    hide OpOk, ApplyOp, ApplyLedger, NewRows, WorkPc, WorkCall, WorkHistory, OutEnabled, WorkEnabled;
    if a.Wrk? { WorkerResults(s, a.w, a.k, id); }
  }

  lemma ReportedStays(s: Sys, a: Action, r: Rule, id: string)
    requires Tracked(s) && Enabled(s, a) && ReportedRow(s, r, id)
    ensures ReportedRow(Apply(s, a), r, id)
  {
    StoreInvOf(s);
    hide Tracked, StoreInv, Enabled, Apply, CallOf, OpOk, ApplyOp, ApplyLedger, RowSource;
    StepKeepsHistory(s, a);
    StepIsCall(s, a);
    LedgerGrows(s, CallOf(s, a));
  }

  /** The one step that ends an unfinished row is the recording of its verdict. */
  lemma FinishedByRecord(s: Sys, a: Action, id: string)
    requires Tracked(s) && Enabled(s, a) && Unfinished(s, id) && !Unfinished(Apply(s, a), id)
    ensures a.Wrk? && a.k.Record? && WorkEnabled(s, a.w, a.k) && s.workers[a.w].c.id == id
  {
    StoreInvOf(s);
    StepIsCall(s, a);
    hide Tracked, Enabled, Apply, StoreInv, CallOf;
    EndsByRecord(s.db, s.led, CallOf(s, a), id);
    RecordingSteps(s, a);
  }

  lemma EndsByRecord(db: Db, led: Ledger, op: Op, id: string)
    requires RowsKept(db, led) && OpOk(db, led, op) && id in db.conts && !db.conts[id].state.Terminal()
    requires id in ApplyOp(db, op).conts ==> ApplyOp(db, op).conts[id].state.Terminal()
    ensures op.OpRecord? && op.id == id
  {
    RowAfter(db, led, op, id);
    if QuietOp(op) { QuietRow(db, led, op, id); }
    hide RowsKept, MintOk, Firing, RowsFor;
  }

  lemma RecordingSteps(s: Sys, a: Action)
    requires Enabled(s, a) && CallOf(s, a).OpRecord?
    ensures a.Wrk? && a.k.Record? && WorkEnabled(s, a.w, a.k) && s.workers[a.w].c.id == CallOf(s, a).id
  {
    hide OpOk, ResultEvent;
  }

  lemma RecorderFacts(s: Sys, w: string, k: Work, id: string)
    requires Tracked(s) && WorkEnabled(s, w, k) && k.Record? && s.workers[w].c.id == id
    ensures w in s.workers && s.workers[w].Recording?
    ensures id in s.led.created && s.led.created[id].sessionId == w && s.led.created[id].ruleId == s.workers[w].c.ruleId
    ensures w in WorkApply(s, w, k).workers
    ensures WorkApply(s, w, k).workers[w] == Emitting(s.workers[w].c, s.workers[w].v)
  {
    WorkersRow(s, w);
    assert WorkerOk(s.db.conts, w, s.workers[w]);
    hide Tracked, OpOk, ApplyOp, ApplyLedger;
  }

  lemma UnfinishedMovesOn(s: Sys, a: Action, r: Rule, rs: set<string>, id: string)
    requires Tracked(s) && Enabled(s, a) && Healthy(s, r.sessionId, rs) && r.id in rs
    requires RowOnTrack(s, r, id) && Unfinished(s, id)
    ensures Unfinished(Apply(s, a), id) || BeingReported(Apply(s, a), r.sessionId, id)
  {
    hide Tracked, Enabled, Apply, Unfinished, WorkEnabled, WorkApply, CanResume, RowSource;
    if !Unfinished(Apply(s, a), id) {
      FinishedByRecord(s, a, id);
      WorkerMoves(s, a);
      RecorderFacts(s, a.w, a.k, id);
    }
  }

  lemma EmitReports(s: Sys, w: string, k: Work)
    requires Tracked(s) && WorkEnabled(s, w, k) && k.Emit?
    ensures var id, h := s.workers[w].c.id, WorkApply(s, w, k).hist;
      id in h.verdicts && h.verdicts[id] == s.workers[w].v && |h.Results(id)| == 1
  {
    EmittingNow(s, w, k);
    hide Tracked, OpOk, WorkEnabled, WorkApply, ResultEvent;
    EmitterFacts(s, w);
    EmitFields(s, w, k);
  }

  lemma EmitterMovesByEmit(s: Sys, w: string, k: Work)
    requires WorkEnabled(s, w, k) && s.workers[w].Emitting?
    ensures k.Emit?
  {
    hide OpOk;
  }

  lemma WorkersRemain(s: Sys, a: Action, w: string)
    requires Enabled(s, a) && w in s.workers && !(a.Wrk? && a.w == w) && a != Out(Crash)
    ensures w in Apply(s, a).workers && Apply(s, a).workers[w] == s.workers[w]
  {
    hide WorkEnabled, OutEnabled, OpOk, ApplyOp, ApplyLedger, WorkPc, WorkHistory, WorkCall, NewRows;
  }

  lemma ReportMovesOn(s: Sys, a: Action, r: Rule, rs: set<string>, id: string)
    requires Tracked(s) && Enabled(s, a) && Smooth(a, r.sessionId, rs)
    requires RowOnTrack(s, r, id) && BeingReported(s, r.sessionId, id)
    ensures BeingReported(Apply(s, a), r.sessionId, id) || ReportedRow(Apply(s, a), r, id)
  {
    StoreInvOf(s);
    hide Tracked, StoreInv, Enabled, Apply, CallOf, OpOk, ApplyOp, ApplyLedger, RowSource, WorkEnabled, WorkApply;
    var w := r.sessionId;
    if a.Wrk? && a.w == w {
      WorkerMoves(s, a);
      EmitterMovesByEmit(s, w, a.k);
      EmitReports(s, w, a.k);
      StepIsCall(s, a);
      LedgerGrows(s, CallOf(s, a));
    } else {
      WorkersRemain(s, a, w);
    }
  }

  lemma RowStaysOnTrack(s: Sys, a: Action, r: Rule, rs: set<string>, id: string)
    requires Tracked(s) && Enabled(s, a) && Smooth(a, r.sessionId, rs) && Healthy(s, r.sessionId, rs) && r.id in rs
    requires RowOnTrack(s, r, id)
    ensures RowOnTrack(Apply(s, a), r, id)
  {
    StoreInvOf(s);
    hide Tracked, StoreInv, Enabled, Smooth, Apply, CallOf, OpOk, ApplyOp, ApplyLedger, RowSource, Healthy,
         Unfinished, BeingReported, ReportedRow;
    StepIsCall(s, a);
    LedgerGrows(s, CallOf(s, a));
    if ReportedRow(s, r, id) {
      ReportedStays(s, a, r, id);
    } else if BeingReported(s, r.sessionId, id) {
      ReportMovesOn(s, a, r, rs, id);
    } else {
      UnfinishedMovesOn(s, a, r, rs, id);
    }
  }

  // ---------- One rule ----------

  /** The waiting rule is hit: its row is new and unfinished. */
  lemma HitStarts(db: Db, led: Ledger, op: Op, r: Rule, rs: set<string>) returns (c: Continuation)
    requires StoreInv(db, led) && OpOk(db, led, op) && Workflow.Waits(db, led, r) && Workflow.Hits(op, r.selector)
    requires Renders(op.mint, rs) && r.id in rs
    ensures var led', db' := ApplyLedger(db, led, op), ApplyOp(db, op);
      && c.id in led'.created && led'.created[c.id] == c
      && c.ruleId == r.id && c.sessionId == r.sessionId && c.tag == r.tag
      && c.id in db'.conts && !db'.conts[c.id].state.Terminal()
  {
    c := Workflow.FiresOnHit(db, led, op, r);
    assert c.id !in led.created;
    NewRowIs(db, led, op, c.id);
    NewRowRule(db, led, op, c.id);
    RowAfter(db, led, op, c.id);
    hide StoreInv, OpOk, ApplyOp, ApplyLedger, NewRows, Workflow.Hits, Firing;
  }

  lemma NewRowOnTrack(s: Sys, r: Rule, c: Continuation)
    requires c.id in s.led.created && s.led.created[c.id] == c
    requires c.ruleId == r.id && c.sessionId == r.sessionId && c.tag == r.tag
    requires c.id in s.db.conts && !s.db.conts[c.id].state.Terminal()
    ensures RowOnTrack(s, r, c.id) && Started(s, r)
  {
  }

  lemma WaitingMovesOn(s: Sys, a: Action, r: Rule, rs: set<string>)
    requires Tracked(s) && Enabled(s, a) && Smooth(a, r.sessionId, rs) && r.id in rs && Workflow.Waits(s.db, s.led, r)
    ensures OnTrack(Apply(s, a), r)
    ensures Workflow.Hits(CallOf(s, a), r.selector) ==> Started(Apply(s, a), r)
  {
    StoreInvOf(s);
    hide Tracked, StoreInv, Enabled, Smooth, Apply, CallOf, OpOk, ApplyOp, ApplyLedger, Workflow.Waits,
         Workflow.Hits, Renders, Started, RowOnTrack;
    StepIsCall(s, a);
    SmoothCalls(s, a, r.sessionId, rs);
    if Workflow.Hits(CallOf(s, a), r.selector) {
      HitIngests(CallOf(s, a), r.selector);
      var c := HitStarts(s.db, s.led, CallOf(s, a), r, rs);
      NewRowOnTrack(Apply(s, a), r, c);
    } else {
      Workflow.StaysWaiting(s.db, s.led, CallOf(s, a), r);
    }
  }

  lemma HitIngests(op: Op, sel: Selector)
    requires Workflow.Hits(op, sel)
    ensures op.OpIngest?
  {
  }

  lemma OnTrackStep(s: Sys, a: Action, r: Rule, rs: set<string>)
    requires Tracked(s) && Enabled(s, a) && Smooth(a, r.sessionId, rs) && Healthy(s, r.sessionId, rs) && r.id in rs
    requires OnTrack(s, r)
    ensures OnTrack(Apply(s, a), r)
  {
    hide Tracked, Enabled, Smooth, Apply, CallOf, Healthy, RowOnTrack, Workflow.Waits;
    if Workflow.Waits(s.db, s.led, r) {
      WaitingMovesOn(s, a, r, rs);
    } else {
      var id :| RowOnTrack(s, r, id);
      RowStaysOnTrack(s, a, r, rs, id);
    }
  }

  lemma StartedStays(s: Sys, a: Action, r: Rule)
    requires Tracked(s) && Enabled(s, a) && Started(s, r)
    ensures Started(Apply(s, a), r)
  {
    StoreInvOf(s);
    hide Tracked, StoreInv, Enabled, Apply, CallOf, OpOk, ApplyOp, ApplyLedger;
    StepIsCall(s, a);
    LedgerGrows(s, CallOf(s, a));
  }

  lemma TrackedRowStarted(s: Sys, r: Rule)
    requires OnTrack(s, r) && !Workflow.Waits(s.db, s.led, r)
    ensures Started(s, r)
  {
    hide Workflow.Waits;
  }

  // ---------- From a reported row to the next step ----------

  /** The report of a completed row of `r` hits the rule that waits for it. */
  lemma ReportHitsNext(s: Sys, w: string, k: Work, r: Rule, next: Rule)
    requires Tracked(s) && WorkEnabled(s, w, k) && k.Emit? && RuleSource(r) != ""
    requires next.selector == DoneOf(RuleSource(r)) && ReportedRow(WorkApply(s, w, k), r, s.workers[w].c.id)
    ensures Workflow.Hits(WorkCall(s.workers[w], k), next.selector)
  {
    EmittingNow(s, w, k);
    StoreInvOf(s);
    hide Tracked, StoreInv, OpOk, WorkEnabled, WorkApply, ResultEvent, RowSource, RuleSource, DoneOf;
    var pc := s.workers[w];
    EmitReports(s, w, k);
    EmitterFacts(s, w);
    EmitFields(s, w, k);
    LedgerGrows(s, WorkCall(pc, k));
    ResultHits(pc.c, pc.v, k.evId, k.at, RuleSource(r));
  }

  lemma NewlyReported(s: Sys, a: Action, r: Rule, id: string)
    requires Tracked(s) && Enabled(s, a) && ReportedRow(Apply(s, a), r, id) && !ReportedRow(s, r, id)
    ensures a.Wrk? && a.k.Emit? && WorkEnabled(s, a.w, a.k) && s.workers[a.w].c.id == id
  {
    StoreInvOf(s);
    hide Tracked, StoreInv, Enabled, Apply, CallOf, OpOk, ApplyOp, ApplyLedger, RowSource;
    if Apply(s, a).hist.Results(id) == s.hist.Results(id) {
      ResultIsRecorded(s, id);
      StepKeepsHistory(s, a);
      StepIsCall(s, a);
      LedgerGrows(s, CallOf(s, a));
    } else {
      ResultsCome(s, a, id);
    }
  }

  lemma ResultIsRecorded(s: Sys, id: string)
    requires Tracked(s) && |s.hist.Results(id)| == 1
    ensures id in s.led.created && id in s.hist.verdicts
  {
    assert ResultOk(s.led.created, s.hist, id);
  }

  lemma HandedOnStep(s: Sys, a: Action, r: Rule, next: Rule, rs: set<string>)
    requires Tracked(s) && Enabled(s, a) && Smooth(a, next.sessionId, rs) && next.id in rs
    requires RuleSource(r) != "" && next.selector == DoneOf(RuleSource(r)) && OnTrack(s, next) && HandedOn(s, r, next)
    ensures HandedOn(Apply(s, a), r, next)
  {
    hide Tracked, Enabled, Smooth, Apply, ReportedRow, OnTrack, Started, Workflow.Waits, RuleSource, DoneOf;
    if id :| ReportedRow(Apply(s, a), r, id) {
      if ReportedRow(s, r, id) {
        StartedStays(s, a, next);
      } else if Workflow.Waits(s.db, s.led, next) {
        NewlyReported(s, a, r, id);
        ReportStartsNext(s, a, r, next, rs);
      } else {
        TrackedRowStarted(s, next);
        StartedStays(s, a, next);
      }
    }
  }

  lemma ReportStartsNext(s: Sys, a: Action, r: Rule, next: Rule, rs: set<string>)
    requires Tracked(s) && Enabled(s, a) && Smooth(a, next.sessionId, rs) && next.id in rs
    requires RuleSource(r) != "" && next.selector == DoneOf(RuleSource(r)) && Workflow.Waits(s.db, s.led, next)
    requires a.Wrk? && a.k.Emit? && WorkEnabled(s, a.w, a.k) && ReportedRow(Apply(s, a), r, s.workers[a.w].c.id)
    ensures Started(Apply(s, a), next)
  {
    hide Tracked, Smooth, ReportedRow, OnTrack, Started, Workflow.Waits, Workflow.Hits, RuleSource, DoneOf,
         WorkEnabled, WorkApply, WorkCall;
    MoverWas(s, a.w, a.k);
    ReportHitsNext(s, a.w, a.k, r, next);
    WaitingMovesOn(s, a, next, rs);
  }

  // ---------- The whole chain, over runs ----------

  lemma AllOnTrackStep(s: Sys, a: Action, rules: seq<Rule>, session: string, rs: set<string>)
    requires Tracked(s) && Enabled(s, a) && Smooth(a, session, rs) && Healthy(s, session, rs)
    requires IsChain(rules, session, rs) && AllOnTrack(s, rules)
    ensures AllOnTrack(Apply(s, a), rules)
  {
    hide Tracked, Enabled, Smooth, Apply, Healthy, OnTrack, HandedOn, RuleSource, DoneOf;
    forall i | 0 <= i < |rules| ensures OnTrack(Apply(s, a), rules[i]) {
      OnTrackStep(s, a, rules[i], rs);
    }
    forall i | 0 < i < |rules| ensures HandedOn(Apply(s, a), rules[i - 1], rules[i]) {
      HandedOnStep(s, a, rules[i - 1], rules[i], rs);
    }
  }

  lemma {:induction false} ChainStaysOnTrack(s: Sys, run: seq<Action>, rules: seq<Rule>, session: string,
                                             rs: set<string>)
    requires Tracked(s) && IsRun(s, run) && SmoothRun(run, session, rs) && SweepsSpare(s, run, session)
    requires Healthy(s, session, rs) && IsChain(rules, session, rs) && AllOnTrack(s, rules)
    ensures Healthy(End(s, run), session, rs) && AllOnTrack(End(s, run), rules)
    decreases |run|
  {
    hide Tracked, Enabled, Apply, Smooth, Spares, Healthy, IsChain, AllOnTrack;
    if run == [] {
    } else {
      TrackedStep(s, run[0]);
      HealthyStep(s, run[0], session, rs);
      AllOnTrackStep(s, run[0], rules, session, rs);
      ChainStaysOnTrack(Apply(s, run[0]), run[1..], rules, session, rs);
    }
  }

  lemma {:induction false} StaysStarted(s: Sys, run: seq<Action>, r: Rule)
    requires Tracked(s) && IsRun(s, run) && Started(s, r)
    ensures Started(End(s, run), r)
    decreases |run|
  {
    hide Tracked, Enabled, Apply, Started;
    if run == [] {
    } else {
      TrackedStep(s, run[0]);
      StartedStays(s, run[0], r);
      StaysStarted(Apply(s, run[0]), run[1..], r);
    }
  }

  predicate Triggers(a: Action, sel: Selector) { a.Out? && a.o.Inject? && sel.Matches(a.o.ev) }

  lemma TriggerStarts(s: Sys, a: Action, r: Rule, rs: set<string>)
    requires Tracked(s) && Enabled(s, a) && Smooth(a, r.sessionId, rs) && r.id in rs && OnTrack(s, r)
    requires Triggers(a, r.selector)
    ensures Started(Apply(s, a), r)
  {
    hide Tracked, Enabled, Smooth, Apply, OnTrack, Started, Workflow.Waits;
    if Workflow.Waits(s.db, s.led, r) {
      WaitingMovesOn(s, a, r, rs);
    } else {
      TrackedRowStarted(s, r);
      StartedStays(s, a, r);
    }
  }

  lemma {:induction false} TriggeredInRun(s: Sys, run: seq<Action>, r: Rule, rs: set<string>, k: nat)
    requires Tracked(s) && IsRun(s, run) && SmoothRun(run, r.sessionId, rs) && SweepsSpare(s, run, r.sessionId)
    requires Healthy(s, r.sessionId, rs) && r.id in rs && OnTrack(s, r) && k < |run| && Triggers(run[k], r.selector)
    ensures Started(End(s, run), r)
    decreases |run|
  {
    hide Tracked, Enabled, Apply, Smooth, Spares, Healthy, OnTrack, Started, Triggers;
    TrackedStep(s, run[0]);
    if k == 0 {
      TriggerStarts(s, run[0], r, rs);
      StaysStarted(Apply(s, run[0]), run[1..], r);
    } else {
      HealthyStep(s, run[0], r.sessionId, rs);
      OnTrackStep(s, run[0], r, rs);
      TriggeredInRun(Apply(s, run[0]), run[1..], r, rs, k - 1);
    }
  }

  // ---------- Where nothing can move ----------

  lemma StartedIsReported(e: Sys, r: Rule)
    requires OnTrack(e, r) && Started(e, r) && e.workers == map[]
    requires forall id :: id in e.db.conts ==> e.db.conts[id].state.Terminal()
    ensures StepDone(e, r.id) && exists id :: ReportedRow(e, r, id)
  {
  }

  lemma {:induction false} AllReported(e: Sys, rules: seq<Rule>, i: nat)
    requires AllOnTrack(e, rules) && i < |rules| && Started(e, rules[0]) && e.workers == map[]
    requires forall id :: id in e.db.conts ==> e.db.conts[id].state.Terminal()
    ensures StepDone(e, rules[i].id) && (exists id :: ReportedRow(e, rules[i], id))
  {
    hide OnTrack, ReportedRow, Started, StepDone;
    if i == 0 {
      StartedIsReported(e, rules[0]);
    } else {
      AllReported(e, rules, i - 1);
      assert HandedOn(e, rules[i - 1], rules[i]);
      StartedIsReported(e, rules[i]);
    }
  }

  lemma SilentMeansIdle(s: Sys, run: seq<Action>)
    requires Safe(s) && WakeInv(s) && IsRun(s, run) && !End(s, run).cancelled && !CanStep(End(s, run))
    ensures End(s, run).workers == map[]
    ensures forall id :: id in End(s, run).db.conts ==> End(s, run).db.conts[id].state.Terminal()
  {
    hide IsRun, End, Safe, WakeInv, CanStep;
    SilenceIsDone(s, run);
    SafeAlways(s, run);
    NoWorkerLeft(End(s, run));
  }

  lemma NoWorkerLeft(e: Sys)
    requires Safe(e) && !CanStep(e)
    ensures e.workers == map[]
  {
    hide CanStep, WorkerInv;
    if w :| w in e.workers {
      var k := WorkerCanStep(e, w);
    }
  }

  // ---------- The workflow ----------

  /** The rules of the steps are stored under `rs`, and all of them wait. */
  ghost predicate StepsWait(s: Sys, w: Workflow.Workflow, rs: seq<string>) {
    && |rs| == |w.steps| && (forall i :: 0 <= i < |rs| ==> rs[i] in s.db.rules)
    && (forall i :: 0 <= i < |rs| ==> var r := s.db.rules[rs[i]];
          Workflow.Waits(s.db, s.led, r) && r == Workflow.StepRule(w, i, rs[i], r.createdAt))
  }

  ghost function Ids(rs: seq<string>): set<string> { set r | r in rs }

  ghost function StepRules(s: Sys, rs: seq<string>): (rules: seq<Rule>)
    requires forall i :: 0 <= i < |rs| ==> rs[i] in s.db.rules
    ensures |rules| == |rs|
  {
    seq(|rs|, i requires 0 <= i < |rs| => s.db.rules[rs[i]])
  }

  lemma StepRuleAt(s: Sys, w: Workflow.Workflow, rs: seq<string>, i: nat)
    requires StepsWait(s, w, rs) && i < |rs|
    ensures var r := StepRules(s, rs)[i];
      && r.id == rs[i] && rs[i] in Ids(rs) && r.selector == w.steps[i].on && r.sessionId == w.session
      && RuleSource(r) == Workflow.TagOf(w.steps, i) != ""
  {
    var r := s.db.rules[rs[i]];
    assert r == Workflow.StepRule(w, i, rs[i], r.createdAt);
    hide StepsWait, Workflow.Waits, Workflow.StepRule, Workflow.TagOf, RuleSource;
    StepFields(w, i, rs[i], r.createdAt);
  }

  lemma StepsAreAChain(s: Sys, w: Workflow.Workflow, rs: seq<string>)
    requires Linear(w) && StepsWait(s, w, rs)
    ensures IsChain(StepRules(s, rs), w.session, Ids(rs))
    ensures forall i :: 0 <= i < |rs| ==>
      StepRules(s, rs)[i].id == rs[i] && StepRules(s, rs)[i].selector == w.steps[i].on
  {
    assert |rs| == |w.steps| && forall i :: 0 <= i < |rs| ==> rs[i] in s.db.rules;
    hide StepsWait, StepRules, Ids, Workflow.TagOf, DoneOf, RuleSource;
    forall i | 0 <= i < |rs| ensures var r := StepRules(s, rs)[i];
      && r.id == rs[i] && rs[i] in Ids(rs) && r.selector == w.steps[i].on && r.sessionId == w.session
      && RuleSource(r) == Workflow.TagOf(w.steps, i) != ""
    {
      StepRuleAt(s, w, rs, i);
    }
  }

  lemma StepFields(w: Workflow.Workflow, i: nat, id: string, at: Instant)
    requires i < |w.steps|
    ensures var r := Workflow.StepRule(w, i, id, at);
      && r.id == id && r.selector == w.steps[i].on && r.sessionId == w.session
      && RuleSource(r) == Workflow.TagOf(w.steps, i) != ""
  {
  }

  /** A worker in mid-run has a row of some other rule in hand, for the waiting rules have created none. */
  lemma NothingInHand(s: Sys, w: Workflow.Workflow, rs: seq<string>)
    requires Tracked(s) && StepsWait(s, w, rs) && w.session in s.workers
    ensures Sound(s.workers[w.session], Ids(rs))
  {
    var pc := s.workers[w.session];
    if pc.Holding() { WorkersRow(s, w.session); }
    if pc.Emitting? { EmitterRow(s, w.session); }
    hide Tracked, Workflow.StepRule;
  }

  lemma StartsOnTrack(s: Sys, w: Workflow.Workflow, rs: seq<string>)
    requires StepsWait(s, w, rs)
    ensures AllOnTrack(s, StepRules(s, rs))
  {
    hide RowOnTrack, Workflow.StepRule, RowSource, RuleSource;
  }

  lemma ReachableState(init: Sys, history: seq<Action>)
    requires Init(init) && IsRun(init, history)
    ensures var s := End(init, history); Tracked(s) && Safe(s) && WakeInv(s)
  {
    hide *;
    StartsTracked(init);
    StartsAwake(init);
    TrackedAlways(init, history);
    SafeAlways(init, history);
    WakeRun(init, history);
  }

  lemma ChainFinishes(s: Sys, run: seq<Action>, rules: seq<Rule>, session: string, rs: set<string>, k: nat, i: nat)
    requires Tracked(s) && WakeInv(s) && IsRun(s, run) && SmoothRun(run, session, rs) && !CanStep(End(s, run))
    requires SweepsSpare(s, run, session)
    requires Healthy(s, session, rs) && IsChain(rules, session, rs) && AllOnTrack(s, rules)
    requires k < |run| && i < |rules| && Triggers(run[k], rules[0].selector)
    ensures StepDone(End(s, run), rules[i].id)
  {
    assert OnTrack(s, rules[0]);
    hide Tracked, WakeInv, IsRun, End, SmoothRun, SweepsSpare, CanStep, AllOnTrack, Triggers, OnTrack, StepDone,
         CanResume, Sound;
    SafeOf(s);
    ChainStaysOnTrack(s, run, rules, session, rs);
    TriggeredInRun(s, run, rules[0], rs, k);
    SilentMeansIdle(s, run);
    AllReported(End(s, run), rules, i);
  }

  /**
   From any reachable state in which the rules of a linear workflow all wait and its session can be
   resumed: along any smooth run with an event for the first step in it, whatever else happens, the
   daemon falls silent only when every step has run to completion and been reported.
   */
  lemma LinearWorkflowFinishes(init: Sys, history: seq<Action>, run: seq<Action>, w: Workflow.Workflow, rs: seq<string>,
                               k: nat, i: nat)
    requires Init(init) && IsRun(init, history) && Linear(w)
    requires var s := End(init, history);
      && !s.cancelled && CanResume(s.db, w.session) && StepsWait(s, w, rs)
      && IsRun(s, run) && SmoothRun(run, w.session, Ids(rs)) && SweepsSpare(s, run, w.session)
      && !CanStep(End(s, run))
    requires i < |w.steps| && k < |run| && Triggers(run[k], w.steps[0].on)
    ensures StepDone(End(End(init, history), run), rs[i])
  {
    var s := End(init, history);
    assert |rs| == |w.steps| && forall j :: 0 <= j < |rs| ==> rs[j] in s.db.rules;
    hide Init, IsRun, End, Linear, CanResume, StepsWait, SmoothRun, SweepsSpare, CanStep, Triggers, StepDone,
         Tracked, Safe, WakeInv, IsChain, AllOnTrack, Sound;
    ReachableState(init, history);
    StepsAreAChain(s, w, rs);
    StartsOnTrack(s, w, rs);
    if w.session in s.workers { NothingInHand(s, w, rs); }
    ChainFinishes(s, run, StepRules(s, rs), w.session, Ids(rs), k, i);
  }

  // ---------- And it can always get there ----------

  lemma FavourableIsSmooth(a: Action, session: string, rs: set<string>)
    requires Driven(a) && Favourable(a)
    ensures Smooth(a, session, rs)
  {
  }

  lemma DrivenSpares(s: Sys, a: Action, session: string)
    requires Driven(a)
    ensures Spares(s, a, session)
  {
  }

  lemma {:induction false} OwnStepsSpare(s: Sys, run: seq<Action>, session: string)
    requires IsRun(s, run) && forall i :: 0 <= i < |run| ==> Driven(run[i])
    ensures SweepsSpare(s, run, session)
    decreases |run|
  {
    hide Enabled, Apply, Driven, Spares;
    if run == [] {
    } else {
      DrivenSpares(s, run[0], session);
      OwnStepsSpare(Apply(s, run[0]), run[1..], session);
    }
  }

  lemma {:induction false} SpareOn(s: Sys, run: seq<Action>, more: seq<Action>, session: string)
    requires IsRun(s, run) && IsRun(End(s, run), more) && IsRun(s, run + more)
    requires SweepsSpare(s, run, session) && SweepsSpare(End(s, run), more, session)
    ensures SweepsSpare(s, run + more, session)
    decreases |run|
  {
    hide Enabled, Apply, Spares;
    if run == [] {
      assert run + more == more;
    } else {
      assert (run + more)[1..] == run[1..] + more;
      SpareOn(Apply(s, run[0]), run[1..], more, session);
    }
  }

  lemma SmoothOn(run: seq<Action>, more: seq<Action>, session: string, rs: set<string>)
    requires SmoothRun(run, session, rs) && forall i :: 0 <= i < |more| ==> Driven(more[i]) && Favourable(more[i])
    ensures SmoothRun(run + more, session, rs)
  {
    hide Smooth, Driven, Favourable;
    forall k | 0 <= k < |run + more| ensures Smooth((run + more)[k], session, rs) {
      if k < |run| {
        assert (run + more)[k] == run[k];
      } else {
        assert (run + more)[k] == more[k - |run|];
        FavourableIsSmooth(more[k - |run|], session, rs);
      }
    }
  }

  lemma StaysSettling(s: Sys, run: seq<Action>, w: Workflow.Workflow, rs: seq<string>)
    requires Tracked(s) && !s.cancelled && CanResume(s.db, w.session) && StepsWait(s, w, rs) && Linear(w)
    requires IsRun(s, run) && SmoothRun(run, w.session, Ids(rs)) && SweepsSpare(s, run, w.session)
    requires AllOneShot(End(s, run).db)
    ensures Settling(End(s, run))
  {
    assert |rs| == |w.steps| && forall j :: 0 <= j < |rs| ==> rs[j] in s.db.rules;
    hide IsRun, End, Linear, CanResume, StepsWait, SmoothRun, SweepsSpare, Tracked, Safe, IsChain, AllOnTrack, Sound,
         AllOneShot;
    StepsAreAChain(s, w, rs);
    StartsOnTrack(s, w, rs);
    if w.session in s.workers { NothingInHand(s, w, rs); }
    ChainStaysOnTrack(s, run, StepRules(s, rs), w.session, Ids(rs));
    SafeOf(s);
    SafeAlways(s, run);
  }

  /**
   Such a run, however far it has got, can be continued by the daemon's own steps alone to a state in
   which every step is completed and reported, if all rules stored by then are one-shot.
   */
  lemma LinearWorkflowCanFinish(init: Sys, history: seq<Action>, run: seq<Action>, w: Workflow.Workflow,
                                rs: seq<string>, k: nat) returns (more: seq<Action>)
    requires Init(init) && IsRun(init, history) && Linear(w)
    requires var s := End(init, history);
      && !s.cancelled && CanResume(s.db, w.session) && StepsWait(s, w, rs)
      && IsRun(s, run) && SmoothRun(run, w.session, Ids(rs)) && SweepsSpare(s, run, w.session)
      && AllOneShot(End(s, run).db)
    requires k < |run| && w.steps != [] && Triggers(run[k], w.steps[0].on)
    ensures var e := End(End(init, history), run);
      && IsRun(e, more) && (forall i :: 0 <= i < |more| ==> Driven(more[i]) && Favourable(more[i]))
      && !CanStep(End(e, more)) && forall i :: 0 <= i < |w.steps| ==> StepDone(End(e, more), rs[i])
  {
    var s := End(init, history);
    var e := End(s, run);
    assert |rs| == |w.steps|;
    hide Init, IsRun, End, Linear, CanResume, StepsWait, SmoothRun, SweepsSpare, CanStep, Triggers, StepDone,
         Tracked, Safe, WakeInv, AllOneShot, Driven, Favourable, Settling, Backlog;
    ReachableState(init, history);
    StaysSettling(s, run, w, rs);
    more := SilenceIsReachable(Backlog(e), e);
    RunsOn(s, run, more);
    OwnStepsSpare(e, more, w.session);
    SpareOn(s, run, more, w.session);
    SmoothOn(run, more, w.session, Ids(rs));
    assert (run + more)[k] == run[k];
    forall i | 0 <= i < |w.steps| ensures StepDone(End(e, more), rs[i]) {
      LinearWorkflowFinishes(init, history, run + more, w, rs, k, i);
    }
  }

  /** An event for the first step can come in smoothly. */
  lemma InjectionIsSmooth(s: Sys, ev: Event, at: Instant, session: string, rs: set<string>) returns (a: Action)
    requires Tracked(s) && ev.id != ""
    ensures a.Out? && a.o.Inject? && a.o.ev == ev && a.o.at == at && Enabled(s, a)
    ensures Smooth(a, session, rs) && Spares(s, a, session)
  {
    RowsAreEntered(s);
    hide Tracked, OpOk;
    var mint := EmitIsPossible(s.db, s.led, ev, at);
    a := Out(Inject(ev, at, mint));
  }

  lemma OneStep(s: Sys, a: Action, session: string)
    requires Enabled(s, a) && Spares(s, a, session)
    ensures IsRun(s, [a]) && End(s, [a]) == Apply(s, a) && SweepsSpare(s, [a], session)
  {
    hide Enabled, Apply, Spares;
    assert [a][1..] == [];
    assert IsRun(Apply(s, a), []) && End(Apply(s, a), []) == Apply(s, a) && SweepsSpare(Apply(s, a), [], session);
  }

  /** The event comes in, and the run that it starts has got as far as this one step. */
  lemma SetsOut(s: Sys, w: Workflow.Workflow, rs: seq<string>, ev: Event, at: Instant) returns (a: Action)
    requires Tracked(s) && !s.cancelled && AllOneShot(s.db) && ev.id != "" && w.steps != [] && w.steps[0].on.Matches(ev)
    ensures a.Out? && a.o.Inject? && a.o.ev == ev && Triggers([a][0], w.steps[0].on)
    ensures IsRun(s, [a]) && SmoothRun([a], w.session, Ids(rs)) && SweepsSpare(s, [a], w.session)
    ensures AllOneShot(End(s, [a]).db)
  {
    hide IsRun, End, SweepsSpare, Tracked, Safe, AllOneShot, Enabled, Apply, Smooth, Spares, Ids;
    a := InjectionIsSmooth(s, ev, at, w.session, Ids(rs));
    OneStep(s, a, w.session);
    SafeOf(s);
    SettlingStep(s, a);
  }

  /**
   So a linear workflow whose rules wait, stored with one-shot rules only, can be run to its end by
   any event its first step selects.
   */
  lemma LinearWorkflowCanRun(init: Sys, history: seq<Action>, w: Workflow.Workflow, rs: seq<string>, ev: Event,
                             at: Instant) returns (run: seq<Action>)
    requires Init(init) && IsRun(init, history) && Linear(w) && w.steps != []
    requires var s := End(init, history);
      !s.cancelled && CanResume(s.db, w.session) && StepsWait(s, w, rs) && AllOneShot(s.db)
    requires ev.id != "" && w.steps[0].on.Matches(ev)
    ensures var s := End(init, history);
      && IsRun(s, run) && run != [] && run[0].Out? && run[0].o.Inject? && run[0].o.ev == ev
      && (forall i :: 0 < i < |run| ==> Driven(run[i]) && Favourable(run[i]))
      && !CanStep(End(s, run)) && forall i :: 0 <= i < |w.steps| ==> StepDone(End(s, run), rs[i])
  {
    var s := End(init, history);
    assert |rs| == |w.steps|;
    hide *;
    ReachableState(init, history);
    var a := SetsOut(s, w, rs, ev, at);
    var more := LinearWorkflowCanFinish(init, history, [a], w, rs, 0);
    RunsOn(s, [a], more);
    run := [a] + more;
  }
}
