/**
 How workflow steps follow each other: a step that waits for another step's completion is started
 through the feedback loop (run, result event, ingest). Proved over every run of the daemon: what
 can start such a step, when that is the step it names, and what a shared label does.
 */
module Chains {
  import opened Core
  import opened StoreModel
  import opened StoreLaws
  import opened Engine
  import opened WorkerSafety
  import opened RunHistory
  import opened Counting
  import Workflow

  /** Waiting for the completion of what carries label `l`. */
  function DoneOf(l: string): Selector { Selector("continuation.completed", l) }

  /** The source under which a row's result is reported, and the one a rule gives its rows. */
  function RowSource(c: Continuation): string { if c.tag == "" then c.ruleId else c.tag }
  function RuleSource(r: Rule): string { if r.tag == "" then r.id else r.tag }

  lemma ResultHits(c: Continuation, v: Verdict, evId: string, at: Instant, l: string)
    requires l != ""
    ensures DoneOf(l).Matches(ResultEvent(c, v, evId, at)) <==> v.state.Completed? && RowSource(c) == l
  {
    assert "continuation.completed"[13] != "continuation.failed"[13];
  }

  // ---------- When a label names one rule's completions ----------

  /** A row that a rule of the table, or a manual run under an unused rule id, can create. */
  ghost predicate Creatable(rules: map<string, Rule>, c: Continuation) {
    || (exists ev, now, rendered :: c.ruleId in rules && c == NewRow(rules[c.ruleId], ev, now, c.id, rendered))
    || (c.ruleId !in rules && c == ManualRow(c.id, c.ruleId, c.eventId, c.sessionId, c.prompt, c.createdAt))
  }

  /** A completion reported under `l` comes from rule `r`, whatever the rows and runs are. */
  ghost predicate Names(rules: map<string, Rule>, l: string, r: string) {
    forall c, v, evId, at :: Creatable(rules, c) ==>
      (DoneOf(l).Matches(ResultEvent(c, v, evId, at)) <==> v.state.Completed? && c.ruleId == r)
  }

  /** No other rule reports under the label, and it is not the one manual runs use. */
  predicate OwnLabel(rules: map<string, Rule>, l: string, r: string) {
    l != "manual" && forall q :: q in rules && RuleSource(rules[q]) == l ==> q == r
  }

  const RAN := Verdict(Completed, "", Some(0), "", 0)

  lemma SharedLabelConfuses(rules: map<string, Rule>, l: string, r: string, q: string)
    requires l != "" && q in rules && rules[q].id == q && RuleSource(rules[q]) == l && q != r
    ensures !Names(rules, l, r)
  {
    var ev := Event("e", "", "", map[], 0);
    var c := NewRow(rules[q], ev, 0, "c", Ok(""));
    assert Creatable(rules, c);
    ResultHits(c, RAN, "e", 0, l);
    assert DoneOf(l).Matches(ResultEvent(c, RAN, "e", 0));
  }

  lemma ManualLabelConfuses(rules: map<string, Rule>, r: string)
    requires r in rules
    ensures !Names(rules, "manual", r)
  {
    var n := LongerThanAll(rules.Keys);
    var c := ManualRow("c", Repeat(n), "e", "s", "", 0);
    assert Creatable(rules, c);
    ResultHits(c, RAN, "e", 0, "manual");
    assert DoneOf("manual").Matches(ResultEvent(c, RAN, "e", 0));
  }

  /**
   Of the rows that the rules of the table and manual runs can create, a label names those of one
   rule if and only if no other rule of the table carries it and it is not "manual". Rows of rules
   removed since, and injected events, are the matter of `StepOwnership`.
   */
  lemma LabelNamesRuleIff(rules: map<string, Rule>, l: string, r: string)
    requires l != "" && r in rules && RuleSource(rules[r]) == l && forall q :: q in rules ==> rules[q].id == q
    ensures Names(rules, l, r) <==> OwnLabel(rules, l, r)
  {
    if l == "manual" {
      ManualLabelConfuses(rules, r);
    } else if q :| q in rules && RuleSource(rules[q]) == l && q != r {
      SharedLabelConfuses(rules, l, r, q);
    } else {
      forall c, v, evId, at | Creatable(rules, c)
        ensures DoneOf(l).Matches(ResultEvent(c, v, evId, at)) <==> v.state.Completed? && c.ruleId == r
      {
        ResultHits(c, v, evId, at, l);
      }
    }
  }

  // ---------- What a row's rule says about it ----------

  /** A row of a rule carries its label and session; a row of no rule is a manual one. */
  ghost predicate RowOfRule(led: Ledger, c: Continuation) {
    if c.ruleId in led.rulesEver then
      var r := led.rulesEver[c.ruleId]; r.id == c.ruleId && c.tag == r.tag && c.sessionId == r.sessionId
    else c.tag == "manual"
  }

  ghost predicate Labelled(led: Ledger) {
    forall id :: id in led.created ==> RowOfRule(led, led.created[id])
  }

  lemma NewRowOfRule(db: Db, led: Ledger, op: Op, id: string)
    requires RulesKept(db, led) && OpOk(db, led, op) && id in NewRows(db, op)
    ensures RowOfRule(led, NewRows(db, op)[id])
  {
    hide MintOk, Fired, Selected;
  }

  lemma LabelledByOp(db: Db, led: Ledger, op: Op)
    requires StoreInv(db, led) && OpOk(db, led, op) && Labelled(led)
    ensures Labelled(ApplyLedger(db, led, op))
  {
    var led' := ApplyLedger(db, led, op);
    forall id | id in led'.created ensures RowOfRule(led', led'.created[id]) {
      if id in NewRows(db, op) { NewRowOfRule(db, led, op, id); } else { assert RowOfRule(led, led.created[id]); }
    }
  }

  // ---------- What starts a waiting step ----------

  predicate WaitsFor(led: Ledger, r: string, l: string) {
    r in led.rulesEver && led.rulesEver[r].selector == DoneOf(l)
  }

  /** The event that created row `id` is the one result event of row `cause`, which completed under label `l`. */
  ghost predicate Caused(s: Sys, l: string, id: string, cause: string) {
    && id in s.led.created && cause in s.led.created && RowSource(s.led.created[cause]) == l
    && cause in s.hist.verdicts && s.hist.verdicts[cause].state.Completed?
    && |s.hist.Results(cause)| == 1 && s.hist.Results(cause)[0].id == s.led.created[id].eventId
  }

  /** The ids of injected events that pass for a completion of `l`. */
  function Posing(run: seq<Action>, l: string): set<string> {
    if run == [] then {}
    else (if run[0].Out? && run[0].o.Inject? && DoneOf(l).Matches(run[0].o.ev) then {run[0].o.ev.id} else {})
         + Posing(run[1..], l)
  }

  ghost predicate Explained(s: Sys, l: string, posing: set<string>, id: string)
    requires id in s.led.created
  {
    WaitsFor(s.led, s.led.created[id].ruleId, l) ==>
      s.led.created[id].eventId in posing || exists cause :: Caused(s, l, id, cause)
  }

  ghost predicate ChainInv(s: Sys, l: string, posing: set<string>) {
    Labelled(s.led) && forall id :: id in s.led.created ==> Explained(s, l, posing, id)
  }

  /** Verdicts stay, and so does the one result event. */
  ghost predicate HistoryKept(h: History, h': History) {
    && (forall id :: id in h.verdicts ==> id in h'.verdicts && h'.verdicts[id] == h.verdicts[id])
    && (forall id :: |h.Results(id)| == 1 ==> h'.Results(id) == h.Results(id))
  }

  lemma WorkKeepsHistory(s: Sys, w: string, k: Work)
    requires Tracked(s) && WorkEnabled(s, w, k)
    ensures HistoryKept(s.hist, WorkHistory(s, w, k))
  {
    hide Tracked, OpOk, WorkPc, ResultEvent;
    if k.Record? {
      RecordingFacts(s, w);
    } else if k.Emit? {
      EmitterFacts(s, w);
    }
  }

  lemma RecordingFacts(s: Sys, w: string)
    requires Tracked(s) && w in s.workers && s.workers[w].Recording?
    ensures s.workers[w].c.id !in s.hist.verdicts
  {
    WorkersRow(s, w);
    assert RowHistory(s.db.conts[s.workers[w].c.id], s.hist, s.workers[w].c.id);
  }

  lemma StepKeepsHistory(s: Sys, a: Action)
    requires Tracked(s) && Enabled(s, a)
    ensures HistoryKept(s.hist, Apply(s, a).hist)
  {
    hide Tracked, OpOk, ApplyOp, ApplyLedger, OutEnabled, WorkEnabled, WorkHistory;
    if a.Wrk? { WorkKeepsHistory(s, a.w, a.k); }
  }

  lemma CausedStays(s: Sys, a: Action, l: string, id: string, cause: string)
    requires Tracked(s) && Enabled(s, a) && Caused(s, l, id, cause)
    ensures Caused(Apply(s, a), l, id, cause)
  {
    StepKeepsHistory(s, a);
    StepIsCall(s, a);
    LedgerGrows(s, CallOf(s, a));
    hide Tracked, Enabled, Apply, CallOf, OpOk, ApplyOp, ApplyLedger;
  }

  /** A row created for a waiting rule was created by an event that passes for the completion. */
  lemma NewRowHit(db: Db, led: Ledger, op: Op, id: string, l: string)
    requires StoreInv(db, led) && OpOk(db, led, op) && id in NewRows(db, op)
    requires WaitsFor(led, NewRows(db, op)[id].ruleId, l)
    ensures op.OpIngest? && DoneOf(l).Matches(op.ev) && NewRows(db, op)[id].eventId == op.ev.id
  {
    NewRowRule(db, led, op, id);
    hide NewRows, MintOk;
  }

  /** What the books say of the row whose result is about to be emitted. */
  lemma EmitterFacts(s: Sys, w: string)
    requires Tracked(s) && w in s.workers && s.workers[w].Emitting?
    ensures var pc := s.workers[w];
      && pc.c.id in s.led.created && RowSource(s.led.created[pc.c.id]) == RowSource(pc.c)
      && pc.c.id in s.hist.verdicts && s.hist.verdicts[pc.c.id] == pc.v && s.hist.Results(pc.c.id) == []
  {
    assert EmitterOk(s.led.created, s.hist, s.workers[w]);
  }

  lemma EmitFields(s: Sys, w: string, k: Work)
    requires WorkEnabled(s, w, k) && k.Emit?
    ensures var c, h := s.workers[w].c, WorkApply(s, w, k).hist;
      && h.verdicts == s.hist.verdicts
      && h.Results(c.id) == s.hist.Results(c.id) + [ResultEvent(c, s.workers[w].v, k.evId, k.at)]
    ensures WorkApply(s, w, k).led == Commit(s, WorkCall(s.workers[w], k)).led
  {
    hide OpOk, ApplyOp, ApplyLedger, WorkPc, ResultEvent;
  }

  /** The emitting step: its event is the result of the row whose run it reports. */
  lemma EmitCauses(s: Sys, w: string, k: Work, id: string, l: string)
    requires Tracked(s) && WorkEnabled(s, w, k) && k.Emit? && l != ""
    requires var ev := ResultEvent(s.workers[w].c, s.workers[w].v, k.evId, k.at);
      && DoneOf(l).Matches(ev) && id in WorkApply(s, w, k).led.created
      && WorkApply(s, w, k).led.created[id].eventId == ev.id
    ensures Caused(WorkApply(s, w, k), l, id, s.workers[w].c.id)
  {
    hide *;
    StoreInvOf(s);
    EmittingNow(s, w, k);
    ResultHits(s.workers[w].c, s.workers[w].v, k.evId, k.at, l);
    EmitterFacts(s, w);
    EmitFields(s, w, k);
    LedgerGrows(s, WorkCall(s.workers[w], k));
    CausedFrom(s, WorkApply(s, w, k), l, id, s.workers[w].c, s.workers[w].v,
               ResultEvent(s.workers[w].c, s.workers[w].v, k.evId, k.at));
  }

  lemma EmittingNow(s: Sys, w: string, k: Work)
    requires WorkEnabled(s, w, k) && k.Emit?
    ensures w in s.workers && s.workers[w].Emitting? && OpOk(s.db, s.led, WorkCall(s.workers[w], k))
  {
  }

  lemma CausedFrom(s: Sys, s': Sys, l: string, id: string, c: Continuation, v: Verdict, ev: Event)
    requires Extends(s.led.created, s'.led.created)
    requires c.id in s.led.created && RowSource(s.led.created[c.id]) == l
    requires c.id in s.hist.verdicts && s.hist.verdicts[c.id] == v && v.state.Completed?
    requires s'.hist.verdicts == s.hist.verdicts && s'.hist.Results(c.id) == s.hist.Results(c.id) + [ev]
    requires s.hist.Results(c.id) == [] && id in s'.led.created && s'.led.created[id].eventId == ev.id
    ensures Caused(s', l, id, c.id)
  {
  }

  lemma StoreInvOf(s: Sys)
    requires Tracked(s)
    ensures StoreInv(s.db, s.led)
  {
  }

  lemma InjectExplained(s: Sys, a: Action, l: string, id: string)
    requires a.Out? && a.o.Inject? && DoneOf(l).Matches(a.o.ev)
    requires id in s.led.created && s.led.created[id].eventId == a.o.ev.id
    ensures Explained(s, l, Posing([a], l), id)
  {
    assert [a][1..] == [];
  }

  lemma IngestingSteps(s: Sys, a: Action)
    requires Enabled(s, a) && CallOf(s, a).OpIngest?
    ensures (a.Out? && a.o.Inject? && CallOf(s, a).ev == a.o.ev)
      || (a.Wrk? && a.k.Emit?
          && CallOf(s, a).ev == ResultEvent(s.workers[a.w].c, s.workers[a.w].v, a.k.evId, a.k.at))
  {
    hide OpOk, ResultEvent;
  }

  lemma NewRowExplained(s: Sys, a: Action, l: string, id: string)
    requires Tracked(s) && Enabled(s, a) && l != ""
    requires CallOf(s, a).OpIngest? && DoneOf(l).Matches(CallOf(s, a).ev)
    requires id in Apply(s, a).led.created && Apply(s, a).led.created[id].eventId == CallOf(s, a).ev.id
    ensures Explained(Apply(s, a), l, Posing([a], l), id)
  {
    IngestingSteps(s, a);
    hide Tracked, OutEnabled, WorkEnabled, OutApply, WorkApply, Caused, Posing, CallOf, DoneOf, ResultEvent;
    if a.Out? {
      InjectExplained(Apply(s, a), a, l, id);
    } else {
      EmitCauses(s, a.w, a.k, id, l);
      assert Caused(Apply(s, a), l, id, s.workers[a.w].c.id);
    }
  }

  lemma OldRowExplained(s: Sys, a: Action, l: string, posing: set<string>, id: string)
    requires Tracked(s) && Enabled(s, a) && id in s.led.created && Explained(s, l, posing, id)
    ensures id in Apply(s, a).led.created && Apply(s, a).led.created[id] == s.led.created[id]
    ensures Explained(Apply(s, a), l, posing, id)
  {
    StoreInvOf(s);
    hide Tracked, StoreInv, Enabled, Apply, CallOf, OpOk, ApplyOp, ApplyLedger, WaitsFor, Caused;
    StepIsCall(s, a);
    LedgerGrows(s, CallOf(s, a));
    RuleWasThere(s.db, s.led, CallOf(s, a), id, l);
    if cause :| Caused(s, l, id, cause) {
      CausedStays(s, a, l, id, cause);
    }
  }

  lemma RuleWasThere(db: Db, led: Ledger, op: Op, id: string, l: string)
    requires OpOk(db, led, op) && id in led.created
    ensures WaitsFor(ApplyLedger(db, led, op), led.created[id].ruleId, l) ==> WaitsFor(led, led.created[id].ruleId, l)
  {
    hide NewRows;
  }

  lemma NewRowIs(db: Db, led: Ledger, op: Op, id: string)
    requires StoreInv(db, led) && OpOk(db, led, op) && id in ApplyLedger(db, led, op).created && id !in led.created
    ensures id in NewRows(db, op) && ApplyLedger(db, led, op).created[id] == NewRows(db, op)[id]
    ensures ApplyLedger(db, led, op).rulesEver == led.rulesEver
  {
  }

  lemma RowExplained(s: Sys, a: Action, l: string, posing: set<string>, id: string)
    requires Tracked(s) && Enabled(s, a) && l != "" && id in Apply(s, a).led.created
    requires id in s.led.created ==> Explained(s, l, posing, id)
    ensures Explained(Apply(s, a), l, posing + Posing([a], l), id)
  {
    StoreInvOf(s);
    hide Tracked, StoreInv, Enabled, Apply, CallOf, OpOk, ApplyOp, ApplyLedger, WaitsFor, Caused, Posing, DoneOf,
         NewRows;
    StepIsCall(s, a);
    if id in s.led.created {
      OldRowExplained(s, a, l, posing, id);
    } else {
      NewRowIs(s.db, s.led, CallOf(s, a), id);
      SameWait(s.led, Apply(s, a).led, Apply(s, a).led.created[id].ruleId, l);
      if WaitsFor(s.led, Apply(s, a).led.created[id].ruleId, l) {
        NewRowHit(s.db, s.led, CallOf(s, a), id, l);
        NewRowExplained(s, a, l, id);
      }
    }
  }

  lemma SameWait(led: Ledger, led': Ledger, r: string, l: string)
    requires led'.rulesEver == led.rulesEver
    ensures WaitsFor(led', r, l) <==> WaitsFor(led, r, l)
  {
  }

  lemma ChainStep(s: Sys, a: Action, l: string, posing: set<string>)
    requires Tracked(s) && ChainInv(s, l, posing) && Enabled(s, a) && l != ""
    ensures ChainInv(Apply(s, a), l, posing + Posing([a], l))
  {
    StoreInvOf(s);
    hide Tracked, StoreInv, Enabled, Apply, CallOf, OpOk, ApplyOp, ApplyLedger, Labelled, Explained, Posing;
    StepIsCall(s, a);
    LabelledByOp(s.db, s.led, CallOf(s, a));
    forall id | id in Apply(s, a).led.created ensures Explained(Apply(s, a), l, posing + Posing([a], l), id) {
      RowExplained(s, a, l, posing, id);
    }
  }

  lemma PosingSplits(run: seq<Action>, l: string)
    requires run != []
    ensures Posing(run, l) == Posing([run[0]], l) + Posing(run[1..], l)
  {
    assert [run[0]][1..] == [];
  }

  lemma {:induction false} ChainRun(s: Sys, run: seq<Action>, l: string, posing: set<string>)
    requires Tracked(s) && ChainInv(s, l, posing) && IsRun(s, run) && l != ""
    ensures ChainInv(End(s, run), l, posing + Posing(run, l))
    decreases |run|
  {
    hide Tracked, ChainInv, Apply, Enabled, Posing;
    if run == [] {
      NoPosing(l);
      assert posing + {} == posing;
    } else {
      TrackedStep(s, run[0]);
      ChainStep(s, run[0], l, posing);
      ChainRun(Apply(s, run[0]), run[1..], l, posing + Posing([run[0]], l));
      PosingSplits(run, l);
      assert posing + Posing([run[0]], l) + Posing(run[1..], l) == posing + Posing(run, l);
    }
  }

  lemma NoPosing(l: string)
    ensures Posing([], l) == {}
  {
  }

  lemma StartsExplained(s: Sys, l: string)
    requires Init(s)
    ensures Tracked(s) && ChainInv(s, l, {})
  {
  }

  /**
   Over every run: a row of a rule that waits for the completion of `l` exists only because an
   event was injected that poses as one, or because some row completed under `l` and its one
   result event started it.
   */
  lemma OnlyCompletionsStartSteps(s: Sys, run: seq<Action>, l: string, id: string)
    requires Init(s) && IsRun(s, run) && l != ""
    requires id in End(s, run).led.created && WaitsFor(End(s, run).led, End(s, run).led.created[id].ruleId, l)
    ensures End(s, run).led.created[id].eventId in Posing(run, l) || exists cause :: Caused(End(s, run), l, id, cause)
  {
    hide Init, IsRun, End, Tracked, Labelled, WaitsFor, Caused, Posing;
    StartsExplained(s, l);
    ChainRun(s, run, l, {});
    assert {} + Posing(run, l) == Posing(run, l);
    assert Explained(End(s, run), l, Posing(run, l), id);
  }

  // ---------- A workflow's steps follow the steps they name ----------

  /** The rule of step `i` was stored under the id `r`. */
  ghost predicate StepStored(led: Ledger, w: Workflow.Workflow, i: nat, r: string)
    requires i < |w.steps|
  {
    r in led.rulesEver && led.rulesEver[r] == Workflow.StepRule(w, i, r, led.rulesEver[r].createdAt)
  }

  lemma StepRuleIs(led: Ledger, w: Workflow.Workflow, i: nat, r: string)
    requires i < |w.steps| && StepStored(led, w, i, r)
    ensures led.rulesEver[r].selector == w.steps[i].on && led.rulesEver[r].oneShot
    ensures led.rulesEver[r].sessionId == w.session && RuleSource(led.rulesEver[r]) == Workflow.TagOf(w.steps, i) != ""
  {
    assert Workflow.WithTags(w).steps[i] == w.steps[i].(tag := Workflow.TagOf(w.steps, i));
  }

  /** Under its own label, a completion is its own rule's. */
  lemma OwnCause(led: Ledger, l: string, r: string, c: Continuation)
    requires RowOfRule(led, c) && OwnLabel(led.rulesEver, l, r) && RowSource(c) == l
    ensures c.ruleId == r && r in led.rulesEver && c.sessionId == led.rulesEver[r].sessionId
  {
  }

  /** Row `cause` is all that rule `r` ever created; it completed, and its result event created row `id`. */
  ghost predicate StartedBy(e: Sys, l: string, r: string, id: string, cause: string) {
    && Caused(e, l, id, cause) && e.led.created[cause].ruleId == r
    && forall other :: other in e.led.created && e.led.created[other].ruleId == r ==> other == cause
  }

  lemma StartedByOwn(e: Sys, l: string, r: string, id: string, cause: string)
    requires StoreInv(e.db, e.led) && Labelled(e.led) && Caused(e, l, id, cause) && OwnLabel(e.led.rulesEver, l, r)
    requires r in e.led.rulesEver && e.led.rulesEver[r].oneShot
    ensures StartedBy(e, l, r, id, cause) && e.led.created[cause].sessionId == e.led.rulesEver[r].sessionId
  {
    assert RowOfRule(e.led, e.led.created[cause]);
    OwnCause(e.led, l, r, e.led.created[cause]);
    hide RowsKept, RulesKept, PairsUnique, OneShotFresh, OwnLabel;
  }

  lemma ReachableBooks(s: Sys, run: seq<Action>, l: string)
    requires Init(s) && IsRun(s, run) && l != ""
    ensures StoreInv(End(s, run).db, End(s, run).led) && Labelled(End(s, run).led)
  {
    hide Init, IsRun, End, Tracked, StoreInv, Labelled, Explained;
    StartsExplained(s, l);
    ChainRun(s, run, l, {});
    TrackedAlways(s, run);
    StoreInvOf(End(s, run));
  }

  /**
   Step `i` waits for the completion of step `j`, whose label no other rule ever stored carries and
   no injected event poses as. Then, in every run, step `i` has been started only if step `j` ran
   and completed in the workflow's session, and it was step `j`'s one result event that started it.
   */
  lemma StepFollowsItsStep(s: Sys, run: seq<Action>, w: Workflow.Workflow, i: nat, j: nat, ri: string, rj: string,
                           id: string) returns (cause: string)
    requires Init(s) && IsRun(s, run) && i < |w.steps| && j < |w.steps|
    requires var led, l := End(s, run).led, Workflow.TagOf(w.steps, j);
      && StepStored(led, w, i, ri) && StepStored(led, w, j, rj) && w.steps[i].on == DoneOf(l)
      && OwnLabel(led.rulesEver, l, rj) && Posing(run, l) == {}
      && id in led.created && led.created[id].ruleId == ri
    ensures var e, l := End(s, run), Workflow.TagOf(w.steps, j);
      StartedBy(e, l, rj, id, cause) && e.led.created[cause].sessionId == w.session
  {
    var e, l := End(s, run), Workflow.TagOf(w.steps, j);
    StepRuleIs(e.led, w, i, ri);
    StepRuleIs(e.led, w, j, rj);
    assert WaitsFor(e.led, ri, l);
    hide Init, IsRun, End, WaitsFor, StepStored, StoreInv, Labelled, OwnLabel, Posing, Caused, StartedBy;
    OnlyCompletionsStartSteps(s, run, l, id);
    cause :| Caused(e, l, id, cause);
    ReachableBooks(s, run, l);
    StartedByOwn(e, l, rj, id, cause);
  }

  /** Each step but the first waits for the one before it. */
  predicate Linear(w: Workflow.Workflow) {
    forall i :: 0 < i < |w.steps| ==> w.steps[i].on == DoneOf(Workflow.TagOf(w.steps, i - 1))
  }

  /** The rule's row ran to completion, and the books hold its one result event. */
  ghost predicate StepDone(e: Sys, r: string) {
    exists c :: c in e.led.created && e.led.created[c].ruleId == r && c in e.hist.verdicts
      && e.hist.verdicts[c].state.Completed? && |e.hist.Results(c)| == 1
  }

  lemma CauseIsDone(e: Sys, l: string, r: string, id: string, cause: string)
    requires StartedBy(e, l, r, id, cause)
    ensures StepDone(e, r)
  {
  }

  lemma CauseOfRule(e: Sys, l: string, r: string, id: string, cause: string)
    requires StartedBy(e, l, r, id, cause)
    ensures cause in e.led.created && e.led.created[cause].ruleId == r
  {
  }

  /** No rule outside the workflow ever carried the label of one of its first `n` steps, and neither do manual runs. */
  ghost predicate LabelsUnshared(led: Ledger, w: Workflow.Workflow, rs: seq<string>, n: nat)
    requires n <= |w.steps|
  {
    && (forall i :: 0 <= i < n ==> Workflow.TagOf(w.steps, i) != "manual")
    && (forall i, q :: 0 <= i < n && q in led.rulesEver && q !in rs ==>
          RuleSource(led.rulesEver[q]) != Workflow.TagOf(w.steps, i))
  }

  lemma FewerLabels(led: Ledger, w: Workflow.Workflow, rs: seq<string>, n: nat)
    requires 0 < n <= |w.steps| && LabelsUnshared(led, w, rs, n)
    ensures LabelsUnshared(led, w, rs, n - 1)
  {
    hide RuleSource, Workflow.TagOf;
  }

  /** Within an accepted workflow the labels differ, so only rules outside it matter. */
  lemma StepsOwnTheirLabels(led: Ledger, w: Workflow.Workflow, validTemplate: string -> bool, rs: seq<string>, n: nat,
                            i: nat)
    requires Workflow.Acceptable(w, validTemplate) && |rs| == |w.steps| && i < n <= |rs|
    requires LabelsUnshared(led, w, rs, n)
    requires forall j :: 0 <= j < |rs| ==> StepStored(led, w, j, rs[j])
    ensures OwnLabel(led.rulesEver, Workflow.TagOf(w.steps, i), rs[i])
  {
    hide Workflow.Acceptable, StepStored, RuleSource, Workflow.TagOf;
    var l := Workflow.TagOf(w.steps, i);
    forall q | q in led.rulesEver && RuleSource(led.rulesEver[q]) == l ensures q == rs[i] {
      var j :| 0 <= j < |rs| && rs[j] == q;
      StepRuleIs(led, w, j, rs[j]);
      Workflow.TagsNameSteps(w, validTemplate, i, j);
    }
  }

  /**
   A linear workflow runs in order: in every run in which no rule outside it carries its labels, a
   step that has been started at all has every earlier step completed before it.
   */
  lemma {:induction false} LinearWorkflowRunsInOrder(s: Sys, run: seq<Action>, w: Workflow.Workflow,
                                                      validTemplate: string -> bool, rs: seq<string>, n: nat,
                                                      id: string, k: nat)
    requires Init(s) && IsRun(s, run) && Workflow.Acceptable(w, validTemplate) && Linear(w)
    requires |rs| == |w.steps| && k < n < |w.steps|
    requires var led := End(s, run).led;
      && (forall i :: 0 <= i < |rs| ==> StepStored(led, w, i, rs[i]))
      && LabelsUnshared(led, w, rs, n)
      && (forall i :: 0 <= i < n ==> Posing(run, Workflow.TagOf(w.steps, i)) == {})
      && id in led.created && led.created[id].ruleId == rs[n]
    ensures StepDone(End(s, run), rs[k])
    decreases n
  {
    hide Init, IsRun, End, StepStored, OwnLabel, Posing, Workflow.TagOf, Workflow.Acceptable, LabelsUnshared, StepDone,
         StartedBy;
    StepsOwnTheirLabels(End(s, run).led, w, validTemplate, rs, n, n - 1);
    var cause := StepFollowsItsStep(s, run, w, n, n - 1, rs[n], rs[n - 1], id);
    if k == n - 1 {
      CauseIsDone(End(s, run), Workflow.TagOf(w.steps, k), rs[k], id, cause);
    } else {
      FewerLabels(End(s, run).led, w, rs, n);
      CauseOfRule(End(s, run), Workflow.TagOf(w.steps, n - 1), rs[n - 1], id, cause);
      LinearWorkflowRunsInOrder(s, run, w, validTemplate, rs, n - 1, cause, k);
    }
  }

  // ---------- And a completion starts the step that waits for it ----------

  /**
   When a result event is emitted while rule `r` still waits for completions of `l`, the rule fires
   if and only if the reported run completed under `l`; its row then answers that very event.
   */
  lemma EmissionStartsStepIff(s: Sys, w: string, k: Work, r: Rule, l: string)
    requires Safe(s) && WorkEnabled(s, w, k) && k.Emit? && l != ""
    requires Workflow.Waits(s.db, s.led, r) && r.selector == DoneOf(l)
    ensures var created := WorkApply(s, w, k).led.created;
      && ((exists id :: id in created && created[id].ruleId == r.id) <==>
            s.workers[w].v.state.Completed? && RowSource(s.workers[w].c) == l)
      && (forall id :: id in created && created[id].ruleId == r.id ==>
            created[id].eventId == k.evId && created[id].sessionId == r.sessionId && created[id].tag == r.tag)
  {
    hide Safe, WorkEnabled, WorkApply, ResultEvent, DoneOf, ApplyLedger, OpOk, StoreInv, RowSource;
    SafeStore(s);
    EmittingNow(s, w, k);
    EmitFields(s, w, k);
    var op := WorkCall(s.workers[w], k);
    ResultHits(s.workers[w].c, s.workers[w].v, k.evId, k.at, l);
    ResultId(s.workers[w].c, s.workers[w].v, k.evId, k.at);
    if Workflow.Hits(op, r.selector) {
      var c := Workflow.FiresOnHit(s.db, s.led, op, r);
    } else {
      Workflow.StaysWaiting(s.db, s.led, op, r);
    }
  }

  lemma SafeStore(s: Sys)
    requires Safe(s)
    ensures StoreInv(s.db, s.led)
  {
  }

  lemma ResultId(c: Continuation, v: Verdict, evId: string, at: Instant)
    ensures ResultEvent(c, v, evId, at).id == evId
  {
  }
}
