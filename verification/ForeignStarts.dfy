/**
 Three more ways in which a step is started by something other than the step it names, though no
 other stored rule carries the label: a rule since removed, an injected event, and a manual run.
 */
module ForeignStarts {
  import opened Core
  import opened StoreModel
  import opened StoreLaws
  import opened Engine
  import opened RunHistory
  import opened Chains
  import opened Serving
  import opened StepOwnership
  import opened SharedLabels
  import Workflow

  lemma ReachedIsTracked(run: seq<Action>, e: Sys)
    requires Reached(run, e)
    ensures Tracked(e)
  {
    hide Init, IsRun, End, Tracked;
    var s :| Init(s) && IsRun(s, run) && End(s, run) == e;
    StartsTracked(s);
    TrackedAlways(s, run);
  }

  lemma ReachedFurther(run: seq<Action>, s: Sys, more: seq<Action>)
    requires Reached(run, s) && IsRun(s, more)
    ensures Reached(run + more, End(s, more))
  {
    hide Init, IsRun, End;
    var init :| Init(init) && IsRun(init, run) && End(init, run) == s;
    RunsOn(init, run, more);
  }

  lemma ReachedAndLed(run: seq<Action>, s: Sys, e: Sys) returns (run': seq<Action>)
    requires Reached(run, s) && Leads(s, e)
    ensures Reached(run', e)
  {
    hide Reached, IsRun, End, Calm;
    var more :| IsRun(s, more) && (forall k :: 0 <= k < |more| ==> Calm(more[k])) && End(s, more) == e;
    ReachedFurther(run, s, more);
    run' := run + more;
  }

  /** A rule waiting for something other than a completion is left waiting by a report. */
  lemma ReportLeavesWaiting(s: Sys, w: string, k: Work, q: Rule)
    requires Tracked(s) && WorkEnabled(s, w, k) && k.Emit? && Workflow.Waits(s.db, s.led, q)
    requires q.selector.kind != "" && q.selector.kind[0] != 'c'
    ensures Workflow.Waits(WorkApply(s, w, k).db, WorkApply(s, w, k).led, q)
  {
    StoreInvOf(s);
    EmittingNow(s, w, k);
    WorkIsCall(s, w, k);
    var op := WorkCall(s.workers[w], k);
    assert !Workflow.Hits(op, q.selector);
    hide Tracked, StoreInv, OpOk, ApplyOp, ApplyLedger, WorkEnabled, WorkApply, Workflow.Waits, Workflow.Hits,
         WorkCall;
    Workflow.StaysWaiting(s.db, s.led, op, q);
  }

  /** Two rules are stored, and nothing else has happened. */
  lemma ReachesPair(p: Rule, q: Rule) returns (run: seq<Action>)
    requires p.id != q.id && !p.consumed && !q.consumed
    ensures Reached(run, Scene(EMPTY_DB.(rules := map[p.id := p, q.id := q]),
                               EMPTY_LEDGER.(rulesEver := map[p.id := p, q.id := q]), NO_HISTORY, Scanning, map[], 0))
  {
    hide Reached, Enabled, Apply, Init;
    Booted();
    AddStep(EMPTY_DB, EMPTY_LEDGER, p);
    AddStep(EMPTY_DB.(rules := map[p.id := p]), EMPTY_LEDGER.(rulesEver := map[p.id := p]), q);
    var s0 := Scene(EMPTY_DB, EMPTY_LEDGER, NO_HISTORY, Booting, map[], 0);
    var s1 := Scene(EMPTY_DB, EMPTY_LEDGER, NO_HISTORY, Scanning, map[], 0);
    var s2 := Scene(EMPTY_DB.(rules := map[p.id := p]), EMPTY_LEDGER.(rulesEver := map[p.id := p]), NO_HISTORY,
                    Scanning, map[], 0);
    run := [];
    ReachedStart(s0);
    ReachedNext(run, s0, Dis(BootReset(0)));
    run := run + [Dis(BootReset(0))];
    ReachedNext(run, s1, Out(Administer(OpAddRule(p))));
    run := run + [Out(Administer(OpAddRule(p)))];
    ReachedNext(run, s2, Out(Administer(OpAddRule(q))));
    run := run + [Out(Administer(OpAddRule(q)))];
  }

  // ---------- A removed rule ----------

  const A1_REMOVED := RECORDED.(rules := map["B1" := B1, "B2" := B2])

  lemma RemoveStep()
    ensures var s, a := At(RECORDED, ONE_VERDICT, Emitting(C1, RAN)), Out(Administer(OpRemoveRule("A1")));
      Enabled(s, a) && Apply(s, a) == At(A1_REMOVED, ONE_VERDICT, Emitting(C1, RAN))
  {
    RemovedTables();
    RemoveBooks(RECORDED, PUSH_BOOKS, "A1");
    hide RECORDED, A1_REMOVED, ONE_VERDICT, C1, ApplyLedger, RemoveRuleDb;
  }

  lemma RemovedTables()
    ensures RemoveRuleDb(RECORDED, "A1") == A1_REMOVED
  {
    assert RECORDED.rules - {"A1"} == A1_REMOVED.rules;
  }

  lemma RemoveBooks(db: Db, led: Ledger, r: string)
    ensures ApplyLedger(db, led, OpRemoveRule(r)) == led
  {
    assert led.created + map[] == led.created && led.swept + {} == led.swept;
    assert db.conts.Keys - db.conts.Keys == {};
  }

  lemma BothStillWait()
    ensures Workflow.Waits(A1_REMOVED, PUSH_BOOKS, B1) && Workflow.Waits(A1_REMOVED, PUSH_BOOKS, B2)
    ensures RowSource(C1) == "step-1" && C1.id == "c1" && C1.ruleId == "A1"
    ensures OwnLabel(A1_REMOVED.rules, "step-1", "B1")
  {
    assert "step-1"[5] != "step-2"[5];
  }

  /**
   Counterexample: rule A1 is removed while its row is being reported. Of the stored rules only B1
   carries the label; still the report of A1's row starts B2, and B1 has created nothing.
   */
  lemma RemovedRuleStartsStep() returns (run: seq<Action>, s: Sys, a: Action, id: string)
    ensures Reached(run, s) && Enabled(s, a) && "A1" !in s.db.rules
    ensures OwnLabel(s.db.rules, "step-1", "B1") && B2.selector == DoneOf("step-1")
    ensures StartedByOther(Apply(s, a), "step-1", "B2", "B1", id, "c1")
    ensures Apply(s, a).led.created["c1"].ruleId == "A1"
    ensures forall x :: x in Apply(s, a).led.created ==> Apply(s, a).led.created[x].ruleId != "B1"
  {
    hide Reached, Enabled, Apply, Tracked, WorkEnabled, WorkApply, StartedByOther, OwnLabel;
    run := ReachesEmission();
    RemoveStep();
    ReachedNext(run, At(RECORDED, ONE_VERDICT, Emitting(C1, RAN)), Out(Administer(OpRemoveRule("A1"))));
    run := run + [Out(Administer(OpRemoveRule("A1")))];
    s := At(A1_REMOVED, ONE_VERDICT, Emitting(C1, RAN));
    BothStillWait();
    ReachedIsTracked(run, s);
    var k;
    k, id := ForeignReport(s, "a", B2, "step-1", "B1");
    ReportLeavesWaiting(s, "a", k, B1);
    ReporterKept(s, "a", k);
    a := Wrk("a", k);
    WorkIsAStep(s, "a", k);
  }

  // ---------- An injected event ----------

  const TWO_RULED := EMPTY_DB.(rules := map["B1" := B1, "B2" := B2])
  const TWO_BOOKS := EMPTY_LEDGER.(rulesEver := map["B1" := B1, "B2" := B2])
  const POSER := Event("e9", "continuation.completed", "step-1", map[], 0)
  const MINT9: map<string, Mint> := map["c9" := Mint("B2", Ok("p"))]
  const C9 := NewRow(B2, POSER, 1, "c9", Ok("p"))

  lemma PoserFires()
    ensures Firing(TWO_RULED, POSER, 1) == {"B2"} && MintOk(TWO_RULED, POSER, 1, MINT9)
    ensures RowsFor(TWO_RULED.rules, {"B2"}, POSER, 1, MINT9) == map["c9" := C9]
  {
    assert POSER.kind[0] == 'c' && "deploy"[0] == 'd';
    assert MINT9["c9"].ruleId == "B2" && Covered(MINT9, "B2");
  }

  /**
   Counterexample: only B1 and B2 are stored, nothing has run and the state is clear. A client
   injects an event that passes for the completion of B1, and B2 is started without any cause.
   */
  lemma InjectedEventStartsStep() returns (run: seq<Action>, s: Sys, a: Action)
    ensures Reached(run, s) && Enabled(s, a) && a == Out(Inject(POSER, 1, MINT9))
    ensures Clear(s, "step-1", "B1") && OwnLabel(s.led.rulesEver, "step-1", "B1") && B2.selector == DoneOf("step-1")
    ensures var created := Apply(s, a).led.created; created == map["c9" := C9] && C9.ruleId == "B2"
    ensures forall cause :: !Caused(Apply(s, a), "step-1", "c9", cause)
  {
    hide Reached, Enabled, Apply, Clear, OwnLabel, Caused;
    run := ReachesPair(B1, B2);
    s := Scene(TWO_RULED, TWO_BOOKS, NO_HISTORY, Scanning, map[], 0);
    a := Out(Inject(POSER, 1, MINT9));
    PoserStep();
    TwoRuledIsClear();
    forall cause ensures !Caused(Apply(s, a), "step-1", "c9", cause) {
      NothingCompleted(Apply(s, a), "step-1", "c9", cause);
    }
  }

  lemma NothingCompleted(e: Sys, l: string, id: string, cause: string)
    requires e.hist == NO_HISTORY
    ensures !Caused(e, l, id, cause)
  {
  }

  lemma TwoRuledIsClear()
    ensures Clear(Scene(TWO_RULED, TWO_BOOKS, NO_HISTORY, Scanning, map[], 0), "step-1", "B1")
    ensures OwnLabel(TWO_BOOKS.rulesEver, "step-1", "B1")
  {
    assert "step-1"[5] != "step-2"[5];
  }

  lemma PoserStep()
    ensures var s, a := Scene(TWO_RULED, TWO_BOOKS, NO_HISTORY, Scanning, map[], 0), Out(Inject(POSER, 1, MINT9));
      Enabled(s, a) && Apply(s, a).led.created == map["c9" := C9] && Apply(s, a).hist == NO_HISTORY
  {
    PoserFires();
    IngestBooks(TWO_RULED, TWO_BOOKS, POSER, 1, MINT9);
    hide MintOk, Firing, RowsFor, IngestDb, ApplyLedger, B1, B2, C9;
    assert EMPTY_LEDGER.created + map["c9" := C9] == map["c9" := C9];
  }

  // ---------- A step labelled "manual" ----------

  const MANUAL := Workflow.Workflow("a", "claude", "/",
    [Workflow.Step("manual", DEPLOY, "p"), Workflow.Step("next", DoneOf("manual"), "p")])
  const M1 := RuleFor("M1", DEPLOY, "a", "manual")
  const M2 := RuleFor("M2", DoneOf("manual"), "a", "next")

  lemma ManualSteps(validTemplate: string -> bool)
    requires validTemplate("p")
    ensures Workflow.Acceptable(MANUAL, validTemplate)
    ensures M1 == Workflow.StepRule(MANUAL, 0, "M1", 0) && M2 == Workflow.StepRule(MANUAL, 1, "M2", 0)
  {
    assert "manual"[0] != "next"[0];
  }

  const M_RULED := EMPTY_DB.(rules := map["M1" := M1, "M2" := M2])
  const M_BOOKS := EMPTY_LEDGER.(rulesEver := map["M1" := M1, "M2" := M2])

  lemma InsertLeavesWaiting(s: Sys, a: Action, q: Rule)
    requires Tracked(s) && Enabled(s, a) && a.Out? && a.o.RunManually? && Workflow.Waits(s.db, s.led, q)
    ensures Tracked(Apply(s, a)) && Workflow.Waits(Apply(s, a).db, Apply(s, a).led, q)
  {
    StoreInvOf(s);
    hide Tracked, StoreInv, OpOk, ApplyOp, ApplyLedger, Enabled, Apply, Workflow.Waits;
    TrackedStep(s, a);
    StepIsCall(s, a);
    Workflow.StaysWaiting(s.db, s.led, CallOf(s, a), q);
  }

  /** A manual run is queued, and runs to the point where its completion is about to be reported. */
  lemma ManualRunCompletes(run: seq<Action>, s: Sys) returns (run': seq<Action>, e: Sys, w: string)
    requires Reached(run, s) && Workflow.Waits(s.db, s.led, M1) && Workflow.Waits(s.db, s.led, M2)
    requires s.led.rulesEver == M_BOOKS.rulesEver
    ensures Reached(run', e) && Workflow.Waits(e.db, e.led, M1) && Workflow.Waits(e.db, e.led, M2)
    ensures w in e.workers && Reporting(e.workers[w], "manual") && e.workers[w].c.ruleId !in M_BOOKS.rulesEver
  {
    hide *;
    ReachedIsTracked(run, s);
    var a, x := ManualFires(s, "M1");
    InsertLeavesWaiting(s, a, M1);
    InsertLeavesWaiting(s, a, M2);
    ReachedNext(run, s, a);
    var s1 := Apply(s, a);
    w := s1.db.conts[x].sessionId;
    e := RowCanComplete(s1, x);
    StillWaits(s1, e, M1);
    StillWaits(s1, e, M2);
    run' := ReachedAndLed(run + [a], s1, e);
  }

  lemma TheyWait()
    ensures Workflow.Waits(M_RULED, M_BOOKS, M1) && Workflow.Waits(M_RULED, M_BOOKS, M2)
    ensures M1.id == "M1" && M2.id == "M2" && M1.selector.kind == "deploy" && M2.selector == DoneOf("manual")
    ensures "M1" in M_BOOKS.rulesEver
  {
  }

  /**
   Counterexample: the workflow calls its first step "manual". A manual run completes and starts the
   second step; the first one is still waiting.
   */
  lemma ManualRunStartsStep(validTemplate: string -> bool)
    returns (run: seq<Action>, e: Sys, id: string, cause: string)
    requires validTemplate("p")
    ensures Workflow.Acceptable(MANUAL, validTemplate) && Reached(run, e)
    ensures M1 == Workflow.StepRule(MANUAL, 0, "M1", 0) && M2 == Workflow.StepRule(MANUAL, 1, "M2", 0)
    ensures StartedByOther(e, "manual", "M2", "M1", id, cause)
    ensures Workflow.Waits(e.db, e.led, M1) && e.led.created[cause].ruleId !in M_BOOKS.rulesEver
  {
    ManualSteps(validTemplate);
    TheyWait();
    run := ReachesPair(M1, M2);
    var s := Scene(M_RULED, M_BOOKS, NO_HISTORY, Scanning, map[], 0);
    hide Reached, Workflow.Waits, StartedByOther, Tracked, WorkEnabled, WorkApply, Enabled, Apply, M1, M2, M_BOOKS,
         M_RULED, Workflow.Acceptable, Workflow.StepRule;
    var w;
    run, s, w := ManualRunCompletes(run, s);
    ReachedIsTracked(run, s);
    var k;
    k, id := ForeignReport(s, w, M2, "manual", "M1");
    cause := s.workers[w].c.id;
    ReporterKept(s, w, k);
    ReportLeavesWaiting(s, w, k, M1);
    WorkIsAStep(s, w, k);
    ReachedNext(run, s, Wrk(w, k));
    run, e := run + [Wrk(w, k)], Apply(s, Wrk(w, k));
  }
}
