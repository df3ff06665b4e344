/**
 What a shared label does: two workflows without labels of their own both call their first step
 "step-1", and when the first one's step completes it starts the second one's second step, though
 the second one's first step has not run.
 */
module SharedLabels {
  import opened Core
  import opened StoreModel
  import opened StoreLaws
  import opened Engine
  import opened Chains
  import Workflow

  const PUSH := Selector("push", "")
  const DEPLOY := Selector("deploy", "")

  const ONE := Workflow.Workflow("a", "claude", "/", [Workflow.Step("", PUSH, "p")])
  const TWO := Workflow.Workflow("b", "claude", "/",
    [Workflow.Step("", DEPLOY, "p"), Workflow.Step("", DoneOf("step-1"), "p")])

  function RuleFor(id: string, on: Selector, session: string, tag: string): Rule {
    Rule(id, on, ACTION_CONTINUE_SESSION, session, "p", tag, true, false, None, 0)
  }

  const A1 := RuleFor("A1", PUSH, "a", "step-1")
  const B1 := RuleFor("B1", DEPLOY, "b", "step-1")
  const B2 := RuleFor("B2", DoneOf("step-1"), "b", "step-2")

  lemma TheRulesAreTheSteps()
    ensures A1 == Workflow.StepRule(ONE, 0, "A1", 0)
    ensures B1 == Workflow.StepRule(TWO, 0, "B1", 0) && B2 == Workflow.StepRule(TWO, 1, "B2", 0)
    ensures Workflow.TagOf(TWO.steps, 0) == "step-1" && TWO.steps[1].on == DoneOf(Workflow.TagOf(TWO.steps, 0))
  {
    assert Workflow.DefaultTag(0) == "step-1" && Workflow.DefaultTag(1) == "step-2";
  }

  // ---------- The states of the run ----------

  const NO_HISTORY := History(map[], map[], map[], map[])
  const SESSION_A := Session("a", "claude", "/", Waiting, 0, 0)
  const PUSHED := Event("e1", "push", "", map[], 0)
  const MINT1: map<string, Mint> := map["c1" := Mint("A1", Ok("p"))]
  const MINT2: map<string, Mint> := map["c2" := Mint("B2", Ok("p"))]
  const C1 := NewRow(A1, PUSHED, 1, "c1", Ok("p"))

  function Scene(db: Db, led: Ledger, hist: History, disp: DispPc, workers: map<string, WorkerPc>, owing: nat): Sys {
    Sys(db, led, hist, false, false, disp, workers, 0, owing)
  }

  const RULED := Db(map[], map["A1" := A1, "B1" := B1, "B2" := B2], map["a" := SESSION_A], map[])
  const RULED_BOOKS := Ledger(map[], {}, map["A1" := A1, "B1" := B1, "B2" := B2])
  const PUSH_FIRED := Db(map["e1" := PUSHED], map["A1" := A1.(consumed := true), "B1" := B1, "B2" := B2],
                    map["a" := SESSION_A], map["c1" := C1])
  const PUSH_BOOKS := RULED_BOOKS.(created := map["c1" := C1])

  lemma Booted()
    ensures var s := Scene(EMPTY_DB, EMPTY_LEDGER, NO_HISTORY, Booting, map[], 0);
      && Init(s) && Enabled(s, Dis(BootReset(0)))
      && Apply(s, Dis(BootReset(0))) == Scene(EMPTY_DB, EMPTY_LEDGER, NO_HISTORY, Scanning, map[], 0)
  {
  }

  lemma AddStep(db: Db, led: Ledger, r: Rule)
    requires led.created == map[] && led.swept == {} && db.conts == map[] && r.id !in led.rulesEver && !r.consumed
    ensures var s := Scene(db, led, NO_HISTORY, Scanning, map[], 0);
      && Enabled(s, Out(Administer(OpAddRule(r))))
      && Apply(s, Out(Administer(OpAddRule(r)))) ==
           Scene(db.(rules := db.rules[r.id := r]), led.(rulesEver := led.rulesEver[r.id := r]), NO_HISTORY, Scanning,
                 map[], 0)
  {
  }

  lemma RegisterStep()
    ensures var db := EMPTY_DB.(rules := RULED.rules);
      var a := Out(Administer(OpRegister(Session("a", "claude", "/", Unset, 0, 0), 0)));
      var s := Scene(db, RULED_BOOKS, NO_HISTORY, Scanning, map[], 0);
      Enabled(s, a) && Apply(s, a) == Scene(RULED, RULED_BOOKS, NO_HISTORY, Scanning, map[], 0)
  {
  }

  lemma PushHitsA1()
    ensures A1.selector.Matches(PUSHED) && !B1.selector.Matches(PUSHED) && !B2.selector.Matches(PUSHED)
  {
    assert "push"[0] == 'p' && "deploy"[0] == 'd' && "continuation.completed"[0] == 'c';
  }

  lemma PushFires()
    ensures Firing(RULED, PUSHED, 1) == {"A1"} && MintOk(RULED, PUSHED, 1, MINT1)
    ensures RowsFor(RULED.rules, {"A1"}, PUSHED, 1, MINT1) == map["c1" := C1]
  {
    PushHitsA1();
    assert MINT1["c1"].ruleId == "A1" && Covered(MINT1, "A1");
  }

  lemma PushIngest()
    ensures MintOk(RULED, PUSHED, 1, MINT1) && IngestDb(RULED, PUSHED, 1, MINT1) == PUSH_FIRED
  {
    PushFires();
    hide MintOk, Firing, RowsFor, NewRow;
  }

  lemma PushStep()
    ensures var s := Scene(RULED, RULED_BOOKS, NO_HISTORY, Scanning, map[], 0);
      && Enabled(s, Out(Inject(PUSHED, 1, MINT1)))
      && Apply(s, Out(Inject(PUSHED, 1, MINT1))) == Scene(PUSH_FIRED, PUSH_BOOKS, NO_HISTORY, Scanning, map[], 1)
  {
    PushFires();
    PushIngest();
    IngestBooks(RULED, RULED_BOOKS, PUSHED, 1, MINT1);
    hide MintOk, IngestDb, Firing, RowsFor, ApplyLedger;
    assert RULED_BOOKS.created + map["c1" := C1] == PUSH_BOOKS.created;
    assert "c1" in map["c1" := C1];
  }

  /** An ingest enters its rows in the books and writes nothing off. */
  lemma IngestBooks(db: Db, led: Ledger, ev: Event, at: Instant, mint: map<string, Mint>)
    requires MintOk(db, ev, at, mint)
    ensures NewRows(db, OpIngest(ev, at, mint)) == RowsFor(db.rules, Firing(db, ev, at), ev, at, mint)
    ensures ApplyLedger(db, led, OpIngest(ev, at, mint)) ==
      led.(created := led.created + RowsFor(db.rules, Firing(db, ev, at), ev, at, mint))
  {
    hide MintOk, Firing, RowsFor;
    assert db.conts.Keys - IngestDb(db, ev, at, mint).conts.Keys == {};
  }

  lemma ScanStep()
    ensures var s := Scene(PUSH_FIRED, PUSH_BOOKS, NO_HISTORY, Scanning, map[], 1);
      && Enabled(s, Dis(Scan))
      && Apply(s, Dis(Scan)) == Scene(PUSH_FIRED, PUSH_BOOKS, NO_HISTORY, Spawning({"a"}), map[], 1)
  {
    assert IsPending(PUSH_FIRED, "a", "c1");
    assert PendingSessions(PUSH_FIRED) == {"a"};
  }

  lemma SpawnStep()
    ensures var s := Scene(PUSH_FIRED, PUSH_BOOKS, NO_HISTORY, Spawning({"a"}), map[], 1);
      && Enabled(s, Dis(Spawn("a")))
      && Apply(s, Dis(Spawn("a"))) == Scene(PUSH_FIRED, PUSH_BOOKS, NO_HISTORY, Spawning({}), map["a" := Top], 1)
  {
    assert {"a"} - {"a"} == {};
  }

  // ---------- The worker's steps ----------

  const CLAIMED := PUSH_FIRED.(conts := map["c1" := C1.(state := Running, updatedAt := 2)])
  const RESUMED := CLAIMED.(sessions := map["a" := SESSION_A.(state := SessionRunning, updatedAt := 3)])
  const RESTED := CLAIMED.(sessions := map["a" := SESSION_A.(updatedAt := 4)])
  const RECORDED := RESTED.(conts := map["c1" := Finish(CLAIMED.conts["c1"], RAN, 5)])
  const ONE_CLAIM := NO_HISTORY.(claims := map["c1" := 1])
  const ONE_VERDICT := ONE_CLAIM.(verdicts := map["c1" := RAN])

  /** The state while the worker of session "a" is at `pc`. */
  function At(db: Db, hist: History, pc: WorkerPc): Sys {
    Scene(db, PUSH_BOOKS, hist, Spawning({}), map["a" := pc], 1)
  }

  ghost predicate Goes(s: Sys, k: Work, s': Sys) {
    Enabled(s, Wrk("a", k)) && Apply(s, Wrk("a", k)) == s'
  }

  /** A step with such a call changes the tables, the worker and perhaps the history. */
  lemma GoesBy(db: Db, hist: History, pc: WorkerPc, k: Work, db': Db, hist': History, pc': WorkerPc)
    requires var s := At(db, hist, pc);
      && WorkEnabled(s, "a", k) && !k.Deregister? && !k.Notify? && !k.Emit?
      && ApplyOp(db, WorkCall(pc, k)) == db' && WorkPc(s, "a", k) == pc' && WorkHistory(s, "a", k) == hist'
    ensures Goes(At(db, hist, pc), k, At(db', hist', pc'))
  {
    hide WorkPc, WorkHistory, ApplyOp, ApplyLedger;
    SameBooks(db, PUSH_BOOKS, WorkCall(pc, k));
    assert map["a" := pc]["a" := pc'] == map["a" := pc'];
  }

  lemma Fetches()
    ensures Goes(At(PUSH_FIRED, NO_HISTORY, Top), CheckTop, At(PUSH_FIRED, NO_HISTORY, Fetching))
    ensures Goes(At(PUSH_FIRED, NO_HISTORY, Fetching), Fetch(Some("c1")), At(PUSH_FIRED, NO_HISTORY, Claiming(C1)))
  {
    assert IsOldestPending(PUSH_FIRED, "a", "c1");
    hide Goes;
    GoesBy(PUSH_FIRED, NO_HISTORY, Top, CheckTop, PUSH_FIRED, NO_HISTORY, Fetching);
    GoesBy(PUSH_FIRED, NO_HISTORY, Fetching, Fetch(Some("c1")), PUSH_FIRED, NO_HISTORY, Claiming(C1));
  }

  lemma Claims()
    ensures Goes(At(PUSH_FIRED, NO_HISTORY, Claiming(C1)), Claim(2), At(CLAIMED, ONE_CLAIM, LookingUp(C1)))
  {
    hide Goes;
    GoesBy(PUSH_FIRED, NO_HISTORY, Claiming(C1), Claim(2), CLAIMED, ONE_CLAIM, LookingUp(C1));
  }

  lemma LooksUp()
    ensures Goes(At(CLAIMED, ONE_CLAIM, LookingUp(C1)), LookUp, At(CLAIMED, ONE_CLAIM, Starting(C1)))
  {
    hide Goes;
    GoesBy(CLAIMED, ONE_CLAIM, LookingUp(C1), LookUp, CLAIMED, ONE_CLAIM, Starting(C1));
  }

  lemma Starts()
    ensures Goes(At(CLAIMED, ONE_CLAIM, Starting(C1)), Start(3), At(RESUMED, ONE_CLAIM, InResume(C1)))
  {
    hide Goes;
    GoesBy(CLAIMED, ONE_CLAIM, Starting(C1), Start(3), RESUMED, ONE_CLAIM, InResume(C1));
  }

  lemma Returns()
    ensures Goes(At(RESUMED, ONE_CLAIM, InResume(C1)), Return(RunResult("", 0, "", 0), None),
                 At(RESUMED, ONE_CLAIM, Returned(C1, RAN, false)))
  {
    hide Goes;
    GoesBy(RESUMED, ONE_CLAIM, InResume(C1), Return(RunResult("", 0, "", 0), None), RESUMED, ONE_CLAIM,
           Returned(C1, RAN, false));
  }

  lemma Rests()
    ensures Goes(At(RESUMED, ONE_CLAIM, Returned(C1, RAN, false)), MarkWaiting(4),
                 At(RESTED, ONE_CLAIM, Judging(C1, RAN, false)))
  {
    hide Goes;
    GoesBy(RESUMED, ONE_CLAIM, Returned(C1, RAN, false), MarkWaiting(4), RESTED, ONE_CLAIM, Judging(C1, RAN, false));
  }

  lemma Judges()
    ensures Goes(At(RESTED, ONE_CLAIM, Judging(C1, RAN, false)), Judge,
                 At(RESTED, ONE_CLAIM, Recording(C1, RAN, false)))
  {
    hide Goes;
    GoesBy(RESTED, ONE_CLAIM, Judging(C1, RAN, false), Judge, RESTED, ONE_CLAIM, Recording(C1, RAN, false));
  }

  lemma RecordTables()
    ensures ApplyOp(RESTED, OpRecord("c1", RAN, 5)) == RECORDED
  {
  }

  lemma Records()
    ensures Goes(At(RESTED, ONE_CLAIM, Recording(C1, RAN, false)), Record(5),
                 At(RECORDED, ONE_VERDICT, Emitting(C1, RAN)))
  {
    RecordTables();
    hide Goes, ApplyOp, ApplyLedger;
    GoesBy(RESTED, ONE_CLAIM, Recording(C1, RAN, false), Record(5), RECORDED, ONE_VERDICT, Emitting(C1, RAN));
  }

  // ---------- The foreign completion ----------

  const RESULT := ResultEvent(C1, RAN, "e2", 6)
  const C2 := NewRow(B2, RESULT, 6, "c2", Ok("p"))

  lemma ResultHitsB2()
    ensures B2.selector.Matches(RESULT) && !B1.selector.Matches(RESULT) && !A1.selector.Matches(RESULT)
  {
    ResultHits(C1, RAN, "e2", 6, "step-1");
    assert RESULT.kind[0] == 'c' && "deploy"[0] == 'd' && "push"[0] == 'p';
  }

  lemma ResultFires()
    ensures Firing(RECORDED, RESULT, 6) == {"B2"} && MintOk(RECORDED, RESULT, 6, MINT2)
    ensures RowsFor(RECORDED.rules, {"B2"}, RESULT, 6, MINT2) == map["c2" := C2]
  {
    ResultHitsB2();
    hide ResultEvent;
    assert MINT2["c2"].ruleId == "B2" && Covered(MINT2, "B2");
  }

  /** What an emitting step does to the books and the history. */
  lemma EmitIs(s: Sys, k: Work, ev: Event)
    requires "a" in s.workers && s.workers["a"].Emitting? && k.Emit?
    requires ev == ResultEvent(s.workers["a"].c, s.workers["a"].v, k.evId, k.at)
    requires OpOk(s.db, s.led, OpIngest(ev, k.at, k.mint))
    ensures Enabled(s, Wrk("a", k))
    ensures var e, id := Apply(s, Wrk("a", k)), s.workers["a"].c.id;
      && e.led == ApplyLedger(s.db, s.led, OpIngest(ev, k.at, k.mint))
      && e.hist == s.hist.(results := s.hist.results[id := s.hist.Results(id) + [ev]])
  {
    hide OpOk, ApplyOp, ApplyLedger, ResultEvent, WorkPc;
  }

  lemma ResultIngest()
    ensures OpOk(RECORDED, PUSH_BOOKS, OpIngest(RESULT, 6, MINT2))
    ensures ApplyLedger(RECORDED, PUSH_BOOKS, OpIngest(RESULT, 6, MINT2)) ==
      PUSH_BOOKS.(created := map["c1" := C1, "c2" := C2])
  {
    ResultFires();
    ResultId(C1, RAN, "e2", 6);
    hide ResultEvent, MintOk, Firing, RowsFor, NewRow, ApplyLedger;
    IngestBooks(RECORDED, PUSH_BOOKS, RESULT, 6, MINT2);
    assert PUSH_BOOKS.created + map["c2" := C2] == map["c1" := C1, "c2" := C2];
  }

  lemma Emits() returns (e: Sys)
    ensures Goes(At(RECORDED, ONE_VERDICT, Emitting(C1, RAN)), Emit("e2", 6, MINT2), e)
    ensures e.led == PUSH_BOOKS.(created := map["c1" := C1, "c2" := C2])
    ensures e.hist == ONE_VERDICT.(results := map["c1" := [RESULT]])
  {
    ResultIngest();
    hide OpOk, Enabled, Apply, ApplyLedger, ResultEvent;
    var s := At(RECORDED, ONE_VERDICT, Emitting(C1, RAN));
    EmitIs(s, Emit("e2", 6, MINT2), RESULT);
    e := Apply(s, Wrk("a", Emit("e2", 6, MINT2)));
    assert [] + [RESULT] == [RESULT];
  }

  lemma Moves(run: seq<Action>, s: Sys, k: Work, s': Sys)
    requires Reached(run, s) && Goes(s, k, s')
    ensures Reached(run + [Wrk("a", k)], s')
  {
    hide Reached, Enabled, Apply;
    ReachedNext(run, s, Wrk("a", k));
  }

  lemma ReachesFired() returns (run: seq<Action>)
    ensures Reached(run, At(PUSH_FIRED, NO_HISTORY, Top))
  {
    hide Reached, Enabled, Apply, Init;
    Booted();
    AddStep(EMPTY_DB, EMPTY_LEDGER, A1);
    AddStep(EMPTY_DB.(rules := map["A1" := A1]), EMPTY_LEDGER.(rulesEver := map["A1" := A1]), B1);
    AddStep(EMPTY_DB.(rules := map["A1" := A1, "B1" := B1]),
            EMPTY_LEDGER.(rulesEver := map["A1" := A1, "B1" := B1]), B2);
    RegisterStep();
    PushStep();
    ScanStep();
    SpawnStep();
    run := [];
    var e := Scene(EMPTY_DB, EMPTY_LEDGER, NO_HISTORY, Booting, map[], 0);
    ReachedStart(e);
    var steps := [Dis(BootReset(0)), Out(Administer(OpAddRule(A1))), Out(Administer(OpAddRule(B1))),
                  Out(Administer(OpAddRule(B2))),
                  Out(Administer(OpRegister(Session("a", "claude", "/", Unset, 0, 0), 0))),
                  Out(Inject(PUSHED, 1, MINT1)), Dis(Scan), Dis(Spawn("a"))];
    ReachedNext(run, e, steps[0]); run, e := run + [steps[0]], Apply(e, steps[0]);
    ReachedNext(run, e, steps[1]); run, e := run + [steps[1]], Apply(e, steps[1]);
    assert e == Scene(EMPTY_DB.(rules := map["A1" := A1]), EMPTY_LEDGER.(rulesEver := map["A1" := A1]), NO_HISTORY,
                      Scanning, map[], 0);
    ReachedNext(run, e, steps[2]); run, e := run + [steps[2]], Apply(e, steps[2]);
    ReachedNext(run, e, steps[3]); run, e := run + [steps[3]], Apply(e, steps[3]);
    ReachedNext(run, e, steps[4]); run, e := run + [steps[4]], Apply(e, steps[4]);
    ReachedNext(run, e, steps[5]); run, e := run + [steps[5]], Apply(e, steps[5]);
    ReachedNext(run, e, steps[6]); run, e := run + [steps[6]], Apply(e, steps[6]);
    ReachedNext(run, e, steps[7]); run, e := run + [steps[7]], Apply(e, steps[7]);
  }

  lemma ReachesEmission() returns (run: seq<Action>)
    ensures Reached(run, At(RECORDED, ONE_VERDICT, Emitting(C1, RAN)))
  {
    hide Reached, Goes, At;
    run := ReachesFired();
    Fetches();
    Claims();
    LooksUp();
    Starts();
    Returns();
    Rests();
    Judges();
    Records();
    Moves(run, At(PUSH_FIRED, NO_HISTORY, Top), CheckTop, At(PUSH_FIRED, NO_HISTORY, Fetching));
    run := run + [Wrk("a", CheckTop)];
    Moves(run, At(PUSH_FIRED, NO_HISTORY, Fetching), Fetch(Some("c1")), At(PUSH_FIRED, NO_HISTORY, Claiming(C1)));
    run := run + [Wrk("a", Fetch(Some("c1")))];
    Moves(run, At(PUSH_FIRED, NO_HISTORY, Claiming(C1)), Claim(2), At(CLAIMED, ONE_CLAIM, LookingUp(C1)));
    run := run + [Wrk("a", Claim(2))];
    Moves(run, At(CLAIMED, ONE_CLAIM, LookingUp(C1)), LookUp, At(CLAIMED, ONE_CLAIM, Starting(C1)));
    run := run + [Wrk("a", LookUp)];
    Moves(run, At(CLAIMED, ONE_CLAIM, Starting(C1)), Start(3), At(RESUMED, ONE_CLAIM, InResume(C1)));
    run := run + [Wrk("a", Start(3))];
    Moves(run, At(RESUMED, ONE_CLAIM, InResume(C1)), Return(RunResult("", 0, "", 0), None),
          At(RESUMED, ONE_CLAIM, Returned(C1, RAN, false)));
    run := run + [Wrk("a", Return(RunResult("", 0, "", 0), None))];
    Moves(run, At(RESUMED, ONE_CLAIM, Returned(C1, RAN, false)), MarkWaiting(4),
          At(RESTED, ONE_CLAIM, Judging(C1, RAN, false)));
    run := run + [Wrk("a", MarkWaiting(4))];
    Moves(run, At(RESTED, ONE_CLAIM, Judging(C1, RAN, false)), Judge, At(RESTED, ONE_CLAIM, Recording(C1, RAN, false)));
    run := run + [Wrk("a", Judge)];
    Moves(run, At(RESTED, ONE_CLAIM, Recording(C1, RAN, false)), Record(5),
          At(RECORDED, ONE_VERDICT, Emitting(C1, RAN)));
    run := run + [Wrk("a", Record(5))];
  }

  /**
   The counterexample: both workflows are acceptable and stored; a push starts the first one's only
   step, and its completion starts the second step of the other workflow, which waits for its own
   first step; that one has created nothing.
   */
  lemma ForeignCompletionStartsStep(validTemplate: string -> bool) returns (run: seq<Action>, e: Sys)
    requires validTemplate("p")
    ensures Workflow.Acceptable(ONE, validTemplate) && Workflow.Acceptable(TWO, validTemplate)
    ensures TWO.steps[1].on == DoneOf(Workflow.TagOf(TWO.steps, 0))
    ensures Reached(run, e)
    ensures StepStored(e.led, ONE, 0, "A1") && StepStored(e.led, TWO, 0, "B1") && StepStored(e.led, TWO, 1, "B2")
    ensures "c2" in e.led.created && e.led.created["c2"].ruleId == "B2" && e.led.created["c2"].sessionId == TWO.session
    ensures Caused(e, "step-1", "c2", "c1") && e.led.created["c1"].ruleId == "A1"
    ensures forall id :: id in e.led.created ==> e.led.created[id].ruleId != "B1"
  {
    hide Reached, Goes, At;
    TheRulesAreTheSteps();
    run := ReachesEmission();
    e := Emits();
    ResultId(C1, RAN, "e2", 6);
    hide ResultEvent;
    Moves(run, At(RECORDED, ONE_VERDICT, Emitting(C1, RAN)), Emit("e2", 6, MINT2), e);
    run := run + [Wrk("a", Emit("e2", 6, MINT2))];
    StepsOfTwoDiffer();
  }

  lemma StepsOfTwoDiffer()
    ensures Workflow.TagOf(TWO.steps, 0) != Workflow.TagOf(TWO.steps, 1)
  {
    assert Workflow.DefaultTag(0) == "step-1" && Workflow.DefaultTag(1) == "step-2";
  }
}
