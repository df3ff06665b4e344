/**
 Recording a verdict and reporting it are two commits. Between them only the worker in hand knows
 that the report is owed: if it goes, the report never comes, and what waits for it waits for good.
 */
module LostReports {
  import opened Core
  import opened StoreModel
  import opened Engine
  import opened RunHistory
  import opened Chains
  import opened Completion
  import opened StepOwnership
  import opened SharedLabels
  import opened ForeignStarts
  import Workflow

  /** Some worker is about to report the row. */
  ghost predicate InHand(s: Sys, id: string) {
    exists w :: w in s.workers && s.workers[w].Emitting? && s.workers[w].c.id == id
  }

  /** The row has its verdict, has not been reported, and nobody has it in hand. */
  ghost predicate Forgotten(s: Sys, id: string) {
    id in s.hist.verdicts && s.hist.Results(id) == [] && !InHand(s, id)
  }

  /** Only a row without a verdict is taken in hand. */
  lemma MoverTakesAnother(s: Sys, w: string, k: Work, id: string)
    requires Tracked(s) && WorkEnabled(s, w, k) && id in s.hist.verdicts
    ensures WorkPc(s, w, k).Emitting? ==> WorkPc(s, w, k).c.id != id
  {
    hide Tracked, OpOk, NewRows;
    if k.Record? { RecordingFacts(s, w); }
  }

  lemma StaysOutOfHand(s: Sys, a: Action, id: string)
    requires Tracked(s) && Enabled(s, a) && Forgotten(s, id)
    ensures !InHand(Apply(s, a), id)
  {
    hide Tracked, Enabled, Apply, WorkEnabled, WorkPc;
    if w :| w in Apply(s, a).workers && Apply(s, a).workers[w].Emitting? && Apply(s, a).workers[w].c.id == id {
      if a.Wrk? && a.w == w {
        MoverIs(s, a);
        MoverTakesAnother(s, w, a.k, id);
      } else {
        OthersStay(s, a, w);
      }
    }
  }

  lemma ForgottenStep(s: Sys, a: Action, id: string)
    requires Tracked(s) && Enabled(s, a) && Forgotten(s, id)
    ensures Forgotten(Apply(s, a), id)
  {
    StaysOutOfHand(s, a, id);
    StepKeepsHistory(s, a);
    hide Tracked, Enabled, Apply, WorkEnabled;
    if Apply(s, a).hist.Results(id) != s.hist.Results(id) {
      ResultsCome(s, a, id);
      EmittingNow(s, a.w, a.k);
    }
  }

  lemma {:induction false} ForgottenForGood(s: Sys, run: seq<Action>, id: string)
    requires Tracked(s) && IsRun(s, run) && Forgotten(s, id)
    ensures Forgotten(End(s, run), id)
    decreases |run|
  {
    hide Tracked, Enabled, Apply, Forgotten;
    if run == [] {
    } else {
      TrackedStep(s, run[0]);
      ForgottenStep(s, run[0], id);
      ForgottenForGood(Apply(s, run[0]), run[1..], id);
    }
  }

  lemma InHandReports(s: Sys, id: string) returns (run: seq<Action>)
    requires Tracked(s) && InHand(s, id)
    ensures IsRun(s, run) && End(s, run).hist.Results(id) != []
  {
    hide Tracked, WorkEnabled, WorkApply, ReportedIds;
    var w :| w in s.workers && s.workers[w].Emitting? && s.workers[w].c.id == id;
    var k := FreshReport(s, w);
    EmitReports(s, w, k);
    run := [Wrk(w, k)];
    assert run[1..] == [];
    assert IsRun(WorkApply(s, w, k), run[1..]) && End(WorkApply(s, w, k), run[1..]) == WorkApply(s, w, k);
  }

  /** A recorded verdict not yet reported is reported in some run if and only if a worker still has it in hand. */
  lemma ReportedLaterIff(s: Sys, id: string)
    requires Tracked(s) && id in s.hist.verdicts && s.hist.Results(id) == []
    ensures (exists run :: IsRun(s, run) && End(s, run).hist.Results(id) != []) <==> InHand(s, id)
  {
    hide Tracked, IsRun, End, InHand;
    if InHand(s, id) {
      var run := InHandReports(s, id);
    } else {
      forall run | IsRun(s, run) ensures End(s, run).hist.Results(id) == [] {
        ForgottenForGood(s, run, id);
      }
    }
  }

  // ---------- Which runs lose a report ----------

  /** Some step of the run is a crash while the row is in hand. */
  ghost predicate CrashedInHand(s: Sys, run: seq<Action>, id: string)
    requires IsRun(s, run)
    decreases |run|
  {
    run != [] && ((run[0] == Out(Crash) && InHand(s, id)) || CrashedInHand(Apply(s, run[0]), run[1..], id))
  }

  lemma CrashForgets(s: Sys, id: string)
    requires Tracked(s) && InHand(s, id)
    ensures Forgotten(Apply(s, Out(Crash)), id)
  {
    var w :| w in s.workers && s.workers[w].Emitting? && s.workers[w].c.id == id;
    EmitterFacts(s, w);
    hide Tracked;
  }

  /** A verdict is recorded by a worker, which then has the row in hand. */
  lemma RecordTakesInHand(s: Sys, a: Action, id: string)
    requires Enabled(s, a) && id !in s.hist.verdicts && id in Apply(s, a).hist.verdicts
    ensures InHand(Apply(s, a), id)
  {
    hide OpOk, ApplyOp, ApplyLedger, NewRows, ResultEvent;
    assert a.w in Apply(s, a).workers && Apply(s, a).workers[a.w].Emitting?;
  }

  lemma OnlyCrashForgets(s: Sys, a: Action, id: string)
    requires Tracked(s) && Enabled(s, a) && InHand(s, id) && Forgotten(Apply(s, a), id)
    ensures a == Out(Crash)
  {
    hide Tracked, Enabled, Apply, WorkEnabled, WorkApply;
    var w :| w in s.workers && s.workers[w].Emitting? && s.workers[w].c.id == id;
    if a.Wrk? && a.w == w {
      WorkerMoves(s, a);
      EmitterMovesByEmit(s, w, a.k);
      EmitReports(s, w, a.k);
    } else if a != Out(Crash) {
      WorkersRemain(s, a, w);
    }
  }

  lemma ResultsStay(s: Sys, a: Action, id: string)
    requires Tracked(s) && Enabled(s, a) && Apply(s, a).hist.Results(id) == []
    ensures s.hist.Results(id) == []
  {
    assert ResultOk(s.led.created, s.hist, id);
    hide Tracked, Enabled, Apply;
    StepKeepsHistory(s, a);
  }

  lemma ForgottenStepIff(s: Sys, a: Action, id: string)
    requires Tracked(s) && Enabled(s, a)
    ensures Forgotten(Apply(s, a), id) <==> Forgotten(s, id) || (a == Out(Crash) && InHand(s, id))
  {
    hide Tracked, Enabled, Apply, InHand;
    if Forgotten(s, id) {
      ForgottenStep(s, a, id);
    } else if a == Out(Crash) && InHand(s, id) {
      CrashForgets(s, id);
    } else if Forgotten(Apply(s, a), id) {
      ResultsStay(s, a, id);
      if id !in s.hist.verdicts { RecordTakesInHand(s, a, id); } else { OnlyCrashForgets(s, a, id); }
    }
  }

  /** The exact condition over runs: a report is lost by a crash that finds it in hand, and by nothing else. */
  lemma {:induction false} ForgottenIff(s: Sys, run: seq<Action>, id: string)
    requires Tracked(s) && IsRun(s, run)
    ensures Forgotten(End(s, run), id) <==> Forgotten(s, id) || CrashedInHand(s, run, id)
    decreases |run|
  {
    hide Tracked, Enabled, Apply, Forgotten, InHand;
    if run == [] {
    } else {
      TrackedStep(s, run[0]);
      ForgottenStepIff(s, run[0], id);
      ForgottenIff(Apply(s, run[0]), run[1..], id);
    }
  }

  /** So every recorded verdict is reported or about to be, if and only if no crash found it in hand. */
  lemma ReportedUnlessCrashed(s: Sys, run: seq<Action>, id: string)
    requires Init(s) && IsRun(s, run) && id in End(s, run).hist.verdicts
    ensures (End(s, run).hist.Results(id) != [] || InHand(End(s, run), id)) <==> !CrashedInHand(s, run, id)
  {
    StartsTracked(s);
    assert !Forgotten(s, id);
    hide Init, IsRun, End, Tracked, CrashedInHand, InHand;
    ForgottenIff(s, run, id);
  }

  // ---------- What a crash between the two commits does ----------

  lemma CrashStep()
    ensures var s := At(RECORDED, ONE_VERDICT, Emitting(C1, RAN));
      && Enabled(s, Out(Crash))
      && Apply(s, Out(Crash)) == Scene(RECORDED, PUSH_BOOKS, ONE_VERDICT, Booting, map[], 0)
  {
  }

  /**
   Counterexample: A1's row has completed and B2 waits for its label; the daemon crashes before the
   report. In every later run the row has no result event, so nothing is ever started by it.
   */
  lemma CrashLosesReport() returns (run: seq<Action>, s: Sys)
    ensures Reached(run, s) && "c1" in s.hist.verdicts && s.hist.verdicts["c1"].state.Completed?
    ensures "c1" in s.led.created && RowSource(s.led.created["c1"]) == "step-1" && B2.selector == DoneOf("step-1")
    ensures Workflow.Waits(s.db, s.led, B2)
    ensures forall later, id :: IsRun(s, later) ==> !Caused(End(s, later), "step-1", id, "c1")
  {
    hide Reached, Enabled, Apply, IsRun, End, Tracked;
    run := ReachesEmission();
    CrashStep();
    ReachedNext(run, At(RECORDED, ONE_VERDICT, Emitting(C1, RAN)), Out(Crash));
    run := run + [Out(Crash)];
    s := Scene(RECORDED, PUSH_BOOKS, ONE_VERDICT, Booting, map[], 0);
    ReachedIsTracked(run, s);
    forall later, id | IsRun(s, later) ensures !Caused(End(s, later), "step-1", id, "c1") {
      ForgottenForGood(s, later, "c1");
    }
  }
}
