/**
 From a run to its report: what an adapter's return, or a lookup that finds nobody to run, makes of
 a continuation's verdict, its stored result and its one result event, over every run of the daemon.
 */
module Verdicts {
  import opened Core
  import opened StoreModel
  import opened StoreLaws
  import opened Engine
  import opened WorkerSafety
  import opened RunHistory
  import opened Chains
  import opened StepOwnership
  import Decimal

  // ---------- What happened, and what is to be said of it ----------

  /** How an execution ended: the adapter returned, or there was no session or no adapter to run. */
  datatype Ending =
    | Ran(res: RunResult, startError: Option<string>)
    | NoSession(session: string)
    | NoAdapterFor(agent: string)

  /** It started, and exited with 0. */
  predicate Succeeded(e: Ending) { e.Ran? && e.startError.None? && e.res.exitCode == 0 }

  /** The verdict reports the ending. */
  predicate Tells(v: Verdict, e: Ending) {
    && v.state == (if Succeeded(e) then Completed else Failed)
    && match e
       case Ran(res, err) =>
         && v.command == res.command && v.exitCode == Some(res.exitCode) && v.durationMs == res.durationMs
         && v.summary == (if err.Some? then "resume failed to start: " + err.value else res.outputSummary)
       case NoSession(s) =>
         && v.command == "" && v.exitCode == None && v.durationMs == 0
         && v.summary == "session " + s + " is not registered"
       case NoAdapterFor(agent) =>
         && v.command == "" && v.exitCode == None && v.durationMs == 0
         && v.summary == "no adapter for agent " + agent + " (available: claude, codex, cursor, opencode)"
  }

  // ---------- The steps that end an execution ----------

  predicate Known(agent: string) { agent == "claude" || agent == "cursor" || agent == "codex" || agent == "opencode" }

  /** The ending this step brings to the row its worker has in hand, if it brings one. */
  ghost function EndingOf(s: Sys, a: Action): Option<Ending> {
    if a.Wrk? && a.w in s.workers then
      var pc := s.workers[a.w];
      if a.k.Return? && pc.InResume? then Some(Ran(a.k.res, a.k.startError))
      else if a.k.LookUp? && pc.LookingUp? then
        if pc.c.sessionId !in s.db.sessions then Some(NoSession(pc.c.sessionId))
        else if !Known(s.db.sessions[pc.c.sessionId].agent) then Some(NoAdapterFor(s.db.sessions[pc.c.sessionId].agent))
        else None
      else None
    else None
  }

  /** The last ending of each row. */
  ghost function NextTale(s: Sys, a: Action, tale: map<string, Ending>): map<string, Ending>
    requires Enabled(s, a)
  {
    if EndingOf(s, a).Some? then tale[RowInHand(s, a) := EndingOf(s, a).value] else tale
  }

  ghost function RowInHand(s: Sys, a: Action): string
    requires EndingOf(s, a).Some?
  {
    s.workers[a.w].c.id
  }

  ghost function Tale(s: Sys, run: seq<Action>, tale: map<string, Ending>): map<string, Ending>
    requires IsRun(s, run)
    decreases |run|
  {
    if run == [] then tale else Tale(Apply(s, run[0]), run[1..], NextTale(s, run[0], tale))
  }

  // ---------- One step ----------

  /** The verdict in a worker's hand after its run. */
  predicate InHandWith(pc: WorkerPc, tale: map<string, Ending>) {
    (pc.Returned? || pc.Judging? || pc.Recording? || pc.Emitting?) ==> pc.c.id in tale && Tells(pc.v, tale[pc.c.id])
  }

  ghost predicate TaleOk(s: Sys, tale: map<string, Ending>) {
    && (forall w :: w in s.workers ==> InHandWith(s.workers[w], tale))
    && (forall id :: id in s.hist.verdicts ==> id in tale && Tells(s.hist.verdicts[id], tale[id]))
  }

  /** A return puts the verdict it calls for into the worker's hand. */
  lemma ReturnTells(s: Sys, w: string, res: RunResult, err: Option<string>)
    requires WorkEnabled(s, w, Return(res, err))
    ensures var pc := WorkPc(s, w, Return(res, err));
      && pc.Returned? && pc.c == s.workers[w].c && Tells(pc.v, Ran(res, err))
      && (pc.v.state == Completed <==> err.None? && res.exitCode == 0)
  {
    hide OpOk;
  }

  /** The lookup starts a run exactly if the session is registered with a known agent; else it gives the verdict. */
  lemma LookUpTells(s: Sys, w: string)
    requires WorkEnabled(s, w, LookUp)
    ensures var c, pc, e := s.workers[w].c, WorkPc(s, w, LookUp), EndingOf(s, Wrk(w, LookUp));
      && (e.None? <==> c.sessionId in s.db.sessions && Known(s.db.sessions[c.sessionId].agent))
      && (e.None? ==> pc == Starting(c))
      && (e.Some? ==> pc.Judging? && pc.c == c && Tells(pc.v, e.value))
  {
    hide OpOk;
  }

  lemma MoverTells(s: Sys, w: string, k: Work, tale: map<string, Ending>)
    requires WorkEnabled(s, w, k) && !k.Deregister? && InHandWith(s.workers[w], tale)
    ensures InHandWith(WorkPc(s, w, k), NextTale(s, Wrk(w, k), tale))
  {
    hide OpOk, NewRows, Tells, AfterLookUp, JudgeRun;
    match k
    case Return(res, err) => ReturnTells(s, w, res, err);
    case LookUp => LookUpTells(s, w);
    case _ =>
  }

  lemma EndingRow(s: Sys, a: Action)
    requires Tracked(s) && Enabled(s, a) && EndingOf(s, a).Some?
    ensures RowInHand(s, a) !in s.hist.verdicts
    ensures forall w :: w in s.workers && w != a.w && (s.workers[w].Holding() || s.workers[w].Emitting?) ==>
      s.workers[w].c.id != RowInHand(s, a)
  {
    WorkersRow(s, a.w);
    var id := RowInHand(s, a);
    assert RowHistory(s.db.conts[id], s.hist, id);
    assert WorkerOk(s.db.conts, a.w, s.workers[a.w]);
    forall w | w in s.workers && w != a.w && (s.workers[w].Holding() || s.workers[w].Emitting?)
      ensures s.workers[w].c.id != id
    {
      OtherRow(s, a.w, w);
    }
  }

  lemma OtherRow(s: Sys, w: string, x: string)
    requires Tracked(s) && w in s.workers && x in s.workers && w != x && s.workers[w].Holding()
    requires s.workers[x].Holding() || s.workers[x].Emitting?
    ensures s.workers[x].c.id != s.workers[w].c.id
  {
    WorkersRow(s, w);
    assert WorkerOk(s.db.conts, w, s.workers[w]) && WorkerOk(s.db.conts, x, s.workers[x]);
    if s.workers[x].Emitting? {
      EmitterFacts(s, x);
      assert RowHistory(s.db.conts[s.workers[w].c.id], s.hist, s.workers[w].c.id);
    }
    hide Tracked;
  }

  /** Other workers' rows keep their endings. */
  lemma TaleStays(s: Sys, a: Action, tale: map<string, Ending>, w: string)
    requires Tracked(s) && Enabled(s, a) && TaleOk(s, tale) && w in s.workers && !(a.Wrk? && a.w == w)
    ensures InHandWith(s.workers[w], NextTale(s, a, tale))
  {
    hide Tracked, Enabled, Tells, EndingOf;
    if EndingOf(s, a).Some? {
      EndingRow(s, a);
      EndsByWorker(s, a);
    }
  }

  lemma EndsByWorker(s: Sys, a: Action)
    requires EndingOf(s, a).Some?
    ensures a.Wrk? && a.w in s.workers && (a.k.Return? || a.k.LookUp?)
  {
  }

  lemma VerdictsAfter(s: Sys, a: Action, id: string)
    requires Enabled(s, a) && id in Apply(s, a).hist.verdicts
    ensures (id in s.hist.verdicts && Apply(s, a).hist.verdicts[id] == s.hist.verdicts[id])
      || (a.Wrk? && a.w in s.workers && a.k.Record? && s.workers[a.w].Recording? && s.workers[a.w].c.id == id
          && Apply(s, a).hist.verdicts[id] == s.workers[a.w].v)
  {
    hide OpOk, ApplyOp, ApplyLedger, NewRows, ResultEvent, WorkPc, WorkCall;
  }

  lemma WorkersTell(s: Sys, a: Action, tale: map<string, Ending>, w: string)
    requires Tracked(s) && Enabled(s, a) && TaleOk(s, tale) && w in Apply(s, a).workers
    ensures InHandWith(Apply(s, a).workers[w], NextTale(s, a, tale))
  {
    hide Tracked, Enabled, Apply, Tells, WorkEnabled, WorkPc, EndingOf, NextTale;
    if a.Wrk? && a.w == w {
      MoverIs(s, a);
      MoverKnown(s, w, a.k);
      MoverTells(s, w, a.k, tale);
    } else {
      OthersStay(s, a, w);
      if w in s.workers { TaleStays(s, a, tale, w); }
    }
  }

  lemma VerdictsTell(s: Sys, a: Action, tale: map<string, Ending>, id: string)
    requires Tracked(s) && Enabled(s, a) && TaleOk(s, tale) && id in Apply(s, a).hist.verdicts
    ensures id in NextTale(s, a, tale) && Tells(Apply(s, a).hist.verdicts[id], NextTale(s, a, tale)[id])
  {
    hide Tracked, Enabled, Apply, Tells, EndingOf;
    VerdictsAfter(s, a, id);
    if EndingOf(s, a).Some? {
      EndingRow(s, a);
      EndsByWorker(s, a);
    }
  }

  lemma TaleStep(s: Sys, a: Action, tale: map<string, Ending>)
    requires Tracked(s) && Enabled(s, a) && TaleOk(s, tale)
    ensures TaleOk(Apply(s, a), NextTale(s, a, tale))
  {
    hide Tracked, Enabled, Apply, Tells, NextTale, InHandWith;
    forall w | w in Apply(s, a).workers ensures InHandWith(Apply(s, a).workers[w], NextTale(s, a, tale)) {
      WorkersTell(s, a, tale, w);
    }
    forall id | id in Apply(s, a).hist.verdicts
      ensures id in NextTale(s, a, tale) && Tells(Apply(s, a).hist.verdicts[id], NextTale(s, a, tale)[id])
    {
      VerdictsTell(s, a, tale, id);
    }
  }

  lemma MoverKnown(s: Sys, w: string, k: Work)
    requires WorkEnabled(s, w, k)
    ensures w in s.workers
  {
  }

  // ---------- Whole runs ----------

  lemma {:induction false} TaleRun(s: Sys, run: seq<Action>, tale: map<string, Ending>)
    requires Tracked(s) && IsRun(s, run) && TaleOk(s, tale)
    ensures TaleOk(End(s, run), Tale(s, run, tale))
    decreases |run|
  {
    hide Tracked, Enabled, Apply, TaleOk, NextTale;
    if run == [] {
    } else {
      TrackedStep(s, run[0]);
      TaleStep(s, run[0], tale);
      TaleRun(Apply(s, run[0]), run[1..], NextTale(s, run[0], tale));
    }
  }

  lemma StartsUntold(s: Sys)
    requires Init(s)
    ensures Tracked(s) && TaleOk(s, map[])
  {
    StartsTracked(s);
  }

  /**
   Over every run: a recorded verdict tells how the row's last execution ended, and the stored row
   shows it.
   */
  lemma VerdictTellsRun(s: Sys, run: seq<Action>, id: string)
    requires Init(s) && IsRun(s, run) && id in End(s, run).hist.verdicts
    ensures var e, tale := End(s, run), Tale(s, run, map[]);
      && id in tale && Tells(e.hist.verdicts[id], tale[id])
      && (id in e.db.conts ==> var c := e.db.conts[id];
            && (c.state == Completed <==> Succeeded(tale[id])) && (c.state == Failed <==> !Succeeded(tale[id]))
            && (tale[id].Ran? ==> c.command == tale[id].res.command && c.exitCode == Some(tale[id].res.exitCode))
            && (!tale[id].Ran? ==> c.command == "" && c.exitCode == None))
  {
    hide Init, IsRun, End, Tracked, TaleOk, Tale;
    StartsUntold(s);
    TaleRun(s, run, map[]);
    TrackedAlways(s, run);
    TaleOfVerdict(End(s, run), Tale(s, run, map[]), id);
  }

  lemma TaleOfVerdict(e: Sys, tale: map<string, Ending>, id: string)
    requires Tracked(e) && TaleOk(e, tale) && id in e.hist.verdicts
    ensures id in tale && Tells(e.hist.verdicts[id], tale[id])
    ensures id in e.db.conts ==> Shows(e.db.conts[id], e.hist.verdicts[id])
  {
    if id in e.db.conts { assert RowHistory(e.db.conts[id], e.hist, id); }
    hide Tracked;
  }

  /**
   Over every run: a row's result event says "continuation.completed" if and only if its last
   execution started and exited with 0, and carries that exit code and duration; without a session or
   an adapter it says "continuation.failed", with no exit code.
   */
  lemma ResultTellsRun(s: Sys, run: seq<Action>, id: string)
    requires Init(s) && IsRun(s, run) && End(s, run).hist.Results(id) != []
    ensures var ev, tale := End(s, run).hist.Results(id)[0], Tale(s, run, map[]);
      && id in tale
      && ev.kind == (if Succeeded(tale[id]) then "continuation.completed" else "continuation.failed")
      && (tale[id].Ran? ==>
            && "exitCode" in ev.payload && ev.payload["exitCode"] == Decimal.FormatInt(tale[id].res.exitCode)
            && "durationMs" in ev.payload && ev.payload["durationMs"] == Decimal.FormatInt(tale[id].res.durationMs))
      && (!tale[id].Ran? ==> "exitCode" !in ev.payload)
  {
    hide Init, IsRun, End, Tale, Reports;
    OneResultEvent(s, run, id);
    VerdictTellsRun(s, run, id);
    ReportsEnding(End(s, run).hist.Results(id)[0], End(s, run).led.created[id], End(s, run).hist.verdicts[id],
                  Tale(s, run, map[])[id]);
  }

  lemma ReportsEnding(ev: Event, c: Continuation, v: Verdict, e: Ending)
    requires Reports(ev, c, v) && Tells(v, e)
    ensures ev.kind == (if Succeeded(e) then "continuation.completed" else "continuation.failed")
    ensures e.Ran? ==>
      && "exitCode" in ev.payload && ev.payload["exitCode"] == Decimal.FormatInt(e.res.exitCode)
      && "durationMs" in ev.payload && ev.payload["durationMs"] == Decimal.FormatInt(e.res.durationMs)
    ensures !e.Ran? ==> "exitCode" !in ev.payload
  {
  }

  // ---------- The session's state around a run ----------

  /** The session is marked running before its agent is resumed and waiting after it returned; all else is kept. */
  lemma ResumeIsBracketed(s: Sys, w: string, k: Work)
    requires WorkEnabled(s, w, k) && (k.Start? || k.MarkWaiting?)
    ensures var id, db' := s.workers[w].c.sessionId, WorkApply(s, w, k).db;
      && db'.events == s.db.events && db'.rules == s.db.rules && db'.conts == s.db.conts
      && (id !in s.db.sessions ==> db'.sessions == s.db.sessions)
      && (id in s.db.sessions ==>
            var row := s.db.sessions[id].(state := if k.Start? then SessionRunning else Waiting, updatedAt := k.at);
            db'.sessions == s.db.sessions[id := row])
      && WorkPc(s, w, k).c == s.workers[w].c
      && (if k.Start? then WorkPc(s, w, k).InResume?
          else WorkPc(s, w, k).Judging? && WorkPc(s, w, k).v == s.workers[w].v)
  {
    hide ApplyLedger;
  }
}
