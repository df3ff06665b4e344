/**
 No wake-up is lost, without help from the safety tick: while the daemon is not shutting
 down, every session with pending work is already on its way to a worker.
 */
module WakeUps {
  import opened Core
  import opened StoreModel
  import opened StoreLaws
  import opened Engine
  import opened WorkerSafety
  import opened Counting

  /** Somebody will still look at session `w`. */
  ghost predicate Noticed(s: Sys, w: string) {
    || w in s.workers
    || s.token
    || s.disp.Booting? || s.disp.Scanning?
    || (s.disp.Spawning? && w in s.disp.todo)
    || s.owing > 0 || s.leaving > 0
    || exists x :: x in s.workers && s.workers[x].Notifying?
  }

  ghost predicate WakeInv(s: Sys) {
    !s.cancelled ==> forall w :: HasPending(s.db, w) ==> Noticed(s, w)
  }

  /** Only a new row, or a boot reset, makes a session pending. */
  lemma PendingAfter(db: Db, led: Ledger, op: Op, w: string)
    requires OpOk(db, led, op) && !op.OpReset? && (op.OpRecord? ==> op.verdict.state.Terminal())
    requires HasPending(ApplyOp(db, op), w) && !HasPending(db, w)
    ensures NewRows(db, op) != map[]
  {
    var id :| IsPending(ApplyOp(db, op), w, id);
    assert !IsPending(db, w, id);
    if QuietOp(op) { QuietRow(db, led, op, id); }
  }

  lemma OutWakes(s: Sys, o: Outside)
    requires WakeInv(s) && OutEnabled(s, o)
    ensures WakeInv(OutApply(s, o))
  {
    hide OpOk, ApplyOp, ApplyLedger, HasPending, NewRows;
    var s' := OutApply(s, o);
    if !s'.cancelled {
      forall w | HasPending(s'.db, w) ensures Noticed(s', w) {
        if !HasPending(s.db, w) {
          match o
          case Inject(ev, at, mint) => PendingAfter(s.db, s.led, OpIngest(ev, at, mint), w);
          case Administer(op) =>
            PendingAfter(s.db, s.led, op, w);
            AdminAddsNothing(s.db, op);
          case _ =>
        }
      }
    }
  }

  lemma AdminAddsNothing(db: Db, op: Op)
    requires AdminOp(op)
    ensures NewRows(db, op) == map[]
  {
  }

  lemma DisWakes(s: Sys, d: Dispatch)
    requires WakeInv(s) && DisEnabled(s, d)
    requires s.disp.Draining? || s.disp.Stopped? ==> s.cancelled
    ensures WakeInv(DisApply(s, d))
  {
    var s' := DisApply(s, d);
    if !s'.cancelled && !d.BootReset? {
      forall w | HasPending(s'.db, w) ensures Noticed(s', w) {
        assert Noticed(s, w);
        if x :| x in s.workers && s.workers[x].Notifying? { assert x in s'.workers && s'.workers[x].Notifying?; }
      }
    }
  }

  lemma WorkNotices(s: Sys, w: string, k: Work, x: string)
    requires WorkEnabled(s, w, k) && Noticed(s, x)
    ensures Noticed(WorkApply(s, w, k), x)
  {
    hide OpOk, ApplyOp, ApplyLedger, WorkHistory;
    var s' := WorkApply(s, w, k);
    if y :| y in s.workers && s.workers[y].Notifying? {
      if y == w { assert s'.token; } else { assert y in s'.workers && s'.workers[y].Notifying?; }
    }
  }

  lemma WorkWakes(s: Sys, w: string, k: Work)
    requires WakeInv(s) && WorkEnabled(s, w, k) && WorkerOk(s.db.conts, w, s.workers[w])
    ensures WakeInv(WorkApply(s, w, k))
  {
    hide OpOk, ApplyLedger, WorkHistory;
    var s' := WorkApply(s, w, k);
    if !s'.cancelled {
      forall x | HasPending(s'.db, x) ensures Noticed(s', x) {
        if HasPending(s.db, x) {
          WorkNotices(s, w, k, x);
        } else {
          PendingAfter(s.db, s.led, WorkCall(s.workers[w], k), x);
          assert s'.workers[w].Notifying?;
        }
      }
    }
  }

  lemma WakeStep(s: Sys, a: Action)
    requires Safe(s) && WakeInv(s) && Enabled(s, a)
    ensures WakeInv(Apply(s, a))
  {
    hide StoreInv, WakeInv;
    match a
    case Out(o) => OutWakes(s, o);
    case Dis(d) => DisWakes(s, d);
    case Wrk(w, k) =>
      assert WorkerOk(s.db.conts, w, s.workers[w]);
      WorkWakes(s, w, k);
  }

  lemma {:induction false} WakeRun(s: Sys, run: seq<Action>)
    requires Safe(s) && WakeInv(s) && IsRun(s, run)
    ensures WakeInv(End(s, run))
    decreases |run|
  {
    hide Safe, WakeInv;
    if run == [] {
    } else {
      SafeStep(s, run[0]);
      WakeStep(s, run[0]);
      WakeRun(Apply(s, run[0]), run[1..]);
    }
  }

  lemma StartsAwake(s: Sys)
    requires Init(s)
    ensures Safe(s) && WakeInv(s)
  {
  }

  /** In every reachable state that is not shutting down, each session with pending work is noticed. */
  lemma NoLostWakeUp(s: Sys, run: seq<Action>, w: string)
    requires Init(s) && IsRun(s, run) && !End(s, run).cancelled && HasPending(End(s, run).db, w)
    ensures Noticed(End(s, run), w)
  {
    StartsAwake(s);
    hide Init, IsRun, End, Safe, Noticed;
    WakeRun(s, run);
  }

  // ---------- Someone can always act ----------

  /** Steps of the dispatch machinery itself: no safety tick, sweep, client call, shutdown or crash. */
  predicate Driven(a: Action) {
    match a
    case Out(o) => o.ProducerWakes? || o.LeaverWakes?
    case Dis(d) => !d.Tick?
    case Wrk(_, _) => true
  }

  ghost predicate CanStep(s: Sys) {
    exists a :: Driven(a) && Enabled(s, a)
  }

  /** Every nonempty queue has a head. */
  lemma {:induction false} OldestAmong(db: Db, ids: set<string>) returns (id: string)
    requires ids != {} && ids <= db.conts.Keys
    requires forall i :: i in db.conts ==> db.conts[i].id == i
    ensures id in ids && forall j :: j in ids && j != id ==> Before(db.conts[id], db.conts[j])
    decreases ids
  {
    id :| id in ids;
    if ids != {id} {
      var rest := OldestAmong(db, ids - {id});
      BeforeTotal(db.conts[id], db.conts[rest]);
      if Before(db.conts[rest], db.conts[id]) {
        id := rest;
      } else {
        forall j | j in ids && j != id ensures Before(db.conts[id], db.conts[j]) {
          if j != rest { BeforeTransitive(db.conts[id], db.conts[rest], db.conts[j]); }
        }
      }
    }
  }

  lemma FetchIsPossible(db: Db, w: string) returns (found: Option<string>)
    requires forall i :: i in db.conts ==> db.conts[i].id == i
    ensures if found.None? then !HasPending(db, w) else IsOldestPending(db, w, found.value)
  {
    if HasPending(db, w) {
      var ids := set i | i in db.conts && IsPending(db, w, i);
      var any :| IsPending(db, w, any);
      assert any in ids;
      var id := OldestAmong(db, ids);
      found := Some(id);
    } else {
      found := None;
    }
  }

  /** Fresh continuation ids can be drawn for any finite set of rules. */
  lemma {:induction false} FreshMints(rules: set<string>, n: nat) returns (mint: map<string, Mint>)
    ensures forall r :: r in rules ==> Covered(mint, r)
    ensures forall id :: id in mint ==> mint[id].ruleId in rules && n <= |id| < n + |rules| && mint[id].rendered.Ok?
    ensures forall i, j :: i in mint && j in mint && mint[i].ruleId == mint[j].ruleId ==> i == j
    decreases rules
  {
    mint := map[];
    if rules == {} {
    } else {
      var r :| r in rules;
      var rest := FreshMints(rules - {r}, n);
      var id := Repeat(n + |rules| - 1);
      mint := rest[id := Mint(r, Ok(""))];
      forall q | q in rules ensures Covered(mint, q) {
        if q == r {
          assert mint[id].ruleId == r;
        } else {
          assert q in rules - {r};
          assert Covered(rest, q);
          var i :| i in rest && rest[i].ruleId == q;
          assert mint[i].ruleId == q;
        }
      }
    }
  }

  lemma EmitIsPossible(db: Db, led: Ledger, ev: Event, at: Instant) returns (mint: map<string, Mint>)
    requires ev.id != "" && db.conts.Keys <= led.created.Keys
    ensures OpOk(db, led, OpIngest(ev, at, mint)) && forall id :: id in mint ==> mint[id].rendered.Ok?
  {
    var n := LongerThanAll(led.created.Keys);
    mint := FreshMints(Firing(db, ev, at), n);
  }

  /** Nothing goes wrong by this step: a run succeeds, and prompts render. */
  predicate Favourable(a: Action) {
    match a
    case Wrk(_, Return(res, err)) => err.None? && res.exitCode == 0
    case Wrk(_, Emit(_, _, mint)) => forall id :: id in mint ==> mint[id].rendered.Ok?
    case _ => true
  }

  lemma WorkerCanStep(s: Sys, w: string) returns (k: Work)
    requires RowsKept(s.db, s.led) && w in s.workers
    ensures Enabled(s, Wrk(w, k)) && Favourable(Wrk(w, k)) && CanStep(s)
  {
    var pc := s.workers[w];
    match pc {
      case Top => k := CheckTop;
      case Fetching => var found := FetchIsPossible(s.db, w); k := Fetch(found);
      case Claiming(_) => k := Claim(0);
      case LookingUp(_) => k := LookUp;
      case Starting(_) => k := Start(0);
      case InResume(_) => k := Return(RunResult("", 0, "", 0), None);
      case Returned(_, _, _) => k := MarkWaiting(0);
      case Judging(_, _, _) => k := Judge;
      case Recording(_, _, _) => k := Record(0);
      case Emitting(c, v) =>
        var mint := EmitIsPossible(s.db, s.led, ResultEvent(c, v, "evt", 0), 0);
        k := Emit("evt", 0, mint);
      case Notifying => k := Notify;
      case Exiting => k := Deregister;
    }
    assert Driven(Wrk(w, k)) && Enabled(s, Wrk(w, k));
  }

  /** Whenever the daemon can move, it can move without anything going wrong. */
  lemma CanStepWell(s: Sys) returns (a: Action)
    requires RowsKept(s.db, s.led) && CanStep(s)
    ensures Driven(a) && Favourable(a) && Enabled(s, a)
  {
    a :| Driven(a) && Enabled(s, a);
    if a.Wrk? {
      var k := WorkerCanStep(s, a.w);
      a := Wrk(a.w, k);
    }
  }

  lemma DispatcherCanStep(s: Sys)
    requires s.disp.Booting? || s.disp.Scanning? || s.disp.Spawning? || (s.disp.Idle? && s.token)
    ensures CanStep(s)
  {
    var d: Dispatch;
    match s.disp {
      case Booting => d := BootReset(0);
      case Scanning => d := Scan;
      case Spawning(todo) =>
        if todo == {} { d := ScanEnds; } else { var w :| w in todo; d := Spawn(w); }
      case Idle => d := TakeWake;
    }
    assert Driven(Dis(d)) && Enabled(s, Dis(d));
  }

  lemma NoticedCanStep(s: Sys, w: string)
    requires RowsKept(s.db, s.led) && Noticed(s, w) && !s.disp.Draining? && !s.disp.Stopped?
    ensures CanStep(s)
  {
    if !s.disp.Idle? || s.token {
      DispatcherCanStep(s);
    } else if s.owing > 0 {
      assert Driven(Out(ProducerWakes)) && Enabled(s, Out(ProducerWakes));
    } else if s.leaving > 0 {
      assert Driven(Out(LeaverWakes)) && Enabled(s, Out(LeaverWakes));
    } else if w in s.workers {
      var k := WorkerCanStep(s, w);
    } else {
      var x :| x in s.workers && s.workers[x].Notifying?;
      var k := WorkerCanStep(s, x);
    }
  }

  lemma RunningIsNoticed(s: Sys, id: string)
    requires WorkerInvOf(s) && !s.cancelled && id in s.db.conts && s.db.conts[id].state.Running?
    ensures Noticed(s, s.db.conts[id].sessionId)
  {
    assert Owned(s.db.conts[id], s.workers, s.disp, s.cancelled);
  }

  /**
   The daemon never stalls on unfinished work: in every reachable state that is not shutting
   down, if some row is pending or running then some goroutine can take a step, the safety
   tick and all outside events aside. So a state in which nothing can move has no work left.
   */
  lemma NeverStalls(s: Sys, run: seq<Action>, id: string)
    requires Init(s) && IsRun(s, run) && !End(s, run).cancelled
    requires id in End(s, run).db.conts && !End(s, run).db.conts[id].state.Terminal()
    ensures CanStep(End(s, run))
  {
    StartsAwake(s);
    hide Init, IsRun, End, Safe, WakeInv, CanStep;
    SafeAlways(s, run);
    WakeRun(s, run);
    WorkMovesOn(End(s, run), id);
  }

  lemma WorkMovesOn(e: Sys, id: string)
    requires Safe(e) && WakeInv(e) && !e.cancelled
    requires id in e.db.conts && !e.db.conts[id].state.Terminal()
    ensures CanStep(e)
  {
    var w := e.db.conts[id].sessionId;
    if e.db.conts[id].state.Running? {
      RunningIsNoticed(e, id);
    } else {
      assert IsPending(e.db, w, id);
    }
    NoticedCanStep(e, w);
  }

  ghost predicate CreatesRows(db: Db, db': Db) { exists id :: id in db'.conts && id !in db.conts }

  lemma ProducerOwes(s: Sys, o: Outside)
    requires OutEnabled(s, o) && (o.Inject? || o.RunManually?)
    ensures var s', rows := OutApply(s, o), NewRows(s.db, CallOf(s, Out(o)));
      s'.owing == (if rows != map[] || o.RunManually? then s.owing + 1 else s.owing) && s'.token == s.token
  {
    hide ApplyOp, ApplyLedger, NewRows;
  }

  lemma EmitterNotifies(s: Sys, w: string, k: Work)
    requires WorkEnabled(s, w, k) && k.Emit?
    ensures w in s.workers && w in WorkApply(s, w, k).workers && OpOk(s.db, s.led, WorkCall(s.workers[w], k))
    ensures WorkApply(s, w, k).workers[w] ==
      (if NewRows(s.db, WorkCall(s.workers[w], k)) != map[] then Notifying else Top)
  {
    hide OpOk, ApplyOp, ApplyLedger, NewRows, ResultEvent, WorkHistory;
  }

  /** A wake-up is owed by whoever committed new rows, and by nobody else. */
  lemma OwedForRowsOnly(s: Sys, a: Action)
    requires Enabled(s, a) && ((a.Out? && (a.o.Inject? || a.o.RunManually?)) || (a.Wrk? && a.k.Emit?))
    ensures a.Out? ==>
      Apply(s, a).owing == (if CreatesRows(s.db, Apply(s, a).db) then s.owing + 1 else s.owing)
      && Apply(s, a).token == s.token
    ensures a.Wrk? ==>
      a.w in Apply(s, a).workers
      && Apply(s, a).workers[a.w] == (if CreatesRows(s.db, Apply(s, a).db) then Notifying else Top)
  {
    CommitsRows(s, a);
    hide OpOk, ApplyOp, ApplyLedger, NewRows, OutEnabled, OutApply, WorkEnabled, WorkApply, CallOf, CreatesRows;
    StepIsCall(s, a);
    RowsAdded(s.db, s.led, CallOf(s, a));
    if a.Out? { ProducerOwes(s, a.o); } else { EmitterNotifies(s, a.w, a.k); }
  }

  lemma CommitsRows(s: Sys, a: Action)
    requires Enabled(s, a) && ((a.Out? && (a.o.Inject? || a.o.RunManually?)) || (a.Wrk? && a.k.Emit?))
    ensures CallOf(s, a).OpIngest? || CallOf(s, a).OpInsert?
    ensures OpOk(s.db, s.led, CallOf(s, a)) && (a.Out? && a.o.RunManually? ==> NewRows(s.db, CallOf(s, a)) != map[])
  {
    hide ResultEvent, MintOk, RuleIdUsed;
    if a.Out? && a.o.RunManually? { assert a.o.row.id in NewRows(s.db, CallOf(s, a)); }
  }

  lemma RowsAdded(db: Db, led: Ledger, op: Op)
    requires OpOk(db, led, op) && (op.OpIngest? || op.OpInsert?)
    ensures NewRows(db, op) != map[] <==> CreatesRows(db, ApplyOp(db, op))
  {
    forall id { QuietRow(db, led, op, id); }
    if NewRows(db, op) != map[] {
      var id :| id in NewRows(db, op);
      AddedIsNew(db, led, op, id);
    }
    hide OpOk, ApplyOp, NewRows;
  }

  lemma AddedIsNew(db: Db, led: Ledger, op: Op, id: string)
    requires OpOk(db, led, op) && (op.OpIngest? || op.OpInsert?) && id in NewRows(db, op)
    ensures id in ApplyOp(db, op).conts && id !in db.conts
  {
    hide Firing;
  }
}
