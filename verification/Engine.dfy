/**
 The daemon as a state machine: the durable tables, the dispatcher goroutine, one worker
 goroutine per session, producers of events, shutdown, crash and restart. Every store call
 is one atomic step; between any two of them every other goroutine may run.
 */
module Engine {
  import opened Core
  import opened StoreModel
  import Decimal

  // ---------- Pieces of the dispatcher ----------

  /** The agents the daemon registers adapters for. */
  const ADAPTERS: set<string> := {"claude", "cursor", "codex", "opencode"}

  /** What an adapter's Resume reports. */
  datatype RunResult = RunResult(command: string, exitCode: int, outputSummary: string, durationMs: int)

  /** The verdict on a finished run: completed exactly when it started and exited with 0. */
  function JudgeRun(res: RunResult, startError: Option<string>): Verdict {
    Verdict(
      if startError.None? && res.exitCode == 0 then Completed else Failed,
      res.command, Some(res.exitCode),
      if startError.Some? then "resume failed to start: " + startError.value else res.outputSummary,
      res.durationMs)
  }

  function Unregistered(s: string): Verdict {
    Verdict(Failed, "", None, "session " + s + " is not registered", 0)
  }

  function NoAdapter(agent: string): Verdict {
    Verdict(Failed, "", None,
            "no adapter for agent " + agent + " (available: claude, codex, cursor, opencode)", 0)
  }

  function ResultKind(st: ContState): string {
    if st.Completed? then "continuation.completed" else "continuation.failed"
  }

  /** The event fed back for a finished run: its source is the rule's label, or the rule id without one. */
  function ResultEvent(c: Continuation, v: Verdict, id: string, at: Instant): Event {
    var payload := map["continuationId" := c.id, "sessionId" := c.sessionId,
                       "durationMs" := Decimal.FormatInt(v.durationMs)];
    Event(id, ResultKind(v.state), if c.tag == "" then c.ruleId else c.tag,
          if v.exitCode.Some? then payload["exitCode" := Decimal.FormatInt(v.exitCode.value)] else payload,
          at)
  }

  // ---------- State ----------

  /** Where the dispatcher goroutine is. `todo` is the part of the scan's answer not yet handled. */
  datatype DispPc = Booting | Scanning | Spawning(todo: set<string>) | Idle | Draining | Stopped

  /**
   Where a worker goroutine is, with the row it fetched. `late` says that shutdown had been
   raised when the run returned.
   */
  datatype WorkerPc =
    | Top
    | Fetching
    | Claiming(c: Continuation)
    | LookingUp(c: Continuation)
    | Starting(c: Continuation)
    | InResume(c: Continuation)
    | Returned(c: Continuation, v: Verdict, late: bool)
    | Judging(c: Continuation, v: Verdict, late: bool)
    | Recording(c: Continuation, v: Verdict, late: bool)
    | Emitting(c: Continuation, v: Verdict)
    | Notifying
    | Exiting
  {
    /** The worker has claimed its row and not yet given it a verdict. */
    predicate Holding() {
      LookingUp? || Starting? || InResume? || Returned? || Judging? || Recording?
    }
  }

  /** What happened to each continuation over the whole history, restarts included. */
  datatype History = History(
    claims: map<string, nat>, resets: map<string, nat>,
    verdicts: map<string, Verdict>, results: map<string, seq<Event>>)
  {
    function Claims(id: string): nat { if id in claims then claims[id] else 0 }
    function Resets(id: string): nat { if id in resets then resets[id] else 0 }
    function Results(id: string): seq<Event> { if id in results then results[id] else [] }
  }

  datatype Sys = Sys(
    db: Db, led: Ledger, hist: History,
    cancelled: bool,                    // shutdown was raised
    token: bool,                        // the one-slot wake channel is full
    disp: DispPc,
    workers: map<string, WorkerPc>,     // registered workers, by session
    leaving: nat,                       // workers deregistered, about to wake the dispatcher
    owing: nat)                         // producers that committed rows, about to wake the dispatcher

  ghost predicate Init(s: Sys) {
    s == Sys(Db(map[], map[], map[], map[]), Ledger(map[], {}, map[]), History(map[], map[], map[], map[]),
             false, false, Booting, map[], 0, 0)
  }

  // ---------- Steps ----------

  /** Steps of clients, watchers, the retention loop, the operator and the machine. */
  datatype Outside =
    | Inject(ev: Event, at: Instant, mint: map<string, Mint>)
    | RunManually(row: Continuation)
    | ProducerWakes
    | LeaverWakes
    | Administer(op: Op)
    | Cancel
    | Crash

  /** Steps of the dispatcher goroutine. */
  datatype Dispatch =
    | BootReset(at: Instant)
    | Scan
    | Spawn(w: string)
    | ScanEnds
    | TakeWake
    | Tick
    | SeeCancel
    | Drained

  /** Steps of one worker goroutine. */
  datatype Work =
    | CheckTop
    | Fetch(found: Option<string>)
    | Claim(at: Instant)
    | LookUp
    | Start(at: Instant)
    | Return(res: RunResult, startError: Option<string>)
    | MarkWaiting(at: Instant)
    | Judge
    | Record(at: Instant)
    | Emit(evId: string, at: Instant, mint: map<string, Mint>)
    | Notify
    | Deregister

  datatype Action = Out(o: Outside) | Dis(d: Dispatch) | Wrk(w: string, k: Work)

  /** Make one store call. */
  ghost function Commit(s: Sys, op: Op): Sys
    requires OpOk(s.db, s.led, op)
  {
    s.(db := ApplyOp(s.db, op), led := ApplyLedger(s.db, s.led, op))
  }

  predicate AdminOp(op: Op) { op.OpAddRule? || op.OpRemoveRule? || op.OpRegister? || op.OpSweep? }

  ghost predicate OutEnabled(s: Sys, o: Outside) {
    match o
    case Inject(ev, at, mint) => OpOk(s.db, s.led, OpIngest(ev, at, mint))
    case RunManually(row) => OpOk(s.db, s.led, OpInsert(row))
    case ProducerWakes => s.owing > 0
    case LeaverWakes => s.leaving > 0
    case Administer(op) => AdminOp(op) && OpOk(s.db, s.led, op)
    case Cancel => true
    case Crash => true
  }

  /** A producer commits first and wakes the dispatcher in a later step, if its commit created rows. */
  ghost function OutApply(s: Sys, o: Outside): Sys
    requires OutEnabled(s, o)
  {
    match o
    case Inject(ev, at, mint) =>
      var op := OpIngest(ev, at, mint);
      Commit(s, op).(owing := if NewRows(s.db, op) != map[] then s.owing + 1 else s.owing)
    case RunManually(row) => Commit(s, OpInsert(row)).(owing := s.owing + 1)
    case ProducerWakes => s.(owing := s.owing - 1, token := true)
    case LeaverWakes => s.(leaving := s.leaving - 1, token := true)
    case Administer(op) => Commit(s, op)
    case Cancel => s.(cancelled := true)
    case Crash =>
      s.(cancelled := false, token := false, disp := Booting, workers := map[], leaving := 0, owing := 0)
  }

  ghost predicate DisEnabled(s: Sys, d: Dispatch) {
    match d
    case BootReset(at) => s.disp.Booting?
    case Scan => s.disp.Scanning?
    case Spawn(w) => s.disp.Spawning? && w in s.disp.todo
    case ScanEnds => s.disp.Spawning? && s.disp.todo == {}
    case TakeWake => s.disp.Idle? && s.token
    case Tick => s.disp.Idle?
    case SeeCancel => s.disp.Idle? && s.cancelled
    case Drained => s.disp.Draining? && s.workers == map[] && s.leaving == 0
  }

  /** The rows a boot reset finds running are counted. */
  ghost function CountResets(h: History, db: Db): History {
    h.(resets := map id | id in h.resets.Keys + db.conts.Keys ::
         h.Resets(id) + (if id in db.conts && db.conts[id].state.Running? then 1 else 0))
  }

  ghost function DisApply(s: Sys, d: Dispatch): Sys
    requires DisEnabled(s, d)
  {
    match d
    case BootReset(at) => Commit(s, OpReset(at)).(disp := Scanning, hist := CountResets(s.hist, s.db))
    case Scan => s.(disp := Spawning(PendingSessions(s.db)))
    case Spawn(w) =>
      s.(disp := Spawning(s.disp.todo - {w}), workers := if w in s.workers then s.workers else s.workers[w := Top])
    case ScanEnds => s.(disp := Idle)
    case TakeWake => s.(disp := Scanning, token := false)
    case Tick => s.(disp := Scanning)
    case SeeCancel => s.(disp := Draining)
    case Drained => s.(disp := Stopped)
  }

  /** The store call a worker's step makes. */
  function WorkCall(pc: WorkerPc, k: Work): Op {
    match k
    case Claim(at) => if pc.Claiming? then OpClaim(pc.c.id, at) else OpNone
    case Start(at) => if pc.Starting? then OpSetSession(pc.c.sessionId, SessionRunning, at) else OpNone
    case MarkWaiting(at) => if pc.Returned? then OpSetSession(pc.c.sessionId, Waiting, at) else OpNone
    case Record(at) => if pc.Recording? then OpRecord(pc.c.id, pc.v, at) else OpNone
    case Emit(evId, at, mint) =>
      if pc.Emitting? then OpIngest(ResultEvent(pc.c, pc.v, evId, at), at, mint) else OpNone
    case _ => OpNone
  }

  ghost predicate WorkEnabled(s: Sys, w: string, k: Work) {
    && w in s.workers
    && OpOk(s.db, s.led, WorkCall(s.workers[w], k))
    && var pc := s.workers[w];
       match k
       case CheckTop => pc.Top?
       case Fetch(found) =>
         pc.Fetching? && (if found.None? then !HasPending(s.db, w) else IsOldestPending(s.db, w, found.value))
       case Claim(at) => pc.Claiming?
       case LookUp => pc.LookingUp?
       case Start(at) => pc.Starting?
       case Return(res, err) => pc.InResume?
       case MarkWaiting(at) => pc.Returned?
       case Judge => pc.Judging?
       case Record(at) => pc.Recording?
       case Emit(evId, at, mint) => pc.Emitting?
       case Notify => pc.Notifying?
       case Deregister => pc.Exiting?
  }

  /** The lookup that opens `execute`: the session and its adapter decide whether anything runs. */
  function AfterLookUp(db: Db, c: Continuation, cancelled: bool): WorkerPc {
    if c.sessionId !in db.sessions then Judging(c, Unregistered(c.sessionId), cancelled)
    else if db.sessions[c.sessionId].agent !in ADAPTERS
    then Judging(c, NoAdapter(db.sessions[c.sessionId].agent), cancelled)
    else Starting(c)
  }

  /** Where a worker's step takes it. */
  ghost function WorkPc(s: Sys, w: string, k: Work): WorkerPc
    requires WorkEnabled(s, w, k)
  {
    var pc := s.workers[w];
    match k
    case CheckTop => if s.cancelled then Exiting else Fetching
    case Fetch(found) => if found.None? then Exiting else Claiming(s.db.conts[found.value])
    case Claim(at) =>
      if pc.c.id in s.db.conts && s.db.conts[pc.c.id].state.Pending? then LookingUp(pc.c) else Top
    case LookUp => AfterLookUp(s.db, pc.c, s.cancelled)
    case Start(at) => InResume(pc.c)
    case Return(res, err) => Returned(pc.c, JudgeRun(res, err), s.cancelled)
    case MarkWaiting(at) => Judging(pc.c, pc.v, pc.late)
    case Judge => if s.cancelled then Top else Recording(pc.c, pc.v, pc.late)
    case Record(at) => Emitting(pc.c, pc.v)
    case Emit(evId, at, mint) => if NewRows(s.db, WorkCall(pc, k)) != map[] then Notifying else Top
    case Notify => Top
    case Deregister => Exiting
  }

  ghost function WorkHistory(s: Sys, w: string, k: Work): History
    requires WorkEnabled(s, w, k)
  {
    var h, pc := s.hist, s.workers[w];
    match k
    case Claim(at) =>
      if WorkPc(s, w, k).LookingUp? then h.(claims := h.claims[pc.c.id := h.Claims(pc.c.id) + 1]) else h
    case Record(at) => h.(verdicts := h.verdicts[pc.c.id := pc.v])
    case Emit(evId, at, mint) =>
      h.(results := h.results[pc.c.id := h.Results(pc.c.id) + [ResultEvent(pc.c, pc.v, evId, at)]])
    case _ => h
  }

  ghost function WorkApply(s: Sys, w: string, k: Work): Sys
    requires WorkEnabled(s, w, k)
  {
    Commit(s, WorkCall(s.workers[w], k)).(
      hist := WorkHistory(s, w, k),
      workers := if k.Deregister? then s.workers - {w} else s.workers[w := WorkPc(s, w, k)],
      leaving := if k.Deregister? then s.leaving + 1 else s.leaving,
      token := s.token || k.Notify?)
  }

  ghost predicate Enabled(s: Sys, a: Action) {
    match a
    case Out(o) => OutEnabled(s, o)
    case Dis(d) => DisEnabled(s, d)
    case Wrk(w, k) => WorkEnabled(s, w, k)
  }

  ghost function Apply(s: Sys, a: Action): Sys
    requires Enabled(s, a)
  {
    match a
    case Out(o) => OutApply(s, o)
    case Dis(d) => DisApply(s, d)
    case Wrk(w, k) => WorkApply(s, w, k)
  }

  /** The store call a step makes. */
  function CallOf(s: Sys, a: Action): Op {
    match a
    case Out(Inject(ev, at, mint)) => OpIngest(ev, at, mint)
    case Out(RunManually(row)) => OpInsert(row)
    case Out(Administer(op)) => op
    case Dis(BootReset(at)) => OpReset(at)
    case Wrk(w, k) => if w in s.workers then WorkCall(s.workers[w], k) else OpNone
    case _ => OpNone
  }

  lemma NoCall(db: Db, led: Ledger)
    ensures OpOk(db, led, OpNone) && ApplyOp(db, OpNone) == db && ApplyLedger(db, led, OpNone) == led
  {
    assert led.created + map[] == led.created;
    assert led.swept + {} == led.swept;
  }

  lemma ResetCall(db: Db, led: Ledger, at: Instant)
    ensures OpOk(db, led, OpReset(at))
  {
  }

  ghost predicate ChangesBy(s: Sys, s': Sys, op: Op) {
    OpOk(s.db, s.led, op) && s'.db == ApplyOp(s.db, op) && s'.led == ApplyLedger(s.db, s.led, op)
  }

  lemma OutIsCall(s: Sys, o: Outside)
    requires OutEnabled(s, o)
    ensures ChangesBy(s, OutApply(s, o), CallOf(s, Out(o)))
  {
    NoCall(s.db, s.led);
    hide OpOk, ApplyOp, ApplyLedger;
  }

  lemma DisIsCall(s: Sys, d: Dispatch)
    requires DisEnabled(s, d)
    ensures ChangesBy(s, DisApply(s, d), CallOf(s, Dis(d)))
  {
    NoCall(s.db, s.led);
    if d.BootReset? { ResetCall(s.db, s.led, d.at); }
    hide OpOk, ApplyOp, ApplyLedger, PendingSessions, CountResets;
  }

  lemma WorkIsCall(s: Sys, w: string, k: Work)
    requires WorkEnabled(s, w, k)
    ensures ChangesBy(s, WorkApply(s, w, k), CallOf(s, Wrk(w, k)))
  {
    hide OpOk, ApplyOp, ApplyLedger, WorkCall, WorkPc, WorkHistory;
  }

  /** The tables and the ledger change by that call alone. */
  lemma StepIsCall(s: Sys, a: Action)
    requires Enabled(s, a)
    ensures OpOk(s.db, s.led, CallOf(s, a))
    ensures Apply(s, a).db == ApplyOp(s.db, CallOf(s, a))
    ensures Apply(s, a).led == ApplyLedger(s.db, s.led, CallOf(s, a))
  {
    hide OpOk, ApplyOp, ApplyLedger, OutEnabled, DisEnabled, WorkEnabled, OutApply, DisApply, WorkApply, CallOf;
    match a
    case Out(o) => OutIsCall(s, o);
    case Dis(d) => DisIsCall(s, d);
    case Wrk(w, k) => WorkIsCall(s, w, k);
  }

  // ---------- Runs ----------

  /** A run is a start state and the steps taken; every prefix must be possible. */
  ghost predicate IsRun(s: Sys, run: seq<Action>)
    decreases |run|
  {
    run == [] || (Enabled(s, run[0]) && IsRun(Apply(s, run[0]), run[1..]))
  }

  ghost function End(s: Sys, run: seq<Action>): Sys
    requires IsRun(s, run)
    decreases |run|
  {
    if run == [] then s else End(Apply(s, run[0]), run[1..])
  }

  lemma {:induction false} RunThen(s: Sys, run: seq<Action>, a: Action)
    requires IsRun(s, run) && Enabled(End(s, run), a)
    ensures IsRun(s, run + [a]) && End(s, run + [a]) == Apply(End(s, run), a)
    decreases |run|
  {
    hide Apply;
    if run == [] {
      assert (run + [a])[1..] == [];
    } else {
      assert (run + [a])[1..] == run[1..] + [a];
      RunThen(Apply(s, run[0]), run[1..], a);
    }
  }

  lemma {:induction false} RunsOn(s: Sys, run: seq<Action>, more: seq<Action>)
    requires IsRun(s, run) && IsRun(End(s, run), more)
    ensures IsRun(s, run + more) && End(s, run + more) == End(End(s, run), more)
    decreases |run|
  {
    hide Apply, Enabled;
    if run == [] {
      assert run + more == more;
    } else {
      assert (run + more)[1..] == run[1..] + more;
      RunsOn(Apply(s, run[0]), run[1..], more);
    }
  }

  /** From the empty system, these steps lead to this state. */
  ghost predicate Reached(run: seq<Action>, e: Sys) {
    exists s :: Init(s) && IsRun(s, run) && End(s, run) == e
  }

  lemma ReachedStart(s: Sys)
    requires Init(s)
    ensures Reached([], s)
  {
    assert IsRun(s, []) && End(s, []) == s;
  }

  lemma ReachedNext(run: seq<Action>, e: Sys, a: Action)
    requires Reached(run, e) && Enabled(e, a)
    ensures Reached(run + [a], Apply(e, a))
  {
    hide Enabled, Apply, Init, IsRun, End;
    var s :| Init(s) && IsRun(s, run) && End(s, run) == e;
    RunThen(s, run, a);
  }
}
