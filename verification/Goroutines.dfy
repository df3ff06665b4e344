/**
 Worker goroutines as the runtime sees them: each has its own identity and its own program counter,
 and nothing but the `workers` registry, checked and updated under the mutex, keeps two of them from
 serving one session. That this suffices is proved here over every interleaving; it is what lets
 `Engine` speak of "the worker of a session", and carries every theorem about `Engine` over.
 */
module Goroutines {
  import opened Core
  import opened StoreModel
  import opened Engine
  import WorkerSafety

  datatype Goroutine = Goroutine(session: string, pc: WorkerPc)

  /** `shared` is everything but the workers; the worker map inside it is not used. */
  datatype Machine = Machine(shared: Sys, registry: set<string>, live: map<nat, Goroutine>)

  datatype Step =
    | ByOutside(o: Outside)
    | ByDispatcher(d: Dispatch)
    | Spawning(w: string, g: nat)
    | ByWorker(g: nat, k: Work)

  /** What goroutine `g` has to go by: the shared state, and its own program counter alone. */
  function View(m: Machine, g: nat): Sys
    requires g in m.live
  {
    m.shared.(workers := map[m.live[g].session := m.live[g].pc])
  }

  ghost predicate Init(m: Machine) { Engine.Init(m.shared) && m.registry == {} && m.live == map[] }

  /** The dispatcher waits for all goroutines; a spawned one gets an identity no live one has. */
  ghost predicate Enabled(m: Machine, s: Step) {
    match s
    case ByOutside(o) => OutEnabled(m.shared, o)
    case ByDispatcher(d) => !d.Spawn? && DisEnabled(m.shared, d) && (d.Drained? ==> m.live == map[])
    case Spawning(w, g) => DisEnabled(m.shared, Spawn(w)) && g !in m.live
    case ByWorker(g, k) => g in m.live && WorkEnabled(View(m, g), m.live[g].session, k)
  }

  /** The session is skipped if registered; otherwise it is registered and its goroutine started. */
  ghost function SpawnApply(m: Machine, w: string, g: nat): Machine
    requires m.shared.disp.Spawning?
  {
    var shared := m.shared.(disp := DispPc.Spawning(m.shared.disp.todo - {w}));
    if w in m.registry then m.(shared := shared)
    else Machine(shared, m.registry + {w}, m.live[g := Goroutine(w, Top)])
  }

  /** A worker's step changes the shared state and its own program counter; its last one deregisters the session. */
  ghost function WorkerApply(m: Machine, g: nat, k: Work): Machine
    requires g in m.live && WorkEnabled(View(m, g), m.live[g].session, k)
  {
    var w := m.live[g].session;
    var after := WorkApply(View(m, g), w, k).(workers := map[]);
    if k.Deregister? then Machine(after, m.registry - {w}, m.live - {g})
    else Machine(after, m.registry, m.live[g := Goroutine(w, WorkPc(View(m, g), w, k))])
  }

  ghost function Apply(m: Machine, s: Step): Machine
    requires Enabled(m, s)
  {
    match s
    case ByOutside(o) =>
      if o.Crash? then Machine(OutApply(m.shared, o), {}, map[]) else m.(shared := OutApply(m.shared, o))
    case ByDispatcher(d) => m.(shared := DisApply(m.shared, d))
    case Spawning(w, g) => SpawnApply(m, w, g)
    case ByWorker(g, k) => WorkerApply(m, g, k)
  }

  // ---------- The registry is exact ----------

  ghost predicate OnePerSession(live: map<nat, Goroutine>) {
    forall g, h :: g in live && h in live && live[g].session == live[h].session ==> g == h
  }

  ghost predicate RegistryExact(registry: set<string>, live: map<nat, Goroutine>) {
    && (forall g :: g in live ==> live[g].session in registry)
    && (forall w :: w in registry ==> exists g :: g in live && live[g].session == w)
  }

  ghost predicate Inv(m: Machine) {
    OnePerSession(m.live) && RegistryExact(m.registry, m.live) && m.shared.workers == map[]
  }

  /** The program counter of the goroutine that serves session `w`. */
  ghost function PcOf(live: map<nat, Goroutine>, w: string): WorkerPc
    requires exists g :: g in live && live[g].session == w
  {
    var g :| g in live && live[g].session == w;
    live[g].pc
  }

  ghost function WorkersOf(registry: set<string>, live: map<nat, Goroutine>): map<string, WorkerPc>
    requires RegistryExact(registry, live)
  {
    map w | w in registry :: PcOf(live, w)
  }

  lemma PcIs(live: map<nat, Goroutine>, g: nat)
    requires OnePerSession(live) && g in live
    ensures PcOf(live, live[g].session) == live[g].pc
  {
  }

  /** The goroutine that serves another session is not affected by a change to `g`. */
  lemma OthersKeepPc(live: map<nat, Goroutine>, live': map<nat, Goroutine>, g: nat, w: string)
    requires OnePerSession(live) && OnePerSession(live')
    requires forall h :: h != g ==> (h in live <==> h in live') && (h in live ==> live[h] == live'[h])
    requires exists h :: h in live && h != g && live[h].session == w
    ensures (exists h :: h in live' && live'[h].session == w) && PcOf(live', w) == PcOf(live, w)
  {
    var h :| h in live && h != g && live[h].session == w;
    PcIs(live, h);
    PcIs(live', h);
  }

  lemma Registered(registry: set<string>, live: map<nat, Goroutine>, w: string, g: nat)
    requires OnePerSession(live) && RegistryExact(registry, live) && w !in registry && g !in live
    ensures var live' := live[g := Goroutine(w, Top)];
      && OnePerSession(live') && RegistryExact(registry + {w}, live')
      && WorkersOf(registry + {w}, live') == WorkersOf(registry, live)[w := Top]
  {
    var live' := live[g := Goroutine(w, Top)];
    assert live'[g].session == w;
    forall x | x in registry
      ensures (exists h :: h in live' && live'[h].session == x) && PcOf(live', x) == PcOf(live, x)
    {
      OthersKeepPc(live, live', g, x);
    }
    PcIs(live', g);
  }

  lemma MoveKeepsRegistry(registry: set<string>, live: map<nat, Goroutine>, g: nat, pc: WorkerPc)
    requires OnePerSession(live) && RegistryExact(registry, live) && g in live
    ensures var live' := live[g := Goroutine(live[g].session, pc)];
      OnePerSession(live') && RegistryExact(registry, live')
  {
    var live' := live[g := Goroutine(live[g].session, pc)];
    forall w | w in registry ensures exists h :: h in live' && live'[h].session == w {
      var h :| h in live && live[h].session == w;
      assert live'[h].session == w;
    }
  }

  lemma Moved(registry: set<string>, live: map<nat, Goroutine>, g: nat, pc: WorkerPc)
    requires OnePerSession(live) && RegistryExact(registry, live) && g in live
    ensures var w := live[g].session;
      var live' := live[g := Goroutine(w, pc)];
      && OnePerSession(live') && RegistryExact(registry, live')
      && WorkersOf(registry, live') == WorkersOf(registry, live)[w := pc]
  {
    hide PcOf, OnePerSession;
    var w := live[g].session;
    var live' := live[g := Goroutine(w, pc)];
    MoveKeepsRegistry(registry, live, g, pc);
    forall x | x in registry && x != w ensures PcOf(live', x) == PcOf(live, x) {
      OthersKeepPc(live, live', g, x);
    }
    PcIs(live', g);
  }

  lemma Deregistered(registry: set<string>, live: map<nat, Goroutine>, g: nat)
    requires OnePerSession(live) && RegistryExact(registry, live) && g in live
    ensures var w := live[g].session;
      && OnePerSession(live - {g}) && RegistryExact(registry - {w}, live - {g})
      && WorkersOf(registry - {w}, live - {g}) == WorkersOf(registry, live) - {w}
  {
    var w, live' := live[g].session, live - {g};
    forall x | x in registry - {w}
      ensures (exists h :: h in live' && live'[h].session == x) && PcOf(live', x) == PcOf(live, x)
    {
      OthersKeepPc(live, live', g, x);
    }
  }

  lemma NoneLive()
    ensures OnePerSession(map[]) && RegistryExact({}, map[]) && WorkersOf({}, map[]) == map[]
  {
  }

  // ---------- The engine is what the machine looks like ----------

  /** One worker per registered session, in the state of its goroutine. */
  ghost function Seen(m: Machine): Sys
    requires Inv(m)
  {
    m.shared.(workers := WorkersOf(m.registry, m.live))
  }

  function ActionOf(m: Machine, s: Step): Action
    requires s.ByWorker? ==> s.g in m.live
  {
    match s
    case ByOutside(o) => Out(o)
    case ByDispatcher(d) => Dis(d)
    case Spawning(w, g) => Dis(Spawn(w))
    case ByWorker(g, k) => Wrk(m.live[g].session, k)
  }

  lemma SpawnSeen(m: Machine, w: string, g: nat)
    requires Inv(m) && DisEnabled(m.shared, Spawn(w)) && g !in m.live
    ensures Inv(SpawnApply(m, w, g))
    ensures DisEnabled(Seen(m), Spawn(w)) && Seen(SpawnApply(m, w, g)) == DisApply(Seen(m), Spawn(w))
  {
    hide OnePerSession, RegistryExact, PcOf;
    if w !in m.registry { Registered(m.registry, m.live, w, g); }
  }

  /** A worker's step depends on nothing but the shared state and its own program counter. */
  lemma OwnStep(a: Sys, b: Sys, w: string, k: Work)
    requires a == b.(workers := a.workers) && w in a.workers && w in b.workers && a.workers[w] == b.workers[w]
    requires WorkEnabled(a, w, k)
    ensures WorkEnabled(b, w, k) && WorkPc(b, w, k) == WorkPc(a, w, k)
    ensures WorkApply(b, w, k) == WorkApply(a, w, k).(workers :=
      if k.Deregister? then b.workers - {w} else b.workers[w := WorkPc(a, w, k)])
  {
    hide OpOk, ApplyOp, ApplyLedger, NewRows, IsOldestPending, HasPending;
  }

  lemma WorkerSeen(m: Machine, g: nat, k: Work)
    requires Inv(m) && g in m.live && WorkEnabled(View(m, g), m.live[g].session, k)
    ensures Inv(WorkerApply(m, g, k))
    ensures WorkEnabled(Seen(m), m.live[g].session, k)
    ensures Seen(WorkerApply(m, g, k)) == WorkApply(Seen(m), m.live[g].session, k)
  {
    hide WorkEnabled, WorkApply, WorkPc, OnePerSession, PcOf;
    PcIs(m.live, g);
    var w := m.live[g].session;
    OwnStep(View(m, g), Seen(m), w, k);
    if k.Deregister? { Deregistered(m.registry, m.live, g); }
    else { Moved(m.registry, m.live, g, WorkPc(View(m, g), w, k)); }
  }

  lemma OutsideSeen(s: Sys, o: Outside, ws: map<string, WorkerPc>)
    requires OutEnabled(s, o) && s.workers == map[]
    ensures OutEnabled(s.(workers := ws), o)
    ensures OutApply(s.(workers := ws), o) == OutApply(s, o).(workers := if o.Crash? then map[] else ws)
  {
    hide OpOk, ApplyOp, ApplyLedger, NewRows;
  }

  lemma DispatcherSeen(s: Sys, d: Dispatch, ws: map<string, WorkerPc>)
    requires DisEnabled(s, d) && !d.Spawn? && s.workers == map[] && (d.Drained? ==> ws == map[])
    ensures DisEnabled(s.(workers := ws), d)
    ensures DisApply(s.(workers := ws), d) == DisApply(s, d).(workers := ws)
  {
    hide ApplyOp, ApplyLedger, PendingSessions, CountResets;
  }

  /** Each step of the machine is one step of the engine, and keeps the registry exact. */
  lemma StepSeen(m: Machine, s: Step)
    requires Inv(m) && Enabled(m, s)
    ensures Inv(Apply(m, s))
    ensures Engine.Enabled(Seen(m), ActionOf(m, s)) && Seen(Apply(m, s)) == Engine.Apply(Seen(m), ActionOf(m, s))
  {
    hide OutEnabled, DisEnabled, WorkEnabled, OutApply, DisApply, WorkApply, OnePerSession, PcOf, SpawnApply,
         WorkerApply;
    match s
    case ByOutside(o) =>
      OutsideSeen(m.shared, o, WorkersOf(m.registry, m.live));
      OutsideSeen(m.shared, o, map[]);
      NoneLive();
    case ByDispatcher(d) =>
      assert d.Drained? ==> WorkersOf(m.registry, m.live) == map[];
      DispatcherSeen(m.shared, d, WorkersOf(m.registry, m.live));
      DispatcherSeen(m.shared, d, map[]);
    case Spawning(w, g) => SpawnSeen(m, w, g);
    case ByWorker(g, k) => WorkerSeen(m, g, k);
  }

  // ---------- Whole runs ----------

  ghost predicate IsRun(m: Machine, run: seq<Step>)
    decreases |run|
  {
    run == [] || (Enabled(m, run[0]) && IsRun(Apply(m, run[0]), run[1..]))
  }

  ghost function End(m: Machine, run: seq<Step>): Machine
    requires IsRun(m, run)
    decreases |run|
  {
    if run == [] then m else End(Apply(m, run[0]), run[1..])
  }

  /** The run of the engine that a run of the machine is. */
  ghost function ActionsOf(m: Machine, run: seq<Step>): seq<Action>
    requires IsRun(m, run)
    decreases |run|
  {
    if run == [] then [] else [ActionOf(m, run[0])] + ActionsOf(Apply(m, run[0]), run[1..])
  }

  lemma {:induction false} RunSeen(m: Machine, run: seq<Step>)
    requires Inv(m) && IsRun(m, run)
    ensures Inv(End(m, run))
    ensures Engine.IsRun(Seen(m), ActionsOf(m, run)) && Engine.End(Seen(m), ActionsOf(m, run)) == Seen(End(m, run))
    decreases |run|
  {
    hide Inv, Seen, Enabled, Apply, ActionOf, Engine.Enabled, Engine.Apply;
    if run == [] {
    } else {
      StepSeen(m, run[0]);
      RunSeen(Apply(m, run[0]), run[1..]);
      assert ActionsOf(m, run)[1..] == ActionsOf(Apply(m, run[0]), run[1..]);
    }
  }

  lemma Starts(m: Machine)
    requires Init(m)
    ensures Inv(m) && Seen(m) == m.shared && Engine.Init(Seen(m))
  {
  }

  /**
   The refinement: from the start, every run of the goroutine machine is a run of the engine that
   ends in what the machine then looks like. So whatever holds in every reachable state of the
   engine holds of the goroutines.
   */
  lemma GoroutinesRunTheEngine(m: Machine, run: seq<Step>)
    requires Init(m) && IsRun(m, run)
    ensures Engine.Init(m.shared) && Engine.IsRun(m.shared, ActionsOf(m, run))
    ensures Inv(End(m, run)) && Engine.End(m.shared, ActionsOf(m, run)) == Seen(End(m, run))
  {
    Starts(m);
    hide *;
    RunSeen(m, run);
  }

  ghost predicate HoldsItsRow(s: Sys, w: string, pc: WorkerPc) {
    pc.Holding() ==>
      && pc.c.sessionId == w && pc.c.id in s.db.conts
      && SameRow(pc.c, s.db.conts[pc.c.id]) && s.db.conts[pc.c.id].state.Running?
  }

  lemma HeldByGoroutines(e: Machine, g: nat)
    requires Inv(e)
    requires forall w :: w in Seen(e).workers && Seen(e).workers[w].Holding() ==>
      var c := Seen(e).workers[w].c;
      && c.sessionId == w && c.id in Seen(e).db.conts
      && SameRow(c, Seen(e).db.conts[c.id]) && Seen(e).db.conts[c.id].state.Running?
    ensures g in e.live ==> HoldsItsRow(e.shared, e.live[g].session, e.live[g].pc)
  {
    if g in e.live {
      PcIs(e.live, g);
      hide PcOf, OnePerSession;
      assert Seen(e).workers[e.live[g].session] == e.live[g].pc;
    }
  }

  lemma NobodyLeft(e: Machine)
    requires Inv(e) && Seen(e).workers == map[]
    ensures e.live == map[]
  {
    assert Seen(e).workers.Keys == e.registry;
  }

  lemma HoldersDiffer(e: Machine, g: nat, h: nat)
    requires Inv(e) && g in e.live && h in e.live && g != h
    requires HoldsItsRow(e.shared, e.live[g].session, e.live[g].pc)
    requires HoldsItsRow(e.shared, e.live[h].session, e.live[h].pc)
    ensures e.live[g].session != e.live[h].session
    ensures e.live[g].pc.Holding() && e.live[h].pc.Holding() ==>
      e.live[g].pc.c.sessionId != e.live[h].pc.c.sessionId && e.live[g].pc.c.id != e.live[h].pc.c.id
  {
  }

  /**
   Per-session mutual exclusion, over every interleaving of scans, stale snapshots, goroutine
   exits, shutdown, crash and restart: no two live goroutines serve one session, the registry
   names exactly the served sessions, each row being executed is the one running row of its
   session, and no two goroutines execute rows of one session, let alone one row.
   */
  lemma MutualExclusion(m: Machine, run: seq<Step>, g: nat, h: nat)
    requires Init(m) && IsRun(m, run)
    ensures var e := End(m, run);
      && (forall w :: w in e.registry <==> exists x :: x in e.live && e.live[x].session == w)
      && WorkerSafety.OneRunning(e.shared.db.conts)
      && (g in e.live && e.live[g].pc.Holding() ==>
            var c := e.live[g].pc.c;
            c.sessionId == e.live[g].session && c.id in e.shared.db.conts && e.shared.db.conts[c.id].state.Running?)
      && (g in e.live && h in e.live && g != h ==>
            && e.live[g].session != e.live[h].session
            && (e.live[g].pc.Holding() && e.live[h].pc.Holding() ==>
                  e.live[g].pc.c.sessionId != e.live[h].pc.c.sessionId && e.live[g].pc.c.id != e.live[h].pc.c.id))
      && (e.shared.disp.Stopped? ==> e.live == map[])
  {
    hide Init, IsRun, End, ActionsOf, Engine.Init, Engine.IsRun, Engine.End, PcOf, SameRow, WorkerSafety.OneRunning;
    GoroutinesRunTheEngine(m, run);
    WorkerSafety.RunningRowsAreHeld(m.shared, ActionsOf(m, run));
    HeldByGoroutines(End(m, run), g);
    HeldByGoroutines(End(m, run), h);
    if End(m, run).shared.disp.Stopped? { NobodyLeft(End(m, run)); }
    if g in End(m, run).live && h in End(m, run).live && g != h { HoldersDiffer(End(m, run), g, h); }
  }
}
