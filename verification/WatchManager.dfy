/**
 The watch manager: one goroutine per watch id, tracked by a handle that is unique to each spawn.
 Start, Stop and goroutine exits interleave freely between their critical sections.
 */
module WatchManager {

  /** A spawn's handle; its number never recurs. */
  type Handle = nat

  datatype Manager = Manager(
    running: map<string, Handle>,   // watch id -> handle of the current spawn
    spawned: map<Handle, string>,   // every handle ever made, with its watch id
    stopping: set<Handle>,          // taken out by a Stop that has not called cancel yet
    cancelled: set<Handle>,
    finished: set<Handle>)          // deferred cleanup done

  datatype Step =
    | Start(id: string, h: Handle)
    | StopTakes(id: string)
    | StopCancels(h: Handle)
    | Finish(h: Handle)

  predicate Enabled(m: Manager, s: Step) {
    match s
    case Start(id, h) => h !in m.spawned
    case StopTakes(id) => true
    case StopCancels(h) => h in m.stopping
    case Finish(h) => h in m.spawned && h !in m.finished
  }

  /** Starting a running id and stopping an idle one do nothing. Cleanup removes the entry only if it is its own. */
  function Apply(m: Manager, s: Step): Manager
    requires Enabled(m, s)
  {
    match s
    case Start(id, h) =>
      if id in m.running then m
      else m.(running := m.running[id := h], spawned := m.spawned[h := id])
    case StopTakes(id) =>
      if id in m.running
      then m.(running := m.running - {id}, stopping := m.stopping + {m.running[id]})
      else m
    case StopCancels(h) => m.(stopping := m.stopping - {h}, cancelled := m.cancelled + {h})
    case Finish(h) =>
      var id := m.spawned[h];
      m.(running := if id in m.running && m.running[id] == h then m.running - {id} else m.running,
         finished := m.finished + {h})
  }

  const EMPTY := Manager(map[], map[], {}, {}, {})

  ghost predicate IsRun(m: Manager, run: seq<Step>)
    decreases |run|
  {
    run == [] || (Enabled(m, run[0]) && IsRun(Apply(m, run[0]), run[1..]))
  }

  ghost function End(m: Manager, run: seq<Step>): Manager
    requires IsRun(m, run)
    decreases |run|
  {
    if run == [] then m else End(Apply(m, run[0]), run[1..])
  }

  predicate Current(m: Manager, h: Handle)
    requires h in m.spawned
  {
    m.spawned[h] in m.running && m.running[m.spawned[h]] == h
  }

  /** Entries are live spawns of their own id; a live spawn without an entry is being stopped or has been. */
  ghost predicate Inv(m: Manager) {
    && (forall id :: id in m.running ==>
          m.running[id] in m.spawned && m.spawned[m.running[id]] == id && m.running[id] !in m.finished)
    && m.stopping + m.cancelled + m.finished <= m.spawned.Keys
    && (forall h :: h in m.spawned && h !in m.finished && !Current(m, h) ==> h in m.stopping || h in m.cancelled)
    && (forall h :: h in m.stopping || h in m.cancelled ==> !Current(m, h))
  }

  lemma StepKeeps(m: Manager, s: Step)
    requires Inv(m) && Enabled(m, s)
    ensures Inv(Apply(m, s))
  {
    var m' := Apply(m, s);
    forall h | h in m'.spawned && h !in m'.finished && !Current(m', h) ensures h in m'.stopping || h in m'.cancelled {
      if h in m.spawned { assert h !in m.finished; }
    }
  }

  lemma {:induction false} Always(m: Manager, run: seq<Step>)
    requires Inv(m) && IsRun(m, run)
    ensures Inv(End(m, run))
    decreases |run|
  {
    if run == [] {
    } else {
      StepKeeps(m, run[0]);
      Always(Apply(m, run[0]), run[1..]);
    }
  }

  /**
   No watcher is orphaned: in every interleaving, a spawn that has not finished is either the one
   the map holds for its id, or a Stop took it out and has cancelled it or is about to.
   */
  lemma NoOrphan(run: seq<Step>, h: Handle)
    requires IsRun(EMPTY, run) && h in End(EMPTY, run).spawned && h !in End(EMPTY, run).finished
    ensures var m := End(EMPTY, run);
      !Current(m, h) <==> h in m.stopping || h in m.cancelled
  {
    Always(EMPTY, run);
  }

  /**
   The map names live watchers only, each under its own id, and knows nothing of a spawn that has
   finished; a handle belongs to at most one id.
   */
  lemma EntriesAreLive(run: seq<Step>, id: string)
    requires IsRun(EMPTY, run) && id in End(EMPTY, run).running
    ensures var m := End(EMPTY, run);
      m.running[id] in m.spawned && m.spawned[m.running[id]] == id && m.running[id] !in m.finished
      && m.running[id] !in m.stopping && m.running[id] !in m.cancelled
  {
    Always(EMPTY, run);
    assert Current(End(EMPTY, run), End(EMPTY, run).running[id]);
  }

  /** What each step does to the map: starting a running id leaves it alone; stop and cleanup take out their own. */
  lemma StepsTouchOwnEntry(run: seq<Step>, s: Step, id: string)
    requires IsRun(EMPTY, run) && Enabled(End(EMPTY, run), s)
    ensures var m, m' := End(EMPTY, run), Apply(End(EMPTY, run), s);
      match s
      case Start(i, h) =>
        if i == id && id !in m.running then id in m'.running && m'.running[id] == h && h in m'.spawned
        else (id in m'.running <==> id in m.running) && (id in m.running ==> m'.running[id] == m.running[id])
      case StopTakes(i) =>
        && (i == id ==> id !in m'.running && (id in m.running ==> m.running[id] in m'.stopping))
        && (i != id ==>
              (id in m'.running <==> id in m.running) && (id in m.running ==> m'.running[id] == m.running[id]))
      case StopCancels(h) => m'.running == m.running && h in m'.cancelled
      case Finish(h) =>
        && (id in m'.running <==> id in m.running && m.running[id] != h)
        && (id in m'.running ==> m'.running[id] == m.running[id])
        && h in m'.finished
  {
    Always(EMPTY, run);
  }

  /** Stop and then Start of one id, with the old goroutine exiting last, leaves the new watcher in place. */
  lemma {:induction false} RestartSurvives(run: seq<Step>, id: string, renewed: Handle, later: seq<Step>)
    requires IsRun(EMPTY, run) && IsRun(End(EMPTY, run), [StopTakes(id), Start(id, renewed)] + later)
    requires forall i :: 0 <= i < |later| ==> later[i] != StopTakes(id) && later[i] != Finish(renewed)
    ensures var m := End(End(EMPTY, run), [StopTakes(id), Start(id, renewed)] + later);
      id in m.running && m.running[id] == renewed
  {
    var m0 := End(EMPTY, run);
    var all := [StopTakes(id), Start(id, renewed)] + later;
    Always(EMPTY, run);
    var m1 := Apply(m0, StopTakes(id));
    StepKeeps(m0, StopTakes(id));
    assert all[1..] == [Start(id, renewed)] + later && all[1..][1..] == later;
    StepKeeps(m1, Start(id, renewed));
    EntryStays(Apply(m1, Start(id, renewed)), id, renewed, later);
  }

  lemma {:induction false} EntryStays(m: Manager, id: string, h: Handle, run: seq<Step>)
    requires Inv(m) && IsRun(m, run) && id in m.running && m.running[id] == h
    requires forall i :: 0 <= i < |run| ==> run[i] != StopTakes(id) && run[i] != Finish(h)
    ensures id in End(m, run).running && End(m, run).running[id] == h
    decreases |run|
  {
    if run == [] {
    } else {
      StepKeeps(m, run[0]);
      EntryStays(Apply(m, run[0]), id, h, run[1..]);
    }
  }
}
