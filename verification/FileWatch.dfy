/** The trailing-edge file watcher: bursts of file-system events become at most one truthful emission each. */
module FileWatch {
  import opened Core

  datatype Kind = Created | Changed | Removed

  /** What the select loop can receive; `stat` and `added` are what the file system answers at that moment. */
  datatype Input =
    | TargetTouched            // create, write, remove or rename of the watched file
    | Ignored                  // chmod, siblings, watcher errors
    | TimerFires(stat: bool)   // the debounce timer, if one is running
    | ParentGone               // the parent directory was removed or renamed
    | ParentPoll(added: bool, stat: bool)  // one round of waiting for the parent to come back

  /** Where the loop stands: its belief, whether a burst is pending, and whether it waits for the parent. */
  datatype Loop = Loop(present: bool, timer: bool, waiting: bool)

  /** One input's effect on the loop, and what it emits. Inputs the loop cannot receive there have none. */
  function Step(l: Loop, i: Input): (Loop, Option<Kind>) {
    match i
    case TargetTouched => (if l.waiting then l else l.(timer := true), None)
    case Ignored => (l, None)
    case TimerFires(stat) =>
      if l.waiting || !l.timer then (l, None)
      else (l.(timer := false, present := stat), Report(l.present, stat))
    case ParentGone =>
      if l.waiting then (l, None)
      else (l.(present := false, waiting := true), if l.present then Some(Removed) else None)
    case ParentPoll(added, stat) =>
      if !l.waiting || !added then (l, None)
      else (l.(waiting := false, present := l.present || stat), if stat then Some(Created) else None)
  }

  function Report(before: bool, now: bool): Option<Kind> {
    if now then Some(if before then Changed else Created)
    else if before then Some(Removed)
    else None
  }

  function Start(stat: bool): Loop { Loop(stat, false, false) }

  function StartKinds(stat: bool): seq<Kind> { if stat then [Created] else [] }

  function Emit(k: Option<Kind>): seq<Kind> { if k.Some? then [k.value] else [] }

  function LoopAfter(stat: bool, inputs: seq<Input>): Loop {
    if inputs == [] then Start(stat) else Step(LoopAfter(stat, inputs[..|inputs| - 1]), inputs[|inputs| - 1]).0
  }

  function Trace(stat: bool, inputs: seq<Input>): seq<Kind> {
    if inputs == [] then StartKinds(stat)
    else
      var before := inputs[..|inputs| - 1];
      Trace(stat, before) + Emit(Step(LoopAfter(stat, before), inputs[|inputs| - 1]).1)
  }

  /** The watcher's loop, with its variables updated in place. */
  method RunFileWatch(initialStat: bool, inputs: seq<Input>) returns (out: seq<Kind>, believed: bool)
    ensures out == Trace(initialStat, inputs) && believed == LoopAfter(initialStat, inputs).present
    ensures Grammatical(out) && (believed <==> SaysPresent(out))
    ensures Sightings(inputs) + (if initialStat then 1 else 0) <= |out| <= 1 + Firings(inputs) + ParentInputs(inputs)
    ensures inputs != [] ==> LastIsReported(initialStat, inputs)
  {
    hide Grammatical, SaysPresent, BurstPending, ParentMissing, Sightings, Firings, ParentInputs, LastIsReported;
    var present, timer, waiting := false, false, false;
    out := [];
    if initialStat {
      present := true;
      out := [Created];
    }
    for n := 0 to |inputs|
      invariant Loop(present, timer, waiting) == LoopAfter(initialStat, inputs[..n])
      invariant out == Trace(initialStat, inputs[..n])
    {
      assert inputs[..n + 1][..n] == inputs[..n];
      match inputs[n] {
        case TargetTouched =>
          if !waiting { timer := true; }
        case Ignored =>
        case TimerFires(stat) =>
          if timer && !waiting {
            timer := false;
            if stat && !present { out := out + [Created]; }
            else if stat && present { out := out + [Changed]; }
            else if !stat && present { out := out + [Removed]; }
            present := stat;
          }
        case ParentGone =>
          if !waiting {
            if present {
              present := false;
              out := out + [Removed];
            }
            waiting := true;
          }
        case ParentPoll(added, stat) =>
          if waiting && added {
            if stat {
              present := true;
              out := out + [Created];
            }
            waiting := false;
          }
      }
    }
    assert inputs[..|inputs|] == inputs;
    believed := present;
    TraceTells(initialStat, inputs);
  }

  lemma TraceTells(stat: bool, inputs: seq<Input>)
    ensures var out := Trace(stat, inputs);
      && Grammatical(out) && (LoopAfter(stat, inputs).present <==> SaysPresent(out))
      && Sightings(inputs) + (if stat then 1 else 0) <= |out| <= 1 + Firings(inputs) + ParentInputs(inputs)
      && (inputs != [] ==> LastIsReported(stat, inputs))
  {
    hide Grammatical, SaysPresent, BurstPending, ParentMissing, Sightings, Firings, ParentInputs, LoopAfter, Trace;
    TraceIsGrammatical(stat, inputs);
    OneEmissionPerBurst(stat, inputs);
    EverySightingIsReported(stat, inputs);
    if inputs != [] {
      assert inputs[..|inputs| - 1] + [inputs[|inputs| - 1]] == inputs;
      WatcherReports(stat, inputs[..|inputs| - 1], inputs[|inputs| - 1]);
    }
  }

  /** If the last input was a firing that finds the file there, the trace ends with it. */
  ghost predicate LastIsReported(stat: bool, inputs: seq<Input>)
    requires inputs != []
  {
    var before, out := inputs[..|inputs| - 1], Trace(stat, inputs);
    inputs[|inputs| - 1] == TimerFires(true) && BurstPending(before) && !ParentMissing(before) ==>
      out != [] && out[|out| - 1] == if SaysPresent(Trace(stat, before)) then Changed else Created
  }

  // ---------- The grammar of the trace ----------

  /** "Created" stands exactly at the start and after each "removed". */
  predicate Fits(out: seq<Kind>, i: nat)
    requires i < |out|
  {
    out[i].Created? <==> (i == 0 || out[i - 1].Removed?)
  }

  /** A prefix of (created changed* removed)*. */
  predicate Grammatical(out: seq<Kind>) {
    forall i :: 0 <= i < |out| ==> Fits(out, i)
  }

  predicate SaysPresent(out: seq<Kind>) { out != [] && !out[|out| - 1].Removed? }

  /** While the loop waits for the parent, the file counts as absent. */
  lemma {:induction false} WaitingMeansAbsent(stat: bool, inputs: seq<Input>)
    ensures LoopAfter(stat, inputs).waiting ==> !LoopAfter(stat, inputs).present
    decreases |inputs|
  {
    if inputs == [] {
    } else {
      WaitingMeansAbsent(stat, inputs[..|inputs| - 1]);
    }
  }

  /** Over every input sequence: the trace is grammatical, and the belief is what the last emission says. */
  lemma {:induction false} TraceIsGrammatical(stat: bool, inputs: seq<Input>)
    ensures Grammatical(Trace(stat, inputs))
    ensures LoopAfter(stat, inputs).present <==> SaysPresent(Trace(stat, inputs))
    decreases |inputs|
  {
    if inputs == [] {
    } else {
      var before := inputs[..|inputs| - 1];
      TraceIsGrammatical(stat, before);
      WaitingMeansAbsent(stat, before);
      EmissionFits(LoopAfter(stat, before), inputs[|inputs| - 1], Trace(stat, before));
    }
  }

  lemma EmissionFits(l: Loop, i: Input, out: seq<Kind>)
    requires Grammatical(out) && (l.present <==> SaysPresent(out)) && (l.waiting ==> !l.present)
    ensures var all := out + Emit(Step(l, i).1); Grammatical(all) && (Step(l, i).0.present <==> SaysPresent(all))
  {
    var k := Step(l, i).1;
    if k.Some? {
      OneMoreKind(out, k.value);
    } else {
      assert out + [] == out;
    }
    hide Grammatical;
  }

  lemma OneMoreKind(out: seq<Kind>, k: Kind)
    requires Grammatical(out) && (k.Created? <==> !SaysPresent(out))
    ensures Grammatical(out + [k])
  {
    var all := out + [k];
    forall i | 0 <= i < |all| ensures Fits(all, i) {
      if i < |out| { assert Fits(out, i); }
    }
  }

  // ---------- One emission per burst, and a true one ----------

  function Firings(inputs: seq<Input>): nat {
    if inputs == [] then 0
    else Firings(inputs[..|inputs| - 1]) + (if inputs[|inputs| - 1].TimerFires? then 1 else 0)
  }

  function Touches(inputs: seq<Input>): nat {
    if inputs == [] then 0
    else Touches(inputs[..|inputs| - 1]) + (if inputs[|inputs| - 1].TargetTouched? then 1 else 0)
  }

  function ParentInputs(inputs: seq<Input>): nat {
    if inputs == [] then 0
    else ParentInputs(inputs[..|inputs| - 1])
         + (if inputs[|inputs| - 1].ParentGone? || inputs[|inputs| - 1].ParentPoll? then 1 else 0)
  }

  /**
   The initial check aside, emissions come only from timer firings and the parent's coming and
   going, one each; and a burst, however long, pays for one firing.
   */
  lemma {:induction false} OneEmissionPerBurst(stat: bool, inputs: seq<Input>)
    ensures |Trace(stat, inputs)| <= 1 + Firings(inputs) + ParentInputs(inputs)
    ensures |Trace(stat, inputs)| + (if LoopAfter(stat, inputs).timer then 1 else 0)
         <= 1 + Touches(inputs) + ParentInputs(inputs)
    decreases |inputs|
  {
    if inputs == [] {
    } else {
      OneEmissionPerBurst(stat, inputs[..|inputs| - 1]);
    }
  }

  /**
   When a burst has gone quiet the trace tells the truth: it ends in "removed" (or is empty)
   exactly if the file is gone.
   */
  lemma FiringTellsTheTruth(stat: bool, inputs: seq<Input>, now: bool)
    requires LoopAfter(stat, inputs).timer && !LoopAfter(stat, inputs).waiting
    ensures SaysPresent(Trace(stat, inputs + [TimerFires(now)])) <==> now
  {
    var all := inputs + [TimerFires(now)];
    assert all[..|all| - 1] == inputs;
    TraceIsGrammatical(stat, all);
  }

  // ---------- What each input emits, told from the inputs and the trace alone ----------

  /** The parent directory went, and no poll has found it again since. */
  ghost predicate ParentMissing(inputs: seq<Input>) {
    exists i :: 0 <= i < |inputs| && inputs[i].ParentGone? && ParentNotBack(inputs, i)
  }

  predicate ParentNotBack(inputs: seq<Input>, i: nat) {
    forall j :: i < j < |inputs| ==> !(inputs[j].ParentPoll? && inputs[j].added)
  }

  /** The file was touched, and the timer has not fired since, but for firings while the parent was missing. */
  ghost predicate BurstPending(inputs: seq<Input>) {
    exists i :: 0 <= i < |inputs| && inputs[i].TargetTouched? && !ParentMissing(inputs[..i]) && NotFired(inputs, i)
  }

  ghost predicate NotFired(inputs: seq<Input>, i: nat) {
    forall j :: i < j < |inputs| && inputs[j].TimerFires? ==> ParentMissing(inputs[..j])
  }

  lemma MissingAfter(inputs: seq<Input>, i: Input)
    ensures ParentMissing(inputs + [i]) <==> i.ParentGone? || (ParentMissing(inputs) && !(i.ParentPoll? && i.added))
  {
    var all, n := inputs + [i], |inputs|;
    if ParentMissing(all) {
      var k :| 0 <= k < |all| && all[k].ParentGone? && ParentNotBack(all, k);
      if k < n {
        assert all[n] == i;
        assert forall j :: k < j < n ==> all[j] == inputs[j];
        assert ParentNotBack(inputs, k);
      }
    }
    if i.ParentGone? {
      assert all[n].ParentGone? && ParentNotBack(all, n);
    } else if ParentMissing(inputs) && !(i.ParentPoll? && i.added) {
      var k :| 0 <= k < n && inputs[k].ParentGone? && ParentNotBack(inputs, k);
      assert all[k].ParentGone? && ParentNotBack(all, k);
    }
  }

  lemma PendingAfter(inputs: seq<Input>, i: Input)
    ensures BurstPending(inputs + [i]) <==>
      if i.TargetTouched? && !ParentMissing(inputs) then true
      else BurstPending(inputs) && (i.TimerFires? ==> ParentMissing(inputs))
  {
    var all, n := inputs + [i], |inputs|;
    assert forall j :: 0 <= j <= n ==> all[..j] == inputs[..j];
    assert inputs[..n] == inputs;
    hide ParentMissing;
    if BurstPending(all) {
      var k :| 0 <= k < |all| && all[k].TargetTouched? && !ParentMissing(all[..k]) && NotFired(all, k);
      if k < n {
        assert all[n] == i && NotFired(inputs, k);
      }
    }
    if i.TargetTouched? && !ParentMissing(inputs) {
      assert all[n].TargetTouched? && NotFired(all, n);
    } else if BurstPending(inputs) && (i.TimerFires? ==> ParentMissing(inputs)) {
      var k :| 0 <= k < n && inputs[k].TargetTouched? && !ParentMissing(inputs[..k]) && NotFired(inputs, k);
      assert all[k].TargetTouched? && NotFired(all, k);
    }
  }

  lemma NothingYet()
    ensures !ParentMissing([]) && !BurstPending([])
  {
  }

  /** Where the loop stands is what the inputs say. */
  lemma {:induction false} LoopMeans(stat: bool, inputs: seq<Input>)
    ensures LoopAfter(stat, inputs).waiting <==> ParentMissing(inputs)
    ensures LoopAfter(stat, inputs).timer <==> BurstPending(inputs)
    decreases |inputs|
  {
    hide ParentMissing, BurstPending, Step;
    if inputs == [] {
      NothingYet();
    } else {
      var before, i := inputs[..|inputs| - 1], inputs[|inputs| - 1];
      assert before + [i] == inputs;
      LoopMeans(stat, before);
      MissingAfter(before, i);
      PendingAfter(before, i);
      LoopMoves(LoopAfter(stat, before), i);
    }
  }

  lemma LoopMoves(l: Loop, i: Input)
    ensures var next := Step(l, i).0;
      && (next.waiting <==> i.ParentGone? || (l.waiting && !(i.ParentPoll? && i.added)))
      && (next.timer <==>
            if i.TargetTouched? && !l.waiting then true else l.timer && (i.TimerFires? ==> l.waiting))
  {
  }

  /**
   What is emitted for an input, whatever came before: a firing after a burst says "changed" if the
   file was there and is there, "created" if it has come, "removed" if it has gone, and nothing if it
   was not there before and is not there now; losing the parent says "removed" if the file was there;
   finding it again says "created" if the file is there; nothing else says anything.
   */
  lemma WatcherReports(stat: bool, inputs: seq<Input>, i: Input)
    ensures Trace(stat, []) == if stat then [Created] else []
    ensures var out, was := Trace(stat, inputs), SaysPresent(Trace(stat, inputs));
      match i
      case TimerFires(now) =>
        Trace(stat, inputs + [i]) ==
          if !BurstPending(inputs) || ParentMissing(inputs) then out
          else if was && now then out + [Changed]
          else if !was && now then out + [Created]
          else if was && !now then out + [Removed]
          else out
      case ParentGone =>
        Trace(stat, inputs + [i]) == if was && !ParentMissing(inputs) then out + [Removed] else out
      case ParentPoll(added, now) =>
        Trace(stat, inputs + [i]) == if ParentMissing(inputs) && added && now then out + [Created] else out
      case _ => Trace(stat, inputs + [i]) == out
  {
    var all := inputs + [i];
    assert all[..|all| - 1] == inputs && all[|all| - 1] == i;
    LoopMeans(stat, inputs);
    TraceIsGrammatical(stat, inputs);
    hide ParentMissing, BurstPending, SaysPresent, Grammatical;
    assert Trace(stat, inputs) + [] == Trace(stat, inputs);
  }

  /** Firings after a burst that find the file there. */
  ghost function Sightings(inputs: seq<Input>): nat {
    if inputs == [] then 0
    else
      var before := inputs[..|inputs| - 1];
      Sightings(before)
        + (if inputs[|inputs| - 1] == TimerFires(true) && BurstPending(before) && !ParentMissing(before) then 1 else 0)
  }

  /** No sighting goes unreported: each of them, and the initial one, has its emission. */
  lemma {:induction false} EverySightingIsReported(stat: bool, inputs: seq<Input>)
    ensures |Trace(stat, inputs)| >= Sightings(inputs) + (if stat then 1 else 0)
    decreases |inputs|
  {
    if inputs == [] {
    } else {
      var before, i := inputs[..|inputs| - 1], inputs[|inputs| - 1];
      assert before + [i] == inputs;
      EverySightingIsReported(stat, before);
      WatcherReports(stat, before, i);
    }
  }
}
