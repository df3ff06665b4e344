/** The flap-suppressing poller: the initial state, then only transitions that held for the stability threshold. */
module Poller {
  import opened Core

  /** One probe: what it observed, and the clock read after it. */
  datatype Sample = Sample(up: bool, at: Instant)

  /** An emission: which sample caused it, and the state it reports. */
  datatype Emission = Emission(index: nat, up: bool)

  // ---------- What should be emitted ----------

  /** The start of the unbroken run of samples differing from `up` that ends at k, looking back no further than j. */
  function RunStart(samples: seq<Sample>, up: bool, j: nat, k: nat): (i: nat)
    requires j < k < |samples| && samples[k].up != up
    ensures j < i <= k
    ensures forall m :: i <= m <= k ==> samples[m].up != up
    ensures i == j + 1 || samples[i - 1].up == up
  {
    if k - 1 > j && samples[k - 1].up != up then RunStart(samples, up, j, k - 1) else k
  }

  /** Sample k ends a run, since the emission `last`, that contradicts it for at least the threshold. */
  predicate Due(samples: seq<Sample>, threshold: int, last: Emission, k: nat)
    requires last.index < k < |samples|
  {
    && samples[k].up != last.up
    && samples[k].at - samples[RunStart(samples, last.up, last.index, k)].at >= threshold
  }

  /** No sample before position n is due after `last`. */
  ghost predicate NoneDue(samples: seq<Sample>, threshold: int, last: Emission, n: nat)
    requires n <= |samples|
  {
    forall k :: last.index < k < n ==> !Due(samples, threshold, last, k)
  }

  /** `e` is the first due emission after `last`. */
  ghost predicate Next(samples: seq<Sample>, threshold: int, last: Emission, e: Emission) {
    && last.index < e.index < |samples|
    && e.up == !last.up
    && Due(samples, threshold, last, e.index)
    && NoneDue(samples, threshold, last, e.index)
  }

  ghost predicate Linked(samples: seq<Sample>, threshold: int, out: seq<Emission>) {
    forall m :: 0 <= m < |out| - 1 ==> Next(samples, threshold, out[m], out[m + 1])
  }

  /** Exactly the emissions that the first n samples call for. */
  ghost predicate Correct(samples: seq<Sample>, threshold: int, n: nat, out: seq<Emission>)
    requires 1 <= n <= |samples|
  {
    && out != [] && out[0] == Emission(0, samples[0].up)
    && Linked(samples, threshold, out)
    && out[|out| - 1].index < n
    && NoneDue(samples, threshold, out[|out| - 1], n)
  }

  // ---------- The loop ----------

  /** Runs until the samples end, that is until the watch is cancelled. */
  method RunPoller(samples: seq<Sample>, threshold: int) returns (out: seq<Emission>)
    requires samples != []
    ensures Correct(samples, threshold, |samples|, out)
  {
    hide RunStart, Correct;
    var current := samples[0].up;
    out := [Emission(0, current)];
    ghost var last := out[0];
    FirstSample(samples, threshold);
    var pending: Option<bool> := None;
    var pendingSince := 0;
    var n := 1;
    while n < |samples|
      invariant 1 <= n <= |samples|
      invariant out != [] && last == out[|out| - 1] && Correct(samples, threshold, n, out)
      invariant current == last.up && last.index < n
      invariant pending.Some? <==> n - 1 > last.index && samples[n - 1].up != current
      invariant pending.Some? ==>
        pending.value != current && pendingSince == samples[RunStart(samples, current, last.index, n - 1)].at
    {
      var got := samples[n].up;
      if got == current {
        pending := None;
        Quiet(samples, threshold, n, out);
      } else {
        var now := samples[n].at;
        RunGrows(samples, current, last.index, n);
        if pending.None? || pending.value != got {
          pending, pendingSince := Some(got), now;
        }
        if now - pendingSince >= threshold {
          current, pending := got, None;
          Extend(samples, threshold, n, out, Emission(n, got));
          last := Emission(n, got);
          out := out + [Emission(n, current)];
        } else {
          Quiet(samples, threshold, n, out);
        }
      }
      n := n + 1;
    }
  }

  /** A run that ends at sample n started where the one ending before it did, or starts there. */
  lemma RunGrows(samples: seq<Sample>, up: bool, j: nat, n: nat)
    requires j < n < |samples| && samples[n].up != up
    ensures RunStart(samples, up, j, n) ==
      if n - 1 > j && samples[n - 1].up != up then RunStart(samples, up, j, n - 1) else n
  {
  }

  lemma FirstSample(samples: seq<Sample>, threshold: int)
    requires samples != []
    ensures Correct(samples, threshold, 1, [Emission(0, samples[0].up)])
  {
  }

  lemma Quiet(samples: seq<Sample>, threshold: int, n: nat, out: seq<Emission>)
    requires 1 <= n < |samples| && Correct(samples, threshold, n, out) && !Due(samples, threshold, out[|out| - 1], n)
    ensures Correct(samples, threshold, n + 1, out)
  {
    hide Due;
  }

  lemma Extend(samples: seq<Sample>, threshold: int, n: nat, out: seq<Emission>, e: Emission)
    requires 1 <= n < |samples| && Correct(samples, threshold, n, out)
    requires e == Emission(n, !out[|out| - 1].up) && Due(samples, threshold, out[|out| - 1], n)
    ensures Correct(samples, threshold, n + 1, out + [e])
  {
    assert Next(samples, threshold, out[|out| - 1], e);
  }

  // ---------- What it means ----------

  /** The samples from i to k all differ from `up`, and that run begins after j or after a sample that agreed. */
  ghost predicate RunsFrom(samples: seq<Sample>, up: bool, j: nat, i: int, k: int) {
    && j < i <= k < |samples|
    && (forall m :: i <= m <= k ==> samples[m].up != up)
    && (i == j + 1 || samples[i - 1].up == up)
  }

  lemma OneStart(samples: seq<Sample>, up: bool, j: nat, i: int, k: nat)
    requires j < k < |samples| && samples[k].up != up && RunsFrom(samples, up, j, i, k)
    ensures i == RunStart(samples, up, j, k)
  {
  }

  /** Sample k is due after the emission `last` if and only if it ends such a run that spans the threshold. */
  lemma DueMeans(samples: seq<Sample>, threshold: int, last: Emission, k: nat)
    requires last.index < k < |samples|
    ensures Due(samples, threshold, last, k) <==>
      exists i :: RunsFrom(samples, last.up, last.index, i, k) && samples[k].at - samples[i].at >= threshold
  {
    if samples[k].up != last.up {
      assert RunsFrom(samples, last.up, last.index, RunStart(samples, last.up, last.index, k), k);
      forall i | RunsFrom(samples, last.up, last.index, i, k) ensures i == RunStart(samples, last.up, last.index, k) {
        OneStart(samples, last.up, last.index, i, k);
      }
    }
  }

  /**
   Consecutive emissions: the later one reports a change that has held for the threshold, and no
   sample in between ended such a run. The first emission is the first sample's state.
   */
  lemma EmissionsHold(samples: seq<Sample>, threshold: int, n: nat, out: seq<Emission>, m: nat)
    requires 1 <= n <= |samples| && Correct(samples, threshold, n, out) && m + 1 < |out|
    ensures out[0] == Emission(0, samples[0].up)
    ensures var a, b := out[m], out[m + 1];
      && a.index < b.index < |samples| && b.up != a.up && samples[b.index].up == b.up
      && (exists i :: RunsFrom(samples, a.up, a.index, i, b.index) && samples[b.index].at - samples[i].at >= threshold)
      && (forall i, k :: k < b.index && RunsFrom(samples, a.up, a.index, i, k) ==>
            samples[k].at - samples[i].at < threshold)
  {
    var a, b := out[m], out[m + 1];
    assert Next(samples, threshold, a, b);
    NextHolds(samples, threshold, a, b);
  }

  lemma NextHolds(samples: seq<Sample>, threshold: int, a: Emission, b: Emission)
    requires Next(samples, threshold, a, b)
    ensures samples[b.index].up == b.up
    ensures exists i :: RunsFrom(samples, a.up, a.index, i, b.index) && samples[b.index].at - samples[i].at >= threshold
    ensures forall i, k :: k < b.index && RunsFrom(samples, a.up, a.index, i, k) ==>
      samples[k].at - samples[i].at < threshold
  {
    DueMeans(samples, threshold, a, b.index);
    forall i, k | k < b.index && RunsFrom(samples, a.up, a.index, i, k)
      ensures samples[k].at - samples[i].at < threshold
    {
      assert !Due(samples, threshold, a, k);
      DueMeans(samples, threshold, a, k);
    }
  }

  /** The specification leaves no choice: there is one correct answer. */
  lemma OneCorrectAnswer(samples: seq<Sample>, threshold: int, n: nat,
                         a: seq<Emission>, b: seq<Emission>)
    requires 1 <= n <= |samples| && Correct(samples, threshold, n, a) && Correct(samples, threshold, n, b)
    ensures a == b
  {
    var m := if |a| < |b| then |a| else |b|;
    forall k | 0 <= k < m ensures a[k] == b[k] { SameEmission(samples, threshold, n, a, b, k); }
    if |a| <= |b| { NoMore(samples, threshold, n, a, b); } else { NoMore(samples, threshold, n, b, a); }
  }

  /** A due sample decides the next emission. */
  lemma NextIsUnique(samples: seq<Sample>, threshold: int, last: Emission, x: Emission, y: Emission)
    requires Next(samples, threshold, last, x) && Next(samples, threshold, last, y)
    ensures x == y
  {
    hide Due;
  }

  lemma {:induction false} SameEmission(samples: seq<Sample>, threshold: int, n: nat,
                                        a: seq<Emission>, b: seq<Emission>, k: nat)
    requires 1 <= n <= |samples| && Correct(samples, threshold, n, a) && Correct(samples, threshold, n, b)
    requires k < |a| && k < |b|
    ensures a[k] == b[k]
  {
    hide Next, NoneDue;
    if k == 0 {
    } else {
      SameEmission(samples, threshold, n, a, b, k - 1);
      assert Next(samples, threshold, a[k - 1], a[k]) && Next(samples, threshold, b[k - 1], b[k]);
      NextIsUnique(samples, threshold, a[k - 1], a[k], b[k]);
    }
  }

  /** One answer cannot be a proper prefix of the other: the next emission would be due in both. */
  lemma NoMore(samples: seq<Sample>, threshold: int, n: nat, a: seq<Emission>, b: seq<Emission>)
    requires 1 <= n <= |samples| && Correct(samples, threshold, n, a) && Correct(samples, threshold, n, b)
    requires |a| <= |b| && a[|a| - 1] == b[|a| - 1]
    ensures |a| == |b|
  {
    if |a| < |b| {
      LinkedAt(samples, threshold, b, |a| - 1);
      Within(samples, threshold, n, b, |a|);
    }
  }

  lemma LinkedAt(samples: seq<Sample>, threshold: int, out: seq<Emission>, m: nat)
    requires Linked(samples, threshold, out) && m + 1 < |out|
    ensures Next(samples, threshold, out[m], out[m + 1])
  {
  }

  lemma {:induction false} Within(samples: seq<Sample>, threshold: int, n: nat, out: seq<Emission>, m: nat)
    requires 1 <= n <= |samples| && Correct(samples, threshold, n, out) && m < |out|
    ensures out[m].index < n
    decreases |out| - m
  {
    if m + 1 == |out| {
    } else {
      Within(samples, threshold, n, out, m + 1);
      assert Next(samples, threshold, out[m], out[m + 1]);
    }
  }

  /** Emissions alternate, and report what was observed. */
  lemma {:induction false} Alternates(samples: seq<Sample>, threshold: int, n: nat, out: seq<Emission>, m: nat)
    requires 1 <= n <= |samples| && Correct(samples, threshold, n, out) && m < |out|
    ensures out[m].index < |samples| && out[m].up == samples[out[m].index].up
    ensures m + 1 < |out| ==> out[m + 1].up != out[m].up && out[m].index < out[m + 1].index
  {
    if m == 0 {
    } else {
      assert Next(samples, threshold, out[m - 1], out[m]);
    }
    if m + 1 < |out| { assert Next(samples, threshold, out[m], out[m + 1]); }
  }

  predicate Emitted(out: seq<Emission>, k: nat) {
    exists m :: 0 <= m < |out| && out[m].index == k
  }

  /** Between two emissions, with no threshold, nothing changes. */
  lemma {:induction false} FlatUntilDue(samples: seq<Sample>, threshold: int, last: Emission, k: nat)
    requires threshold <= 0 && last.index <= k < |samples| && samples[last.index].up == last.up
    requires NoneDue(samples, threshold, last, k + 1)
    ensures samples[k].up == last.up
    decreases k
  {
    if k == last.index {
    } else {
      FlatUntilDue(samples, threshold, last, k - 1);
      DueIsEdge(samples, threshold, last, k);
    }
  }

  lemma DueIsEdge(samples: seq<Sample>, threshold: int, last: Emission, k: nat)
    requires threshold <= 0 && last.index < k < |samples| && samples[k - 1].up == last.up
    ensures Due(samples, threshold, last, k) <==> samples[k].up != samples[k - 1].up
  {
    assert samples[k].up != last.up ==> RunStart(samples, last.up, last.index, k) == k;
  }

  /** Without a threshold the emissions are exactly the edges of the observed signal. */
  lemma ZeroThresholdGivesEdges(samples: seq<Sample>, threshold: int, out: seq<Emission>, k: nat)
    requires samples != [] && threshold <= 0 && Correct(samples, threshold, |samples|, out) && 0 < k < |samples|
    ensures Emitted(out, k) <==> samples[k].up != samples[k - 1].up
  {
    var m := LastBefore(samples, threshold, out, k);
    Alternates(samples, threshold, |samples|, out, m);
    assert m + 1 < |out| ==> Next(samples, threshold, out[m], out[m + 1]);
    FlatUntilDue(samples, threshold, out[m], k - 1);
    DueIsEdge(samples, threshold, out[m], k);
    assert Due(samples, threshold, out[m], k) <==> m + 1 < |out| && out[m + 1].index == k;
    forall j | 0 <= j < |out| && out[j].index == k ensures j == m + 1 {
      if j <= m { Increasing(samples, threshold, out, j, m); } else { Increasing(samples, threshold, out, m + 1, j); }
    }
  }

  lemma {:induction false} Increasing(samples: seq<Sample>, threshold: int, out: seq<Emission>, i: nat, j: nat)
    requires samples != [] && Correct(samples, threshold, |samples|, out) && i <= j < |out|
    ensures out[i].index <= out[j].index && (i < j ==> out[i].index < out[j].index)
    decreases j - i
  {
    if i == j {
    } else {
      assert Next(samples, threshold, out[j - 1], out[j]);
      Increasing(samples, threshold, out, i, j - 1);
    }
  }

  /** The last emission caused before sample k. */
  lemma LastBefore(samples: seq<Sample>, threshold: int, out: seq<Emission>, k: nat) returns (m: nat)
    requires samples != [] && Correct(samples, threshold, |samples|, out) && 0 < k < |samples|
    ensures m < |out| && out[m].index < k && (m + 1 < |out| ==> out[m + 1].index >= k)
  {
    m := 0;
    while m + 1 < |out| && out[m + 1].index < k
      invariant m < |out| && out[m].index < k
    {
      m := m + 1;
    }
  }
}
