/** Sums over finite maps, sizes under injections, and fresh names. */
module Counting {

  ghost function Total(m: map<string, nat>): nat
    decreases |m|
  {
    if m == map[] then 0
    else
      var k :| k in m;
      assert (m - {k}).Keys == m.Keys - {k};
      assert |m - {k}| == |(m - {k}).Keys| && |m| == |m.Keys|;
      m[k] + Total(m - {k})
  }

  lemma {:induction false} TotalSplit(m: map<string, nat>, k: string)
    requires k in m
    ensures Total(m) == m[k] + Total(m - {k})
    decreases |m|
  {
    var c :| c in m && Total(m) == m[c] + Total(m - {c});
    if c != k {
      Smaller(m, c);
      Smaller(m, k);
      TotalSplit(m - {c}, k);
      TotalSplit(m - {k}, c);
      assert m - {c} - {k} == m - {k} - {c};
    }
  }

  lemma Smaller(m: map<string, nat>, k: string)
    requires k in m
    ensures |m - {k}| < |m|
  {
    assert (m - {k}).Keys == m.Keys - {k};
    assert |m - {k}| == |(m - {k}).Keys| && |m| == |m.Keys|;
  }

  lemma TotalUpdate(m: map<string, nat>, k: string, v: nat)
    ensures Total(m[k := v]) == v + Total(m - {k})
  {
    TotalSplit(m[k := v], k);
    assert m[k := v] - {k} == m - {k};
  }

  lemma {:induction false} TotalMonotone(m: map<string, nat>, n: map<string, nat>)
    requires m.Keys == n.Keys
    requires forall k :: k in m ==> m[k] <= n[k]
    ensures Total(m) <= Total(n)
    decreases |m|
  {
    if m == map[] {
    } else {
      var k :| k in m;
      TotalSplit(m, k);
      TotalSplit(n, k);
      Smaller(m, k);
      assert (m - {k}).Keys == (n - {k}).Keys;
      TotalMonotone(m - {k}, n - {k});
    }
  }

  lemma {:induction false} TotalAllEqual(m: map<string, nat>, b: nat)
    requires forall k :: k in m ==> m[k] == b
    ensures Total(m) == |m| * b
    decreases |m|
  {
    if m == map[] {
    } else {
      var k :| k in m;
      TotalSplit(m, k);
      assert (m - {k}).Keys == m.Keys - {k};
      assert |m - {k}| == |(m - {k}).Keys| && |m| == |m.Keys|;
      TotalAllEqual(m - {k}, b);
      OneMore(|m - {k}|, b);
    }
  }

  lemma OneMore(n: nat, b: nat)
    ensures (n + 1) * b == n * b + b
  {
  }

  /** A set that maps injectively into another is no larger. */
  lemma {:induction false} InjectionSize(xs: set<string>, ys: set<string>, f: map<string, string>)
    requires xs <= f.Keys && forall x :: x in xs ==> f[x] in ys
    requires forall x, z :: x in xs && z in xs && f[x] == f[z] ==> x == z
    ensures |xs| <= |ys|
    decreases xs
  {
    if xs == {} {
    } else {
      var x :| x in xs;
      InjectionSize(xs - {x}, ys - {f[x]}, f);
    }
  }

  lemma {:induction false} ImageSize(xs: set<string>, f: map<string, string>, ys: set<string>)
    requires xs <= f.Keys && forall y :: y in ys ==> exists x :: x in xs && f[x] == y
    ensures |ys| <= |xs|
    decreases xs
  {
    if xs == {} {
      assert ys == {};
    } else {
      var x :| x in xs;
      forall y | y in ys - {f[x]} ensures exists z :: z in xs - {x} && f[z] == y {
        var z :| z in xs && f[z] == y;
        assert z in xs - {x};
      }
      ImageSize(xs - {x}, f, ys - {f[x]});
    }
  }

  // ---------- Fresh names ----------

  function Repeat(n: nat): (s: string)
    ensures |s| == n
  {
    seq(n, i => 'x')
  }

  lemma {:induction false} LongerThanAll(used: set<string>) returns (n: nat)
    ensures forall u :: u in used ==> |u| < n
    decreases used
  {
    n := 0;
    if used == {} {
    } else {
      var u :| u in used;
      var m := LongerThanAll(used - {u});
      n := if m > |u| then m else |u| + 1;
    }
  }
}
