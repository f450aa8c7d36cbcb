/**
 * The Nelder-Mead downhill simplex minimiser: build a simplex of N + 1
 * vertices around the starting point, keep the vertices ordered by their
 * objective values, and on each iteration replace the worst vertex by a
 * reflected, expanded or contracted point, or shrink the whole simplex
 * towards the best vertex, until the simplex is small enough or a budget
 * of iterations or objective calls is spent.
 *
 * The objective is any real function of a point; only the bookkeeping of
 * the simplex is modelled, and arithmetic is exact.
 */
module Optimize {
  import opened Wrappers
  import opened Matrices

  /** Reflection, expansion, contraction and shrink coefficients. */
  const Rho: real := 1.0
  const Chi: real := 2.0
  const Psi: real := 0.5
  const Sigma: real := 0.5
  /** Relative step of the initial simplex, and its step for a zero coordinate. */
  const NonzDelt: real := 0.05
  const ZDelt: real := 0.00025

  datatype FminError = EmptySimplex

  /** The minimiser's answer: the best vertex, its value, the warning flag and the two counters. */
  datatype FminResult = FminResult(x: Vector, fval: real, warnflag: nat, iterations: nat, funcalls: nat)

  /** Both budgets default to 200 N. */
  function Budget(given: Option<int>, N: nat): (b: int)
    ensures given.None? ==> b == 200 * N
    ensures given.Some? ==> b == given.value
  {
    if given.Some? then given.value else N * 200
  }

  // ---------------------------------------------------------------------
  // Vectors

  /** a x + b y */
  function Comb(a: real, x: Vector, b: real, y: Vector): (z: Vector)
    requires |x| == |y|
    ensures |z| == |x|
  {
    seq(|x|, k requires 0 <= k < |x| => a * x[k] + b * y[k])
  }

  /** Sum of coordinate k over the given vertices. */
  function ColumnSum(rows: seq<Vector>, k: nat): real
    requires forall i :: 0 <= i < |rows| ==> k < |rows[i]|
  {
    if |rows| == 0 then 0.0 else ColumnSum(rows[..|rows| - 1], k) + rows[|rows| - 1][k]
  }

  /** The largest element of a non-empty sequence. */
  function MaxSeq(s: seq<real>): (m: real)
    requires |s| > 0
    ensures forall i :: 0 <= i < |s| ==> s[i] <= m
  {
    if |s| == 1 then s[0]
    else
      var m := MaxSeq(s[..|s| - 1]);
      assert forall i :: 0 <= i < |s| - 1 ==> s[..|s| - 1][i] == s[i];
      if s[|s| - 1] > m then s[|s| - 1] else m
  }

  /** The maximum is one of the elements. */
  lemma {:induction false} MaxSeqAttained(s: seq<real>)
    requires |s| > 0
    ensures exists i :: 0 <= i < |s| && MaxSeq(s) == s[i]
  {
    if |s| > 1 {
      var front := s[..|s| - 1];
      MaxSeqAttained(front);
      var i :| 0 <= i < |front| && MaxSeq(front) == front[i];
      if s[|s| - 1] > MaxSeq(front) {
        assert MaxSeq(s) == s[|s| - 1];
      } else {
        assert front[i] == s[i];
        assert MaxSeq(s) == s[i];
      }
    } else {
      assert MaxSeq(s) == s[0];
    }
  }

  /** The smallest element of a non-empty sequence. */
  function MinSeq(s: seq<real>): (m: real)
    requires |s| > 0
    ensures forall i :: 0 <= i < |s| ==> m <= s[i]
    ensures exists i :: 0 <= i < |s| && m == s[i]
  {
    if |s| == 1 then s[0]
    else
      var m := MinSeq(s[..|s| - 1]);
      assert forall i :: 0 <= i < |s| - 1 ==> s[..|s| - 1][i] == s[i];
      if s[|s| - 1] < m then s[|s| - 1] else m
  }

  // ---------------------------------------------------------------------
  // The simplex

  /** N + 1 vertices of dimension N with one value each. */
  predicate IsSimplex(sim: seq<Vector>, fsim: seq<real>, N: nat) {
    |sim| == N + 1 && |fsim| == N + 1 && forall i :: 0 <= i < |sim| ==> |sim[i]| == N
  }

  /** Every value is the objective at its vertex. */
  predicate Consistent(func: Vector -> real, sim: seq<Vector>, fsim: seq<real>)
    requires |sim| == |fsim|
  {
    forall i :: 0 <= i < |sim| ==> fsim[i] == func(sim[i])
  }

  /** The objective at every vertex. */
  function Values(func: Vector -> real, sim: seq<Vector>): (fsim: seq<real>)
    ensures |fsim| == |sim| && Consistent(func, sim, fsim)
  {
    seq(|sim|, i requires 0 <= i < |sim| => func(sim[i]))
  }

  /** Consistent values are the objective's values. */
  lemma ConsistentValues(func: Vector -> real, sim: seq<Vector>, fsim: seq<real>)
    requires |sim| == |fsim| && Consistent(func, sim, fsim)
    ensures fsim == Values(func, sim)
  {
    assert forall i :: 0 <= i < |fsim| ==> fsim[i] == Values(func, sim)[i];
  }

  /** Values in ascending order. */
  predicate Ascending(fsim: seq<real>) {
    forall i, j :: 0 <= i < j < |fsim| ==> fsim[i] <= fsim[j]
  }

  /** Initial vertex k + 1: x0 with coordinate k scaled by 1.05, or set to 0.00025 when it is zero. */
  function InitialVertex(x0: Vector, k: nat): (y: Vector)
    requires k < |x0|
    ensures |y| == |x0|
    ensures forall j :: 0 <= j < |x0| && j != k ==> y[j] == x0[j]
    ensures x0[k] != 0.0 ==> y[k] == 1.05 * x0[k]
    ensures x0[k] == 0.0 ==> y[k] == ZDelt
  {
    x0[k := if x0[k] != 0.0 then (1.0 + NonzDelt) * x0[k] else ZDelt]
  }

  /** The vertices x0, InitialVertex(x0, 0), ..., InitialVertex(x0, N - 1) and their values. */
  function StartSimplex(func: Vector -> real, x0: Vector): (r: (seq<Vector>, seq<real>))
    ensures IsSimplex(r.0, r.1, |x0|) && Consistent(func, r.0, r.1)
  {
    var sim := seq(|x0| + 1, i requires 0 <= i <= |x0| => if i == 0 then x0 else InitialVertex(x0, i - 1));
    (sim, seq(|x0| + 1, i requires 0 <= i <= |x0| => func(sim[i])))
  }

  /**
   * The initial simplex: x0 and the N points InitialVertex(x0, k), each
   * with its objective value; N + 1 objective calls.
   */
  method InitialSimplex(func: Vector -> real, x0: Vector) returns (sim: seq<Vector>, fsim: seq<real>)
    ensures IsSimplex(sim, fsim, |x0|) && Consistent(func, sim, fsim)
    ensures sim[0] == x0
    ensures forall k :: 0 <= k < |x0| ==> sim[k + 1] == InitialVertex(x0, k)
    ensures (sim, fsim) == StartSimplex(func, x0)
  {
    var N := |x0|;
    sim := [x0];
    fsim := [func(x0)];
    for k := 0 to N
      invariant |sim| == k + 1 && |fsim| == k + 1 && sim[0] == x0
      invariant forall i :: 0 <= i < k ==> sim[i + 1] == InitialVertex(x0, i)
      invariant forall i :: 0 <= i <= k ==> |sim[i]| == N && fsim[i] == func(sim[i])
    {
      var y := x0;
      if y[k] != 0.0 {
        y := y[k := (1.0 + NonzDelt) * y[k]];
      } else {
        y := y[k := ZDelt];
      }
      sim := sim + [y];
      fsim := fsim + [func(y)];
    }
    var start := StartSimplex(func, x0);
    assert sim == start.0;
    assert fsim == start.1;
  }

  // ---------------------------------------------------------------------
  // Ordering the simplex

  /** The vertices paired with their values. */
  function Pairs(sim: seq<Vector>, fsim: seq<real>): (ps: seq<(Vector, real)>)
    requires |sim| == |fsim|
    ensures |ps| == |sim|
    ensures forall i :: 0 <= i < |ps| ==> ps[i] == (sim[i], fsim[i])
  {
    seq(|sim|, i requires 0 <= i < |sim| => (sim[i], fsim[i]))
  }

  predicate SortedPairs(ps: seq<(Vector, real)>) {
    forall i, j :: 0 <= i < j < |ps| ==> ps[i].1 <= ps[j].1
  }

  /** Insert p into a sorted sequence after every pair whose value is at most p's (a stable insertion). */
  function Insert(s: seq<(Vector, real)>, p: (Vector, real)): (r: seq<(Vector, real)>)
    ensures |r| == |s| + 1
  {
    if |s| == 0 then [p]
    else if s[|s| - 1].1 <= p.1 then s + [p]
    else Insert(s[..|s| - 1], p) + [s[|s| - 1]]
  }

  /** Stable insertion sort by value. */
  function SortPairs(ps: seq<(Vector, real)>): (r: seq<(Vector, real)>)
    ensures |r| == |ps|
  {
    if |ps| == 0 then [] else Insert(SortPairs(ps[..|ps| - 1]), ps[|ps| - 1])
  }

  lemma {:induction false} InsertPermutes(s: seq<(Vector, real)>, p: (Vector, real))
    ensures multiset(Insert(s, p)) == multiset(s) + multiset{p}
  {
    if |s| > 0 && s[|s| - 1].1 > p.1 {
      var s' := s[..|s| - 1];
      InsertPermutes(s', p);
      assert s == s' + [s[|s| - 1]];
    }
  }

  lemma {:induction false} InsertSorted(s: seq<(Vector, real)>, p: (Vector, real))
    requires SortedPairs(s)
    ensures SortedPairs(Insert(s, p))
    ensures |s| > 0 ==> Insert(s, p)[|s|].1 == if s[|s| - 1].1 <= p.1 then p.1 else s[|s| - 1].1
  {
    if |s| > 0 && s[|s| - 1].1 > p.1 {
      var s' := s[..|s| - 1];
      InsertSorted(s', p);
      InsertPermutes(s', p);
      var r := Insert(s', p);
      forall i | 0 <= i < |r| ensures r[i].1 <= s[|s| - 1].1 {
        assert r[i] in multiset(r);
        if r[i] == p {
        } else {
          assert r[i] in multiset(s');
          var k :| 0 <= k < |s'| && s'[k] == r[i];
        }
      }
    }
  }

  /** The sort orders the pairs by value. */
  lemma {:induction false} SortPairsSorted(ps: seq<(Vector, real)>)
    ensures SortedPairs(SortPairs(ps))
  {
    if |ps| > 0 {
      SortPairsSorted(ps[..|ps| - 1]);
      InsertSorted(SortPairs(ps[..|ps| - 1]), ps[|ps| - 1]);
    }
  }

  /** The sort only permutes the pairs: vertices move together with their values. */
  lemma {:induction false} SortPairsPermutes(ps: seq<(Vector, real)>)
    ensures multiset(SortPairs(ps)) == multiset(ps)
  {
    if |ps| > 0 {
      var init := ps[..|ps| - 1];
      SortPairsPermutes(init);
      InsertPermutes(SortPairs(init), ps[|ps| - 1]);
      assert ps == init + [ps[|ps| - 1]];
    }
  }

  /**
   * The simplex reordered by value, as argsort followed by take on both
   * arrays: the values ascend and the vertex-value pairs are a permutation
   * of the old ones.
   */
  function Order(sim: seq<Vector>, fsim: seq<real>): (r: (seq<Vector>, seq<real>))
    requires |sim| == |fsim|
    ensures |r.0| == |sim| && |r.1| == |sim|
    ensures Ascending(r.1)
    ensures multiset(Pairs(r.0, r.1)) == multiset(Pairs(sim, fsim))
  {
    var ps := SortPairs(Pairs(sim, fsim));
    SortPairsSorted(Pairs(sim, fsim));
    SortPairsPermutes(Pairs(sim, fsim));
    var vs := seq(|ps|, i requires 0 <= i < |ps| => ps[i].0);
    var fs := seq(|ps|, i requires 0 <= i < |ps| => ps[i].1);
    assert Pairs(vs, fs) == ps;
    (vs, fs)
  }

  /** Reordering keeps the simplex's shape and every value next to its vertex. */
  lemma OrderKeepsSimplex(func: Vector -> real, sim: seq<Vector>, fsim: seq<real>, N: nat)
    requires IsSimplex(sim, fsim, N) && Consistent(func, sim, fsim)
    ensures var r := Order(sim, fsim); IsSimplex(r.0, r.1, N) && Consistent(func, r.0, r.1)
  {
    var r := Order(sim, fsim);
    var ps, qs := Pairs(sim, fsim), Pairs(r.0, r.1);
    forall i | 0 <= i < |qs| ensures |r.0[i]| == N && r.1[i] == func(r.0[i]) {
      assert qs[i] in multiset(ps);
      var k :| 0 <= k < |ps| && ps[k] == qs[i];
    }
  }

  /** After reordering the best value is no larger than any value before it, in particular the old best. */
  lemma OrderFirstIsMin(sim: seq<Vector>, fsim: seq<real>, i: nat)
    requires |sim| == |fsim| && i < |fsim|
    ensures Order(sim, fsim).1[0] <= fsim[i]
  {
    var r := Order(sim, fsim);
    var ps, qs := Pairs(sim, fsim), Pairs(r.0, r.1);
    assert ps[i] in multiset(qs);
    var k :| 0 <= k < |qs| && qs[k] == ps[i];
  }

  // ---------------------------------------------------------------------
  // One iteration

  /** The centroid of the N best vertices. */
  function Centroid(sim: seq<Vector>, N: nat): (xbar: Vector)
    requires N > 0 && |sim| == N + 1 && forall i :: 0 <= i < |sim| ==> |sim[i]| == N
    ensures |xbar| == N
  {
    seq(N, k requires 0 <= k < N => ColumnSum(sim[..N], k) / (N as real))
  }

  /** The four trial points: reflected, expanded, outside and inside contraction of the worst vertex. */
  function Trials(sim: seq<Vector>, N: nat): (t: seq<Vector>)
    requires N > 0 && |sim| == N + 1 && forall i :: 0 <= i < |sim| ==> |sim[i]| == N
    ensures |t| == 4 && forall i :: 0 <= i < 4 ==> |t[i]| == N
  {
    var xbar := Centroid(sim, N);
    [Comb(1.0 + Rho, xbar, -Rho, sim[N]),
     Comb(1.0 + Rho * Chi, xbar, -Rho * Chi, sim[N]),
     Comb(1.0 + Psi * Rho, xbar, -Psi * Rho, sim[N]),
     Comb(1.0 - Psi, xbar, Psi, sim[N])]
  }

  /** v moved halfway towards the best vertex v0. */
  function ShrinkVertex(v0: Vector, v: Vector): (w: Vector)
    requires |v0| == |v|
    ensures |w| == |v|
  {
    Comb(1.0, v0, Sigma, Comb(1.0, v, -1.0, v0))
  }

  /**
   * One Nelder-Mead step on an ascending simplex, before it is reordered.
   * It keeps the best vertex. Either it replaces only the worst vertex, by
   * one of the trial points with a strictly smaller value, after 1 or 2
   * objective calls; or it shrinks every other vertex halfway towards the
   * best one, after N + 2 calls.
   */
  method Step(func: Vector -> real, sim: seq<Vector>, fsim: seq<real>, N: nat)
    returns (sim': seq<Vector>, fsim': seq<real>, calls: nat)
    requires N > 0 && IsSimplex(sim, fsim, N) && Consistent(func, sim, fsim) && Ascending(fsim)
    ensures IsSimplex(sim', fsim', N) && Consistent(func, sim', fsim')
    ensures sim'[0] == sim[0] && fsim'[0] == fsim[0]
    ensures calls == 1 || calls == 2 || calls == N + 2
    ensures calls < N + 2 ==>
              && sim'[..N] == sim[..N] && fsim'[..N] == fsim[..N]
              && sim'[N] in Trials(sim, N) && fsim'[N] < fsim[N]
    ensures calls == N + 2 ==> forall j :: 1 <= j <= N ==> sim'[j] == ShrinkVertex(sim[0], sim[j])
    ensures (sim', calls) == StepOutcome(func, sim, fsim, N)
    // Which branch is taken, with t = [xr, xe, xc, xcc] and fxr = func(xr):
    ensures var t := Trials(sim, N); var fxr := func(t[0]);
      fxr < fsim[0] ==>
        calls == 2 && sim' == sim[N := if func(t[1]) < fxr then t[1] else t[0]]
    ensures var t := Trials(sim, N); var fxr := func(t[0]);
      fsim[0] <= fxr < fsim[N - 1] ==>
        calls == 1 && sim' == sim[N := t[0]]
    ensures var t := Trials(sim, N); var fxr := func(t[0]);
      fsim[0] <= fxr && fsim[N - 1] <= fxr < fsim[N] ==>
        if func(t[2]) <= fxr then calls == 2 && sim' == sim[N := t[2]]
        else calls == N + 2 && Shrunk(sim, sim')
    ensures var t := Trials(sim, N); var fxr := func(t[0]);
      fsim[0] <= fxr && fsim[N - 1] <= fxr && fsim[N] <= fxr ==>
        if func(t[3]) < fsim[N] then calls == 2 && sim' == sim[N := t[3]]
        else calls == N + 2 && Shrunk(sim, sim')
  {
    var t := Trials(sim, N);
    var xr := t[0];
    var fxr := func(xr);
    calls := 1;
    var doshrink := false;
    sim', fsim' := sim, fsim;
    if fxr < fsim[0] {
      var xe := t[1];
      var fxe := func(xe);
      calls := calls + 1;
      if fxe < fxr {
        sim', fsim' := sim[N := xe], fsim[N := fxe];
      } else {
        sim', fsim' := sim[N := xr], fsim[N := fxr];
      }
    } else if fxr < fsim[N - 1] {
      sim', fsim' := sim[N := xr], fsim[N := fxr];
    } else {
      if fxr < fsim[N] {
        var xc := t[2];
        var fxc := func(xc);
        calls := calls + 1;
        if fxc <= fxr {
          sim', fsim' := sim[N := xc], fsim[N := fxc];
        } else {
          doshrink := true;
        }
      } else {
        var xcc := t[3];
        var fxcc := func(xcc);
        calls := calls + 1;
        if fxcc < fsim[N] {
          sim', fsim' := sim[N := xcc], fsim[N := fxcc];
        } else {
          doshrink := true;
        }
      }
      if doshrink {
        sim', fsim' := Shrink(func, sim, fsim, N);
        calls := calls + N;
        ShrunkIsShrunken(sim, sim');
      }
    }
  }

  /** sim' is sim with every vertex but the best moved halfway towards it. */
  predicate Shrunk(sim: seq<Vector>, sim': seq<Vector>) {
    && |sim| > 0 && |sim'| == |sim| && sim'[0] == sim[0]
    && forall j :: 1 <= j < |sim| ==> |sim[j]| == |sim[0]| && sim'[j] == ShrinkVertex(sim[0], sim[j])
  }

  /** The simplex with every vertex but the best moved halfway towards it. */
  function Shrunken(sim: seq<Vector>): (s: seq<Vector>)
    requires |sim| > 0 && forall j :: 0 <= j < |sim| ==> |sim[j]| == |sim[0]|
    ensures Shrunk(sim, s)
  {
    seq(|sim|, j requires 0 <= j < |sim| => if j == 0 then sim[0] else ShrinkVertex(sim[0], sim[j]))
  }

  /** Shrunk determines the shrunk simplex. */
  lemma ShrunkIsShrunken(sim: seq<Vector>, sim': seq<Vector>)
    requires Shrunk(sim, sim')
    ensures sim' == Shrunken(sim)
  {
    var s := Shrunken(sim);
    assert forall j :: 0 <= j < |sim| ==> sim'[j] == s[j];
  }

  /**
   * The vertices after one Nelder-Mead step from an ascending simplex,
   * before reordering, and the objective calls the step makes; with
   * t = [xr, xe, xc, xcc] and fxr = func(xr): expansion or reflection
   * below the best value, reflection below the second worst, then the
   * outside or inside contraction, else the shrink.
   */
  function StepOutcome(func: Vector -> real, sim: seq<Vector>, fsim: seq<real>, N: nat): (r: (seq<Vector>, nat))
    requires N > 0 && IsSimplex(sim, fsim, N)
    ensures |r.0| == N + 1 && forall i :: 0 <= i < |r.0| ==> |r.0[i]| == N
    ensures r.1 == 1 || r.1 == 2 || r.1 == N + 2
  {
    var t := Trials(sim, N);
    var fxr := func(t[0]);
    if fxr < fsim[0] then (sim[N := if func(t[1]) < fxr then t[1] else t[0]], 2)
    else if fxr < fsim[N - 1] then (sim[N := t[0]], 1)
    else if fxr < fsim[N] then
      if func(t[2]) <= fxr then (sim[N := t[2]], 2) else (Shrunken(sim), N + 2)
    else
      if func(t[3]) < fsim[N] then (sim[N := t[3]], 2) else (Shrunken(sim), N + 2)
  }

  /** One pass of the fmin loop: the Nelder-Mead step, re-evaluated and sorted by value. */
  function NextSimplex(func: Vector -> real, sim: seq<Vector>, fsim: seq<real>, N: nat): (r: (seq<Vector>, seq<real>))
    requires N > 0 && IsSimplex(sim, fsim, N)
  {
    var stepped := StepOutcome(func, sim, fsim, N).0;
    Order(stepped, Values(func, stepped))
  }

  /** Move every vertex but the best halfway towards it and re-evaluate it: N objective calls. */
  method Shrink(func: Vector -> real, sim: seq<Vector>, fsim: seq<real>, N: nat)
    returns (sim': seq<Vector>, fsim': seq<real>)
    requires N > 0 && IsSimplex(sim, fsim, N) && Consistent(func, sim, fsim)
    ensures IsSimplex(sim', fsim', N) && Consistent(func, sim', fsim')
    ensures sim'[0] == sim[0] && fsim'[0] == fsim[0]
    ensures forall j :: 1 <= j <= N ==> sim'[j] == ShrinkVertex(sim[0], sim[j])
  {
    sim', fsim' := sim, fsim;
    for j := 1 to N + 1
      invariant IsSimplex(sim', fsim', N) && Consistent(func, sim', fsim')
      invariant sim'[0] == sim[0] && fsim'[0] == fsim[0]
      invariant forall i :: 1 <= i < j ==> sim'[i] == ShrinkVertex(sim[0], sim[i])
      invariant forall i :: j <= i <= N ==> sim'[i] == sim[i]
    {
      var v := Comb(1.0, sim'[0], Sigma, Comb(1.0, sim'[j], -1.0, sim'[0]));
      sim' := sim'[j := v];
      fsim' := fsim'[j := func(v)];
    }
  }

  // ---------------------------------------------------------------------
  // The stopping test

  /** The coordinate distances of vertex j from the best one. */
  function Offsets(sim: seq<Vector>, j: nat, N: nat): (d: seq<real>)
    requires j < |sim| && |sim[0]| == N && |sim[j]| == N
    ensures |d| == N && forall k :: 0 <= k < N ==> d[k] == Abs(sim[j][k] - sim[0][k])
  {
    seq(N, k requires 0 <= k < N => Abs(sim[j][k] - sim[0][k]))
  }

  /** The largest coordinate distance of vertex j from the best one. */
  function RowSpread(sim: seq<Vector>, j: nat, N: nat): real
    requires N > 0 && j < |sim| && |sim[0]| == N && |sim[j]| == N
  {
    MaxSeq(Offsets(sim, j, N))
  }

  /** The spreads of vertices 1..N. */
  function RowSpreads(sim: seq<Vector>, N: nat): (r: seq<real>)
    requires N > 0 && |sim| == N + 1 && forall i :: 0 <= i < |sim| ==> |sim[i]| == N
    ensures |r| == N
  {
    seq(N, j requires 0 <= j < N => RowSpread(sim, j + 1, N))
  }

  /** The largest coordinate distance of any vertex from the best one. */
  function XSpread(sim: seq<Vector>, N: nat): real
    requires N > 0 && |sim| == N + 1 && forall i :: 0 <= i < |sim| ==> |sim[i]| == N
  {
    MaxSeq(RowSpreads(sim, N))
  }

  /** The largest distance of any value from the best one. */
  function FSpread(fsim: seq<real>, N: nat): real
    requires N > 0 && |fsim| == N + 1
  {
    MaxSeq(seq(N, j requires 0 <= j < N => Abs(fsim[0] - fsim[j + 1])))
  }

  /** The simplex is small enough: both spreads within their tolerances. */
  predicate Converged(sim: seq<Vector>, fsim: seq<real>, N: nat, xtol: real, ftol: real)
    requires N > 0 && IsSimplex(sim, fsim, N)
  {
    XSpread(sim, N) <= xtol && FSpread(fsim, N) <= ftol
  }

  /** A maximum is within a bound exactly when every element is. */
  lemma MaxSeqAtMost(s: seq<real>, t: real)
    requires |s| > 0
    ensures MaxSeq(s) <= t <==> forall i :: 0 <= i < |s| ==> s[i] <= t
  {
    MaxSeqAttained(s);
  }

  /** The coordinate spread is within xtol exactly when every coordinate of every vertex is within xtol of the best vertex's. */
  lemma XSpreadMeans(sim: seq<Vector>, N: nat, xtol: real)
    requires N > 0 && |sim| == N + 1 && forall i :: 0 <= i < |sim| ==> |sim[i]| == N
    ensures XSpread(sim, N) <= xtol <==>
              forall j, k :: 1 <= j <= N && 0 <= k < N ==> Abs(sim[j][k] - sim[0][k]) <= xtol
  {
    if XSpread(sim, N) <= xtol {
      XSpreadBounds(sim, N, xtol);
    } else {
      XSpreadWitness(sim, N, xtol);
    }
  }

  lemma XSpreadBounds(sim: seq<Vector>, N: nat, xtol: real)
    requires N > 0 && |sim| == N + 1 && forall i :: 0 <= i < |sim| ==> |sim[i]| == N
    requires XSpread(sim, N) <= xtol
    ensures forall j, k :: 1 <= j <= N && 0 <= k < N ==> Abs(sim[j][k] - sim[0][k]) <= xtol
  {
    var rows := RowSpreads(sim, N);
    MaxSeqAtMost(rows, xtol);
    forall j, k | 1 <= j <= N && 0 <= k < N ensures Abs(sim[j][k] - sim[0][k]) <= xtol {
      assert rows[j - 1] <= xtol;
      RowSpreadMeans(sim, j, N, xtol);
    }
  }

  lemma XSpreadWitness(sim: seq<Vector>, N: nat, xtol: real)
    requires N > 0 && |sim| == N + 1 && forall i :: 0 <= i < |sim| ==> |sim[i]| == N
    requires XSpread(sim, N) > xtol
    ensures exists j, k :: 1 <= j <= N && 0 <= k < N && Abs(sim[j][k] - sim[0][k]) > xtol
  {
    var rows := RowSpreads(sim, N);
    MaxSeqAtMost(rows, xtol);
    var j :| 0 <= j < N && rows[j] > xtol;
    RowSpreadMeans(sim, j + 1, N, xtol);
    var k :| 0 <= k < N && Abs(sim[j + 1][k] - sim[0][k]) > xtol;
  }

  lemma RowSpreadMeans(sim: seq<Vector>, j: nat, N: nat, xtol: real)
    requires N > 0 && j < |sim| && |sim[0]| == N && |sim[j]| == N
    ensures RowSpread(sim, j, N) <= xtol <==> forall k :: 0 <= k < N ==> Abs(sim[j][k] - sim[0][k]) <= xtol
  {
    MaxSeqAtMost(Offsets(sim, j, N), xtol);
  }

  /** The value spread is within ftol exactly when every value is within ftol of the best. */
  lemma FSpreadMeans(fsim: seq<real>, N: nat, ftol: real)
    requires N > 0 && |fsim| == N + 1
    ensures FSpread(fsim, N) <= ftol <==> forall j :: 1 <= j <= N ==> Abs(fsim[0] - fsim[j]) <= ftol
  {
    var fs := seq(N, j requires 0 <= j < N => Abs(fsim[0] - fsim[j + 1]));
    MaxSeqAtMost(fs, ftol);
    if FSpread(fsim, N) <= ftol {
      forall j | 1 <= j <= N ensures Abs(fsim[0] - fsim[j]) <= ftol {
        assert fs[j - 1] <= ftol;
      }
    }
  }

  // ---------------------------------------------------------------------
  // The driver

  /**
   * One pass of the loop body: a Nelder-Mead step to (s1, f1), then the
   * re-sort. Only the worst vertex is replaced, by a trial point with a
   * smaller value, or else the simplex shrinks; the best value never
   * increases, and the pass makes 1, 2 or N + 2 calls.
   */
  method Iteration(func: Vector -> real, sim: seq<Vector>, fsim: seq<real>, N: nat)
    returns (sim': seq<Vector>, fsim': seq<real>, calls: nat, ghost s1: seq<Vector>, ghost f1: seq<real>)
    requires N > 0 && IsSimplex(sim, fsim, N) && Consistent(func, sim, fsim) && Ascending(fsim)
    ensures IsSimplex(sim', fsim', N) && Consistent(func, sim', fsim') && Ascending(fsim')
    ensures fsim'[0] <= fsim[0]
    ensures calls == 1 || calls == 2 || calls == N + 2
    ensures IsSimplex(s1, f1, N) && (sim', fsim') == Order(s1, f1)
    ensures s1[0] == sim[0] && f1[0] == fsim[0]
    ensures calls < N + 2 ==> s1[..N] == sim[..N] && s1[N] in Trials(sim, N) && f1[N] < fsim[N]
    ensures calls == N + 2 ==> Shrunk(sim, s1)
    ensures (sim', fsim') == NextSimplex(func, sim, fsim, N) && calls == StepOutcome(func, sim, fsim, N).1
  {
    var stepped, fstepped, c := Step(func, sim, fsim, N);
    ConsistentValues(func, stepped, fstepped);
    OrderKeepsSimplex(func, stepped, fstepped, N);
    OrderFirstIsMin(stepped, fstepped, 0);
    var ordered := Order(stepped, fstepped);
    sim', fsim', calls := ordered.0, ordered.1, c;
    s1, f1 := stepped, fstepped;
  }

  /** The most objective calls after k iterations: N + 1 for the simplex, at most N + 2 per iteration. */
  function MaxCalls(N: nat, k: nat): nat {
    if k == 0 then N + 1 else MaxCalls(N, k - 1) + N + 2
  }

  lemma {:induction false} MaxCallsClosedForm(N: nat, k: nat)
    ensures MaxCalls(N, k) == N + 1 + (N + 2) * k
  {
    if k > 0 {
      MaxCallsClosedForm(N, k - 1);
      assert (N + 2) * k == (N + 2) * (k - 1) + N + 2;
    }
  }

  /** The simplex after pass i of a run: the next one on the trail, or the final one after the last pass. */
  function After(trail: seq<(seq<Vector>, seq<real>)>, i: nat, final: (seq<Vector>, seq<real>)): (seq<Vector>, seq<real>)
    requires i < |trail|
  {
    if i + 1 < |trail| then trail[i + 1] else final
  }

  /**
   * One pass of the loop: it starts from a well-formed simplex that failed
   * the convergence test, ends at that simplex's NextSimplex, and makes the
   * step's `calls` objective calls.
   */
  predicate Pass(func: Vector -> real, s: (seq<Vector>, seq<real>), N: nat, xtol: real, ftol: real,
                 s': (seq<Vector>, seq<real>), calls: int)
    requires N > 0
  {
    && IsSimplex(s.0, s.1, N) && !Converged(s.0, s.1, N, xtol, ftol)
    && s' == NextSimplex(func, s.0, s.1, N)
    && calls == StepOutcome(func, s.0, s.1, N).1
  }

  /** The sum of a sequence of call counts. */
  function Total(calls: seq<nat>): nat {
    if calls == [] then 0 else Total(calls[..|calls| - 1]) + calls[|calls| - 1]
  }

  /**
   * The loop's record from `start` to `final`: `trail` lists the simplices
   * the loop stepped from, starting with `start`, and `calls` the objective
   * calls of each pass; every entry is a Pass to the next simplex, the last
   * one to `final`. With no pass, `final` is `start`.
   */
  predicate Run(func: Vector -> real, start: (seq<Vector>, seq<real>), N: nat, xtol: real, ftol: real,
                trail: seq<(seq<Vector>, seq<real>)>, calls: seq<nat>, final: (seq<Vector>, seq<real>))
    requires N > 0
  {
    && |calls| == |trail|
    && (trail == [] ==> final == start)
    && (trail != [] ==> trail[0] == start)
    && forall i {:trigger After(trail, i, final)} :: 0 <= i < |trail| ==>
         Pass(func, trail[i], N, xtol, ftol, After(trail, i, final), calls[i])
  }

  /** The objective calls made before pass i of a run: N + 1 for the initial simplex, then the first i passes. */
  function CallsBefore(N: nat, calls: seq<nat>, i: nat): nat
    requires i <= |calls|
  {
    N + 1 + Total(calls[..i])
  }

  /**
   * Every pass of a run began with both budgets left, as the loop guard
   * demands: pass i starts at iteration i + 1 and after CallsBefore(N, calls, i)
   * objective calls.
   */
  predicate Budgeted(N: nat, calls: seq<nat>, maxit: int, maxf: int) {
    forall i {:trigger CallsBefore(N, calls, i)} :: 0 <= i < |calls| ==>
      CallsBefore(N, calls, i) < maxf && i + 1 < maxit
  }

  /** A pass begun with both budgets left extends a budgeted run. */
  lemma BudgetedAppend(N: nat, calls: seq<nat>, maxit: int, maxf: int, c: nat)
    requires Budgeted(N, calls, maxit, maxf)
    requires N + 1 + Total(calls) < maxf && |calls| + 1 < maxit
    ensures Budgeted(N, calls + [c], maxit, maxf)
  {
    var calls' := calls + [c];
    forall i | 0 <= i < |calls'|
      ensures CallsBefore(N, calls', i) < maxf && i + 1 < maxit
    {
      assert calls'[..i] == calls[..i];
      if i < |calls| {
        assert CallsBefore(N, calls, i) < maxf;
      }
    }
  }

  /** A pass from the final simplex of a run extends the run. */
  lemma RunAppend(func: Vector -> real, start: (seq<Vector>, seq<real>), N: nat, xtol: real, ftol: real,
                  trail: seq<(seq<Vector>, seq<real>)>, calls: seq<nat>, final: (seq<Vector>, seq<real>),
                  final': (seq<Vector>, seq<real>), c: nat)
    requires N > 0 && Run(func, start, N, xtol, ftol, trail, calls, final)
    requires Pass(func, final, N, xtol, ftol, final', c)
    ensures Run(func, start, N, xtol, ftol, trail + [final], calls + [c], final')
    ensures Total(calls + [c]) == Total(calls) + c
  {
    var trail', calls' := trail + [final], calls + [c];
    forall i | 0 <= i < |trail'|
      ensures Pass(func, trail'[i], N, xtol, ftol, After(trail', i, final'), calls'[i])
    {
      if i < |trail| {
        assert Pass(func, trail[i], N, xtol, ftol, After(trail, i, final), calls[i]);
        assert After(trail', i, final') == After(trail, i, final);
      }
    }
    assert calls'[..|calls|] == calls;
  }

  /** Every entry of a run's trail is a pass: from a simplex that had not converged, to the next one. */
  lemma RunPassAt(func: Vector -> real, start: (seq<Vector>, seq<real>), N: nat, xtol: real, ftol: real,
                  trail: seq<(seq<Vector>, seq<real>)>, calls: seq<nat>, final: (seq<Vector>, seq<real>), i: nat)
    requires N > 0 && Run(func, start, N, xtol, ftol, trail, calls, final) && i < |trail|
    ensures IsSimplex(trail[i].0, trail[i].1, N) && !Converged(trail[i].0, trail[i].1, N, xtol, ftol)
    ensures After(trail, i, final) == NextSimplex(func, trail[i].0, trail[i].1, N)
    ensures calls[i] == StepOutcome(func, trail[i].0, trail[i].1, N).1
  {
    assert Pass(func, trail[i], N, xtol, ftol, After(trail, i, final), calls[i]);
  }

  /** A run whose start has already converged makes no pass. */
  lemma ConvergedStartStays(func: Vector -> real, start: (seq<Vector>, seq<real>), N: nat, xtol: real, ftol: real,
                            trail: seq<(seq<Vector>, seq<real>)>, calls: seq<nat>, final: (seq<Vector>, seq<real>))
    requires N > 0 && Run(func, start, N, xtol, ftol, trail, calls, final)
    ensures IsSimplex(start.0, start.1, N) && Converged(start.0, start.1, N, xtol, ftol) ==>
              trail == [] && calls == [] && final == start
  {
    if trail != [] {
      RunPassAt(func, start, N, xtol, ftol, trail, calls, final, 0);
    }
  }

  /** The simplex before pass k of a run: trail[k], or the final one after the last pass. */
  function At(trail: seq<(seq<Vector>, seq<real>)>, k: nat, final: (seq<Vector>, seq<real>)): (seq<Vector>, seq<real>)
    requires k <= |trail|
  {
    if k < |trail| then trail[k] else final
  }

  /** The loop has ended: a budget is spent or the final simplex passed the convergence test. */
  predicate Stopped(N: nat, calls: seq<nat>, final: (seq<Vector>, seq<real>), xtol: real, ftol: real, maxit: int, maxf: int)
    requires N > 0
  {
    || CallsBefore(N, calls, |calls|) >= maxf || |calls| + 1 >= maxit
    || (IsSimplex(final.0, final.1, N) && Converged(final.0, final.1, N, xtol, ftol))
  }

  /** Two runs from the same start agree on their first k passes. */
  lemma {:induction false} RunsAgreeUpTo(func: Vector -> real, start: (seq<Vector>, seq<real>), N: nat, xtol: real, ftol: real,
                                         t1: seq<(seq<Vector>, seq<real>)>, c1: seq<nat>, f1: (seq<Vector>, seq<real>),
                                         t2: seq<(seq<Vector>, seq<real>)>, c2: seq<nat>, f2: (seq<Vector>, seq<real>), k: nat)
    requires N > 0 && Run(func, start, N, xtol, ftol, t1, c1, f1) && Run(func, start, N, xtol, ftol, t2, c2, f2)
    requires k <= |t1| && k <= |t2|
    ensures At(t1, k, f1) == At(t2, k, f2) && c1[..k] == c2[..k]
  {
    if k > 0 {
      RunsAgreeUpTo(func, start, N, xtol, ftol, t1, c1, f1, t2, c2, f2, k - 1);
      RunPassAt(func, start, N, xtol, ftol, t1, c1, f1, k - 1);
      RunPassAt(func, start, N, xtol, ftol, t2, c2, f2, k - 1);
      assert c1[..k] == c1[..k - 1] + [c1[k - 1]];
      assert c2[..k] == c2[..k - 1] + [c2[k - 1]];
    }
  }

  /**
   * The loop's outcome is determined by its start, tolerances and budgets:
   * two budgeted runs from the same start that have both stopped made the
   * same passes with the same calls and end at the same simplex.
   */
  lemma RunDetermined(func: Vector -> real, start: (seq<Vector>, seq<real>), N: nat, xtol: real, ftol: real,
                      maxit: int, maxf: int,
                      t1: seq<(seq<Vector>, seq<real>)>, c1: seq<nat>, f1: (seq<Vector>, seq<real>),
                      t2: seq<(seq<Vector>, seq<real>)>, c2: seq<nat>, f2: (seq<Vector>, seq<real>))
    requires N > 0
    requires Run(func, start, N, xtol, ftol, t1, c1, f1) && Budgeted(N, c1, maxit, maxf)
    requires Stopped(N, c1, f1, xtol, ftol, maxit, maxf)
    requires Run(func, start, N, xtol, ftol, t2, c2, f2) && Budgeted(N, c2, maxit, maxf)
    requires Stopped(N, c2, f2, xtol, ftol, maxit, maxf)
    ensures t1 == t2 && c1 == c2 && f1 == f2
  {
    if |t1| < |t2| {
      ShorterRunNotStopped(func, start, N, xtol, ftol, maxit, maxf, t1, c1, f1, t2, c2, f2);
    } else if |t2| < |t1| {
      ShorterRunNotStopped(func, start, N, xtol, ftol, maxit, maxf, t2, c2, f2, t1, c1, f1);
    } else {
      var k := |t1|;
      RunsAgreeUpTo(func, start, N, xtol, ftol, t1, c1, f1, t2, c2, f2, k);
      assert c1 == c1[..k] && c2 == c2[..k];
      forall i | 0 <= i < k
        ensures t1[i] == t2[i]
      {
        RunsAgreeUpTo(func, start, N, xtol, ftol, t1, c1, f1, t2, c2, f2, i);
      }
    }
  }

  /** A run that stops before a budgeted run from the same start has ended cannot have stopped. */
  lemma ShorterRunNotStopped(func: Vector -> real, start: (seq<Vector>, seq<real>), N: nat, xtol: real, ftol: real,
                             maxit: int, maxf: int,
                             t1: seq<(seq<Vector>, seq<real>)>, c1: seq<nat>, f1: (seq<Vector>, seq<real>),
                             t2: seq<(seq<Vector>, seq<real>)>, c2: seq<nat>, f2: (seq<Vector>, seq<real>))
    requires N > 0
    requires Run(func, start, N, xtol, ftol, t1, c1, f1)
    requires Run(func, start, N, xtol, ftol, t2, c2, f2) && Budgeted(N, c2, maxit, maxf)
    requires |t1| < |t2|
    ensures !Stopped(N, c1, f1, xtol, ftol, maxit, maxf)
  {
    var k := |t1|;
    RunsAgreeUpTo(func, start, N, xtol, ftol, t1, c1, f1, t2, c2, f2, k);
    RunPassAt(func, start, N, xtol, ftol, t2, c2, f2, k);
    assert c1[..k] == c1;
    assert CallsBefore(N, c2, k) < maxf && k + 1 < maxit;
    assert CallsBefore(N, c1, k) == CallsBefore(N, c2, k);
  }

  /** The initial simplex sorted by value. */
  function SortedStart(func: Vector -> real, x0: Vector): (seq<Vector>, seq<real>) {
    var start := StartSimplex(func, x0);
    Order(start.0, start.1)
  }
}
