/**
 * The fmin driver: build and sort the initial simplex, then repeat
 * Nelder-Mead passes until the simplex has converged or a budget of
 * iterations or objective calls is spent, and report the best vertex with
 * the warning flag and the counters.
 */
module FminLoop {
  import opened Wrappers
  import opened Matrices
  import opened Optimize

  /**
   * One pass from a simplex that has not converged: the Nelder-Mead step
   * and the re-sort, recorded on the trail together with its objective
   * calls.
   */
  method Advance(func: Vector -> real, sim: seq<Vector>, fsim: seq<real>, N: nat, xtol: real, ftol: real,
                 ghost start: (seq<Vector>, seq<real>),
                 ghost trail: seq<(seq<Vector>, seq<real>)>, ghost log: seq<nat>)
    returns (sim': seq<Vector>, fsim': seq<real>, calls: nat,
             ghost trail': seq<(seq<Vector>, seq<real>)>, ghost log': seq<nat>)
    requires N > 0 && IsSimplex(sim, fsim, N) && Consistent(func, sim, fsim) && Ascending(fsim)
    requires !Converged(sim, fsim, N, xtol, ftol)
    requires Run(func, start, N, xtol, ftol, trail, log, (sim, fsim))
    ensures IsSimplex(sim', fsim', N) && Consistent(func, sim', fsim') && Ascending(fsim')
    ensures fsim'[0] <= fsim[0]
    ensures calls == 1 || calls == 2 || calls == N + 2
    ensures Pass(func, (sim, fsim), N, xtol, ftol, (sim', fsim'), calls)
    ensures trail' == trail + [(sim, fsim)] && log' == log + [calls] && Total(log') == Total(log) + calls
    ensures Run(func, start, N, xtol, ftol, trail', log', (sim', fsim'))
  {
    ghost var stepped, fstepped;
    sim', fsim', calls, stepped, fstepped := Iteration(func, sim, fsim, N);
    trail', log' := trail + [(sim, fsim)], log + [calls];
    RunAppend(func, start, N, xtol, ftol, trail, log, (sim, fsim), (sim', fsim'), calls);
  }

  /**
   * The main loop of fmin, from the sorted initial simplex (one iteration
   * and N + 1 calls so far): step while calls and iterations are left and
   * the simplex has not converged (the code tests convergence first in the
   * loop body and breaks). The ghost trail and log record the passes: each
   * is a Nelder-Mead pass from a simplex that had not converged, begun with
   * calls and iterations left, and their calls make up every call after the
   * first N + 1. The loop ends Stopped, so RunDetermined fixes its outcome.
   */
  method Descend(func: Vector -> real, sim0: seq<Vector>, fsim0: seq<real>, N: nat,
                 xtol: real, ftol: real, maxit: int, maxf: int)
    returns (sim: seq<Vector>, fsim: seq<real>, iterations: nat, funcalls: nat,
             ghost trail: seq<(seq<Vector>, seq<real>)>, ghost log: seq<nat>)
    requires N > 0 && IsSimplex(sim0, fsim0, N) && Consistent(func, sim0, fsim0) && Ascending(fsim0)
    ensures IsSimplex(sim, fsim, N) && Consistent(func, sim, fsim) && Ascending(fsim)
    ensures fsim[0] <= fsim0[0]
    ensures iterations >= 1
    ensures N + 1 + (iterations - 1) <= funcalls <= MaxCalls(N, iterations - 1)
    ensures iterations > 1 ==> iterations <= maxit && funcalls < maxf + N + 2
    ensures funcalls < maxf && iterations < maxit ==> Converged(sim, fsim, N, xtol, ftol)
    ensures |trail| == iterations - 1
    ensures Run(func, (sim0, fsim0), N, xtol, ftol, trail, log, (sim, fsim))
    ensures funcalls == N + 1 + Total(log)
    ensures Budgeted(N, log, maxit, maxf) && Stopped(N, log, (sim, fsim), xtol, ftol, maxit, maxf)
  {
    sim, fsim := sim0, fsim0;
    iterations, funcalls := 1, N + 1;
    trail, log := [], [];
    while funcalls < maxf && iterations < maxit && !Converged(sim, fsim, N, xtol, ftol)
      invariant IsSimplex(sim, fsim, N) && Consistent(func, sim, fsim) && Ascending(fsim)
      invariant fsim[0] <= fsim0[0]
      invariant iterations == |trail| + 1
      invariant N + 1 + |trail| <= funcalls <= MaxCalls(N, |trail|)
      invariant iterations > 1 ==> iterations <= maxit && funcalls < maxf + N + 2
      invariant Run(func, (sim0, fsim0), N, xtol, ftol, trail, log, (sim, fsim))
      invariant funcalls == N + 1 + Total(log)
      invariant Budgeted(N, log, maxit, maxf)
      decreases maxit - iterations
    {
      BudgetedAppend(N, log, maxit, maxf, StepOutcome(func, sim, fsim, N).1);
      var calls;
      sim, fsim, calls, trail, log := Advance(func, sim, fsim, N, xtol, ftol, (sim0, fsim0), trail, log);
      funcalls := funcalls + calls;
      iterations := iterations + 1;
      assert MaxCalls(N, |trail|) == MaxCalls(N, |trail| - 1) + N + 2;
    }
    assert log[..|log|] == log;
  }

  /**
   * Build the initial simplex and sort it: the best vertex is no worse
   * than x0.
   */
  method Start(func: Vector -> real, x0: Vector) returns (sim: seq<Vector>, fsim: seq<real>)
    ensures IsSimplex(sim, fsim, |x0|) && Consistent(func, sim, fsim) && Ascending(fsim)
    ensures fsim[0] <= func(x0)
    ensures (sim, fsim) == SortedStart(func, x0)
  {
    var s0, f0 := InitialSimplex(func, x0);
    OrderKeepsSimplex(func, s0, f0, |x0|);
    OrderFirstIsMin(s0, f0, 0);
    var ordered := Order(s0, f0);
    sim, fsim := ordered.0, ordered.1;
  }

  /**
   * Build and sort the initial simplex and, for a non-empty x0, run the
   * main loop from it. The loop's passes start at the sorted start; a
   * sorted start that has already converged is returned after no pass.
   */
  method Search(func: Vector -> real, x0: Vector, xtol: real, ftol: real, maxit: int, maxf: int)
    returns (sim: seq<Vector>, fsim: seq<real>, iterations: nat, funcalls: nat,
             ghost trail: seq<(seq<Vector>, seq<real>)>, ghost log: seq<nat>)
    ensures IsSimplex(sim, fsim, |x0|) && Consistent(func, sim, fsim) && Ascending(fsim)
    ensures fsim[0] <= func(x0)
    ensures |x0| == 0 ==> iterations == 1 && funcalls == 1
    ensures iterations >= 1
    ensures |x0| + 1 + (iterations - 1) <= funcalls <= MaxCalls(|x0|, iterations - 1)
    ensures iterations > 1 ==> iterations <= maxit && funcalls < maxf + |x0| + 2
    ensures |x0| > 0 && funcalls < maxf && iterations < maxit ==> Converged(sim, fsim, |x0|, xtol, ftol)
    ensures |x0| > 0 ==>
      && |trail| == iterations - 1
      && Run(func, SortedStart(func, x0), |x0|, xtol, ftol, trail, log, (sim, fsim))
      && funcalls == |x0| + 1 + Total(log)
      && Budgeted(|x0|, log, maxit, maxf) && Stopped(|x0|, log, (sim, fsim), xtol, ftol, maxit, maxf)
    ensures |x0| > 0 ==>
      var N, start := |x0|, SortedStart(func, x0);
      IsSimplex(start.0, start.1, N) && Converged(start.0, start.1, N, xtol, ftol) ==>
        iterations == 1 && funcalls == N + 1 && (sim, fsim) == start
  {
    var N := |x0|;
    sim, fsim := Start(func, x0);
    iterations, funcalls := 1, N + 1;
    trail, log := [], [];
    if N > 0 {
      ghost var start := (sim, fsim);
      sim, fsim, iterations, funcalls, trail, log := Descend(func, sim, fsim, N, xtol, ftol, maxit, maxf);
      ConvergedStartStays(func, start, N, xtol, ftol, trail, log, (sim, fsim));
    }
  }

  /**
   * Minimise func from x0. Fails only for a zero-dimensional x0 when the
   * budgets let the loop start (the spread of an empty simplex has no
   * maximum). Otherwise the answer is the best vertex of the final
   * ordered simplex, which is also returned: its value is the objective
   * there, is the least in the simplex, and is no larger than func(x0).
   * The warning flag is 1 when the call budget is spent, else 2 when the
   * iteration budget is, else 0, and then the simplex passed the spread
   * test.
   */
  method Fmin(func: Vector -> real, x0: Vector, xtol: real, ftol: real, maxiter: Option<int>, maxfun: Option<int>)
    returns (r: Result<FminResult, FminError>, sim: seq<Vector>, fsim: seq<real>,
             ghost trail: seq<(seq<Vector>, seq<real>)>, ghost log: seq<nat>)
    ensures var N := |x0|;
      r.Err? <==> N == 0 && Budget(maxfun, N) > 1 && Budget(maxiter, N) > 1
    ensures r.Ok? ==>
      var N, res := |x0|, r.value;
      && IsSimplex(sim, fsim, N) && Consistent(func, sim, fsim) && Ascending(fsim)
      && res.x == sim[0] && |res.x| == N
      && res.fval == fsim[0] && res.fval == func(res.x) && res.fval <= func(x0)
      && res.iterations >= 1 && res.funcalls >= N + 1
      && (res.warnflag == 1 <==> res.funcalls >= Budget(maxfun, N))
      && (res.warnflag == 2 <==> res.funcalls < Budget(maxfun, N) && res.iterations >= Budget(maxiter, N))
      && (res.warnflag == 0 && N > 0 ==> Converged(sim, fsim, N, xtol, ftol))
      && N + 1 + (res.iterations - 1) <= res.funcalls <= MaxCalls(N, res.iterations - 1)
      && (res.iterations > 1 ==>
            res.iterations <= Budget(maxiter, N) && res.funcalls < Budget(maxfun, N) + N + 2)
    // The loop made iterations - 1 passes from the sorted start, each a Nelder-Mead pass from a
    // simplex that had not converged, begun with calls and iterations left, the last one ending
    // at (sim, fsim); their calls are all the calls after the N + 1 of the start, and the loop
    // stopped there. By RunDetermined no other such run exists.
    ensures r.Ok? && |x0| > 0 ==>
      && |trail| == r.value.iterations - 1
      && Run(func, SortedStart(func, x0), |x0|, xtol, ftol, trail, log, (sim, fsim))
      && r.value.funcalls == |x0| + 1 + Total(log)
      && Budgeted(|x0|, log, Budget(maxiter, |x0|), Budget(maxfun, |x0|))
      && Stopped(|x0|, log, (sim, fsim), xtol, ftol, Budget(maxiter, |x0|), Budget(maxfun, |x0|))
    // A sorted start that has already converged is returned after no pass at all.
    ensures r.Ok? && |x0| > 0 ==>
      var N, start := |x0|, SortedStart(func, x0);
      IsSimplex(start.0, start.1, N) && Converged(start.0, start.1, N, xtol, ftol) ==>
        r.value.iterations == 1 && r.value.funcalls == N + 1 && (sim, fsim) == start
  {
    var N := |x0|;
    var maxit := Budget(maxiter, N);
    var maxf := Budget(maxfun, N);
    var iterations, funcalls;
    sim, fsim, iterations, funcalls, trail, log := Search(func, x0, xtol, ftol, maxit, maxf);
    if N == 0 && funcalls < maxf && iterations < maxit {
      // The first pass of the loop fails on the empty simplex.
      return Err(EmptySimplex), sim, fsim, trail, log;
    }
    var fval := MinSeq(fsim);
    var warnflag := if funcalls >= maxf then 1 else if iterations >= maxit then 2 else 0;
    r := Ok(FminResult(sim[0], fval, warnflag, iterations, funcalls));
  }
}
