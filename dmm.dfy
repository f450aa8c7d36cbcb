/**
 * Density-matrix purification after Niklasson, Tymczak and Challacombe:
 * Gershgorin bounds on the spectrum of the orthogonalised Fock matrix, an
 * initial density matrix that is a linear function of it, and one of four
 * matrix-polynomial updates iterated until a method-specific stop test
 * holds or the iteration budget runs out.
 *
 * Every quantity is a real number; a zero divisor, where floating point
 * would go on with an infinity or NaN, ends the computation with
 * Err(ZeroDivision).
 */
module DensityMatrixPurification {
  import opened Wrappers
  import opened Matrices

  datatype DmmError =
    | EmptyMatrix            // min() of the empty list of row bounds
    | ZeroDivision           // a divisor that is exactly zero
    | UnknownMethod(code: int)

  /** The four purification methods, in the order of their integer codes. */
  datatype Method =
    | TCP   // 0: trace-correcting purification
    | TRS   // 1: trace-resetting purification
    | MCW   // 2: McWeeny purification
    | PM    // 3: canonical (Palser-Manolopoulos) purification

  /** Tolerance of the Fermi-level bisection when the purifier asks for a McWeeny guess. */
  const McwTolerance: real := 0.0000001
  /** The bisection always takes at most this many steps, whatever maxit says. */
  const BisectionSteps: nat := 100
  const McwBeta: real := 0.5
  /** The bisection starts from [emin, emax + UpperMargin]. */
  const UpperMargin: real := 20.0

  // ---------------------------------------------------------------------
  // Method selection

  function ParseMethod(code: int): (r: Result<Method, DmmError>)
    ensures r.Ok? <==> 0 <= code <= 3
    ensures r.Err? ==> r.error == UnknownMethod(code)
    ensures r.Ok? ==> MethodCode(r.value) == code
  {
    if code == 0 then Ok(TCP)
    else if code == 1 then Ok(TRS)
    else if code == 2 then Ok(MCW)
    else if code == 3 then Ok(PM)
    else Err(UnknownMethod(code))
  }

  function MethodCode(m: Method): int {
    match m
    case TCP => 0
    case TRS => 1
    case MCW => 2
    case PM => 3
  }

  /** Every method is selected by its own code. */
  lemma ParseMethodCode(m: Method)
    ensures ParseMethod(MethodCode(m)) == Ok(m)
  {
  }

  // ---------------------------------------------------------------------
  // Gershgorin bounds

  /** Sum of the absolute values of the off-diagonal elements of row i. */
  function OffDiagonal(A: Matrix, i: nat): real
    requires IsSquare(A, |A|) && i < |A|
  {
    AbsSum(A[i]) - Abs(A[i][i])
  }

  lemma OffDiagonalNonNegative(A: Matrix, i: nat)
    requires IsSquare(A, |A|) && i < |A|
    ensures OffDiagonal(A, i) >= 0.0
  {
    AbsSumDominates(A[i], i);
  }

  /** Lower ends A[i][i] - r_i of the Gershgorin discs. */
  function DiscLows(A: Matrix): (s: seq<real>)
    requires IsSquare(A, |A|)
    ensures |s| == |A|
  {
    seq(|A|, i requires 0 <= i < |A| => A[i][i] - OffDiagonal(A, i))
  }

  /** Upper ends A[i][i] + r_i of the Gershgorin discs. */
  function DiscHighs(A: Matrix): (s: seq<real>)
    requires IsSquare(A, |A|)
    ensures |s| == |A|
  {
    seq(|A|, i requires 0 <= i < |A| => A[i][i] + OffDiagonal(A, i))
  }

  /** The least element of a non-empty sequence. */
  function MinOf(s: seq<real>): (m: real)
    requires |s| > 0
    ensures forall k :: 0 <= k < |s| ==> m <= s[k]
    ensures exists k :: 0 <= k < |s| && m == s[k]
  {
    if |s| == 1 then s[0]
    else
      var m := MinOf(s[..|s| - 1]);
      assert forall k :: 0 <= k < |s| - 1 ==> s[..|s| - 1][k] == s[k];
      if s[|s| - 1] < m then s[|s| - 1] else m
  }

  /** The greatest element of a non-empty sequence. */
  function MaxOf(s: seq<real>): (m: real)
    requires |s| > 0
    ensures forall k :: 0 <= k < |s| ==> s[k] <= m
    ensures exists k :: 0 <= k < |s| && m == s[k]
  {
    if |s| == 1 then s[0]
    else
      var m := MaxOf(s[..|s| - 1]);
      assert forall k :: 0 <= k < |s| - 1 ==> s[..|s| - 1][k] == s[k];
      if s[|s| - 1] > m then s[|s| - 1] else m
  }

  function GershgorinMin(A: Matrix): real
    requires IsSquare(A, |A|) && |A| > 0
  {
    MinOf(DiscLows(A))
  }

  function GershgorinMax(A: Matrix): real
    requires IsSquare(A, |A|) && |A| > 0
  {
    MaxOf(DiscHighs(A))
  }

  /**
   * The lowest lower disc end and the highest upper disc end over the
   * rows; the empty matrix has no rows to take a minimum over.
   */
  method GershgorinMinMax(A: Matrix) returns (r: Result<(real, real), DmmError>)
    requires IsSquare(A, |A|)
    ensures r.Err? <==> |A| == 0
    ensures r.Err? ==> r.error == EmptyMatrix
    ensures r.Ok? ==> r.value == (GershgorinMin(A), GershgorinMax(A))
  {
    var mins: seq<real> := [];
    var maxs: seq<real> := [];
    for i := 0 to |A|
      invariant |mins| == i && |maxs| == i
      invariant forall k :: 0 <= k < i ==> mins[k] == DiscLows(A)[k] && maxs[k] == DiscHighs(A)[k]
    {
      var offsum := AbsSum(A[i]) - Abs(A[i][i]);
      mins := mins + [A[i][i] - offsum];
      maxs := maxs + [A[i][i] + offsum];
    }
    if |mins| == 0 {
      return Err(EmptyMatrix);
    }
    assert mins == DiscLows(A) && maxs == DiscHighs(A);
    r := Ok((MinOf(mins), MaxOf(maxs)));
  }

  /**
   * Every diagonal element lies between the two bounds, each bound is the
   * end of some disc, and so emin <= emax.
   */
  lemma GershgorinBounds(A: Matrix)
    requires IsSquare(A, |A|) && |A| > 0
    ensures forall i :: 0 <= i < |A| ==> GershgorinMin(A) <= A[i][i] <= GershgorinMax(A)
    ensures exists i :: 0 <= i < |A| && GershgorinMin(A) == A[i][i] - OffDiagonal(A, i)
    ensures exists i :: 0 <= i < |A| && GershgorinMax(A) == A[i][i] + OffDiagonal(A, i)
    ensures GershgorinMin(A) <= GershgorinMax(A)
  {
    forall i | 0 <= i < |A| ensures GershgorinMin(A) <= A[i][i] <= GershgorinMax(A) {
      OffDiagonalNonNegative(A, i);
      assert DiscLows(A)[i] == A[i][i] - OffDiagonal(A, i);
      assert DiscHighs(A)[i] == A[i][i] + OffDiagonal(A, i);
    }
    var k :| 0 <= k < |A| && GershgorinMin(A) == DiscLows(A)[k];
    var l :| 0 <= l < |A| && GershgorinMax(A) == DiscHighs(A)[l];
    assert GershgorinMin(A) == A[k][k] - OffDiagonal(A, k);
    assert GershgorinMax(A) == A[l][l] + OffDiagonal(A, l);
  }

  /** emin <= emax */
  lemma GershgorinOrdered(A: Matrix)
    requires IsSquare(A, |A|) && |A| > 0
    ensures GershgorinMin(A) <= GershgorinMax(A)
  {
    GershgorinBounds(A);
  }

  // ---------------------------------------------------------------------
  // Initial density matrices

  /** alpha (e I - F) + beta I */
  function AffineGuess(alpha: real, e: real, F: Matrix, beta: real): (D: Matrix)
    requires IsSquare(F, |F|)
    ensures IsSquare(D, |F|)
  {
    var I := Identity(|F|);
    Add(Scale(alpha, Sub(Scale(e, I), F)), Scale(beta, I))
  }

  /**
   * The electron count alpha (e N - tr F) + beta N of the affine guess at
   * Fermi level e (AffineGuessTrace shows it is the guess's trace).
   */
  function ElectronCount(F: Matrix, alpha: real, beta: real, e: real): real
    requires IsSquare(F, |F|)
  {
    alpha * (e * (|F| as real) - Trace(F)) + beta * (|F| as real)
  }

  /** The trace of alpha (e I - F) + beta I is its electron count. */
  lemma AffineGuessTrace(F: Matrix, alpha: real, beta: real, e: real)
    requires IsSquare(F, |F|)
    ensures Trace(AffineGuess(alpha, e, F, beta)) == ElectronCount(F, alpha, beta, e)
  {
    TraceShiftedGuess(alpha, e, F, beta);
  }

  /** For positive alpha a higher Fermi level gives a larger electron count. */
  lemma ElectronCountIncreasing(F: Matrix, alpha: real, beta: real, e1: real, e2: real)
    requires IsSquare(F, |F|) && |F| > 0 && alpha > 0.0 && e1 < e2
    ensures ElectronCount(F, alpha, beta, e1) < ElectronCount(F, alpha, beta, e2)
  {
    var n := |F| as real;
    assert ElectronCount(F, alpha, beta, e2) - ElectronCount(F, alpha, beta, e1) == alpha * ((e2 - e1) * n);
    assert (e2 - e1) * n > 0.0;
  }

  /**
   * (emax I - F)/(emax - emin), the starting matrix of the trace-correcting
   * and trace-resetting methods.
   */
  function LinearGuess(F: Matrix, emin: real, emax: real): (r: Result<Matrix, DmmError>)
    requires IsSquare(F, |F|)
    ensures r.Err? <==> emax == emin
    ensures r.Err? ==> r.error == ZeroDivision
    ensures r.Ok? ==> IsSquare(r.value, |F|)
  {
    if emax == emin then Err(ZeroDivision)
    else Ok(Div(Sub(Scale(emax, Identity(|F|)), F), emax - emin))
  }

  /**
   * When every diagonal element of F lies in [emin, emax], as the Gershgorin
   * bounds guarantee, each diagonal element (emax - F[i][i])/(emax - emin)
   * of the linear guess lies in [0, 1].
   */
  lemma LinearGuessDiagonal(F: Matrix, emin: real, emax: real)
    requires IsSquare(F, |F|) && emin < emax
    requires forall i :: 0 <= i < |F| ==> emin <= F[i][i] <= emax
    ensures var r := LinearGuess(F, emin, emax);
            r.Ok? && forall i :: 0 <= i < |F| ==>
              r.value[i][i] == (emax - F[i][i]) / (emax - emin) && 0.0 <= r.value[i][i] <= 1.0
  {
    var D := LinearGuess(F, emin, emax).value;
    forall i | 0 <= i < |F|
      ensures D[i][i] == (emax - F[i][i]) / (emax - emin) && 0.0 <= D[i][i] <= 1.0
    {
      assert Scale(emax, Identity(|F|))[i][i] == emax;
      assert Sub(Scale(emax, Identity(|F|)), F)[i][i] == emax - F[i][i];
      QuotientInUnit(emax - F[i][i], emax - emin);
    }
  }

  /** 0 <= x <= d with d > 0 gives 0 <= x / d <= 1. */
  lemma QuotientInUnit(x: real, d: real)
    requires d > 0.0 && 0.0 <= x <= d
    ensures 0.0 <= x / d <= 1.0
  {
  }

  /**
   * The canonical-purification guess: efermi = tr F / N, beta = Ne / N and
   * alpha = min(Ne/(emax - efermi), (N - Ne)/(efermi - emin)) / N.
   */
  function CanonicalGuess(F: Matrix, emin: real, emax: real, Ne: real): (r: Result<Matrix, DmmError>)
    requires IsSquare(F, |F|) && |F| > 0
    ensures r.Err? <==> emax == Trace(F) / (|F| as real) || Trace(F) / (|F| as real) == emin
    ensures r.Err? ==> r.error == ZeroDivision
    ensures r.Ok? ==> IsSquare(r.value, |F|)
  {
    var n := |F| as real;
    var efermi := Trace(F) / n;
    var beta := Ne / n;
    if emax - efermi == 0.0 || efermi - emin == 0.0 then Err(ZeroDivision)
    else
      var alpha := MinOf([Ne / (emax - efermi), (n - Ne) / (efermi - emin)]) / n;
      Ok(AffineGuess(alpha, efermi, F, beta))
  }

  /** The canonical guess holds exactly Ne electrons: its trace is Ne. */
  lemma CanonicalGuessTrace(F: Matrix, emin: real, emax: real, Ne: real)
    requires IsSquare(F, |F|) && |F| > 0
    ensures var r := CanonicalGuess(F, emin, emax, Ne);
            r.Ok? ==> Trace(r.value) == Ne
  {
    var r := CanonicalGuess(F, emin, emax, Ne);
    if r.Ok? {
      var n := |F| as real;
      var efermi := Trace(F) / n;
      var alpha := MinOf([Ne / (emax - efermi), (n - Ne) / (efermi - emin)]) / n;
      AffineGuessTrace(F, alpha, Ne / n, efermi);
      CountAtMean(F, alpha, Ne);
    }
  }

  /** At the mean diagonal element with beta = Ne/N the electron count is Ne, whatever alpha. */
  lemma CountAtMean(F: Matrix, alpha: real, Ne: real)
    requires IsSquare(F, |F|) && |F| > 0
    ensures ElectronCount(F, alpha, Ne / (|F| as real), Trace(F) / (|F| as real)) == Ne
  {
    CountAlgebra(alpha, Trace(F), |F| as real, Ne);
  }

  lemma CountAlgebra(alpha: real, t: real, n: real, Ne: real)
    requires n != 0.0
    ensures alpha * (t / n * n - t) + Ne / n * n == Ne
  {
    assert t / n * n == t;
    assert Ne / n * n == Ne;
  }

  // ---------------------------------------------------------------------
  // Fermi-level bisection

  /** The state the bisection ends in. */
  datatype Bisection = Bisection(efermi: real, elow: real, ehigh: real, steps: nat, converged: bool)

  /**
   * The bisection on the electron count `count` from bracket [elow, ehigh]
   * with `left` steps to go, `steps` taken and `efermi` the last midpoint.
   */
  function Bisect(count: real -> real, Ne: real, tol: real,
                  elow: real, ehigh: real, left: nat, steps: nat, efermi: real): Bisection
    decreases left
  {
    if left == 0 then Bisection(efermi, elow, ehigh, steps, false)
    else
      var e := 0.5 * (elow + ehigh);
      var ne := CountAt(count, e);
      if Abs(Ne - ne) < tol then Bisection(e, elow, ehigh, steps + 1, true)
      else if ne < Ne then Bisect(count, Ne, tol, e, ehigh, left - 1, steps + 1, e)
      else if ne > Ne then Bisect(count, Ne, tol, elow, e, left - 1, steps + 1, e)
      else Bisect(count, Ne, tol, elow, ehigh, left - 1, steps + 1, e)
  }

  /** A full bisection: 100 steps from the bracket [lo, hi]. */
  function BisectFrom(count: real -> real, Ne: real, tol: real, lo: real, hi: real): Bisection {
    Bisect(count, Ne, tol, lo, hi, BisectionSteps, 0, 0.0)
  }

  /**
   * The electron count at level e; the loop reads it through this function
   * so that it and Bisect see the same term.
   */
  function CountAt(count: real -> real, e: real): real {
    count(e)
  }

  /** w halved k times. */
  function Halved(w: real, k: nat): real {
    if k == 0 then w else 0.5 * Halved(w, k - 1)
  }

  /** Halvings the bisection made: one per step, except a final converged step. */
  function Halvings(b: Bisection, steps: nat): nat
    requires b.steps >= steps + (if b.converged then 1 else 0)
  {
    b.steps - steps - (if b.converged then 1 else 0)
  }

  /**
   * The bisection keeps the Fermi level inside its bracket, the bracket
   * inside [lo, hi], each end either where it started or on its side of Ne;
   * it stops early only within tol of Ne and takes at most `left` more steps.
   */
  lemma {:induction false} BisectBrackets(count: real -> real, Ne: real, tol: real,
                                          lo: real, hi: real, elow: real, ehigh: real,
                                          left: nat, steps: nat, efermi: real)
    requires lo <= elow <= ehigh <= hi
    requires elow == lo || count(elow) < Ne
    requires ehigh == hi || count(ehigh) > Ne
    requires left > 0 || elow <= efermi <= ehigh
    ensures var b := Bisect(count, Ne, tol, elow, ehigh, left, steps, efermi);
      && lo <= b.elow <= b.efermi <= b.ehigh <= hi
      && (b.elow == lo || count(b.elow) < Ne)
      && (b.ehigh == hi || count(b.ehigh) > Ne)
      && (b.converged ==> Abs(Ne - count(b.efermi)) < tol && b.efermi == 0.5 * (b.elow + b.ehigh))
      && (b.converged ==> steps < b.steps <= steps + left)
      && (!b.converged ==> b.steps == steps + left)
    decreases left
  {
    if left > 0 {
      var e := 0.5 * (elow + ehigh);
      var ne := count(e);
      var b := Bisect(count, Ne, tol, elow, ehigh, left, steps, efermi);
      if Abs(Ne - ne) >= tol {
        if ne < Ne {
          assert b == Bisect(count, Ne, tol, e, ehigh, left - 1, steps + 1, e);
          BisectBrackets(count, Ne, tol, lo, hi, e, ehigh, left - 1, steps + 1, e);
        } else if ne > Ne {
          assert b == Bisect(count, Ne, tol, elow, e, left - 1, steps + 1, e);
          BisectBrackets(count, Ne, tol, lo, hi, elow, e, left - 1, steps + 1, e);
        } else {
          assert b == Bisect(count, Ne, tol, elow, ehigh, left - 1, steps + 1, e);
          BisectBrackets(count, Ne, tol, lo, hi, elow, ehigh, left - 1, steps + 1, e);
        }
      } else {
        assert b == Bisection(e, elow, ehigh, steps + 1, true);
      }
    }
  }

  /**
   * With tol > 0 every step that does not stop halves the bracket: the final
   * bracket is the first one halved once per such step.
   */
  lemma {:induction false} BisectHalves(count: real -> real, Ne: real, tol: real,
                                        elow: real, ehigh: real, left: nat, steps: nat, efermi: real)
    requires tol > 0.0
    ensures var b := Bisect(count, Ne, tol, elow, ehigh, left, steps, efermi);
      && b.steps >= steps + (if b.converged then 1 else 0)
      && b.ehigh - b.elow == Halved(ehigh - elow, Halvings(b, steps))
    decreases left
  {
    if left > 0 {
      var e := 0.5 * (elow + ehigh);
      var ne := count(e);
      if Abs(Ne - ne) >= tol {
        var b := Bisect(count, Ne, tol, elow, ehigh, left, steps, efermi);
        if ne < Ne {
          BisectHalves(count, Ne, tol, e, ehigh, left - 1, steps + 1, e);
        } else {
          BisectHalves(count, Ne, tol, elow, e, left - 1, steps + 1, e);
        }
        var h := Halvings(b, steps + 1);
        assert Halvings(b, steps) == h + 1;
        HalvedShift(ehigh - elow, h);
      }
    }
  }

  /** Halving once more first is the same as halving once more last. */
  lemma {:induction false} HalvedShift(w: real, k: nat)
    ensures Halved(0.5 * w, k) == Halved(w, k + 1)
  {
    if k > 0 {
      HalvedShift(w, k - 1);
    }
  }

  /** tr(alpha (e I - F) + beta I), the number of electrons of the McWeeny guess at e. */
  function GuessTrace(F: Matrix, alpha: real, e: real): (ne: real)
    requires IsSquare(F, |F|)
    ensures ne == ElectronCount(F, alpha, McwBeta, e)
  {
    AffineGuessTrace(F, alpha, McwBeta, e);
    Trace(AffineGuess(alpha, e, F, McwBeta))
  }

  /** The electron count of the McWeeny guess as a function of the Fermi level. */
  function McwCount(F: Matrix, alpha: real): real -> real
    requires IsSquare(F, |F|)
  {
    e => GuessTrace(F, alpha, e)
  }

  /** The bisection Dinit_mcw runs: bracket [emin, emax + 20], alpha = 0.5/(emax - emin). */
  function McwBisection(F: Matrix, emin: real, emax: real, Ne: real, tol: real): Bisection
    requires IsSquare(F, |F|) && emin != emax
  {
    BisectFrom(McwCount(F, McwBeta / (emax - emin)), Ne, tol, emin, emax + UpperMargin)
  }

  /** alpha = min(beta/(emax - e), (1 - beta)/(e - emin)) */
  function McwAlpha(emin: real, emax: real, e: real): real
    requires emax != e && e != emin
  {
    MinOf([McwBeta / (emax - e), (1.0 - McwBeta) / (e - emin)])
  }

  /** The McWeeny initial guess alpha (efermi I - F) + beta I at the bisected Fermi level. */
  function McwGuess(F: Matrix, Ne: real, tol: real): (r: Result<Matrix, DmmError>)
    requires IsSquare(F, |F|)
    ensures r.Ok? ==> IsSquare(r.value, |F|)
  {
    if |F| == 0 then Err(EmptyMatrix)
    else McwGuessFrom(F, GershgorinMin(F), GershgorinMax(F), Ne, tol)
  }

  /** The McWeeny guess for spectral bounds emin and emax. */
  function McwGuessFrom(F: Matrix, emin: real, emax: real, Ne: real, tol: real): (r: Result<Matrix, DmmError>)
    requires IsSquare(F, |F|)
    ensures r.Ok? ==> IsSquare(r.value, |F|)
  {
    if emax - emin == 0.0 then Err(ZeroDivision)
    else McwGuessAt(F, emin, emax, McwBisection(F, emin, emax, Ne, tol).efermi)
  }

  /** The McWeeny guess at Fermi level e; a level at emin or emax divides by zero. */
  function McwGuessAt(F: Matrix, emin: real, emax: real, e: real): (r: Result<Matrix, DmmError>)
    requires IsSquare(F, |F|)
    ensures r.Ok? ==> IsSquare(r.value, |F|)
  {
    if emax - e == 0.0 || e - emin == 0.0 then Err(ZeroDivision)
    else Ok(AffineGuess(McwAlpha(emin, emax, e), e, F, McwBeta))
  }

  /**
   * The bisection of Dinit_mcw keeps its Fermi level inside the final
   * bracket within [emin, emax + 20], takes between 1 and 100 steps, all
   * 100 unless it converged, and stops early only within tol of Ne.
   */
  lemma McwBisectionBrackets(F: Matrix, emin: real, emax: real, Ne: real, tol: real)
    requires IsSquare(F, |F|) && emin < emax
    ensures var b := McwBisection(F, emin, emax, Ne, tol);
      && emin <= b.elow <= b.efermi <= b.ehigh <= emax + UpperMargin
      && 0 < b.steps <= BisectionSteps
      && (!b.converged ==> b.steps == BisectionSteps)
      && (b.converged ==> Abs(Ne - ElectronCount(F, McwBeta / (emax - emin), McwBeta, b.efermi)) < tol)
  {
    var count := McwCount(F, McwBeta / (emax - emin));
    var b := BisectFrom(count, Ne, tol, emin, emax + UpperMargin);
    assert b == McwBisection(F, emin, emax, Ne, tol);
    BisectFromStart(count, Ne, tol, emin, emax + UpperMargin);
    assert b.converged ==> count(b.efermi) == ElectronCount(F, McwBeta / (emax - emin), McwBeta, b.efermi);
  }

  /** BisectBrackets for a bisection of 100 steps from the bracket [lo, hi]. */
  lemma BisectFromStart(count: real -> real, Ne: real, tol: real, lo: real, hi: real)
    requires lo <= hi
    ensures var b := BisectFrom(count, Ne, tol, lo, hi);
      && lo <= b.elow <= b.efermi <= b.ehigh <= hi
      && 0 < b.steps <= BisectionSteps
      && (!b.converged ==> b.steps == BisectionSteps)
      && (b.converged ==> Abs(Ne - count(b.efermi)) < tol)
  {
    BisectBrackets(count, Ne, tol, lo, hi, lo, hi, BisectionSteps, 0, 0.0);
  }

  /**
   * The McWeeny guess fails on an empty matrix, and otherwise only on a
   * zero divisor: emax = emin, or a Fermi level at emin or emax. Its trace
   * is alpha (efermi N - tr F) + N/2.
   */
  lemma McwGuessOutcome(F: Matrix, emin: real, emax: real, Ne: real, tol: real)
    requires IsSquare(F, |F|)
    ensures |F| == 0 ==> McwGuess(F, Ne, tol) == Err(EmptyMatrix)
    ensures emin == emax ==> McwGuessFrom(F, emin, emax, Ne, tol) == Err(ZeroDivision)
    ensures emin != emax ==>
      var e := McwBisection(F, emin, emax, Ne, tol).efermi;
      var r := McwGuessFrom(F, emin, emax, Ne, tol);
      && (r.Err? <==> e == emax || e == emin)
      && (r.Ok? ==> Trace(r.value) == McwAlpha(emin, emax, e) * (e * (|F| as real) - Trace(F)) + McwBeta * (|F| as real))
  {
    if emin != emax {
      var e := McwBisection(F, emin, emax, Ne, tol).efermi;
      if e != emax && e != emin {
        AffineGuessTrace(F, McwAlpha(emin, emax, e), McwBeta, e);
      }
    }
  }

  /**
   * Solves for the Fermi level by bisection and returns the McWeeny
   * initial guess at it. The maxit argument is accepted and ignored: the
   * bisection always runs at most 100 steps.
   */
  method DinitMcw(F: Matrix, Ne: real, tol: real, maxit: int) returns (r: Result<Matrix, DmmError>)
    requires IsSquare(F, |F|)
    ensures r == McwGuess(F, Ne, tol)
  {
    var g := GershgorinMinMax(F);
    if g.Err? {
      return Err(g.error);
    }
    var (emin, emax) := g.value;
    if emax - emin == 0.0 {
      return Err(ZeroDivision);
    }
    var efermi := FermiLevel(F, emin, emax, Ne, tol);
    r := McwGuessAt(F, emin, emax, efermi);
  }

  /** The Fermi level of Dinit_mcw: bisect its count with alpha = 0.5/(emax - emin) from [emin, emax + 20]. */
  method FermiLevel(F: Matrix, emin: real, emax: real, Ne: real, tol: real) returns (efermi: real)
    requires IsSquare(F, |F|) && emax != emin
    ensures efermi == McwBisection(F, emin, emax, Ne, tol).efermi
  {
    var alpha := McwBeta / (emax - emin);
    efermi := BisectLoop(McwCount(F, alpha), Ne, tol, emin, emax + UpperMargin);
  }

  /**
   * The bisection loop of Dinit_mcw: halve [lo, hi] towards the Fermi level
   * whose count is Ne, for at most 100 steps, stopping within tol of Ne.
   */
  method BisectLoop(count: real -> real, Ne: real, tol: real, lo: real, hi: real) returns (efermi: real)
    ensures efermi == BisectFrom(count, Ne, tol, lo, hi).efermi
  {
    var elow := lo;
    var ehigh := hi;
    ghost var spec := BisectFrom(count, Ne, tol, lo, hi);
    efermi := 0.0;
    for i := 0 to BisectionSteps
      invariant spec == Bisect(count, Ne, tol, elow, ehigh, BisectionSteps - i, i, efermi)
    {
      ghost var rest := Bisect(count, Ne, tol, elow, ehigh, BisectionSteps - i, i, efermi);
      efermi := 0.5 * (elow + ehigh);
      var nefermi := CountAt(count, efermi);
      if Abs(Ne - nefermi) < tol {
        assert rest.efermi == efermi;
        break;
      }
      ghost var left: nat := BisectionSteps - (i + 1);
      if nefermi < Ne {
        assert rest == Bisect(count, Ne, tol, efermi, ehigh, left, i + 1, efermi);
        elow := efermi;
      } else if nefermi > Ne {
        assert rest == Bisect(count, Ne, tol, elow, efermi, left, i + 1, efermi);
        ehigh := efermi;
      } else {
        assert rest == Bisect(count, Ne, tol, elow, ehigh, left, i + 1, efermi);
      }
    }
  }

  // ---------------------------------------------------------------------
  // One purification update

  /** The TRS "filling" polynomial Df = D^2 (4D - 3D^2). */
  function TrsF(D: Matrix): (Df: Matrix)
    requires IsSquare(D, |D|)
    ensures IsSquare(Df, |D|)
  {
    var D2 := Mul(D, D);
    Mul(D2, Sub(Scale(4.0, D), Scale(3.0, D2)))
  }

  /** The TRS correction polynomial Dg = D^2 (I - D)^2. */
  function TrsG(D: Matrix): (Dg: Matrix)
    requires IsSquare(D, |D|)
    ensures IsSquare(Dg, |D|)
  {
    var Dp := Sub(Identity(|D|), D);
    Mul(Mul(D, D), Mul(Dp, Dp))
  }

  /**
   * The trace-resetting update as the code writes it: gamma =
   * (Ne - tr Df)/tr Dg; above 2 it takes 2D - D^2, below 0 it takes D^2,
   * and otherwise Df - gamma Dg.
   */
  function TrsStepAsWritten(D: Matrix, Ne: real): (r: Result<Matrix, DmmError>)
    requires IsSquare(D, |D|)
    ensures r.Ok? ==> IsSquare(r.value, |D|)
    ensures r.Err? <==> Trace(TrsG(D)) == 0.0
  {
    var D2 := Mul(D, D);
    var Df, Dg := TrsF(D), TrsG(D);
    var trf, trg := Trace(Df), Trace(Dg);
    if trg == 0.0 then Err(ZeroDivision)
    else
      var gamma := (Ne - trf) / trg;
      if gamma > 2.0 then Ok(Sub(Scale(2.0, D), D2))
      else if gamma < 0.0 then Ok(D2)
      else Ok(Sub(Df, Scale(gamma, Dg)))
  }

  /**
   * The trace-resetting update with the blend Df + gamma Dg, the sign that
   * makes the blended trace equal Ne; otherwise as TrsStepAsWritten.
   */
  function TrsStep(D: Matrix, Ne: real): (r: Result<Matrix, DmmError>)
    requires IsSquare(D, |D|)
    ensures r.Ok? ==> IsSquare(r.value, |D|)
    ensures r.Err? <==> Trace(TrsG(D)) == 0.0
  {
    var D2 := Mul(D, D);
    var Df, Dg := TrsF(D), TrsG(D);
    var trf, trg := Trace(Df), Trace(Dg);
    if trg == 0.0 then Err(ZeroDivision)
    else
      var gamma := (Ne - trf) / trg;
      if gamma > 2.0 then Ok(Sub(Scale(2.0, D), D2))
      else if gamma < 0.0 then Ok(D2)
      else Ok(Add(Df, Scale(gamma, Dg)))
  }

  /** D is in the blend range of TRS: tr Dg is non-zero and 0 <= gamma <= 2. */
  predicate TrsBlends(D: Matrix, Ne: real)
    requires IsSquare(D, |D|)
  {
    var trg := Trace(TrsG(D));
    trg != 0.0 && 0.0 <= (Ne - Trace(TrsF(D))) / trg <= 2.0
  }

  /**
   * In the blend range the update as written has trace 2 tr Df - Ne, so it
   * reaches Ne only when Df already had trace Ne.
   */
  lemma TrsBlendAsWritten(D: Matrix, Ne: real)
    requires IsSquare(D, |D|) && TrsBlends(D, Ne)
    ensures TrsStepAsWritten(D, Ne).Ok?
    ensures Trace(TrsStepAsWritten(D, Ne).value) == 2.0 * Trace(TrsF(D)) - Ne
    ensures Trace(TrsStepAsWritten(D, Ne).value) == Ne <==> Trace(TrsF(D)) == Ne
  {
    var Df, Dg := TrsF(D), TrsG(D);
    var gamma := (Ne - Trace(Df)) / Trace(Dg);
    TraceScale(gamma, Dg);
    TraceSub(Df, Scale(gamma, Dg));
  }

  /** In the blend range the corrected update resets the trace to exactly Ne. */
  lemma TrsBlendResetsTrace(D: Matrix, Ne: real)
    requires IsSquare(D, |D|) && TrsBlends(D, Ne)
    ensures TrsStep(D, Ne).Ok?
    ensures Trace(TrsStep(D, Ne).value) == Ne
  {
    var Df, Dg := TrsF(D), TrsG(D);
    var gamma := (Ne - Trace(Df)) / Trace(Dg);
    TraceScale(gamma, Dg);
    TraceAdd(Df, Scale(gamma, Dg));
  }

  /** A 1-by-1 matrix is the display of its one element. */
  lemma OneByOne(A: Matrix)
    requires |A| == 1 && |A[0]| == 1
    ensures A == [[A[0][0]]]
  {
    assert A[0] == [A[0][0]];
  }

  lemma TraceOneByOne(x: real)
    ensures Trace([[x]]) == x
  {
    assert DiagSum([[x]], 0) == 0.0;
  }

  lemma MulOneByOne(a: real, b: real)
    ensures Mul([[a]], [[b]]) == [[a * b]]
  {
    var C := Mul([[a]], [[b]]);
    assert Column([[b]], 0) == [b];
    assert Dot([a], [b]) == a * b by {
      assert [a][..0] == [] && [b][..0] == [];
    }
    OneByOne(C);
  }

  /**
   * For D = [[0.5]] and Ne = 0.375: Df = [[0.3125]], Dg = [[0.0625]] and
   * gamma = 1, so the update as written gives 0.25 where the corrected one
   * gives Ne.
   */
  lemma TrsAsWrittenMissesTarget()
    ensures TrsBlends([[0.5]], 0.375)
    ensures TrsStepAsWritten([[0.5]], 0.375) == Ok([[0.25]])
    ensures TrsStep([[0.5]], 0.375) == Ok([[0.375]])
  {
    TrsExamplePolynomials();
    TraceOneByOne(0.3125);
    TraceOneByOne(0.0625);
    assert (0.375 - 0.3125) / 0.0625 == 1.0;
    var G := Scale(1.0, [[0.0625]]);
    OneByOne(G);
    OneByOne(Sub([[0.3125]], G));
    OneByOne(Add([[0.3125]], G));
  }

  /** Df and Dg at D = [[0.5]]. */
  lemma TrsExamplePolynomials()
    ensures TrsF([[0.5]]) == [[0.3125]]
    ensures TrsG([[0.5]]) == [[0.0625]]
  {
    var D: Matrix := [[0.5]];
    MulOneByOne(0.5, 0.5);
    var S := Sub(Scale(4.0, D), Scale(3.0, [[0.25]]));
    OneByOne(S);
    MulOneByOne(0.25, 1.25);
    var Dp := Sub(Identity(1), D);
    OneByOne(Dp);
    MulOneByOne(0.25, 0.25);
  }

  /**
   * Canonical update with cn = tr(D^2 - D^3)/tr(D - D^2): below 1/2 it
   * is ((1 - 2cn) D + (1 + cn) D^2 - D^3)/(1 - cn), otherwise
   * ((1 + cn) D^2 - D^3)/cn.
   */
  function PmStep(D: Matrix): (r: Result<Matrix, DmmError>)
    requires IsSquare(D, |D|)
    ensures r.Ok? ==> IsSquare(r.value, |D|)
    ensures r.Err? <==> Trace(Sub(D, Mul(D, D))) == 0.0
  {
    var D2 := Mul(D, D);
    CanonicalUpdate(D, D2, Mul(D, D2))
  }

  /** The canonical update written over D and its powers D2 = D^2, D3 = D^3. */
  function CanonicalUpdate(D: Matrix, D2: Matrix, D3: Matrix): (r: Result<Matrix, DmmError>)
    requires IsSquare(D, |D|) && IsSquare(D2, |D|) && IsSquare(D3, |D|)
    ensures r.Ok? ==> IsSquare(r.value, |D|)
    ensures r.Err? <==> Trace(Sub(D, D2)) == 0.0
  {
    var den := Trace(Sub(D, D2));
    if den == 0.0 then Err(ZeroDivision)
    else Ok(CanonicalBlend(D, D2, D3, Trace(Sub(D2, D3)) / den))
  }

  /** The two formulas of the canonical update at coefficient cn. */
  function CanonicalBlend(D: Matrix, D2: Matrix, D3: Matrix, cn: real): (D': Matrix)
    requires IsSquare(D, |D|) && IsSquare(D2, |D|) && IsSquare(D3, |D|)
    ensures IsSquare(D', |D|)
  {
    if cn < 0.5 then Div(Sub(Add(Scale(1.0 - 2.0 * cn, D), Scale(1.0 + cn, D2)), D3), 1.0 - cn)
    else Div(Sub(Scale(1.0 + cn, D2), D3), cn)
  }

  /** (num / den) (t1 - t2) = t2 - t3 when num = t2 - t3 and den = t1 - t2. */
  lemma QuotientTimes(num: real, den: real, t1: real, t2: real, t3: real)
    requires den != 0.0 && num == t2 - t3 && den == t1 - t2
    ensures (num / den) * (t1 - t2) == t2 - t3
  {
    assert (num / den) * den == num;
  }

  /** x / c = t when x = t c and c is not zero. */
  lemma QuotientOf(x: real, c: real, t: real)
    requires c != 0.0 && x == t * c
    ensures x / c == t
  {
  }

  /** The low-cn numerator: with cn (t1 - t2) = t2 - t3, (1 - 2cn) t1 + (1 + cn) t2 - t3 = t1 (1 - cn). */
  lemma LowNumerator(t1: real, t2: real, t3: real, cn: real)
    requires cn * (t1 - t2) == t2 - t3
    ensures (1.0 - 2.0 * cn) * t1 + (1.0 + cn) * t2 - t3 == t1 * (1.0 - cn)
  {
    assert cn * (t1 - t2) == cn * t1 - cn * t2;
    assert (1.0 - 2.0 * cn) * t1 == t1 - 2.0 * (cn * t1);
    assert (1.0 + cn) * t2 == t2 + cn * t2;
    assert t1 * (1.0 - cn) == t1 - cn * t1;
  }

  /** The high-cn numerator: with cn (t1 - t2) = t2 - t3, (1 + cn) t2 - t3 = t1 cn. */
  lemma HighNumerator(t1: real, t2: real, t3: real, cn: real)
    requires cn * (t1 - t2) == t2 - t3
    ensures (1.0 + cn) * t2 - t3 == t1 * cn
  {
    assert cn * (t1 - t2) == cn * t1 - cn * t2;
    assert (1.0 + cn) * t2 == t2 + cn * t2;
    assert t1 * cn == cn * t1;
  }

  /**
   * The canonical formula keeps the trace whatever D2 and D3 are: the
   * choice of cn makes tr(D2 - D3) = cn tr(D - D2).
   */
  lemma CanonicalUpdateKeepsTrace(D: Matrix, D2: Matrix, D3: Matrix)
    requires IsSquare(D, |D|) && IsSquare(D2, |D|) && IsSquare(D3, |D|)
    requires CanonicalUpdate(D, D2, D3).Ok?
    ensures Trace(CanonicalUpdate(D, D2, D3).value) == Trace(D)
  {
    var num, den := Trace(Sub(D2, D3)), Trace(Sub(D, D2));
    TraceSub(D, D2);
    TraceSub(D2, D3);
    QuotientTimes(num, den, Trace(D), Trace(D2), Trace(D3));
    CanonicalBlendKeepsTrace(D, D2, D3, num / den);
  }

  /** Either formula keeps the trace once cn tr(D - D2) = tr(D2 - D3). */
  lemma CanonicalBlendKeepsTrace(D: Matrix, D2: Matrix, D3: Matrix, cn: real)
    requires IsSquare(D, |D|) && IsSquare(D2, |D|) && IsSquare(D3, |D|)
    requires cn * (Trace(D) - Trace(D2)) == Trace(D2) - Trace(D3)
    ensures Trace(CanonicalBlend(D, D2, D3, cn)) == Trace(D)
  {
    if cn < 0.5 {
      CanonicalLowKeepsTrace(D, D2, D3, cn);
    } else {
      CanonicalHighKeepsTrace(D, D2, D3, cn);
    }
  }

  lemma CanonicalLowKeepsTrace(D: Matrix, D2: Matrix, D3: Matrix, cn: real)
    requires IsSquare(D, |D|) && IsSquare(D2, |D|) && IsSquare(D3, |D|)
    requires cn < 0.5 && cn * (Trace(D) - Trace(D2)) == Trace(D2) - Trace(D3)
    ensures Trace(Div(Sub(Add(Scale(1.0 - 2.0 * cn, D), Scale(1.0 + cn, D2)), D3), 1.0 - cn)) == Trace(D)
  {
    var X := Sub(Add(Scale(1.0 - 2.0 * cn, D), Scale(1.0 + cn, D2)), D3);
    LowNumeratorTrace(D, D2, D3, cn);
    TraceDiv(X, 1.0 - cn);
    QuotientOf(Trace(X), 1.0 - cn, Trace(D));
  }

  lemma LowNumeratorTrace(D: Matrix, D2: Matrix, D3: Matrix, cn: real)
    requires IsSquare(D, |D|) && IsSquare(D2, |D|) && IsSquare(D3, |D|)
    requires cn * (Trace(D) - Trace(D2)) == Trace(D2) - Trace(D3)
    ensures Trace(Sub(Add(Scale(1.0 - 2.0 * cn, D), Scale(1.0 + cn, D2)), D3)) == Trace(D) * (1.0 - cn)
  {
    var A := Add(Scale(1.0 - 2.0 * cn, D), Scale(1.0 + cn, D2));
    TraceCombination(1.0 - 2.0 * cn, D, 1.0 + cn, D2);
    TraceSub(A, D3);
    LowNumerator(Trace(D), Trace(D2), Trace(D3), cn);
  }

  lemma CanonicalHighKeepsTrace(D: Matrix, D2: Matrix, D3: Matrix, cn: real)
    requires IsSquare(D, |D|) && IsSquare(D2, |D|) && IsSquare(D3, |D|)
    requires cn >= 0.5 && cn * (Trace(D) - Trace(D2)) == Trace(D2) - Trace(D3)
    ensures Trace(Div(Sub(Scale(1.0 + cn, D2), D3), cn)) == Trace(D)
  {
    var X := Sub(Scale(1.0 + cn, D2), D3);
    HighNumeratorTrace(D, D2, D3, cn);
    TraceDiv(X, cn);
    QuotientOf(Trace(X), cn, Trace(D));
  }

  lemma HighNumeratorTrace(D: Matrix, D2: Matrix, D3: Matrix, cn: real)
    requires IsSquare(D, |D|) && IsSquare(D2, |D|) && IsSquare(D3, |D|)
    requires cn * (Trace(D) - Trace(D2)) == Trace(D2) - Trace(D3)
    ensures Trace(Sub(Scale(1.0 + cn, D2), D3)) == Trace(D) * cn
  {
    TraceScale(1.0 + cn, D2);
    TraceSub(Scale(1.0 + cn, D2), D3);
    HighNumerator(Trace(D), Trace(D2), Trace(D3), cn);
  }

  /** The canonical update keeps the trace, and with it the electron count. */
  lemma PmStepKeepsTrace(D: Matrix)
    requires IsSquare(D, |D|) && PmStep(D).Ok?
    ensures Trace(PmStep(D).value) == Trace(D)
  {
    var D2 := Mul(D, D);
    CanonicalUpdateKeepsTrace(D, D2, Mul(D, D2));
  }

  /**
   * One update of method m, as the code performs it (TRS with its own
   * blend sign); only the divisions of TRS and PM can fail.
   */
  function Step(m: Method, D: Matrix, Ne: real): (r: Result<Matrix, DmmError>)
    requires IsSquare(D, |D|)
    ensures r.Ok? ==> IsSquare(r.value, |D|)
    ensures r.Err? ==> r.error == ZeroDivision && (m == TRS || m == PM)
  {
    match m
    case TCP => Ok(TcpStep(D, Ne))
    case TRS => TrsStepAsWritten(D, Ne)
    case MCW => Ok(McwStep(D))
    case PM => PmStep(D)
  }

  /** Trace-correcting update: 2D - D^2 when tr D < Ne, else D^2. */
  function TcpStep(D: Matrix, Ne: real): (D': Matrix)
    requires IsSquare(D, |D|)
    ensures IsSquare(D', |D|)
  {
    var D2 := Mul(D, D);
    if Trace(D) < Ne then Sub(Scale(2.0, D), D2) else D2
  }

  /** McWeeny update 3D^2 - 2D^3. */
  function McwStep(D: Matrix): (D': Matrix)
    requires IsSquare(D, |D|)
    ensures IsSquare(D', |D|)
  {
    var D2 := Mul(D, D);
    Sub(Scale(3.0, D2), Scale(2.0, Mul(D, D2)))
  }

  predicate Idempotent(D: Matrix)
    requires IsSquare(D, |D|)
  {
    Mul(D, D) == D
  }

  /** An idempotent matrix is a fixed point of the TCP and McWeeny updates. */
  lemma IdempotentFixedPoint(m: Method, D: Matrix, Ne: real)
    requires IsSquare(D, |D|) && Idempotent(D) && (m == TCP || m == MCW)
    ensures Step(m, D, Ne) == Ok(D)
  {
    if m == TCP {
      TwiceMinusSelf(D);
    } else {
      ThriceMinusTwice(D);
    }
  }

  /** At an idempotent matrix tr(D - D^2) vanishes and the canonical update divides by zero. */
  lemma IdempotentStopsCanonical(D: Matrix, Ne: real)
    requires IsSquare(D, |D|) && Idempotent(D)
    ensures Step(PM, D, Ne) == Err(ZeroDivision)
  {
    TraceSub(D, D);
  }

  /** One entry of D (I - D) for an idempotent D: row i of D against column j of I - D. */
  lemma AnnihilatesAt(D: Matrix, i: nat, j: nat)
    requires IsSquare(D, |D|) && Idempotent(D) && i < |D| && j < |D|
    ensures Mul(D, Sub(Identity(|D|), D))[i][j] == 0.0
  {
    var I := Identity(|D|);
    var P := Sub(I, D);
    DotSubRight(D[i], Column(I, j), Column(D, j), Column(P, j));
    DotUnitRight(D[i], Column(I, j), j);
    assert Dot(D[i], Column(D, j)) == Mul(D, D)[i][j];
  }

  /** For an idempotent D: D (I - D) = 0. */
  lemma IdempotentAnnihilates(D: Matrix)
    requires IsSquare(D, |D|) && Idempotent(D)
    ensures Mul(D, Sub(Identity(|D|), D)) == Zero(|D|)
  {
    var n := |D|;
    var DP := Mul(D, Sub(Identity(n), D));
    forall i, j | 0 <= i < n && 0 <= j < n
      ensures DP[i][j] == 0.0
    {
      AnnihilatesAt(D, i, j);
    }
    forall i | 0 <= i < n ensures DP[i] == Zero(n)[i] { }
  }

  /** One entry of (I - D)^2 when D (I - D) = 0: row i of I - D against column j. */
  lemma ComplementAt(D: Matrix, i: nat, j: nat)
    requires IsSquare(D, |D|) && i < |D| && j < |D|
    requires Mul(D, Sub(Identity(|D|), D)) == Zero(|D|)
    ensures Mul(Sub(Identity(|D|), D), Sub(Identity(|D|), D))[i][j] == Sub(Identity(|D|), D)[i][j]
  {
    var I := Identity(|D|);
    var P := Sub(I, D);
    DotSubLeft(I[i], D[i], Column(P, j), P[i]);
    DotUnitLeft(I[i], Column(P, j), i);
    assert Dot(D[i], Column(P, j)) == Mul(D, P)[i][j];
  }

  /** For an idempotent D: I - D is idempotent too. */
  lemma ComplementIdempotent(D: Matrix)
    requires IsSquare(D, |D|) && Idempotent(D)
    ensures Mul(Sub(Identity(|D|), D), Sub(Identity(|D|), D)) == Sub(Identity(|D|), D)
  {
    var n := |D|;
    var P := Sub(Identity(n), D);
    IdempotentAnnihilates(D);
    forall i, j | 0 <= i < n && 0 <= j < n
      ensures Mul(P, P)[i][j] == P[i][j]
    {
      ComplementAt(D, i, j);
    }
    forall i | 0 <= i < n ensures Mul(P, P)[i] == P[i] { }
  }

  /**
   * At an idempotent D the TRS divisor tr(D^2 (I - D)^2) vanishes and the
   * trace-resetting update divides by zero.
   */
  lemma IdempotentStopsTraceResetting(D: Matrix, Ne: real)
    requires IsSquare(D, |D|) && Idempotent(D)
    ensures Trace(TrsG(D)) == 0.0
    ensures Step(TRS, D, Ne) == Err(ZeroDivision)
  {
    IdempotentAnnihilates(D);
    ComplementIdempotent(D);
    TraceZero(|D|);
  }

  // ---------------------------------------------------------------------
  // The purification loop

  /**
   * Where the loop ended: the last D, the matrix the last update was
   * applied to (the starting matrix when there was none), the number of
   * iterations and whether a stop test ended it.
   */
  datatype Purified = Purified(D: Matrix, before: Matrix, iterations: nat, converged: bool)

  /**
   * The stop test after updating `before` into `after`: for TCP, TRS and
   * MCW the trace of `before` is within err of Ne; for PM the sum of all
   * elements grew by less than err (a signed test).
   */
  predicate Stops(m: Method, before: Matrix, after: Matrix, dsumold: real, Ne: real, err: real)
    requires IsSquare(before, |before|)
  {
    if m == PM then SumAll(after) - dsumold < err
    else Abs(Trace(before) - Ne) < err
  }

  /** An update rule: defined on every square matrix, and keeping its size when it succeeds. */
  ghost predicate IsUpdate(update: Matrix --> Result<Matrix, DmmError>) {
    && (forall X {:trigger update.requires(X)} :: IsSquare(X, |X|) ==> update.requires(X))
    && (forall X {:trigger update(X)} :: IsSquare(X, |X|) && update.requires(X) && update(X).Ok? ==> IsSquare(update(X).value, |X|))
  }

  /** The update of method m as a function of the current matrix. */
  function Update(m: Method, Ne: real): (update: Matrix --> Result<Matrix, DmmError>)
    ensures IsUpdate(update)
  {
    D requires IsSquare(D, |D|) => Step(m, D, Ne)
  }

  /**
   * The loop from D under an update rule, with `fuel` iterations left and
   * `done` taken; m selects the stop test.
   */
  function Iterate(update: Matrix --> Result<Matrix, DmmError>, m: Method, D: Matrix, prev: Matrix,
                   dsumold: real, Ne: real, err: real, fuel: nat, done: nat): (r: Result<Purified, DmmError>)
    requires IsUpdate(update) && IsSquare(D, |D|) && IsSquare(prev, |D|)
    ensures r.Ok? ==> IsSquare(r.value.D, |D|) && IsSquare(r.value.before, |D|)
    decreases fuel
  {
    if fuel == 0 then Ok(Purified(D, prev, done, false))
    else
      match update(D)
      case Err(e) => Err(e)
      case Ok(next) =>
        if Stops(m, D, next, dsumold, Ne, err) then Ok(Purified(next, D, done + 1, true))
        else Iterate(update, m, next, D, if m == PM then SumAll(next) else dsumold, Ne, err, fuel - 1, done + 1)
  }

  /** One iteration of the loop: stop on the test, or go on from the update. */
  lemma IterateUnfold(update: Matrix --> Result<Matrix, DmmError>, m: Method, D: Matrix, prev: Matrix,
                      dsumold: real, Ne: real, err: real, fuel: nat, done: nat, next: Matrix)
    requires IsUpdate(update) && IsSquare(D, |D|) && IsSquare(prev, |D|)
    requires fuel > 0 && update(D) == Ok(next)
    ensures IsSquare(next, |D|)
    ensures Stops(m, D, next, dsumold, Ne, err) ==>
      Iterate(update, m, D, prev, dsumold, Ne, err, fuel, done) == Ok(Purified(next, D, done + 1, true))
    ensures !Stops(m, D, next, dsumold, Ne, err) ==>
      Iterate(update, m, D, prev, dsumold, Ne, err, fuel, done)
      == Iterate(update, m, next, D, if m == PM then SumAll(next) else dsumold, Ne, err, fuel - 1, done + 1)
  {
  }

  /** The purification loop of method m from D0: at most maxIter updates. */
  function Run(m: Method, D0: Matrix, Ne: real, err: real, maxIter: nat): (r: Result<Purified, DmmError>)
    requires IsSquare(D0, |D0|)
  {
    Iterate(Update(m, Ne), m, D0, D0, SumAll(D0), Ne, err, maxIter, 0)
  }

  /**
   * Applies the update rule at most maxIter times, stopping early on the
   * stop test of method m.
   */
  method IterateLoop(update: Matrix --> Result<Matrix, DmmError>, m: Method, D0: Matrix, Ne: real,
                     maxIter: nat, err: real) returns (r: Result<Purified, DmmError>)
    requires IsUpdate(update) && IsSquare(D0, |D0|)
    ensures r == Iterate(update, m, D0, D0, SumAll(D0), Ne, err, maxIter, 0)
  {
    var D := D0;
    var prev := D0;
    var dsumold := SumAll(D);
    for iter := 0 to maxIter
      invariant IsSquare(D, |D0|) && IsSquare(prev, |D0|)
      invariant Iterate(update, m, D0, D0, SumAll(D0), Ne, err, maxIter, 0)
             == Iterate(update, m, D, prev, dsumold, Ne, err, maxIter - iter, iter)
    {
      var step := update(D);
      if step.Err? {
        return Err(step.error);
      }
      var next := step.value;
      IterateUnfold(update, m, D, prev, dsumold, Ne, err, maxIter - iter, iter, next);
      if Stops(m, D, next, dsumold, Ne, err) {
        return Ok(Purified(next, D, iter + 1, true));
      }
      if m == PM {
        dsumold := SumAll(next);
      }
      prev, D := D, next;
    }
    r := Ok(Purified(D, prev, maxIter, false));
  }

  /**
   * Iterates the update of method m at most maxIter times, stopping early
   * on the method's stop test.
   */
  method Purify(m: Method, D0: Matrix, Ne: real, maxIter: nat, err: real) returns (r: Result<Purified, DmmError>)
    requires IsSquare(D0, |D0|)
    ensures r == Run(m, D0, Ne, err, maxIter)
  {
    r := IterateLoop(Update(m, Ne), m, D0, Ne, maxIter, err);
  }

  /** The loop takes at most fuel iterations, all of them unless a stop test ends it. */
  lemma {:induction false} IterateCounts(update: Matrix --> Result<Matrix, DmmError>, m: Method, D: Matrix,
                                         prev: Matrix, dsumold: real, Ne: real, err: real, fuel: nat, done: nat)
    requires IsUpdate(update) && IsSquare(D, |D|) && IsSquare(prev, |D|)
    ensures var r := Iterate(update, m, D, prev, dsumold, Ne, err, fuel, done);
      r.Ok? ==>
        && done <= r.value.iterations <= done + fuel
        && (!r.value.converged ==> r.value.iterations == done + fuel)
        && (r.value.converged ==> r.value.iterations > done)
    decreases fuel
  {
    if fuel > 0 && update(D).Ok? {
      var next := update(D).value;
      if !Stops(m, D, next, dsumold, Ne, err) {
        IterateCounts(update, m, next, D, if m == PM then SumAll(next) else dsumold, Ne, err, fuel - 1, done + 1);
      }
    }
  }

  /** Once the loop has iterated, the returned matrix is the update of `before`. */
  lemma {:induction false} IterateLastUpdate(update: Matrix --> Result<Matrix, DmmError>, m: Method, D: Matrix,
                                             prev: Matrix, dsumold: real, Ne: real, err: real, fuel: nat, done: nat)
    requires IsUpdate(update) && IsSquare(D, |D|) && IsSquare(prev, |D|)
    ensures var r := Iterate(update, m, D, prev, dsumold, Ne, err, fuel, done);
      r.Ok? && r.value.iterations > done ==> update(r.value.before) == Ok(r.value.D)
    decreases fuel
  {
    if fuel > 0 && update(D).Ok? {
      var next := update(D).value;
      if !Stops(m, D, next, dsumold, Ne, err) {
        IterateLastUpdate(update, m, next, D, if m == PM then SumAll(next) else dsumold, Ne, err, fuel - 1, done + 1);
        IterateCounts(update, m, next, D, if m == PM then SumAll(next) else dsumold, Ne, err, fuel - 1, done + 1);
      }
    }
  }

  /**
   * What a converged loop guarantees about its last update: for TCP, TRS
   * and MCW the trace before it was within err of Ne; for PM the element
   * sum grew by less than err.
   */
  predicate StoppedOnTest(m: Method, p: Purified, Ne: real, err: real)
    requires IsSquare(p.before, |p.before|)
  {
    && (m != PM ==> Abs(Trace(p.before) - Ne) < err)
    && (m == PM ==> SumAll(p.D) - SumAll(p.before) < err)
  }

  /**
   * A stop means the stop test held for the last update. For TCP, TRS and
   * MCW the test is on the trace before the update, so the returned matrix
   * has one update more than the one that passed; for PM, whose running sum
   * always equals the sum of the current D, the sum grew by less than err.
   */
  lemma {:induction false} IterateStopTest(update: Matrix --> Result<Matrix, DmmError>, m: Method, D: Matrix,
                                           prev: Matrix, dsumold: real, Ne: real, err: real, fuel: nat, done: nat)
    requires IsUpdate(update) && IsSquare(D, |D|) && IsSquare(prev, |D|)
    requires m == PM ==> dsumold == SumAll(D)
    ensures var r := Iterate(update, m, D, prev, dsumold, Ne, err, fuel, done);
      r.Ok? && r.value.converged ==> StoppedOnTest(m, r.value, Ne, err)
    decreases fuel
  {
    if fuel > 0 && update(D).Ok? {
      var next := update(D).value;
      if !Stops(m, D, next, dsumold, Ne, err) {
        IterateStopTest(update, m, next, D, if m == PM then SumAll(next) else dsumold, Ne, err, fuel - 1, done + 1);
      }
    }
  }

  /** From a fixed point of the update, the loop returns that matrix. */
  lemma {:induction false} IterateFixedPoint(update: Matrix --> Result<Matrix, DmmError>, m: Method, D: Matrix,
                                             prev: Matrix, dsumold: real, Ne: real, err: real, fuel: nat, done: nat)
    requires IsUpdate(update) && IsSquare(D, |D|) && IsSquare(prev, |D|) && update(D) == Ok(D)
    ensures var r := Iterate(update, m, D, prev, dsumold, Ne, err, fuel, done);
      r.Ok? && r.value.D == D && (fuel > 0 ==> r.value.before == D)
    decreases fuel
  {
    if fuel > 0 && !Stops(m, D, D, dsumold, Ne, err) {
      IterateFixedPoint(update, m, D, D, if m == PM then SumAll(D) else dsumold, Ne, err, fuel - 1, done + 1);
    }
  }

  /** The purification loop takes at most maxIter updates, all of them unless a stop test ended it. */
  lemma RunCounts(m: Method, D0: Matrix, Ne: real, err: real, maxIter: nat)
    requires IsSquare(D0, |D0|)
    ensures var r := Run(m, D0, Ne, err, maxIter);
      r.Ok? ==>
        && r.value.iterations <= maxIter
        && (!r.value.converged ==> r.value.iterations == maxIter)
        && (r.value.converged ==> r.value.iterations > 0)
  {
    IterateCounts(Update(m, Ne), m, D0, D0, SumAll(D0), Ne, err, maxIter, 0);
  }

  /** After at least one update, the matrix returned is the update of `before`. */
  lemma RunLastUpdate(m: Method, D0: Matrix, Ne: real, err: real, maxIter: nat)
    requires IsSquare(D0, |D0|)
    ensures var r := Run(m, D0, Ne, err, maxIter);
      r.Ok? && r.value.iterations > 0 ==>
        IsSquare(r.value.before, |r.value.before|) && Step(m, r.value.before, Ne) == Ok(r.value.D)
  {
    var update := Update(m, Ne);
    IterateLastUpdate(update, m, D0, D0, SumAll(D0), Ne, err, maxIter, 0);
    var r := Run(m, D0, Ne, err, maxIter);
    if r.Ok? && r.value.iterations > 0 {
      assert update(r.value.before) == Step(m, r.value.before, Ne);
    }
  }

  /**
   * A stop means the method's stop test passed: for TCP, TRS and McWeeny
   * the trace of the matrix before the last update was within err of Ne;
   * for PM the element sum grew by less than err in the last update.
   */
  lemma RunStopTest(m: Method, D0: Matrix, Ne: real, err: real, maxIter: nat)
    requires IsSquare(D0, |D0|)
    ensures var r := Run(m, D0, Ne, err, maxIter);
      r.Ok? && r.value.converged ==> StoppedOnTest(m, r.value, Ne, err)
  {
    IterateStopTest(Update(m, Ne), m, D0, D0, SumAll(D0), Ne, err, maxIter, 0);
  }

  /** Starting from an idempotent matrix, TCP and McWeeny return it unchanged. */
  lemma RunFixedPoint(m: Method, D0: Matrix, Ne: real, err: real, maxIter: nat)
    requires IsSquare(D0, |D0|) && Idempotent(D0) && (m == TCP || m == MCW)
    ensures var r := Run(m, D0, Ne, err, maxIter);
      r.Ok? && r.value.D == D0 && (maxIter > 0 ==> r.value.before == D0)
  {
    IdempotentFixedPoint(m, D0, Ne);
    IterateFixedPoint(Update(m, Ne), m, D0, D0, SumAll(D0), Ne, err, maxIter, 0);
  }

  // ---------------------------------------------------------------------
  // The purifier

  /**
   * The symmetric orthogonalisation X of the overlap matrix and the
   * similarity transforms X^T A X and X A X^T, which live outside this
   * model.
   */
  datatype Orthogonalizer = Orthogonalizer(
    symOrth: Matrix -> Matrix,
    simx: (Matrix, Matrix) -> Matrix,
    simxT: (Matrix, Matrix) -> Matrix)

  /** The starting matrix of method m for the orthogonalised Fock matrix F. */
  function InitialGuess(m: Method, F: Matrix, Ne: real): (r: Result<Matrix, DmmError>)
    requires IsSquare(F, |F|) && |F| > 0
    ensures r.Ok? ==> IsSquare(r.value, |F|)
  {
    var emin, emax := GershgorinMin(F), GershgorinMax(F);
    match m
    case TCP => LinearGuess(F, emin, emax)
    case TRS => LinearGuess(F, emin, emax)
    case MCW => McwGuess(F, Ne, McwTolerance)
    case PM => CanonicalGuess(F, emin, emax, Ne)
  }

  /** The purification of the orthogonalised Fock matrix F, before the back-transform. */
  function Purification(F: Matrix, Ne: real, code: int, maxIter: nat, err: real): (r: Result<Purified, DmmError>)
    requires IsSquare(F, |F|)
  {
    if |F| == 0 then Err(EmptyMatrix)
    else
      match ParseMethod(code)
      case Err(e) => Err(e)
      case Ok(m) =>
        match InitialGuess(m, F, Ne)
        case Err(e) => Err(e)
        case Ok(D0) => Run(m, D0, Ne, err, maxIter)
  }

  /**
   * The purifier fails on an empty matrix before it looks at the method
   * code, then on any code other than 0..3; with the canonical method its
   * starting matrix has trace Ne, and it never iterates more than maxIter times.
   */
  lemma PurificationOutcome(F: Matrix, Ne: real, code: int, maxIter: nat, err: real)
    requires IsSquare(F, |F|)
    ensures var r := Purification(F, Ne, code, maxIter, err);
      && (|F| == 0 ==> r == Err(EmptyMatrix))
      && (|F| > 0 && !(0 <= code <= 3) ==> r == Err(UnknownMethod(code)))
      && (r.Ok? ==> r.value.iterations <= maxIter && (!r.value.converged ==> r.value.iterations == maxIter))
      && (|F| > 0 && code == 3 ==>
            var g := InitialGuess(PM, F, Ne); g.Ok? ==> Trace(g.value) == Ne)
  {
    if |F| > 0 {
      CanonicalGuessTrace(F, GershgorinMin(F), GershgorinMax(F), Ne);
      var p := ParseMethod(code);
      if p.Ok? {
        var g := InitialGuess(p.value, F, Ne);
        if g.Ok? {
          RunCounts(p.value, g.value, Ne, err, maxIter);
        }
      }
    }
  }

  /**
   * The starting matrix of method m given the Gershgorin bounds of F: the
   * linear guess for TCP and TRS, Dinit_mcw for MCW, the canonical guess for PM.
   */
  method StartingMatrix(m: Method, F: Matrix, emin: real, emax: real, Ne: real) returns (r: Result<Matrix, DmmError>)
    requires IsSquare(F, |F|) && |F| > 0 && emin == GershgorinMin(F) && emax == GershgorinMax(F)
    ensures r == InitialGuess(m, F, Ne)
  {
    match m {
      case TCP =>
        r := LinearGuess(F, emin, emax);
      case TRS =>
        r := LinearGuess(F, emin, emax);
      case MCW =>
        r := DinitMcw(F, Ne, McwTolerance, 100);
      case PM =>
        r := CanonicalGuess(F, emin, emax, Ne);
    }
  }

  /**
   * Density-matrix purification: orthogonalise F with X = SymOrth(S),
   * pick the method, build its starting matrix, iterate, and transform
   * the result back with X.
   */
  method DMP(F: Matrix, S: Matrix, Ne: real, code: int, maxIter: nat, err: real, o: Orthogonalizer)
    returns (r: Result<Matrix, DmmError>)
    requires IsSquare(o.simx(F, o.symOrth(S)), |o.simx(F, o.symOrth(S))|)
    ensures var X := o.symOrth(S);
      r == match Purification(o.simx(F, X), Ne, code, maxIter, err)
           case Err(e) => Err(e)
           case Ok(p) => Ok(o.simxT(p.D, X))
  {
    var X := o.symOrth(S);
    var F1 := o.simx(F, X);
    var g := GershgorinMinMax(F1);
    if g.Err? {
      return Err(g.error);
    }
    var (emin, emax) := g.value;
    var pm := ParseMethod(code);
    if pm.Err? {
      return Err(pm.error);
    }
    var m := pm.value;
    var g0 := StartingMatrix(m, F1, emin, emax, Ne);
    if g0.Err? {
      return Err(g0.error);
    }
    var D := g0.value;
    var p := Purify(m, D, Ne, maxIter, err);
    if p.Err? {
      return Err(p.error);
    }
    r := Ok(o.simxT(p.value.D, X));
  }
}
