/**
 * Dense real matrices as rows of columns, with the handful of array-library
 * operations the solvers use: element-wise sums and scalings, the matrix
 * product, the identity, the trace and the sum of all elements.
 */
module Matrices {

  type Vector = seq<real>
  type Matrix = seq<seq<real>>

  /** An n-by-n matrix. */
  predicate IsSquare(A: Matrix, n: nat) {
    |A| == n && forall i :: 0 <= i < n ==> |A[i]| == n
  }

  predicate SameShape(A: Matrix, B: Matrix) {
    |A| == |B| && forall i :: 0 <= i < |A| ==> |A[i]| == |B[i]|
  }

  function Abs(x: real): real {
    if x < 0.0 then -x else x
  }

  /** Left-to-right sum of a vector. */
  function Sum(s: Vector): real {
    if |s| == 0 then 0.0 else Sum(s[..|s| - 1]) + s[|s| - 1]
  }

  /** Sum of the absolute values of a vector. */
  function AbsSum(s: Vector): real {
    if |s| == 0 then 0.0 else AbsSum(s[..|s| - 1]) + Abs(s[|s| - 1])
  }

  /** Inner product of two vectors of equal length. */
  function Dot(u: Vector, v: Vector): real
    requires |u| == |v|
  {
    if |u| == 0 then 0.0 else Dot(u[..|u| - 1], v[..|v| - 1]) + u[|u| - 1] * v[|v| - 1]
  }

  function Identity(n: nat): (I: Matrix)
    ensures IsSquare(I, n)
    ensures forall i, j :: 0 <= i < n && 0 <= j < n ==> I[i][j] == if i == j then 1.0 else 0.0
  {
    seq(n, i requires 0 <= i < n => seq(n, j requires 0 <= j < n => if i == j then 1.0 else 0.0))
  }

  function Zero(n: nat): (Z: Matrix)
    ensures IsSquare(Z, n)
    ensures forall i, j :: 0 <= i < n && 0 <= j < n ==> Z[i][j] == 0.0
  {
    seq(n, i requires 0 <= i < n => seq(n, j requires 0 <= j < n => 0.0))
  }

  function Scale(a: real, A: Matrix): (B: Matrix)
    ensures SameShape(A, B)
    ensures IsSquare(A, |A|) ==> IsSquare(B, |A|)
    ensures forall i, j {:trigger B[i][j]} :: 0 <= i < |A| && 0 <= j < |A[i]| ==> B[i][j] == a * A[i][j]
  {
    seq(|A|, i requires 0 <= i < |A| => seq(|A[i]|, j requires 0 <= j < |A[i]| => a * A[i][j]))
  }

  function Add(A: Matrix, B: Matrix): (C: Matrix)
    requires SameShape(A, B)
    ensures SameShape(A, C)
    ensures IsSquare(A, |A|) ==> IsSquare(C, |A|)
    ensures forall i, j {:trigger C[i][j]} :: 0 <= i < |A| && 0 <= j < |A[i]| ==> C[i][j] == A[i][j] + B[i][j]
  {
    seq(|A|, i requires 0 <= i < |A| => seq(|A[i]|, j requires 0 <= j < |A[i]| => A[i][j] + B[i][j]))
  }

  function Sub(A: Matrix, B: Matrix): (C: Matrix)
    requires SameShape(A, B)
    ensures SameShape(A, C)
    ensures IsSquare(A, |A|) ==> IsSquare(C, |A|)
    ensures forall i, j {:trigger C[i][j]} :: 0 <= i < |A| && 0 <= j < |A[i]| ==> C[i][j] == A[i][j] - B[i][j]
  {
    seq(|A|, i requires 0 <= i < |A| => seq(|A[i]|, j requires 0 <= j < |A[i]| => A[i][j] - B[i][j]))
  }

  /** Element-wise division by a non-zero scalar. */
  function Div(A: Matrix, c: real): (B: Matrix)
    requires c != 0.0
    ensures SameShape(A, B)
    ensures IsSquare(A, |A|) ==> IsSquare(B, |A|)
    ensures forall i, j {:trigger B[i][j]} :: 0 <= i < |A| && 0 <= j < |A[i]| ==> B[i][j] == A[i][j] / c
  {
    seq(|A|, i requires 0 <= i < |A| => seq(|A[i]|, j requires 0 <= j < |A[i]| => A[i][j] / c))
  }

  function Column(B: Matrix, j: nat): (c: Vector)
    requires forall k :: 0 <= k < |B| ==> j < |B[k]|
    ensures |c| == |B|
  {
    seq(|B|, k requires 0 <= k < |B| => B[k][j])
  }

  /** The matrix product of two n-by-n matrices. */
  function Mul(A: Matrix, B: Matrix): (C: Matrix)
    requires IsSquare(A, |A|) && IsSquare(B, |A|)
    ensures IsSquare(C, |A|)
  {
    var n := |A|;
    seq(n, i requires 0 <= i < n => seq(n, j requires 0 <= j < n => Dot(A[i], Column(B, j))))
  }

  /** Sum of the diagonal elements A[0][0] .. A[k-1][k-1]. */
  function DiagSum(A: Matrix, k: nat): real
    requires IsSquare(A, |A|) && k <= |A|
  {
    if k == 0 then 0.0 else DiagSum(A, k - 1) + A[k - 1][k - 1]
  }

  function Trace(A: Matrix): real
    requires IsSquare(A, |A|)
  {
    DiagSum(A, |A|)
  }

  /** Sum of every element (the row sums added up). */
  function SumAll(A: Matrix): real {
    if |A| == 0 then 0.0 else SumAll(A[..|A| - 1]) + Sum(A[|A| - 1])
  }

  // ---------------------------------------------------------------------
  // Algebra of the element-wise operations

  lemma AddCommutes(A: Matrix, B: Matrix)
    requires SameShape(A, B)
    ensures Add(A, B) == Add(B, A)
  {
    var C, D := Add(A, B), Add(B, A);
    assert |C| == |D|;
    forall i | 0 <= i < |C| ensures C[i] == D[i] {
      assert |C[i]| == |D[i]|;
    }
  }

  /** 2D - D = D */
  lemma TwiceMinusSelf(D: Matrix)
    ensures SameShape(Scale(2.0, D), D)
    ensures Sub(Scale(2.0, D), D) == D
  {
    var C := Sub(Scale(2.0, D), D);
    forall i | 0 <= i < |C| ensures C[i] == D[i] {
      assert |C[i]| == |D[i]|;
    }
  }

  /** 3D - 2D = D */
  lemma ThriceMinusTwice(D: Matrix)
    ensures SameShape(Scale(3.0, D), Scale(2.0, D))
    ensures Sub(Scale(3.0, D), Scale(2.0, D)) == D
  {
    var C := Sub(Scale(3.0, D), Scale(2.0, D));
    forall i | 0 <= i < |C| ensures C[i] == D[i] {
      assert |C[i]| == |D[i]|;
    }
  }

  // ---------------------------------------------------------------------
  // Trace is linear

  lemma {:induction false} DiagSumAdd(A: Matrix, B: Matrix, k: nat)
    requires IsSquare(A, |A|) && IsSquare(B, |A|) && k <= |A|
    ensures IsSquare(Add(A, B), |A|)
    ensures DiagSum(Add(A, B), k) == DiagSum(A, k) + DiagSum(B, k)
  {
    if k > 0 {
      DiagSumAdd(A, B, k - 1);
    }
  }

  lemma {:induction false} DiagSumSub(A: Matrix, B: Matrix, k: nat)
    requires IsSquare(A, |A|) && IsSquare(B, |A|) && k <= |A|
    ensures IsSquare(Sub(A, B), |A|)
    ensures DiagSum(Sub(A, B), k) == DiagSum(A, k) - DiagSum(B, k)
  {
    if k > 0 {
      DiagSumSub(A, B, k - 1);
    }
  }

  lemma {:induction false} DiagSumScale(a: real, A: Matrix, k: nat)
    requires IsSquare(A, |A|) && k <= |A|
    ensures IsSquare(Scale(a, A), |A|)
    ensures DiagSum(Scale(a, A), k) == a * DiagSum(A, k)
  {
    if k > 0 {
      DiagSumScale(a, A, k - 1);
    }
  }

  lemma {:induction false} DiagSumIdentity(n: nat, k: nat)
    requires k <= n
    ensures DiagSum(Identity(n), k) == k as real
  {
    if k > 0 {
      DiagSumIdentity(n, k - 1);
    }
  }

  /** tr(A + B) = tr A + tr B */
  lemma TraceAdd(A: Matrix, B: Matrix)
    requires IsSquare(A, |A|) && IsSquare(B, |A|)
    ensures IsSquare(Add(A, B), |A|)
    ensures Trace(Add(A, B)) == Trace(A) + Trace(B)
  {
    DiagSumAdd(A, B, |A|);
  }

  /** tr(A - B) = tr A - tr B */
  lemma TraceSub(A: Matrix, B: Matrix)
    requires IsSquare(A, |A|) && IsSquare(B, |A|)
    ensures IsSquare(Sub(A, B), |A|)
    ensures Trace(Sub(A, B)) == Trace(A) - Trace(B)
  {
    DiagSumSub(A, B, |A|);
  }

  /** tr(aA) = a tr A */
  lemma TraceScale(a: real, A: Matrix)
    requires IsSquare(A, |A|)
    ensures IsSquare(Scale(a, A), |A|)
    ensures Trace(Scale(a, A)) == a * Trace(A)
  {
    DiagSumScale(a, A, |A|);
  }

  lemma {:induction false} DiagSumDiv(A: Matrix, c: real, k: nat)
    requires IsSquare(A, |A|) && k <= |A| && c != 0.0
    ensures IsSquare(Div(A, c), |A|)
    ensures DiagSum(Div(A, c), k) == DiagSum(A, k) / c
  {
    if k > 0 {
      DiagSumDiv(A, c, k - 1);
    }
  }

  lemma {:induction false} DiagSumZero(n: nat, k: nat)
    requires k <= n
    ensures DiagSum(Zero(n), k) == 0.0
  {
    if k > 0 {
      DiagSumZero(n, k - 1);
    }
  }

  /** tr(A / c) = tr A / c */
  lemma TraceDiv(A: Matrix, c: real)
    requires IsSquare(A, |A|) && c != 0.0
    ensures IsSquare(Div(A, c), |A|)
    ensures Trace(Div(A, c)) == Trace(A) / c
  {
    DiagSumDiv(A, c, |A|);
  }

  /** tr 0 = 0 */
  lemma TraceZero(n: nat)
    ensures Trace(Zero(n)) == 0.0
  {
    DiagSumZero(n, n);
  }

  /** tr I = n */
  lemma TraceIdentity(n: nat)
    ensures Trace(Identity(n)) == n as real
  {
    DiagSumIdentity(n, n);
  }

  /** tr(aA + bB) = a tr A + b tr B */
  lemma TraceCombination(a: real, A: Matrix, b: real, B: Matrix)
    requires IsSquare(A, |A|) && IsSquare(B, |A|)
    ensures IsSquare(Add(Scale(a, A), Scale(b, B)), |A|)
    ensures Trace(Add(Scale(a, A), Scale(b, B))) == a * Trace(A) + b * Trace(B)
  {
    TraceScale(a, A);
    TraceScale(b, B);
    TraceAdd(Scale(a, A), Scale(b, B));
  }

  /** tr(aX + bI) = a tr X + b n */
  lemma TraceAffine(a: real, X: Matrix, b: real)
    requires IsSquare(X, |X|)
    ensures IsSquare(Add(Scale(a, X), Scale(b, Identity(|X|))), |X|)
    ensures Trace(Add(Scale(a, X), Scale(b, Identity(|X|)))) == a * Trace(X) + b * (|X| as real)
  {
    var n := |X|;
    TraceScale(a, X);
    TraceScale(b, Identity(n));
    TraceIdentity(n);
    TraceAdd(Scale(a, X), Scale(b, Identity(n)));
  }

  /** tr(a(eI - F) + bI) = a(e n - tr F) + b n, the electron count of a linear density guess */
  lemma TraceShiftedGuess(a: real, e: real, F: Matrix, b: real)
    requires IsSquare(F, |F|)
    ensures IsSquare(Sub(Scale(e, Identity(|F|)), F), |F|)
    ensures Trace(Add(Scale(a, Sub(Scale(e, Identity(|F|)), F)), Scale(b, Identity(|F|))))
         == a * (e * (|F| as real) - Trace(F)) + b * (|F| as real)
  {
    var n := |F|;
    TraceScale(e, Identity(n));
    TraceIdentity(n);
    TraceSub(Scale(e, Identity(n)), F);
    TraceAffine(a, Sub(Scale(e, Identity(n)), F), b);
  }

  // ---------------------------------------------------------------------
  // The inner product against a difference and against a unit vector

  /** u . (v - w) = u . v - u . w, where r is v - w element by element */
  lemma {:induction false} DotSubRight(u: Vector, v: Vector, w: Vector, r: Vector)
    requires |u| == |v| == |w| == |r|
    requires forall k :: 0 <= k < |r| ==> r[k] == v[k] - w[k]
    ensures Dot(u, r) == Dot(u, v) - Dot(u, w)
  {
    if |u| > 0 {
      var m := |u| - 1;
      DotSubRight(u[..m], v[..m], w[..m], r[..m]);
    }
  }

  /** (u - v) . w = u . w - v . w, where r is u - v element by element */
  lemma {:induction false} DotSubLeft(u: Vector, v: Vector, w: Vector, r: Vector)
    requires |u| == |v| == |w| == |r|
    requires forall k :: 0 <= k < |r| ==> r[k] == u[k] - v[k]
    ensures Dot(r, w) == Dot(u, w) - Dot(v, w)
  {
    if |u| > 0 {
      var m := |u| - 1;
      DotSubLeft(u[..m], v[..m], w[..m], r[..m]);
    }
  }

  /** u . e_j picks out u[j] (or nothing when j is past the end) */
  lemma {:induction false} DotUnitRight(u: Vector, e: Vector, j: nat)
    requires |u| == |e|
    requires forall k :: 0 <= k < |e| ==> e[k] == if k == j then 1.0 else 0.0
    ensures Dot(u, e) == if j < |u| then u[j] else 0.0
  {
    if |u| > 0 {
      var m := |u| - 1;
      DotUnitRight(u[..m], e[..m], j);
    }
  }

  /** e_j . v picks out v[j] (or nothing when j is past the end) */
  lemma {:induction false} DotUnitLeft(e: Vector, v: Vector, j: nat)
    requires |e| == |v|
    requires forall k :: 0 <= k < |e| ==> e[k] == if k == j then 1.0 else 0.0
    ensures Dot(e, v) == if j < |v| then v[j] else 0.0
  {
    if |e| > 0 {
      var m := |e| - 1;
      DotUnitLeft(e[..m], v[..m], j);
    }
  }

  // ---------------------------------------------------------------------
  // Row sums used by the Gershgorin bound

  /** The absolute row sum dominates the absolute value of each element. */
  lemma {:induction false} AbsSumDominates(s: Vector, i: nat)
    requires i < |s|
    ensures Abs(s[i]) <= AbsSum(s)
  {
    AbsSumNonNegative(s[..|s| - 1]);
    if i < |s| - 1 {
      AbsSumDominates(s[..|s| - 1], i);
    }
  }

  lemma {:induction false} AbsSumNonNegative(s: Vector)
    ensures AbsSum(s) >= 0.0
  {
    if |s| > 0 {
      AbsSumNonNegative(s[..|s| - 1]);
    }
  }
}
