/**
 * Becke's multicenter partitioning (A.D. Becke, J. Chem. Phys. 88(4), 1988):
 * the smoothing polynomial, its iterates, the cell step function, the
 * heteronuclear size adjustment of Appendix A and the cell product that
 * multiplies each grid point's weight.
 *
 * Distances come from an abstract metric and the Bragg radii from an
 * abstract table of positive radii; nothing here is floating point.
 */
module Becke {

  /** Number of times the polynomial is iterated when no order is given. */
  const DefaultOrder: int := 3

  datatype Vec3 = Vec3(x: real, y: real, z: real)

  /** An atom as the partitioning sees it: its atomic number and position. */
  datatype Atom = Atom(atno: nat, pos: Vec3)

  /**
   * The geometry and options one patching pass runs with; order is the
   * number of iterations of the step polynomial (DefaultOrder when patching
   * a molecular grid).
   */
  datatype Setting = Setting(
    atoms: seq<Atom>,
    doHetero: bool,
    dist: (Vec3, Vec3) -> real,
    bragg: nat -> real,
    order: int)

  /** The distance function behaves as a metric. */
  ghost predicate IsMetric(dist: (Vec3, Vec3) -> real) {
    && (forall p, q :: dist(p, q) >= 0.0)
    && (forall p, q {:trigger dist(p, q), dist(q, p)} :: dist(p, q) == dist(q, p))
    && (forall p, q, r {:trigger dist(p, q), dist(q, r), dist(p, r)} :: dist(p, r) <= dist(p, q) + dist(q, r))
  }

  /**
   * What the patching pass needs of its setting: no two atoms at distance 0
   * (the division by the interatomic distance is unguarded) and, when the
   * heteronuclear adjustment is on, a positive Bragg radius for each atom.
   */
  predicate WellFormed(s: Setting) {
    && (forall i, j :: 0 <= i < |s.atoms| && 0 <= j < |s.atoms| && i != j ==>
          s.dist(s.atoms[i].pos, s.atoms[j].pos) != 0.0)
    && (s.doHetero ==> forall i :: 0 <= i < |s.atoms| ==> s.bragg(s.atoms[i].atno) > 0.0)
  }

  // ---------------------------------------------------------------------
  // The step function

  /** x raised to the natural power k. */
  function Pow(x: real, k: nat): real {
    if k == 0 then 1.0 else x * Pow(x, k - 1)
  }

  lemma Cube(x: real)
    ensures Pow(x, 3) == x * x * x
  {
    assert Pow(x, 1) == x;
    assert Pow(x, 2) == x * x;
  }

  /** p(x) = 1.5x - 0.5x^3 */
  function PBecke(x: real): real {
    1.5 * x - 0.5 * Pow(x, 3)
  }

  /** p applied n times (no application for n <= 0). */
  function FBecke(x: real, n: int): real
    decreases n
  {
    if n <= 0 then x else PBecke(FBecke(x, n - 1))
  }

  /** s(x) = (1 - p^n(x)) / 2 */
  function SBecke(x: real, n: int): real {
    0.5 * (1.0 - FBecke(x, n))
  }

  /** p maps [-1, 1] into itself: 1 - p(x) = (1 - x)^2 (x + 2)/2 and 1 + p(x) = (1 + x)^2 (2 - x)/2. */
  lemma PBeckeRange(x: real)
    requires -1.0 <= x <= 1.0
    ensures -1.0 <= PBecke(x) <= 1.0
  {
    Cube(x);
    assert 1.0 - PBecke(x) == 0.5 * ((1.0 - x) * (1.0 - x)) * (x + 2.0);
    assert 1.0 + PBecke(x) == 0.5 * ((1.0 + x) * (1.0 + x)) * (2.0 - x);
    NonNegProduct((1.0 - x) * (1.0 - x), x + 2.0);
    NonNegProduct((1.0 + x) * (1.0 + x), 2.0 - x);
  }

  lemma NonNegProduct(a: real, b: real)
    requires a >= 0.0 && b >= 0.0
    ensures a * b >= 0.0
  {
  }

  /** Sign rules for a product, stated without preconditions. */
  lemma ProductSign(d: real, c: real)
    ensures d <= 0.0 && c >= 0.0 ==> d * c <= 0.0
    ensures d < 0.0 && c > 0.0 ==> d * c < 0.0
  {
  }

  /** A product of two numbers of [0, 1] lies in [0, 1]. */
  lemma UnitProduct(c: real, f: real)
    requires 0.0 <= c <= 1.0 && 0.0 <= f <= 1.0
    ensures 0.0 <= c * f <= 1.0
  {
    ProductSign(c - 1.0, f);
    NonNegProduct(c, f);
  }

  /** p is odd. */
  lemma PBeckeOdd(x: real)
    ensures PBecke(-x) == -PBecke(x)
  {
    Cube(x);
    Cube(-x);
    assert (-x) * (-x) * (-x) == -(x * x * x);
  }

  /** Every iterate of p maps [-1, 1] into itself. */
  lemma {:induction false} FBeckeRange(x: real, n: int)
    requires -1.0 <= x <= 1.0
    ensures -1.0 <= FBecke(x, n) <= 1.0
    decreases n
  {
    if n > 0 {
      FBeckeRange(x, n - 1);
      PBeckeRange(FBecke(x, n - 1));
    }
  }

  /** Every iterate of p is odd. */
  lemma {:induction false} FBeckeOdd(x: real, n: int)
    ensures FBecke(-x, n) == -FBecke(x, n)
    decreases n
  {
    if n > 0 {
      FBeckeOdd(x, n - 1);
      PBeckeOdd(FBecke(x, n - 1));
    }
  }

  /** The cell step function takes values in [0, 1] on [-1, 1]. */
  lemma SBeckeRange(mu: real, n: int)
    requires -1.0 <= mu <= 1.0
    ensures 0.0 <= SBecke(mu, n) <= 1.0
  {
    FBeckeRange(mu, n);
  }

  /** s(-mu) = 1 - s(mu): the two cells meeting at a point share it completely. */
  lemma SBeckeReflect(mu: real, n: int)
    ensures SBecke(-mu, n) == 1.0 - SBecke(mu, n)
  {
    FBeckeOdd(mu, n);
  }

  /** s(0) = 1/2: the midplane belongs half to each cell. */
  lemma SBeckeMidpoint(n: int)
    ensures SBecke(0.0, n) == 0.5
  {
    FBeckeOdd(0.0, n);
  }

  // ---------------------------------------------------------------------
  // Heteronuclear adjustment (Appendix A)

  function Min(a: real, b: real): real {
    if a <= b then a else b
  }

  function Max(a: real, b: real): real {
    if a >= b then a else b
  }

  /**
   * The size adjustment a = u/(u^2 - 1), u = (chi - 1)/(chi + 1),
   * chi = Ri/Rj, clamped to [-1/2, 1/2]. Swapping the atoms negates it.
   */
  function HeteroCoefficient(ri: real, rj: real): (a: real)
    requires ri > 0.0 && rj > 0.0
    ensures -0.5 <= a <= 0.5
  {
    var chi := ri / rj;
    var u := (chi - 1.0) / (chi + 1.0);
    UBounds(ri, rj);
    var a := u / (u * u - 1.0);
    var a := Min(a, 0.5);
    Max(a, -0.5)
  }

  /** u = (chi - 1)/(chi + 1) lies strictly between -1 and 1, so u^2 - 1 is negative. */
  lemma UBounds(ri: real, rj: real)
    requires ri > 0.0 && rj > 0.0
    ensures ri / rj + 1.0 > 0.0
    ensures var u := (ri / rj - 1.0) / (ri / rj + 1.0); -1.0 < u < 1.0 && u * u - 1.0 < 0.0
    ensures (ri / rj - 1.0) / (ri / rj + 1.0) == (ri - rj) / (ri + rj)
  {
    var chi := ri / rj;
    assert chi > 0.0;
    var u := (chi - 1.0) / (chi + 1.0);
    assert u * (chi + 1.0) == chi - 1.0;
    assert (ri - rj) / (ri + rj) * (ri + rj) == ri - rj;
    assert chi * rj == ri;
    assert u * (ri + rj) == ri - rj by {
      assert u * (chi + 1.0) * rj == (chi - 1.0) * rj;
    }
    assert (1.0 - u) * (chi + 1.0) == 2.0;
    assert (1.0 + u) * (chi + 1.0) == 2.0 * chi;
    ProductSign(1.0 - u, chi + 1.0);
    ProductSign(1.0 + u, chi + 1.0);
    assert u * u - 1.0 == -((1.0 - u) * (1.0 + u));
    NonNegProduct(1.0 - u, 1.0 + u);
    assert (1.0 - u) * (1.0 + u) != 0.0;
  }

  /** Exchanging the two atoms negates the adjustment. */
  lemma HeteroCoefficientAntisymmetric(ri: real, rj: real)
    requires ri > 0.0 && rj > 0.0
    ensures HeteroCoefficient(rj, ri) == -HeteroCoefficient(ri, rj)
  {
    UBounds(ri, rj);
    UBounds(rj, ri);
    var u := (ri - rj) / (ri + rj);
    var v := (rj - ri) / (rj + ri);
    assert v == -u;
    var a := u / (u * u - 1.0);
    assert (-u) * (-u) == u * u;
    assert (-u) / ((-u) * (-u) - 1.0) == -a;
  }

  /** The shifted coordinate mu + a(1 - mu^2). */
  function HeteroShift(mu: real, a: real): real {
    mu + a * (1.0 - mu * mu)
  }

  /** A clamped shift keeps the coordinate inside [-1, 1]. */
  lemma HeteroShiftRange(mu: real, a: real)
    requires -1.0 <= mu <= 1.0 && -0.5 <= a <= 0.5
    ensures -1.0 <= HeteroShift(mu, a) <= 1.0
  {
    var t := 1.0 - mu * mu;
    assert t == (1.0 - mu) * (1.0 + mu);
    NonNegProduct(1.0 - mu, 1.0 + mu);
    NonNegProduct(0.5 - a, t);
    NonNegProduct(a + 0.5, t);
    assert (0.5 - a) * t == 0.5 * t - a * t;
    assert (a + 0.5) * t == a * t + 0.5 * t;
    assert mu + 0.5 * t == 1.0 - 0.5 * ((1.0 - mu) * (1.0 - mu));
    assert mu - 0.5 * t == -1.0 + 0.5 * ((1.0 + mu) * (1.0 + mu));
    NonNegProduct(1.0 - mu, 1.0 - mu);
    NonNegProduct(1.0 + mu, 1.0 + mu);
  }

  /** Negating both the coordinate and the adjustment negates the shifted coordinate. */
  lemma HeteroShiftOdd(mu: real, a: real)
    ensures HeteroShift(-mu, -a) == -HeteroShift(mu, a)
  {
    assert (-mu) * (-mu) == mu * mu;
  }

  // ---------------------------------------------------------------------
  // The cell function of one atom at one point

  /** Whether the pair (i, j) gets the heteronuclear adjustment. */
  predicate Adjusted(s: Setting, i: nat, j: nat)
    requires i < |s.atoms| && j < |s.atoms|
  {
    s.doHetero && s.atoms[i].atno != s.atoms[j].atno
  }

  /** The elliptical coordinate mu_ij = (r_ip - r_jp)/r_ij of point p. */
  function Mu(s: Setting, i: nat, j: nat, p: Vec3): real
    requires WellFormed(s) && i < |s.atoms| && j < |s.atoms| && i != j
  {
    var ai, aj := s.atoms[i], s.atoms[j];
    (s.dist(ai.pos, p) - s.dist(aj.pos, p)) / s.dist(ai.pos, aj.pos)
  }

  /** The coordinate fed to the step function, adjusted when the pair is heteronuclear. */
  function AdjustedMu(s: Setting, i: nat, j: nat, p: Vec3): real
    requires WellFormed(s) && i < |s.atoms| && j < |s.atoms| && i != j
  {
    var mu := Mu(s, i, j, p);
    if Adjusted(s, i, j) then
      HeteroShift(mu, HeteroCoefficient(s.bragg(s.atoms[i].atno), s.bragg(s.atoms[j].atno)))
    else mu
  }

  /** s(mu_ij): how much of point p atom i keeps against atom j. */
  function CellFactor(s: Setting, i: nat, j: nat, p: Vec3): real
    requires WellFormed(s) && i < |s.atoms| && j < |s.atoms| && i != j
  {
    SBecke(AdjustedMu(s, i, j, p), s.order)
  }

  /** The product of the cell factors of atom i against the atoms j < n, j != i, taken in the order of j. */
  function CellProduct(s: Setting, i: nat, p: Vec3, n: nat): real
    requires WellFormed(s) && i < |s.atoms| && n <= |s.atoms|
  {
    if n == 0 then 1.0
    else if n - 1 == i then CellProduct(s, i, p, n - 1)
    else CellProduct(s, i, p, n - 1) * CellFactor(s, i, n - 1, p)
  }

  /** The factor that patching multiplies into the weight of point p of atom i. */
  function BeckeWeight(s: Setting, i: nat, p: Vec3): real
    requires WellFormed(s) && i < |s.atoms|
  {
    CellProduct(s, i, p, |s.atoms|)
  }

  /** Under a metric, |r_ip - r_jp| <= r_ij, so mu_ij lies in [-1, 1]. */
  lemma MuRange(s: Setting, i: nat, j: nat, p: Vec3)
    requires WellFormed(s) && IsMetric(s.dist)
    requires i < |s.atoms| && j < |s.atoms| && i != j
    ensures -1.0 <= Mu(s, i, j, p) <= 1.0
  {
    var pi, pj := s.atoms[i].pos, s.atoms[j].pos;
    var rip, rjp, rij := s.dist(pi, p), s.dist(pj, p), s.dist(pi, pj);
    assert rip <= rij + rjp by { assert s.dist(pi, p) <= s.dist(pi, pj) + s.dist(pj, p); }
    assert rjp <= rij + rip by {
      assert s.dist(pj, p) <= s.dist(pj, pi) + s.dist(pi, p);
      assert s.dist(pj, pi) == s.dist(pi, pj);
    }
    assert rij > 0.0;
    assert Mu(s, i, j, p) == (rip - rjp) / rij;
    QuotientRange(rip, rjp, rij);
  }

  /** a <= d + b and b <= d + a with d > 0 put (a - b)/d in [-1, 1]. */
  lemma QuotientRange(a: real, b: real, d: real)
    requires d > 0.0 && a <= d + b && b <= d + a
    ensures -1.0 <= (a - b) / d <= 1.0
  {
    var q := (a - b) / d;
    assert q * d == a - b;
    ProductSign(q - 1.0, d);
    ProductSign(-1.0 - q, d);
  }

  /** The (possibly adjusted) coordinate stays in [-1, 1]. */
  lemma AdjustedMuRange(s: Setting, i: nat, j: nat, p: Vec3)
    requires WellFormed(s) && IsMetric(s.dist)
    requires i < |s.atoms| && j < |s.atoms| && i != j
    ensures -1.0 <= AdjustedMu(s, i, j, p) <= 1.0
  {
    MuRange(s, i, j, p);
    if Adjusted(s, i, j) {
      var a := HeteroCoefficient(s.bragg(s.atoms[i].atno), s.bragg(s.atoms[j].atno));
      HeteroShiftRange(Mu(s, i, j, p), a);
    }
  }

  /** Every cell factor lies in [0, 1]. */
  lemma CellFactorRange(s: Setting, i: nat, j: nat, p: Vec3)
    requires WellFormed(s) && IsMetric(s.dist)
    requires i < |s.atoms| && j < |s.atoms| && i != j
    ensures 0.0 <= CellFactor(s, i, j, p) <= 1.0
  {
    AdjustedMuRange(s, i, j, p);
    SBeckeRange(AdjustedMu(s, i, j, p), s.order);
  }

  /** Every partial cell product lies in [0, 1]. */
  lemma {:induction false} CellProductInUnit(s: Setting, i: nat, p: Vec3, n: nat)
    requires WellFormed(s) && IsMetric(s.dist)
    requires i < |s.atoms| && n <= |s.atoms|
    ensures 0.0 <= CellProduct(s, i, p, n) <= 1.0
  {
    if n > 0 {
      CellProductInUnit(s, i, p, n - 1);
      if n - 1 != i {
        CellFactorRange(s, i, n - 1, p);
      }
      CellProductExtendInUnit(s, i, p, n);
    }
  }

  /** Extending a cell product in [0, 1] by a factor in [0, 1] keeps it in [0, 1]. */
  lemma CellProductExtendInUnit(s: Setting, i: nat, p: Vec3, n: nat)
    requires WellFormed(s) && i < |s.atoms| && 0 < n <= |s.atoms|
    requires 0.0 <= CellProduct(s, i, p, n - 1) <= 1.0
    requires n - 1 != i ==> 0.0 <= CellFactor(s, i, n - 1, p) <= 1.0
    ensures 0.0 <= CellProduct(s, i, p, n) <= 1.0
  {
    if n - 1 != i {
      UnitProduct(CellProduct(s, i, p, n - 1), CellFactor(s, i, n - 1, p));
    }
  }

  /** The patch factor of every point lies in [0, 1]. */
  lemma BeckeWeightInUnit(s: Setting, i: nat, p: Vec3)
    requires WellFormed(s) && IsMetric(s.dist) && i < |s.atoms|
    ensures 0.0 <= BeckeWeight(s, i, p) <= 1.0
  {
    CellProductInUnit(s, i, p, |s.atoms|);
  }

  /** Exchanging the roles of i and j negates the (adjusted) coordinate. */
  lemma AdjustedMuAntisymmetric(s: Setting, i: nat, j: nat, p: Vec3)
    requires WellFormed(s) && i < |s.atoms| && j < |s.atoms| && i != j
    requires forall q, r :: s.dist(q, r) == s.dist(r, q)
    ensures AdjustedMu(s, j, i, p) == -AdjustedMu(s, i, j, p)
  {
    var pi, pj := s.atoms[i].pos, s.atoms[j].pos;
    assert s.dist(pj, pi) == s.dist(pi, pj);
    var rij := s.dist(pi, pj);
    assert (s.dist(pj, p) - s.dist(pi, p)) / rij == -((s.dist(pi, p) - s.dist(pj, p)) / rij);
    assert Mu(s, j, i, p) == -Mu(s, i, j, p);
    if Adjusted(s, i, j) {
      var ri, rj := s.bragg(s.atoms[i].atno), s.bragg(s.atoms[j].atno);
      HeteroCoefficientAntisymmetric(ri, rj);
      HeteroShiftOdd(Mu(s, i, j, p), HeteroCoefficient(ri, rj));
    }
  }

  /** The cell factors of i against j and of j against i add up to 1 at every point. */
  lemma CellFactorsComplement(s: Setting, i: nat, j: nat, p: Vec3)
    requires WellFormed(s) && i < |s.atoms| && j < |s.atoms| && i != j
    requires forall q, r :: s.dist(q, r) == s.dist(r, q)
    ensures CellFactor(s, i, j, p) + CellFactor(s, j, i, p) == 1.0
  {
    AdjustedMuAntisymmetric(s, i, j, p);
    SBeckeReflect(AdjustedMu(s, i, j, p), s.order);
  }

  /** A lone atom is never patched: its factor is 1 everywhere. */
  lemma SingleAtomUnpatched(s: Setting, p: Vec3)
    requires WellFormed(s) && |s.atoms| == 1
    ensures BeckeWeight(s, 0, p) == 1.0
  {
    assert CellProduct(s, 0, p, 1) == CellProduct(s, 0, p, 0);
  }

  /**
   * With two atoms the two patch factors at any point add up to 1, with or
   * without the heteronuclear adjustment.
   */
  lemma TwoAtomPartitionOfUnity(s: Setting, p: Vec3)
    requires WellFormed(s) && |s.atoms| == 2
    requires forall q, r :: s.dist(q, r) == s.dist(r, q)
    ensures BeckeWeight(s, 0, p) + BeckeWeight(s, 1, p) == 1.0
  {
    assert BeckeWeight(s, 0, p) == CellFactor(s, 0, 1, p) by {
      assert CellProduct(s, 0, p, 1) == 1.0;
    }
    assert BeckeWeight(s, 1, p) == CellFactor(s, 1, 0, p) by {
      assert CellProduct(s, 1, p, 1) == CellFactor(s, 1, 0, p);
    }
    CellFactorsComplement(s, 0, 1, p);
  }

  /** For two atoms of the same element, a point equidistant from both keeps half its weight. */
  lemma HomonuclearMidplane(s: Setting, p: Vec3)
    requires WellFormed(s) && |s.atoms| == 2 && s.atoms[0].atno == s.atoms[1].atno
    requires s.dist(s.atoms[0].pos, p) == s.dist(s.atoms[1].pos, p)
    ensures BeckeWeight(s, 0, p) == 0.5
  {
    assert BeckeWeight(s, 0, p) == CellFactor(s, 0, 1, p) by {
      assert CellProduct(s, 0, p, 1) == 1.0;
    }
    assert Mu(s, 0, 1, p) == 0.0;
    SBeckeMidpoint(s.order);
  }
}
