/**
 * The spin-unrestricted Hartree-Fock solver's step functions: alpha and
 * beta densities from the orbitals (optionally Fermi-Dirac smeared and
 * linearly damped), Fock matrices from a shared Coulomb term and
 * spin-specific exchange terms, the orbital update and the energy.
 *
 * The integrals, the generalized eigensolver and the density builders are
 * services the solver calls but does not define; they are the fields of
 * `Services`, and the solver is correct for whatever they compute.
 */
module UHF {
  import opened Wrappers
  import opened Matrices

  /** The damping factor when none is configured. */
  const DefaultAvgFact: real := 0.5

  /**
   * The external services: Coulomb and exchange matrices of a density
   * (the two-electron integrals are fixed inside them), the generalized
   * eigenproblem F c = e S c, the density of the lowest orbitals, the
   * Fermi-Dirac density and entropy of a number of electrons at a
   * temperature, and the trace of a product of two matrices.
   */
  datatype Services = Services(
    getJ: Matrix -> Matrix,
    getK: Matrix -> Matrix,
    geigh: (Matrix, Matrix) -> (Vector, Matrix),
    mkdens: (Matrix, nat, nat) -> Matrix,
    mkdensFermi: (nat, Vector, Matrix, real) -> (Matrix, real),
    trace2: (Matrix, Matrix) -> real)

  /** The services map n-by-n matrices to n-by-n matrices. */
  ghost predicate Shaped(svc: Services, n: nat) {
    && (forall D {:trigger svc.getJ(D)} :: IsSquare(D, n) ==> IsSquare(svc.getJ(D), n))
    && (forall D {:trigger svc.getK(D)} :: IsSquare(D, n) ==> IsSquare(svc.getK(D), n))
    && (forall F, S {:trigger svc.geigh(F, S)} :: IsSquare(F, n) ==> IsSquare(svc.geigh(F, S).1, n))
    && (forall C, lo, hi {:trigger svc.mkdens(C, lo, hi)} :: IsSquare(C, n) ==> IsSquare(svc.mkdens(C, lo, hi), n))
    && (forall nel, e, C, T {:trigger svc.mkdensFermi(nel, e, C, T)} ::
          IsSquare(C, n) ==> IsSquare(svc.mkdensFermi(nel, e, C, T).0, n))
  }

  /** An electronic temperature counts only when it is set and non-zero. */
  predicate FiniteTemperature(etemp: Option<real>) {
    etemp.Some? && etemp.value != 0.0
  }

  /**
   * The density of nel electrons of one spin in the given orbitals: the
   * Fermi-Dirac density of 2 nel electrons at a finite temperature, else
   * the density of the nel lowest orbitals.
   */
  function Density(svc: Services, etemp: Option<real>, nel: nat, orbe: Vector, orbs: Matrix): (D: Matrix) {
    if FiniteTemperature(etemp) then svc.mkdensFermi(2 * nel, orbe, orbs, etemp.value).0
    else svc.mkdens(orbs, 0, nel)
  }

  /** The entropy of that density: zero at zero temperature. */
  function Entropy(svc: Services, etemp: Option<real>, nel: nat, orbe: Vector, orbs: Matrix): real {
    if FiniteTemperature(etemp) then svc.mkdensFermi(2 * nel, orbe, orbs, etemp.value).1 else 0.0
  }

  /** Linear damping f D + (1 - f) Dold. */
  function Mix(f: real, D: Matrix, Dold: Matrix): (M: Matrix)
    requires SameShape(D, Dold)
    ensures SameShape(D, M)
  {
    Add(Scale(f, D), Scale(1.0 - f, Dold))
  }

  /** The Fock matrix of one spin: h + J_alpha + J_beta - K. */
  function Fock(h: Matrix, J1: Matrix, J2: Matrix, K: Matrix): (F: Matrix)
    requires SameShape(h, J1) && SameShape(h, J2) && SameShape(h, K)
    ensures SameShape(h, F)
  {
    Sub(Add(Add(h, J1), J2), K)
  }

  /**
   * The total energy: the one-electron term tr(Dab h), half the Coulomb
   * term tr(Dab (Ja + Jb)), minus half the exchange terms, the nuclear
   * repulsion and the entropy.
   */
  function Energy(t: (Matrix, Matrix) -> real, Da: Matrix, Db: Matrix, h: Matrix,
                  Ja: Matrix, Jb: Matrix, Ka: Matrix, Kb: Matrix, Enuke: real, entropy: real): real
    requires SameShape(Da, Db) && SameShape(Ja, Jb)
  {
    var Dab := Add(Da, Db);
    t(Dab, h) + 0.5 * t(Dab, Add(Ja, Jb)) + -0.5 * (t(Da, Ka) + t(Db, Kb)) + Enuke + entropy
  }

  // ---------------------------------------------------------------------
  // Properties of the update rules

  /** Damping a density against itself leaves it unchanged, whatever the factor. */
  lemma MixFixedPoint(f: real, D: Matrix)
    ensures Mix(f, D, D) == D
  {
    var M := Mix(f, D, D);
    forall i | 0 <= i < |M| ensures M[i] == D[i] {
      assert |M[i]| == |D[i]|;
      forall j | 0 <= j < |M[i]| ensures M[i][j] == D[i][j] {
        assert M[i][j] == f * D[i][j] + (1.0 - f) * D[i][j];
      }
    }
  }

  /** With factor 1 damping keeps the new density; with factor 0 the old one. */
  lemma MixEndpoints(D: Matrix, Dold: Matrix)
    requires SameShape(D, Dold)
    ensures Mix(1.0, D, Dold) == D
    ensures Mix(0.0, D, Dold) == Dold
  {
    var M1, M0 := Mix(1.0, D, Dold), Mix(0.0, D, Dold);
    forall i | 0 <= i < |D| ensures M1[i] == D[i] && M0[i] == Dold[i] {
      assert |M1[i]| == |D[i]| && |M0[i]| == |Dold[i]|;
    }
  }

  /** The alpha and beta Fock matrices differ only by the exchange terms: Fa - Fb = Kb - Ka. */
  lemma FockSpinDifference(h: Matrix, Ja: Matrix, Jb: Matrix, Ka: Matrix, Kb: Matrix)
    requires SameShape(h, Ja) && SameShape(h, Jb) && SameShape(h, Ka) && SameShape(h, Kb)
    ensures Sub(Fock(h, Ja, Jb, Ka), Fock(h, Ja, Jb, Kb)) == Sub(Kb, Ka)
  {
    var L, R := Sub(Fock(h, Ja, Jb, Ka), Fock(h, Ja, Jb, Kb)), Sub(Kb, Ka);
    forall i | 0 <= i < |L| ensures L[i] == R[i] {
      assert |L[i]| == |R[i]|;
    }
  }

  /**
   * Exchanging the alpha and beta roles (Ja with Jb, Ka with Kb) exchanges
   * the two Fock matrices, so their sum is unchanged.
   */
  lemma FockSpinSwap(h: Matrix, Ja: Matrix, Jb: Matrix, Ka: Matrix, Kb: Matrix)
    requires SameShape(h, Ja) && SameShape(h, Jb) && SameShape(h, Ka) && SameShape(h, Kb)
    ensures Fock(h, Jb, Ja, Kb) == Fock(h, Ja, Jb, Kb)
    ensures Fock(h, Jb, Ja, Ka) == Fock(h, Ja, Jb, Ka)
    ensures Add(Fock(h, Jb, Ja, Kb), Fock(h, Jb, Ja, Ka)) == Add(Fock(h, Ja, Jb, Ka), Fock(h, Ja, Jb, Kb))
  {
    FockCoulombOrder(h, Ja, Jb, Kb);
    FockCoulombOrder(h, Ja, Jb, Ka);
    AddCommutes(Fock(h, Ja, Jb, Kb), Fock(h, Ja, Jb, Ka));
  }

  /** The order of the two Coulomb terms does not matter. */
  lemma FockCoulombOrder(h: Matrix, Ja: Matrix, Jb: Matrix, K: Matrix)
    requires SameShape(h, Ja) && SameShape(h, Jb) && SameShape(h, K)
    ensures Fock(h, Jb, Ja, K) == Fock(h, Ja, Jb, K)
  {
    var L, R := Fock(h, Jb, Ja, K), Fock(h, Ja, Jb, K);
    forall i | 0 <= i < |L| ensures L[i] == R[i] {
      assert |L[i]| == |R[i]|;
    }
  }

  /** Exchanging the alpha and beta roles leaves the energy unchanged. */
  lemma EnergySpinSymmetric(t: (Matrix, Matrix) -> real, Da: Matrix, Db: Matrix, h: Matrix,
                            Ja: Matrix, Jb: Matrix, Ka: Matrix, Kb: Matrix, Enuke: real, entropy: real)
    requires SameShape(Da, Db) && SameShape(Ja, Jb)
    ensures Energy(t, Db, Da, h, Jb, Ja, Kb, Ka, Enuke, entropy) == Energy(t, Da, Db, h, Ja, Jb, Ka, Kb, Enuke, entropy)
  {
    AddCommutes(Da, Db);
    AddCommutes(Ja, Jb);
  }

  /** The solver's state between steps of the self-consistent-field loop. */
  class UHFSolver {
    const svc: Services
    /** Number of basis functions. */
    const n: nat
    /** Core Hamiltonian and overlap matrix. */
    const h: Matrix
    const S: Matrix
    const Enuke: real
    const nalpha: nat
    const nbeta: nat
    const etemp: Option<real>
    const doAveraging: bool

    var avgfact: real
    /** The iteration counter kept by the SCF driver. */
    var iter: nat

    /** The restricted guess the alpha and beta orbitals start from. */
    var orbe: Vector
    var orbs: Matrix
    var orbea: Vector
    var orbeb: Vector
    var orbsa: Matrix
    var orbsb: Matrix

    var Da: Matrix
    var Db: Matrix
    var DaOld: Matrix
    var DbOld: Matrix
    var Dab: Matrix
    var Ja: Matrix
    var Jb: Matrix
    var Ka: Matrix
    var Kb: Matrix
    var Fa: Matrix
    var Fb: Matrix

    var entropya: real
    var entropyb: real
    var entropy: real
    var Eone: real
    var Ej: real
    var Exc: real
    var energy: real

    ghost predicate OrbitalShapes()
      reads this`orbs, this`orbsa, this`orbsb
    {
      IsSquare(orbs, n) && IsSquare(orbsa, n) && IsSquare(orbsb, n)
    }

    ghost predicate DensityShapes()
      reads this`Da, this`Db, this`DaOld, this`DbOld
    {
      IsSquare(Da, n) && IsSquare(Db, n) && IsSquare(DaOld, n) && IsSquare(DbOld, n)
    }

    ghost predicate FockShapes()
      reads this`Ja, this`Jb, this`Ka, this`Kb, this`Fa, this`Fb
    {
      && IsSquare(Ja, n) && IsSquare(Jb, n) && IsSquare(Ka, n) && IsSquare(Kb, n)
      && IsSquare(Fa, n) && IsSquare(Fb, n)
    }

    /** Every matrix is n-by-n. */
    ghost predicate Shapes()
      reads this
    {
      Shaped(svc, n) && IsSquare(h, n) && OrbitalShapes() && DensityShapes() && FockShapes()
    }

    /** Every matrix is n-by-n, and Dab is always the total density Da + Db. */
    ghost predicate Valid()
      reads this
    {
      Shapes() && Dab == Add(Da, Db)
    }

    /**
     * The solver after setup: the number of alpha and beta electrons come
     * from the molecule; the matrices start at zero and the damping factor
     * at its default.
     */
    constructor (svc: Services, h: Matrix, S: Matrix, Enuke: real, nalpha: nat, nbeta: nat,
                 etemp: Option<real>, doAveraging: bool)
      requires Shaped(svc, |h|) && IsSquare(h, |h|)
      ensures Valid()
      ensures this.svc == svc && this.n == |h| && this.h == h && this.S == S && this.Enuke == Enuke
      ensures this.nalpha == nalpha && this.nbeta == nbeta && this.etemp == etemp
      ensures this.doAveraging == doAveraging && avgfact == DefaultAvgFact && iter == 0
    {
      var n := |h|;
      var Z := Zero(n);
      this.svc := svc;
      this.n := n;
      this.h := h;
      this.S := S;
      this.Enuke := Enuke;
      this.nalpha := nalpha;
      this.nbeta := nbeta;
      this.etemp := etemp;
      this.doAveraging := doAveraging;
      avgfact := DefaultAvgFact;
      iter := 0;
      orbe, orbs, orbea, orbeb, orbsa, orbsb := [], Z, [], [], Z, Z;
      Da, Db, DaOld, DbOld := Z, Z, Z, Z;
      Ja, Jb, Ka, Kb, Fa, Fb := Z, Z, Z, Z, Z, Z;
      entropya, entropyb, entropy := 0.0, 0.0, 0.0;
      Eone, Ej, Exc, energy := 0.0, 0.0, 0.0, 0.0;
      ZeroSum(n);
      Dab := Z;
    }

    /** The restricted guess becomes both the alpha and the beta orbitals. */
    method SetupGuess(orbe0: Vector, orbs0: Matrix)
      requires Valid() && IsSquare(orbs0, n)
      modifies this`orbe, this`orbs, this`orbea, this`orbeb, this`orbsa, this`orbsb
      ensures Valid()
      ensures orbe == orbe0 && orbs == orbs0
      ensures orbea == orbe0 && orbeb == orbe0 && orbsa == orbs0 && orbsb == orbs0
    {
      orbe, orbs := orbe0, orbs0;
      orbea, orbeb := orbe, orbe;
      orbsa, orbsb := orbs, orbs;
    }

    /** The damping factor: the configured one, else 0.5. */
    method SetupAveraging(avg: Option<real>)
      modifies this`avgfact
      ensures avgfact == (if avg.Some? then avg.value else DefaultAvgFact)
    {
      avgfact := if avg.Some? then avg.value else DefaultAvgFact;
    }

    /** The driver starts iteration k. */
    method SetIteration(k: nat)
      modifies this`iter
      ensures iter == k
    {
      iter := k;
    }

    /**
     * New alpha and beta densities from the current orbitals. With
     * averaging on they are damped against the previous ones, but only
     * after the first iteration, and the results become the previous
     * densities; Dab is their sum and the entropy the mean of the two
     * spins' entropies (zero at zero temperature). When the two spins have
     * as many electrons and the same orbitals and previous densities, the
     * two new densities are equal.
     */
    method UpdateDensity()
      requires Valid()
      modifies this`Da, this`Db, this`DaOld, this`DbOld, this`Dab, this`entropya, this`entropyb, this`entropy
      ensures Valid()
      ensures var Pa := Density(svc, etemp, nalpha, orbea, orbsa);
              Da == if doAveraging && iter > 1 then Mix(avgfact, Pa, old(DaOld)) else Pa
      ensures var Pb := Density(svc, etemp, nbeta, orbeb, orbsb);
              Db == if doAveraging && iter > 1 then Mix(avgfact, Pb, old(DbOld)) else Pb
      ensures DaOld == (if doAveraging then Da else old(DaOld))
      ensures DbOld == (if doAveraging then Db else old(DbOld))
      ensures FiniteTemperature(etemp) ==>
                && entropya == Entropy(svc, etemp, nalpha, orbea, orbsa)
                && entropyb == Entropy(svc, etemp, nbeta, orbeb, orbsb)
                && entropy == (entropya + entropyb) / 2.0
      ensures !FiniteTemperature(etemp) ==>
                entropy == 0.0 && entropya == old(entropya) && entropyb == old(entropyb)
      ensures nalpha == nbeta && orbea == orbeb && orbsa == orbsb && old(DaOld) == old(DbOld) ==>
                Da == Db && DaOld == DbOld
    {
      Populate();
      Damp();
      Dab := Add(Da, Db);
    }

    /** The undamped densities and entropies of the two spins. */
    method Populate()
      requires Shapes()
      modifies this`Da, this`Db, this`entropya, this`entropyb, this`entropy
      ensures Shapes()
      ensures Da == Density(svc, etemp, nalpha, orbea, orbsa)
      ensures Db == Density(svc, etemp, nbeta, orbeb, orbsb)
      ensures FiniteTemperature(etemp) ==>
                && entropya == Entropy(svc, etemp, nalpha, orbea, orbsa)
                && entropyb == Entropy(svc, etemp, nbeta, orbeb, orbsb)
                && entropy == (entropya + entropyb) / 2.0
      ensures !FiniteTemperature(etemp) ==>
                entropy == 0.0 && entropya == old(entropya) && entropyb == old(entropyb)
    {
      if FiniteTemperature(etemp) {
        var pa := svc.mkdensFermi(2 * nalpha, orbea, orbsa, etemp.value);
        var pb := svc.mkdensFermi(2 * nbeta, orbeb, orbsb, etemp.value);
        Da, entropya := pa.0, pa.1;
        Db, entropyb := pb.0, pb.1;
        entropy := (entropya + entropyb) / 2.0;
      } else {
        Da := svc.mkdens(orbsa, 0, nalpha);
        Db := svc.mkdens(orbsb, 0, nbeta);
        entropy := 0.0;
      }
    }

    /**
     * With averaging on, damp both densities against the previous ones
     * after the first iteration, and keep the results as the previous ones.
     */
    method Damp()
      requires Shapes()
      modifies this`Da, this`Db, this`DaOld, this`DbOld
      ensures Shapes()
      ensures Da == if doAveraging && iter > 1 then Mix(avgfact, old(Da), old(DaOld)) else old(Da)
      ensures Db == if doAveraging && iter > 1 then Mix(avgfact, old(Db), old(DbOld)) else old(Db)
      ensures DaOld == (if doAveraging then Da else old(DaOld))
      ensures DbOld == (if doAveraging then Db else old(DbOld))
    {
      if doAveraging {
        if iter > 1 {
          Da := Add(Scale(avgfact, Da), Scale(1.0 - avgfact, DaOld));
          Db := Add(Scale(avgfact, Db), Scale(1.0 - avgfact, DbOld));
        }
        DaOld := Da;
        DbOld := Db;
      }
    }

    /** Coulomb matrices of the two densities. */
    method UpdateJ()
      requires Valid()
      modifies this`Ja, this`Jb
      ensures Valid()
      ensures Ja == svc.getJ(Da) && Jb == svc.getJ(Db)
    {
      Ja := svc.getJ(Da);
      Jb := svc.getJ(Db);
    }

    /** Exchange matrices of the two densities. */
    method UpdateK()
      requires Valid()
      modifies this`Ka, this`Kb
      ensures Valid()
      ensures Ka == svc.getK(Da) && Kb == svc.getK(Db)
    {
      Ka := svc.getK(Da);
      Kb := svc.getK(Db);
    }

    /**
     * Both Fock matrices from the current densities, never damped: each is
     * h plus both Coulomb terms minus its own spin's exchange term, so they
     * differ by Kb - Ka and coincide when the densities do.
     */
    method UpdateFock()
      requires Valid()
      modifies this`Ja, this`Jb, this`Ka, this`Kb, this`Fa, this`Fb
      ensures Valid()
      ensures Ja == svc.getJ(Da) && Jb == svc.getJ(Db) && Ka == svc.getK(Da) && Kb == svc.getK(Db)
      ensures Fa == Fock(h, Ja, Jb, Ka) && Fb == Fock(h, Ja, Jb, Kb)
      ensures Sub(Fa, Fb) == Sub(Kb, Ka)
      ensures Da == Db ==> Fa == Fb
    {
      UpdateJ();
      UpdateK();
      Fa := Sub(Add(Add(h, Ja), Jb), Ka);
      Fb := Sub(Add(Add(h, Ja), Jb), Kb);
      FockSpinDifference(h, Ja, Jb, Ka, Kb);
    }

    /** New orbitals of each spin from its own Fock matrix; equal Fock matrices give equal orbitals. */
    method SolveFock()
      requires Valid()
      modifies this`orbea, this`orbsa, this`orbeb, this`orbsb
      ensures Valid()
      ensures (orbea, orbsa) == svc.geigh(Fa, S) && (orbeb, orbsb) == svc.geigh(Fb, S)
      ensures Fa == Fb ==> orbea == orbeb && orbsa == orbsb
    {
      var ga := svc.geigh(Fa, S);
      var gb := svc.geigh(Fb, S);
      orbea, orbsa := ga.0, ga.1;
      orbeb, orbsb := gb.0, gb.1;
    }

    /**
     * The energy terms of the current densities and Fock ingredients; the
     * total is the Energy of the two spins, which is symmetric in them.
     */
    method CalculateEnergy()
      requires Valid()
      modifies this`Eone, this`Ej, this`Exc, this`energy
      ensures Valid()
      ensures Eone == svc.trace2(Dab, h)
      ensures Ej == 0.5 * svc.trace2(Dab, Add(Ja, Jb))
      ensures Exc == -0.5 * (svc.trace2(Da, Ka) + svc.trace2(Db, Kb))
      ensures energy == Eone + Ej + Exc + Enuke + entropy
      ensures energy == Energy(svc.trace2, Da, Db, h, Ja, Jb, Ka, Kb, Enuke, entropy)
    {
      Eone := svc.trace2(Dab, h);
      Ej := 0.5 * svc.trace2(Dab, Add(Ja, Jb));
      Exc := -0.5 * (svc.trace2(Da, Ka) + svc.trace2(Db, Kb));
      energy := Eone + Ej + Exc + Enuke + entropy;
    }
  }

  /** The sum of two zero matrices is zero. */
  lemma ZeroSum(n: nat)
    ensures Add(Zero(n), Zero(n)) == Zero(n)
  {
    var Z := Zero(n);
    var Y := Add(Z, Z);
    forall i | 0 <= i < n ensures Y[i] == Z[i] {
      assert |Y[i]| == |Z[i]|;
    }
  }
}
