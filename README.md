# PyQuante core: Becke grids, density-matrix purification, UHF steps, Nelder–Mead

This project is a Dafny model of four pieces of the PyQuante quantum-chemistry
package, with proofs of the properties their code promises. All arithmetic is
over Dafny `real`, so the model says nothing about rounding or numerical convergence.

- **Becke weight patching** (`PyQuante/MolecularGrid.py`, modules `Becke` and
  `MolecularGrid`). The molecular grid glues per-atom quadrature grids
  together by multiplying each point's weight, in place, by the Becke cell
  product ∏ s(μ). Here s is the iterated step polynomial and μ is the
  confocal-elliptical coordinate, optionally adjusted for atomic size. The
  model also covers point counting, the concatenation of points and weights,
  and the shape checks of `allbfs`.
- **Density-matrix purification** (`PyQuante/dmm.py`, module
  `DensityMatrixPurification`). This covers:
  - the Gershgorin spectral bounds;
  - the trace;
  - the `Dinit_mcw` bisection for the Fermi level;
  - `DMP`, which dispatches on methods 0–3 (trace-correcting TCP,
    trace-resetting TRS, McWeeny MCW, canonical PM), builds the starting
    matrix, and iterates the method's update with its own stop test.
- **UHF solver steps** (`PyQuante/UHFSolver.py`, module `UHF`). A class with
  the solver's fields covers guess setup, damping setup, the density update
  with optional linear damping, Fock assembly, the eigen-solve and the energy.
  The integral and linear-algebra services are function-valued parameters.
- **Nelder–Mead `fmin`** (`PyQuante/optimize.py`, modules `Optimize` and
  `FminLoop`). `Optimize` covers the initial simplex, the sorting that keeps
  `sim`/`fsim` together, the reflect/expand/contract/shrink step, the
  convergence test, and the record of a run of passes. `FminLoop` is the
  driver: the main loop with its call and iteration counters, and the
  warning flag. The objective is an arbitrary function `Vector -> real`.

`matrices.dfy` (module `Matrices`) holds dense `seq<seq<real>>` matrices and
the trace algebra. `wrappers.dfy` holds `Option` and `Result`.

External code appears as parameters:
- the distance function (`dist2` followed by `sqrt`);
- the Bragg radius table;
- `SymOrth`/`simx`;
- `getJ`, `getK`, `geigh`, `mkdens`, `mkdens_fermi` and `trace2`.

Where Python would divide by zero or raise, the model returns an error value.
`allbfs` raises plain strings, and the model returns `GridError` values for them.

## Model

| member | source | states |
|---|---|---|
| Becke.PBeckeRange | PyQuante/MolecularGrid.py:191 | p(x) = 1.5x − 0.5x³ maps [−1, 1] into [−1, 1] |
| Becke.PBeckeOdd | PyQuante/MolecularGrid.py:191 | p is odd: p(−x) = −p(x) |
| Becke.FBeckeRange | PyQuante/MolecularGrid.py:188-190 | p iterated any number of times keeps [−1, 1] in [−1, 1] (induction on n) |
| Becke.FBeckeOdd | PyQuante/MolecularGrid.py:188-190 | the iterated polynomial is odd for every n |
| Becke.SBeckeRange | PyQuante/MolecularGrid.py:192 | s(μ) ∈ [0, 1] for μ ∈ [−1, 1] |
| Becke.SBeckeReflect | PyQuante/MolecularGrid.py:192 | s(−μ) = 1 − s(μ) |
| Becke.SBeckeMidpoint | PyQuante/MolecularGrid.py:192 | s(0) = 1/2 |
| Becke.HeteroCoefficient | PyQuante/MolecularGrid.py:74-78 | the size-adjustment coefficient a = u/(u²−1) is clamped into [−1/2, 1/2] for positive radii |
| Becke.HeteroCoefficientAntisymmetric | PyQuante/MolecularGrid.py:74-78 | exchanging the two atoms' radii negates a |
| Becke.HeteroShiftRange | PyQuante/MolecularGrid.py:79 | μ + a(1 − μ²) stays in [−1, 1] when μ ∈ [−1, 1] and a ∈ [−1/2, 1/2] |
| Becke.HeteroShiftOdd | PyQuante/MolecularGrid.py:79 | negating μ and a negates the shifted coordinate |
| Becke.MuRange | PyQuante/MolecularGrid.py:71 | under the triangle inequality, μ = (r_ip − r_jp)/r_ij lies in [−1, 1] |
| Becke.AdjustedMuRange | PyQuante/MolecularGrid.py:71-79 | the coordinate after the optional heteronuclear shift also lies in [−1, 1] |
| Becke.CellFactorRange | PyQuante/MolecularGrid.py:71-80 | each factor s(μ_ij) multiplied into sprod lies in [0, 1] |
| Becke.CellProductInUnit | PyQuante/MolecularGrid.py:63-80 | the running product over atoms j ≠ i stays in [0, 1] at every prefix |
| Becke.BeckeWeightInUnit | PyQuante/MolecularGrid.py:63-80 | the full cell product of a point lies in [0, 1] |
| Becke.AdjustedMuAntisymmetric | PyQuante/MolecularGrid.py:71-79 | swapping atoms i and j negates the (shifted) coordinate, with or without the hetero shift |
| Becke.CellFactorsComplement | PyQuante/MolecularGrid.py:71-80 | s(μ_ij) + s(μ_ji) = 1 at every point |
| Becke.SingleAtomUnpatched | PyQuante/MolecularGrid.py:63-65 | with one atom every j is skipped and the product is 1 |
| Becke.TwoAtomPartitionOfUnity | PyQuante/MolecularGrid.py:63-82 | with two atoms the two atoms' cell products at a point sum to 1 (no normalisation needed) |
| Becke.HomonuclearMidplane | PyQuante/MolecularGrid.py:71-80 | two equal atoms split a point equidistant from both half and half |
| MolecularGrid.MolecularGrid.constructor | PyQuante/MolecularGrid.py:27-35 | building the grid patches every atom's weights and leaves the cached length unset |
| MolecularGrid.MolecularGrid.PatchAtoms | PyQuante/MolecularGrid.py:52-83 | every point of every atom has its weight multiplied exactly once by its cell product; positions are untouched |
| MolecularGrid.MolecularGrid.PatchAtom | PyQuante/MolecularGrid.py:56-82 | the weight array of atom iat becomes old weight × cell product, point by point |
| MolecularGrid.MolecularGrid.CellProductAt | PyQuante/MolecularGrid.py:61-80 | the jat loop computes the cell product of the point (j = iat skipped) |
| MolecularGrid.PatchShrinksWeight | PyQuante/MolecularGrid.py:82 | a non-negative weight ends in [0, old weight] |
| MolecularGrid.MolecularGrid.Len | PyQuante/MolecularGrid.py:37-41 | the length is the sum of the atomic grid sizes and is cached |
| MolecularGrid.MolecularGrid.NPts | PyQuante/MolecularGrid.py:166-169 | npts is the same total, and each atom's block fits inside it |
| MolecularGrid.MolecularGrid.PointsBeforeMonotone | PyQuante/MolecularGrid.py:166-169 | the running point count never decreases over atoms |
| MolecularGrid.MolecularGrid.Points | PyQuante/MolecularGrid.py:86-90 | points() is the concatenation of the atoms' points and has total-count length |
| MolecularGrid.MolecularGrid.PointsConcatIndex | PyQuante/MolecularGrid.py:86-90 | point k of atom h sits at offset (points before h) + k of the concatenation |
| MolecularGrid.MolecularGrid.Weights | PyQuante/MolecularGrid.py:102-108 | weights() is the concatenation of the atoms' weights in atom order |
| MolecularGrid.MolecularGrid.WeightsBeforeIndex | PyQuante/MolecularGrid.py:102-108 | weight k of atom h sits at offset (points before h) + k of weights() |
| MolecularGrid.MolecularGrid.BfValues | PyQuante/MolecularGrid.py:174-177 | the basis-function values are the atoms' values concatenated |
| MolecularGrid.MolecularGrid.AllBfs | PyQuante/MolecularGrid.py:171-185 | with zero points the division fails; otherwise the outcome is the checked reshape below |
| MolecularGrid.ReshapeBfs | PyQuante/MolecularGrid.py:179-184 | success exactly when the length is a multiple of npts with quotient nbf; otherwise the remainder error or the wrong-count error; on success npts rows of nbf values that flatten back to the input |
| MolecularGrid.Reshape | PyQuante/MolecularGrid.py:184 | a row-major reshape of rows·cols values has that shape and flattens back to its input |
| Matrices.TraceAdd | PyQuante/dmm.py:39 | tr(A + B) = tr A + tr B |
| Matrices.TraceSub | PyQuante/dmm.py:39 | tr(A − B) = tr A − tr B |
| Matrices.TraceScale | PyQuante/dmm.py:39 | tr(aA) = a·tr A |
| Matrices.TraceIdentity | PyQuante/dmm.py:39 | tr I_n = n |
| Matrices.TraceAffine | PyQuante/dmm.py:39 | tr(aX + bI) = a·tr X + b·N |
| Matrices.TraceShiftedGuess | PyQuante/dmm.py:39 | tr(a(eI − F) + bI) = a(eN − tr F) + bN, the trace of every starting matrix |
| Matrices.TwiceMinusSelf | PyQuante/dmm.py:101-104 | 2D − D = D, the step behind the TCP fixed point |
| Matrices.ThriceMinusTwice | PyQuante/dmm.py:121-123 | 3D − 2D = D, the step behind the McWeeny fixed point |
| DensityMatrixPurification.ParseMethod | PyQuante/dmm.py:73-93 | a method is selected exactly for codes 0–3; any other code gives "Unknown method" carrying the code |
| DensityMatrixPurification.ParseMethodCode | PyQuante/dmm.py:73-93 | every method is selected by its own code |
| DensityMatrixPurification.GershgorinMinMax | PyQuante/dmm.py:29-37 | the row loop returns the least disc low end and the greatest disc high end; an empty matrix is an error |
| DensityMatrixPurification.GershgorinBounds | PyQuante/dmm.py:29-37 | every diagonal entry lies in [emin, emax], each bound is attained by some row's disc, and emin ≤ emax |
| DensityMatrixPurification.GershgorinOrdered | PyQuante/dmm.py:29-37 | emin ≤ emax |
| DensityMatrixPurification.AffineGuessTrace | PyQuante/dmm.py:49-51 | the trace of α(eI − F) + βI is the electron count the bisection tests |
| DensityMatrixPurification.ElectronCountIncreasing | PyQuante/dmm.py:53-63 | that count is strictly increasing in the Fermi level, which makes bisection meaningful |
| DensityMatrixPurification.LinearGuess | PyQuante/dmm.py:83-84 | (emax·I − F)/(emax − emin) fails exactly when emax = emin |
| DensityMatrixPurification.LinearGuessDiagonal | PyQuante/dmm.py:83-84 | with Gershgorin bounds its diagonal is (emax − F_ii)/(emax − emin) ∈ [0, 1] |
| DensityMatrixPurification.CanonicalGuess | PyQuante/dmm.py:87-91 | the canonical start with efermi = tr F/N and β = Ne/N fails exactly when efermi equals a bound |
| DensityMatrixPurification.CanonicalGuessTrace | PyQuante/dmm.py:87-91 | the canonical starting matrix has trace Ne |
| DensityMatrixPurification.CountAtMean | PyQuante/dmm.py:87-91 | at efermi = tr F/N, β = Ne/N the count is Ne whatever α |
| DensityMatrixPurification.BisectBrackets | PyQuante/dmm.py:53-63 | elow ≤ efermi ≤ ehigh within the start bracket; elow has too few electrons and ehigh too many; a converged stop is within tolerance; at most the step budget |
| DensityMatrixPurification.BisectHalves | PyQuante/dmm.py:53-63 | the bracket width is the initial width halved once per non-final step |
| DensityMatrixPurification.BisectFromStart | PyQuante/dmm.py:53-63 | from a valid bracket: 1 to 100 steps, exactly 100 without convergence, and a within-tolerance count when converged |
| DensityMatrixPurification.McwBisectionBrackets | PyQuante/dmm.py:41-63 | in Dinit_mcw, efermi stays in [emin, emax + 20], runs at most 100 steps, and a converged count is within tolerance of Ne |
| DensityMatrixPurification.McwGuessOutcome | PyQuante/dmm.py:41-65 | the empty matrix fails; emin = emax fails; otherwise failure exactly when efermi hits a bound, and the result has trace α(eN − tr F) + βN |
| DensityMatrixPurification.McwGuess | PyQuante/dmm.py:41-65 | Dinit_mcw yields a square matrix of F's size when it succeeds |
| DensityMatrixPurification.BisectLoop | PyQuante/dmm.py:53-63 | the imperative loop with break computes the bisection function's Fermi level |
| DensityMatrixPurification.FermiLevel | PyQuante/dmm.py:41-63 | the Fermi level of Dinit_mcw is that of the bisection from [emin, emax + 20] |
| DensityMatrixPurification.DinitMcw | PyQuante/dmm.py:41-65 | the method equals the specification function McwGuess, whatever maxit is; it takes the Fermi level from FermiLevel and builds the guess at it |
| DensityMatrixPurification.Step | PyQuante/dmm.py:98-130 | every update keeps the matrix square; TCP and MCW never fail, and TRS and PM fail only by division by zero; TRS is the update as the code writes it, with blend Df − γDg (see Findings) |
| DensityMatrixPurification.TcpStep | PyQuante/dmm.py:100-104 | the TCP update keeps the matrix square |
| DensityMatrixPurification.TrsStep | PyQuante/dmm.py:106-120 | the TRS update keeps the matrix square and fails exactly when tr Dg = tr(D²(I − D)²) is zero; its blend is Df + γDg |
| DensityMatrixPurification.TrsStepAsWritten | PyQuante/dmm.py:106-120 | the TRS update as written, with blend Df − γDg: it keeps the matrix square and fails exactly when tr Dg is zero |
| DensityMatrixPurification.TrsBlendAsWritten | PyQuante/dmm.py:107-120 | in the blend range 0 ≤ γ ≤ 2 the written update succeeds with trace 2·tr Df − Ne, which equals Ne only when tr Df already does |
| DensityMatrixPurification.TrsBlendResetsTrace | PyQuante/dmm.py:107-120 | in the blend range the corrected update succeeds and its trace is exactly Ne, the point of trace resetting |
| DensityMatrixPurification.TrsAsWrittenMissesTarget | PyQuante/dmm.py:119 | at D = [[0.5]], Ne = 0.375 (γ = 1, in the blend range) the written update gives [[0.25]] and the corrected one [[0.375]] |
| DensityMatrixPurification.TrsExamplePolynomials | PyQuante/dmm.py:107-111 | at D = [[0.5]], Df = [[0.3125]] and Dg = [[0.0625]] |
| DensityMatrixPurification.McwStep | PyQuante/dmm.py:121-123 | the McWeeny update keeps the matrix square |
| DensityMatrixPurification.PmStep | PyQuante/dmm.py:124-130 | the canonical update keeps the matrix square and fails exactly when tr(D − D²) is zero |
| DensityMatrixPurification.CanonicalUpdate | PyQuante/dmm.py:125-130 | over any square D, D2, D3 the update fails exactly when tr(D − D2) is zero |
| DensityMatrixPurification.CanonicalLowKeepsTrace | PyQuante/dmm.py:126-128 | with cn·tr(D − D2) = tr(D2 − D3) and cn < 1/2, ((1 − 2cn)D + (1 + cn)D2 − D3)/(1 − cn) has the trace of D |
| DensityMatrixPurification.CanonicalHighKeepsTrace | PyQuante/dmm.py:129-130 | with the same cn and cn ≥ 1/2, ((1 + cn)D2 − D3)/cn has the trace of D |
| DensityMatrixPurification.CanonicalBlendKeepsTrace | PyQuante/dmm.py:126-130 | either formula keeps the trace once cn satisfies that equation |
| DensityMatrixPurification.CanonicalUpdateKeepsTrace | PyQuante/dmm.py:125-130 | the coefficient cn = tr(D2 − D3)/tr(D − D2) satisfies it, so a successful update keeps the trace whatever D2 and D3 are |
| DensityMatrixPurification.PmStepKeepsTrace | PyQuante/dmm.py:124-130 | a successful canonical step keeps tr D, so PM stays at the trace Ne of its canonical start |
| DensityMatrixPurification.IdempotentFixedPoint | PyQuante/dmm.py:101-104 | an idempotent D is left unchanged by a TCP step and by a McWeeny step |
| DensityMatrixPurification.IdempotentStopsCanonical | PyQuante/dmm.py:124-126 | at an idempotent D the canonical update's divisor tr(D − D²) vanishes |
| DensityMatrixPurification.IdempotentAnnihilates | PyQuante/dmm.py:109-111 | an idempotent D satisfies D(I − D) = 0 |
| DensityMatrixPurification.ComplementIdempotent | PyQuante/dmm.py:109-110 | for an idempotent D, I − D is idempotent too |
| DensityMatrixPurification.IdempotentStopsTraceResetting | PyQuante/dmm.py:109-113 | at an idempotent D, tr Dg = 0 and the TRS step divides by zero |
| DensityMatrixPurification.Update | PyQuante/dmm.py:97-133 | the per-method update maps square matrices to square matrices |
| DensityMatrixPurification.IterateLoop | PyQuante/dmm.py:97-134 | the for/break/else loop computes the recursive iteration |
| DensityMatrixPurification.Purify | PyQuante/dmm.py:97-134 | the purification loop of a method from a starting matrix |
| DensityMatrixPurification.IterateCounts | PyQuante/dmm.py:97-134 | iterations never exceed the budget, use all of it without convergence, and a converged stop counts its own pass |
| DensityMatrixPurification.IterateLastUpdate | PyQuante/dmm.py:97-133 | the returned D is one update of the matrix the last stop test looked at |
| DensityMatrixPurification.IterateStopTest | PyQuante/dmm.py:98-133 | a converged stop means the pre-update trace was within err of Ne (TCP, TRS, MCW), or the signed growth of the element sum was below err (PM) |
| DensityMatrixPurification.IterateFixedPoint | PyQuante/dmm.py:97-133 | a fixed point of the update is returned unchanged |
| DensityMatrixPurification.RunCounts | PyQuante/dmm.py:97-134 | at most maxIter passes; exactly maxIter when no stop test fired; at least one when one did |
| DensityMatrixPurification.RunLastUpdate | PyQuante/dmm.py:97-133 | the result has one more update applied than the matrix the stop test looked at |
| DensityMatrixPurification.RunStopTest | PyQuante/dmm.py:98-133 | the stop test that fired, per method, in terms of the matrices before and after the last update |
| DensityMatrixPurification.RunFixedPoint | PyQuante/dmm.py:97-133 | TCP and McWeeny return an idempotent starting matrix unchanged |
| DensityMatrixPurification.InitialGuess | PyQuante/dmm.py:80-91 | each method's starting matrix has F's size |
| DensityMatrixPurification.PurificationOutcome | PyQuante/dmm.py:67-134 | an empty F fails first, then an unknown code; PM starts at trace Ne; the loop bound holds |
| DensityMatrixPurification.StartingMatrix | PyQuante/dmm.py:80-93 | the dispatch on the method builds InitialGuess from the Gershgorin bounds: the linear guess for TCP and TRS, Dinit_mcw for MCW, the canonical guess for PM |
| DensityMatrixPurification.DMP | PyQuante/dmm.py:67-137 | DMP orthogonalises F, purifies with the method's update as the code writes it (TRS with blend Df − γDg), and back-transforms the result, or passes the error on |
| UHF.MixFixedPoint | PyQuante/UHFSolver.py:45-50 | damping a density against itself leaves it unchanged |
| UHF.MixEndpoints | PyQuante/UHFSolver.py:45-50 | f = 1 keeps the new density and f = 0 keeps the old one |
| UHF.FockSpinDifference | PyQuante/UHFSolver.py:68-77 | Fa − Fb = Kb − Ka |
| UHF.FockSpinSwap | PyQuante/UHFSolver.py:68-77 | swapping the spin labels of J and K exchanges Fa and Fb and leaves Fa + Fb unchanged |
| UHF.FockCoulombOrder | PyQuante/UHFSolver.py:71-72 | the Coulomb part Ja + Jb does not depend on the order of the spins |
| UHF.EnergySpinSymmetric | PyQuante/UHFSolver.py:85-91 | swapping the alpha and beta densities, J and K leaves the energy unchanged |
| UHF.UHFSolver.SetupGuess | PyQuante/UHFSolver.py:17-21 | alpha and beta orbitals and energies both become the guess |
| UHF.UHFSolver.SetupAveraging | PyQuante/UHFSolver.py:23-30 | avgfact is the given factor, or 1/2 by default |
| UHF.UHFSolver.UpdateDensity | PyQuante/UHFSolver.py:32-52 | new densities from the orbitals, damped only when averaging is on and iter > 1, with the old densities updated only under averaging; entropy is 0 without a temperature and the spin mean with one; Dab = Da + Db; spin-symmetric input gives Da = Db |
| UHF.UHFSolver.Populate | PyQuante/UHFSolver.py:35-44 | the Fermi or aufbau density and the entropy of each spin |
| UHF.UHFSolver.Damp | PyQuante/UHFSolver.py:45-50 | Da := f·Da + (1 − f)·Da_old after the first iteration, and likewise Db; the old densities track the post-mix ones |
| UHF.UHFSolver.UpdateJ | PyQuante/UHFSolver.py:54-59 | Ja and Jb are the Coulomb matrices of Da and Db |
| UHF.UHFSolver.UpdateK | PyQuante/UHFSolver.py:61-66 | Ka and Kb are the exchange matrices of Da and Db |
| UHF.UHFSolver.UpdateFock | PyQuante/UHFSolver.py:68-77 | Fa = h + Ja + Jb − Ka and Fb = h + Ja + Jb − Kb, so Fa − Fb = Kb − Ka and equal densities give equal Fock matrices |
| UHF.UHFSolver.SolveFock | PyQuante/UHFSolver.py:79-83 | each spin's orbitals come from its own Fock matrix; equal Fock matrices give equal orbitals |
| UHF.UHFSolver.CalculateEnergy | PyQuante/UHFSolver.py:85-91 | energy = tr(Dab·h) + ½tr(Dab·(Ja + Jb)) − ½(tr(Da·Ka) + tr(Db·Kb)) + Enuke + entropy |
| Optimize.Budget | PyQuante/optimize.py:81-84 | an absent maxiter or maxfun defaults to 200·N |
| Optimize.InitialVertex | PyQuante/optimize.py:93-104 | vertex k + 1 is x0 except at coordinate k, which is 1.05·x0[k] or 0.00025 when x0[k] = 0 |
| Optimize.StartSimplex | PyQuante/optimize.py:89-104 | the N + 1 starting vertices x0, InitialVertex(x0, 0), …, each with its objective value |
| Optimize.InitialSimplex | PyQuante/optimize.py:89-104 | the loop builds N + 1 vertices with their objective values, sim[0] = x0, vertex k + 1 = InitialVertex(x0, k): exactly StartSimplex |
| Optimize.InsertPermutes | PyQuante/optimize.py:106-108 | insertion keeps the same multiset of (vertex, value) pairs |
| Optimize.InsertSorted | PyQuante/optimize.py:106-108 | insertion into an ascending sequence stays ascending |
| Optimize.SortPairsSorted | PyQuante/optimize.py:106-108 | the sort orders the pairs by value |
| Optimize.SortPairsPermutes | PyQuante/optimize.py:106-108 | the sort is a permutation of the pairs |
| Optimize.Order | PyQuante/optimize.py:106-108 | fsim becomes ascending and the rows of sim move with their values |
| Optimize.OrderKeepsSimplex | PyQuante/optimize.py:169-171 | re-sorting keeps the simplex shape and every value equal to the objective at its vertex |
| Optimize.OrderFirstIsMin | PyQuante/optimize.py:106-108 | after sorting, fsim[0] is the least value |
| Optimize.Step | PyQuante/optimize.py:118-167 | one iteration: the best vertex stays; a non-shrink step replaces only the worst vertex by a trial point with a smaller value, using 1 or 2 calls; a shrink uses N + 2 calls and halves every other vertex toward the best |
| Optimize.Shrink | PyQuante/optimize.py:163-167 | the shrink keeps sim[0] and moves every other vertex halfway toward it |
| Optimize.MaxSeqAtMost | PyQuante/optimize.py:114-116 | a maximum is ≤ t exactly when every element is |
| Optimize.RowSpreadMeans | PyQuante/optimize.py:114 | a vertex's largest coordinate offset from sim[0] is ≤ xtol exactly when every offset is |
| Optimize.XSpreadMeans | PyQuante/optimize.py:114 | the coordinate spread is ≤ xtol exactly when every coordinate of every vertex is within xtol of sim[0] |
| Optimize.XSpreadBounds | PyQuante/optimize.py:114 | a small spread bounds every offset |
| Optimize.XSpreadWitness | PyQuante/optimize.py:114 | a large spread has a witnessing vertex and coordinate |
| Optimize.FSpreadMeans | PyQuante/optimize.py:114 | the value spread is ≤ ftol exactly when every value is within ftol of fsim[0] |
| Optimize.Iteration | PyQuante/optimize.py:118-171 | one pass of the loop is Step followed by the re-sort: the unsorted simplex keeps the best vertex; with fewer than N + 2 calls it keeps vertices 0..N−1 and puts a trial point with a smaller value in place of the worst; with N + 2 calls it is the shrunk simplex; the result is its sorted order, consistent, with fsim[0] not raised |
| Optimize.RunAppend | PyQuante/optimize.py:110-171 | a Nelder–Mead pass from the last simplex of a run, which had not converged, extends the run by that simplex and the pass's calls, and the call total grows by them |
| Optimize.RunPassAt | PyQuante/optimize.py:113-171 | entry i of a run's trail is a simplex that failed the convergence test, the next simplex (or the final one) is its sorted Nelder–Mead step, and the pass made that step's 1, 2 or N + 2 calls |
| Optimize.ConvergedStartStays | PyQuante/optimize.py:113-116 | a run from a simplex that already passes the convergence test makes no pass and ends where it started |
| Optimize.BudgetedAppend | PyQuante/optimize.py:113 | a pass begun with fewer than maxf calls and fewer than maxit iterations extends a run in which every pass began within both budgets |
| Optimize.RunsAgreeUpTo | PyQuante/optimize.py:110-171 | two runs from the same start have the same first k passes, with the same calls |
| Optimize.ShorterRunNotStopped | PyQuante/optimize.py:113-116 | a run shorter than a budgeted run from the same start has not stopped: both budgets are left and its last simplex has not converged |
| Optimize.RunDetermined | PyQuante/optimize.py:110-172 | two budgeted runs from the same start that have both stopped (a budget spent or the convergence test passed) have the same passes, calls and final simplex |
| FminLoop.Start | PyQuante/optimize.py:89-108 | the sorted initial simplex (SortedStart) is consistent and ascending, and its best value is at most f(x0) |
| FminLoop.Advance | PyQuante/optimize.py:113-171 | one pass from a simplex that failed the convergence test is a Pass: the new simplex is the sorted Nelder–Mead step from it, with the step's calls; the trail and the call log grow by that pass |
| FminLoop.Descend | PyQuante/optimize.py:110-172 | the while loop keeps the simplex invariants; the loop made iterations − 1 passes, each a Nelder–Mead pass from the previous simplex (the first from the start) that had not converged, begun with fewer than maxf calls and fewer than maxit iterations, the last ending at the returned simplex; it stopped there: a budget is spent or the convergence test passed; the passes' calls are every call after the first N + 1, and funcalls lies between N + iterations and N + 1 + (N + 2)(iterations − 1) |
| FminLoop.Search | PyQuante/optimize.py:89-172 | the sorted start, then for N > 0 the loop's run from it, every pass begun within both budgets and the run stopped at the returned simplex; a sorted start that has already converged is returned after no pass, N + 1 calls and one iteration |
| FminLoop.Fmin | PyQuante/optimize.py:71-193 | fmin fails only for an empty x0 that enters the loop; otherwise it returns sorted, consistent sim/fsim with x = sim[0], fval = f(x) ≤ f(x0), warnflag 1 exactly when funcalls ≥ maxfun, 2 exactly when instead iterations ≥ maxiter, and warnflag 0 only after the convergence test passed; the loop made iterations − 1 Nelder–Mead passes from the sorted start, each from a simplex that had not converged and begun with fewer than maxfun calls and fewer than maxiter iterations, ending at the returned simplex where the loop stopped, so RunDetermined makes the result unique; their calls are all calls after the first N + 1; a sorted start that has converged is returned as it is after N + 1 calls and one iteration |
| Optimize.MaxCallsClosedForm | PyQuante/optimize.py:110-171 | the call ceiling after k passes is N + 1 + (N + 2)k |

## Left out

- Floating point: all arithmetic is exact `real`. A division by zero, which Python turns into an exception or inf/NaN, becomes an error value (`ZeroDivision`, `ZeroPoints`, `EmptyMatrix`, `EmptySimplex`).
- Interatomic distance is an abstract function. `dist2` and `sqrt` are not part of this model. The range of μ is proved under the triangle inequality and symmetry, taken as hypotheses.
- The Bragg radius table is not part of this model. It is an abstract map to radii that are assumed positive when the heteronuclear adjustment is on.
- Becke.WellFormed: coincident atoms, where Python divides by r_ij = 0, are excluded by precondition rather than modelled.
- `make_atom_grids` and the atomic quadrature are not part of this model. The atomic grids enter the constructor ready-made.
- The methods that only delegate to point objects (`set_bf_amps`, `setdens`, `dens`, `gamma`, `grad`, `gradbfab`, `bfgrad`, `bfs`) are left out for the same reason.
- `nbf()` is read from the first atomic grid's basis count.
- MolecularGrid.MolecularGrid.AllBfs: an empty atom list makes `npts` 0, and Python's `divmod` raises. This is modelled as `ZeroPoints`. The two string raises become `Remainder` and `WrongBasisCount`.
- The order of the step polynomial is a grid field fixed at 3, the default of `fbecke`/`sbecke`. The lemmas about p, f and s hold for every order.
- `SymOrth`, `simx` and the back-transform are abstract functions, and their matrices are not part of this model.
- The `print` side effects of `dmm.py` and its unused imports are left out, as are fmin's `logging.debug` messages (`optimize.py`:179-189).
- Python default arguments are not modelled as defaults. `DMP`'s `Method=0`, `MaxIter=50` and `ErrorLimit=1e-12` and `fmin`'s `xtol = ftol = 1e-4` are always passed explicitly. `DMP` calls `Dinit_mcw` with its defaults, and the model passes `tol = 1e-7` and `maxit = 100` at that call. Only the `maxiter`/`maxfun` defaults of 200·N are modelled (`Optimize.Budget`), because the code computes them.
- DensityMatrixPurification.DinitMcw: the `maxit` argument is ignored, as in the source, which always runs at most 100 bisection steps. `nelow`/`nehigh` are computed but unused, so they are not modelled.
- The TRS divisor tr Dg and the PM divisor tr(D − D²) may vanish. They become `Err(ZeroDivision)` rather than preconditions, so the model covers the case where Python would raise.
- The UHF services `getJ`, `getK`, `geigh`, `mkdens`, `mkdens_fermi` and `trace2` are uninterpreted fields of a `Services` value. Their only assumed property is that they preserve the basis size.
- The `HFSolver` base class, its iteration loop and its convergence test are not part of this model. The iteration counter is set through `SetIteration`.
- The `UHFSolver` constructor stands in for `HFSolver` setup. It starts from zero matrices of the basis size and the default damping factor 1/2. `setup` and `print_setup_info` are left out because they only delegate to the base class or log.
- The unit tests at the end of `UHFSolver.py`, and the reference energies they compare against, are left out.
- A non-zero `etemp` selects the finite-temperature branch, matching Python truthiness for numbers.
- In `optimize.py` only `fmin` is modelled. `fminBFGS`, `fminNCG`, the line searches, the finite-difference gradients and the Rosenbrock test functions are left out.
- fmin's `args` and `fulloutput`/`printmessg` options are left out. The objective is a plain function, and the result record always carries every output.
- Optimize.Order: the model sorts stably. Numeric's `argsort` may order ties differently, so the relative order of equal-valued vertices is not claimed to match.
- Optimize.InitialSimplex: x0 is taken as real. An integer-typed x0 makes `sim` integer-typed (`optimize.py`:89), and then every vertex assignment truncates; that case is not modelled.
- FminLoop.Fmin: the result is stated for the loop's exit condition only. No claim is made that the loop reaches a minimum, which is a numerical-convergence property.

## Findings

| source | as written | input that shows it | evidently intended | confidence | as-written member | corrected member |
|---|---|---|---|---|---|---|
| PyQuante/dmm.py:119 | the TRS blend is `D = Df-gamma*Dg`, with γ = (Ne − tr Df)/tr Dg, so its trace is 2·tr Df − Ne | D = [[0.5]], Ne = 0.375: Df = [[0.3125]], Dg = [[0.0625]], γ = 1, and the written blend gives [[0.25]] (trace 0.25, not 0.375) | `Df + gamma*Dg`, whose trace is exactly Ne, the trace-resetting step of the TRS4 scheme | medium, not executed | DensityMatrixPurification.TrsBlendAsWritten | DensityMatrixPurification.TrsBlendResetsTrace |

`DensityMatrixPurification.TrsAsWrittenMissesTarget` evaluates both versions at the input above. `DensityMatrixPurification.Step`, and with it the purification loop and `DMP`, runs the code's `TrsStepAsWritten`, so the model of `DMP` is the program. `TrsStep` is the corrected definition, and `TrsBlendResetsTrace` proves that its trace is exactly Ne in the blend range.
