/**
 * The molecular grid: one atomic grid per atom, patched in place by Becke's
 * cell functions, and the accessors that count and concatenate the per-atom
 * data in atom order.
 */
module MolecularGrid {
  import opened Wrappers
  import opened Becke

  /** Why building the basis-function matrix fails. */
  datatype GridError =
    | ZeroPoints          // divmod by a point count of 0
    | Remainder           // the concatenated values are not a whole number of rows
    | WrongBasisCount(found: nat, expected: nat)

  /**
   * The part of an atomic grid the molecular grid uses: point positions,
   * their weights (patched in place), the basis-function count and the
   * flattened basis-function values the atomic grid reports.
   */
  class AtomicGrid {
    const points: seq<Vec3>
    const w: array<real>
    const nbf: nat
    const bfValues: seq<real>

    constructor(points: seq<Vec3>, weights: seq<real>, nbf: nat, bfValues: seq<real>)
      requires |weights| == |points|
      ensures this.points == points && w[..] == weights && fresh(w)
      ensures this.nbf == nbf && this.bfValues == bfValues
    {
      this.points := points;
      this.nbf := nbf;
      this.bfValues := bfValues;
      w := new real[|weights|](k requires 0 <= k < |weights| => weights[k]);
    }
  }

  class MolecularGrid {
    const atoms: seq<Atom>
    const atomgrids: seq<AtomicGrid>
    /** Distance between two positions (the square root of the squared distance). */
    const dist: (Vec3, Vec3) -> real
    /** Bragg radius by atomic number. */
    const bragg: nat -> real
    /** Iterations of the step polynomial in the cell function. */
    const order: int
    /** The cached point count, reset at construction and set by Len. */
    var length: Option<nat>

    /** One atomic grid per atom, each with one weight per point, no two sharing a weight array. */
    ghost predicate Valid() {
      && |atomgrids| == |atoms|
      && (forall g :: 0 <= g < |atomgrids| ==> atomgrids[g].w.Length == |atomgrids[g].points|)
      && (forall g, h :: 0 <= g < |atomgrids| && 0 <= h < |atomgrids| && g != h ==>
            atomgrids[g].w != atomgrids[h].w)
    }

    /** Every weight array of the grid. */
    ghost function WeightArrays(): set<array<real>> {
      set g | 0 <= g < |atomgrids| :: atomgrids[g].w
    }

    function Setting(doHetero: bool): Setting {
      Becke.Setting(atoms, doHetero, dist, bragg, order)
    }

    /** The weight of point k of atom g. */
    function Weight(g: nat, k: nat): real
      requires Valid() && g < |atomgrids| && k < |atomgrids[g].points|
      reads atomgrids[g].w
    {
      atomgrids[g].w[k]
    }

    /** Number of points of the atoms before atom g. */
    function PointsBefore(g: nat): nat
      requires g <= |atomgrids|
    {
      if g == 0 then 0 else PointsBefore(g - 1) + |atomgrids[g - 1].points|
    }

    function TotalPoints(): nat {
      PointsBefore(|atomgrids|)
    }

    /** The basis-function values of the atoms before atom g, concatenated. */
    function BfValuesBefore(g: nat): seq<real>
      requires g <= |atomgrids|
    {
      if g == 0 then [] else BfValuesBefore(g - 1) + atomgrids[g - 1].bfValues
    }

    /**
     * Builds the molecular grid from atomic grids that are already made and
     * patches their weights, as construction does.
     */
    constructor(atoms: seq<Atom>, atomgrids: seq<AtomicGrid>, dist: (Vec3, Vec3) -> real,
                bragg: nat -> real, doHetero: bool)
      requires |atomgrids| == |atoms|
      requires forall g :: 0 <= g < |atomgrids| ==> atomgrids[g].w.Length == |atomgrids[g].points|
      requires forall g, h :: 0 <= g < |atomgrids| && 0 <= h < |atomgrids| && g != h ==>
                 atomgrids[g].w != atomgrids[h].w
      requires WellFormed(Becke.Setting(atoms, doHetero, dist, bragg, DefaultOrder))
      modifies set g | 0 <= g < |atomgrids| :: atomgrids[g].w
      ensures Valid() && this.atoms == atoms && this.atomgrids == atomgrids
      ensures this.dist == dist && this.bragg == bragg && order == DefaultOrder && length == None
      ensures forall g :: 0 <= g < |atomgrids| ==>
                Patched(Setting(doHetero), g, atomgrids[g].points, old(atomgrids[g].w[..]), atomgrids[g].w[..])
    {
      this.atoms := atoms;
      this.atomgrids := atomgrids;
      this.dist := dist;
      this.bragg := bragg;
      order := DefaultOrder;
      length := None;
      new;
      PatchAtoms(doHetero);
    }

    /**
     * Multiplies the weight of every point of every atom i by the product,
     * over the other atoms j, of s(mu_ij) (mu_ij adjusted for heteronuclear
     * pairs when doHetero is set). Positions and everything else stay as
     * they are.
     */
    method PatchAtoms(doHetero: bool)
      requires Valid() && WellFormed(Setting(doHetero))
      modifies WeightArrays()
      ensures forall g :: 0 <= g < |atomgrids| ==>
                Patched(Setting(doHetero), g, atomgrids[g].points, old(atomgrids[g].w[..]), atomgrids[g].w[..])
    {
      for iat := 0 to |atoms|
        invariant forall g :: 0 <= g < iat ==>
                    Patched(Setting(doHetero), g, atomgrids[g].points, old(atomgrids[g].w[..]), atomgrids[g].w[..])
        invariant forall g :: iat <= g < |atomgrids| ==> atomgrids[g].w[..] == old(atomgrids[g].w[..])
      {
        PatchAtom(doHetero, iat);
      }
    }

    /** Patches the weights of the points of atom iat; no other atom's weights change. */
    method PatchAtom(doHetero: bool, iat: nat)
      requires Valid() && WellFormed(Setting(doHetero)) && iat < |atoms|
      modifies atomgrids[iat].w
      ensures Patched(Setting(doHetero), iat, atomgrids[iat].points, old(atomgrids[iat].w[..]), atomgrids[iat].w[..])
    {
      var grid := atomgrids[iat];
      ghost var s, before := Setting(doHetero), grid.w[..];
      for i := 0 to grid.w.Length
        invariant forall k :: 0 <= k < i ==> grid.w[k] == before[k] * BeckeWeight(s, iat, grid.points[k])
        invariant forall k :: i <= k < grid.w.Length ==> grid.w[k] == before[k]
      {
        var sprod := CellProductAt(doHetero, iat, grid.points[i]);
        grid.w[i] := grid.w[i] * sprod;
      }
    }

    /**
     * The product, over the atoms j other than iat, of s(mu_ij) at point p,
     * mu_ij adjusted for heteronuclear pairs when doHetero is set.
     */
    method CellProductAt(doHetero: bool, iat: nat, point: Vec3) returns (sprod: real)
      requires WellFormed(Setting(doHetero)) && iat < |atoms|
      ensures sprod == BeckeWeight(Setting(doHetero), iat, point)
    {
      var s := Setting(doHetero);
      sprod := 1.0;
      for jat := 0 to |atoms|
        invariant sprod == CellProduct(s, iat, point, jat)
      {
        if jat == iat { continue; }
        var f := CellFactor(s, iat, jat, point);
        CellProductStep(s, iat, point, jat, sprod, f);
        sprod := sprod * f;
      }
    }

    /** The point count, cached in length. */
    method Len() returns (n: nat)
      modifies this
      ensures n == TotalPoints() && length == Some(n)
    {
      length := Some(0);
      var total := 0;
      for g := 0 to |atomgrids|
        invariant total == PointsBefore(g)
      {
        total := total + |atomgrids[g].points|;
      }
      length := Some(total);
      n := total;
    }

    /** The point count: the sum of the per-atom point counts. */
    method NPts() returns (n: nat)
      ensures n == TotalPoints()
      ensures forall g :: 0 <= g < |atomgrids| ==> PointsBefore(g) + |atomgrids[g].points| <= n
    {
      n := 0;
      for g := 0 to |atomgrids|
        invariant n == PointsBefore(g)
      {
        n := n + |atomgrids[g].points|;
      }
      forall g | 0 <= g < |atomgrids| ensures PointsBefore(g) + |atomgrids[g].points| <= n {
        PointsBeforeMonotone(g + 1, |atomgrids|);
      }
    }

    /** The weights of the atoms before atom g, concatenated. */
    function WeightsBefore(g: nat): (ws: seq<real>)
      requires Valid() && g <= |atomgrids|
      reads WeightArrays()
      ensures |ws| == PointsBefore(g)
    {
      if g == 0 then [] else WeightsBefore(g - 1) + atomgrids[g - 1].w[..]
    }

    /** The positions of the atoms before atom g, concatenated. */
    function PointsConcat(g: nat): (ps: seq<Vec3>)
      requires g <= |atomgrids|
      ensures |ps| == PointsBefore(g)
    {
      if g == 0 then [] else PointsConcat(g - 1) + atomgrids[g - 1].points
    }

    /** The weights of all points, atom by atom. */
    method Weights() returns (ws: seq<real>)
      requires Valid()
      ensures ws == WeightsBefore(|atomgrids|)
      ensures |ws| == TotalPoints()
    {
      ws := [];
      for g := 0 to |atomgrids|
        invariant ws == WeightsBefore(g)
      {
        ws := ws + atomgrids[g].w[..];
      }
    }

    /** The positions of all points, atom by atom. */
    method Points() returns (ps: seq<Vec3>)
      ensures ps == PointsConcat(|atomgrids|)
      ensures |ps| == TotalPoints()
    {
      ps := [];
      for g := 0 to |atomgrids|
        invariant ps == PointsConcat(g)
      {
        ps := ps + atomgrids[g].points;
      }
    }

    /** Point k of atom h sits at position PointsBefore(h) + k of the concatenation. */
    lemma {:induction false} PointsConcatIndex(g: nat, h: nat, k: nat)
      requires h < g <= |atomgrids| && k < |atomgrids[h].points|
      ensures PointsBefore(h) + k < PointsBefore(g)
      ensures PointsConcat(g)[PointsBefore(h) + k] == atomgrids[h].points[k]
    {
      if h < g - 1 {
        PointsConcatIndex(g - 1, h, k);
      }
    }

    /** Weight k of atom h sits at position PointsBefore(h) + k of the concatenation. */
    lemma {:induction false} WeightsBeforeIndex(g: nat, h: nat, k: nat)
      requires Valid() && h < g <= |atomgrids| && k < |atomgrids[h].points|
      ensures PointsBefore(h) + k < PointsBefore(g)
      ensures WeightsBefore(g)[PointsBefore(h) + k] == Weight(h, k)
    {
      if h < g - 1 {
        WeightsBeforeIndex(g - 1, h, k);
      }
    }

    /**
     * The basis-function values of all points as a points-by-functions
     * matrix whose row length is the first atomic grid's function count.
     */
    method AllBfs() returns (r: Result<seq<seq<real>>, GridError>)
      ensures TotalPoints() == 0 ==> r == Err(ZeroPoints)
      ensures TotalPoints() > 0 ==> r == ReshapeBfs(BfValuesBefore(|atomgrids|), TotalPoints(), atomgrids[0].nbf)
    {
      var bfs := BfValues();
      var npts := NPts();
      if npts == 0 {
        return Err(ZeroPoints);
      }
      r := ReshapeBfs(bfs, npts, atomgrids[0].nbf);
    }

    /** The basis-function values of every atomic grid, concatenated in atom order. */
    method BfValues() returns (bfs: seq<real>)
      ensures bfs == BfValuesBefore(|atomgrids|)
    {
      bfs := [];
      for g := 0 to |atomgrids|
        invariant bfs == BfValuesBefore(g)
      {
        bfs := bfs + atomgrids[g].bfValues;
      }
    }

    lemma {:induction false} PointsBeforeMonotone(g: nat, h: nat)
      requires g <= h <= |atomgrids|
      ensures PointsBefore(g) <= PointsBefore(h)
      decreases h - g
    {
      if g < h {
        PointsBeforeMonotone(g, h - 1);
      }
    }
  }

  /**
   * after is before with the weight of each point k multiplied by the cell
   * product of atom i at that point.
   */
  predicate Patched(s: Setting, i: nat, points: seq<Vec3>, before: seq<real>, after: seq<real>)
    requires WellFormed(s) && i < |s.atoms|
  {
    && |before| == |points| && |after| == |points|
    && forall k :: 0 <= k < |points| ==> after[k] == before[k] * BeckeWeight(s, i, points[k])
  }

  /**
   * Patching never makes a non-negative weight negative or larger: the
   * factor it applies lies in [0, 1] when the distance is a metric.
   */
  lemma PatchShrinksWeight(s: Setting, i: nat, p: Vec3, w: real)
    requires WellFormed(s) && IsMetric(s.dist) && i < |s.atoms| && w >= 0.0
    ensures 0.0 <= w * BeckeWeight(s, i, p) <= w
  {
    BeckeWeightInUnit(s, i, p);
    UnitScale(w, BeckeWeight(s, i, p));
  }

  /** A count that a positive divisor divides exactly is divisor times quotient. */
  lemma DivisionExact(a: nat, b: nat)
    requires b > 0 && a % b == 0
    ensures a == b * (a / b)
  {
  }

  /** Scaling a non-negative weight by a factor of [0, 1] keeps it in [0, weight]. */
  lemma UnitScale(w: real, f: real)
    requires w >= 0.0 && 0.0 <= f <= 1.0
    ensures 0.0 <= w * f <= w
  {
    ProductSign(f - 1.0, w);
    NonNegProduct(w, f);
  }

  /** Multiplying the cell product up to atom j by the factor of atom j gives the next one. */
  lemma CellProductStep(s: Setting, i: nat, p: Vec3, j: nat, acc: real, f: real)
    requires WellFormed(s) && i < |s.atoms| && j < |s.atoms| && j != i
    requires acc == CellProduct(s, i, p, j) && f == CellFactor(s, i, j, p)
    ensures acc * f == CellProduct(s, i, p, j + 1)
  {
  }

  /**
   * Splits the concatenated values into npts rows of nbf values each. Fails
   * unless the values divide evenly into npts rows (divmod of the value
   * count by the point count) and the row length is nbf.
   */
  function ReshapeBfs(bfs: seq<real>, npts: nat, nbf: nat): (r: Result<seq<seq<real>>, GridError>)
    requires npts > 0
    ensures r.Ok? <==> |bfs| % npts == 0 && |bfs| / npts == nbf
    ensures |bfs| % npts != 0 ==> r == Err(Remainder)
    ensures |bfs| % npts == 0 && |bfs| / npts != nbf ==> r == Err(WrongBasisCount(|bfs| / npts, nbf))
    ensures r.Ok? ==> |r.value| == npts && Flatten(r.value) == bfs
                      && forall i :: 0 <= i < npts ==> |r.value[i]| == nbf
  {
    if |bfs| % npts != 0 then Err(Remainder)
    else if |bfs| / npts != nbf then Err(WrongBasisCount(|bfs| / npts, nbf))
    else
      DivisionExact(|bfs|, npts);
      Ok(Reshape(bfs, npts, nbf))
  }

  /** The rows of a matrix laid end to end. */
  function Flatten(m: seq<seq<real>>): seq<real> {
    if |m| == 0 then [] else m[0] + Flatten(m[1..])
  }

  /** Row-major reshape of rows * cols values into rows rows of cols values each. */
  function Reshape(values: seq<real>, rows: nat, cols: nat): (m: seq<seq<real>>)
    requires |values| == rows * cols
    ensures |m| == rows && forall i :: 0 <= i < rows ==> |m[i]| == cols
    ensures Flatten(m) == values
  {
    if rows == 0 then []
    else
      assert |values| == cols + (rows - 1) * cols;
      [values[..cols]] + Reshape(values[cols..], rows - 1, cols)
  }
}
