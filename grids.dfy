/** Values shared by every part of the terrain generator: two-element points (numpy's
    [row, column] arrays), height-by-width grids of reals, the real-number helpers that
    generate.py takes from Python's `abs`, `max` and `math.ceil`, and the two numpy grid
    operations it uses, `np.zeros` and element-wise `+`. */
module Grids {

  /** A vertex of a path, or a displacement vector: numpy's array [row, column]. */
  datatype Point = Point(row: real, col: real) {
    function Plus(d: Point): Point { Point(row + d.row, col + d.col) }
    function Minus(d: Point): Point { Point(row - d.row, col - d.col) }
  }

  function Abs(x: real): (r: real)
    ensures 0.0 <= r && (r == x || r == -x)
  {
    if x < 0.0 then -x else x
  }

  function Max(x: real, y: real): (r: real)
    ensures x <= r && y <= r && (r == x || r == y)
  {
    if x >= y then x else y
  }

  /** `math.ceil`: the least integer not below x. */
  function Ceil(x: real): (n: int)
    ensures x <= n as real < x + 1.0
  {
    -((-x).Floor)
  }

  /** Extending the prefix of length i by element i gives the prefix of length i + 1. */
  lemma PrefixSnoc<T>(s: seq<T>, i: nat)
    requires i < |s|
    ensures s[..i] + [s[i]] == s[..i + 1]
  {
  }

  /** A grid as the values of its rows; the model of a numpy 2-D array. */
  type Grid = seq<seq<real>>

  ghost predicate IsGrid(g: Grid, h: int, w: int) {
    |g| == h && forall i :: 0 <= i < h ==> |g[i]| == w
  }

  ghost predicate InGrid(h: int, w: int, i: int, j: int) {
    0 <= i < h && 0 <= j < w
  }

  /** Every cell of g lies in [lo, hi]. */
  ghost predicate Bounded(g: Grid, h: int, w: int, lo: real, hi: real)
    requires IsGrid(g, h, w)
  {
    forall i, j :: InGrid(h, w, i, j) ==> lo <= g[i][j] <= hi
  }

  /** Every grid of gs lies within [lo, hi]. */
  ghost predicate AllBounded(gs: seq<Grid>, h: int, w: int, lo: real, hi: real)
    requires AllGrids(gs, h, w)
  {
    forall k :: 0 <= k < |gs| ==> Bounded(gs[k], h, w, lo, hi)
  }

  /** `np.zeros([h, w])`. */
  ghost function Zero(h: nat, w: nat): (g: Grid)
    ensures IsGrid(g, h, w)
    ensures forall i, j :: InGrid(h, w, i, j) ==> g[i][j] == 0.0
  {
    seq(h, _ => seq(w, _ => 0.0))
  }

  /** g with the single cell (i, j) overwritten by v. */
  ghost function Set(g: Grid, i: int, j: int, v: real): (r: Grid)
    requires 0 <= i < |g| && 0 <= j < |g[i]|
    ensures |r| == |g| && forall k :: 0 <= k < |g| ==> |r[k]| == |g[k]|
    ensures r[i][j] == v
    ensures forall k, l :: 0 <= k < |g| && 0 <= l < |g[k]| && (k != i || l != j) ==> r[k][l] == g[k][l]
  {
    g[i := g[i][j := v]]
  }

  /** Element-wise sum of two grids of the same shape. */
  ghost function Add(a: Grid, b: Grid, h: nat, w: nat): (r: Grid)
    requires IsGrid(a, h, w) && IsGrid(b, h, w)
    ensures IsGrid(r, h, w)
    ensures forall i, j :: InGrid(h, w, i, j) ==> r[i][j] == a[i][j] + b[i][j]
  {
    seq(h, i requires 0 <= i < h => seq(w, j requires 0 <= j < w => a[i][j] + b[i][j]))
  }

  ghost predicate AllGrids(gs: seq<Grid>, h: int, w: int) {
    forall k :: 0 <= k < |gs| ==> IsGrid(gs[k], h, w)
  }

  /** The terrain t after each grid of `solved` has been added to it in turn. */
  ghost function Accumulate(t: Grid, solved: seq<Grid>, h: nat, w: nat): (r: Grid)
    requires IsGrid(t, h, w) && AllGrids(solved, h, w)
    ensures IsGrid(r, h, w)
    decreases |solved|
  {
    if |solved| == 0 then t
    else Add(Accumulate(t, solved[..|solved| - 1], h, w), solved[|solved| - 1], h, w)
  }

  /** Sum of cell (i, j) over a sequence of grids, first grid first. */
  ghost function CellSum(gs: seq<Grid>, h: nat, w: nat, i: int, j: int): real
    requires AllGrids(gs, h, w) && InGrid(h, w, i, j)
    decreases |gs|
  {
    if gs == [] then 0.0 else gs[0][i][j] + CellSum(gs[1..], h, w, i, j)
  }

  lemma {:induction false} CellSumSnoc(gs: seq<Grid>, h: nat, w: nat, i: int, j: int)
    requires AllGrids(gs, h, w) && InGrid(h, w, i, j) && gs != []
    ensures CellSum(gs, h, w, i, j) == CellSum(gs[..|gs| - 1], h, w, i, j) + gs[|gs| - 1][i][j]
    decreases |gs|
  {
    if |gs| > 1 {
      CellSumSnoc(gs[1..], h, w, i, j);
      assert gs[1..][..|gs[1..]| - 1] == gs[..|gs| - 1][1..];
    }
  }

  /** Each cell of the accumulated terrain is its initial value plus the sum of that cell
      over all the added grids. */
  lemma {:induction false} AccumulateIsSum(t: Grid, solved: seq<Grid>, h: nat, w: nat, i: int, j: int)
    requires IsGrid(t, h, w) && AllGrids(solved, h, w) && InGrid(h, w, i, j)
    ensures Accumulate(t, solved, h, w)[i][j] == t[i][j] + CellSum(solved, h, w, i, j)
    decreases |solved|
  {
    if |solved| > 0 {
      AccumulateIsSum(t, solved[..|solved| - 1], h, w, i, j);
      CellSumSnoc(solved, h, w, i, j);
    }
  }

  /** n copies of x added up: n * x without a product of two unknowns. */
  function Scale(n: nat, x: real): real {
    if n == 0 then 0.0 else Scale(n - 1, x) + x
  }

  lemma {:induction false} ScaleTwo(n: nat)
    ensures Scale(n, 2.0) == 2.0 * n as real
  {
    if n > 0 {
      ScaleTwo(n - 1);
    }
  }

  /** A cell summed over grids that all lie within [-hi, hi] lies within |gs| * [-hi, hi]. */
  lemma {:induction false} CellSumBounded(gs: seq<Grid>, h: nat, w: nat, i: int, j: int, lo: real, hi: real)
    requires AllGrids(gs, h, w) && InGrid(h, w, i, j) && lo == -hi
    requires AllBounded(gs, h, w, lo, hi)
    ensures Abs(CellSum(gs, h, w, i, j)) <= Scale(|gs|, hi)
    decreases |gs|
  {
    if gs != [] {
      assert Bounded(gs[0], h, w, lo, hi);
      assert AllBounded(gs[1..], h, w, lo, hi) by {
        forall k | 0 <= k < |gs[1..]| ensures Bounded(gs[1..][k], h, w, lo, hi) {
          assert gs[1..][k] == gs[k + 1];
        }
      }
      CellSumBounded(gs[1..], h, w, i, j, lo, hi);
    }
  }

  /** The values of a 2-D array, row by row. */
  ghost function Snapshot(a: array2<real>): (g: Grid)
    reads a
    ensures IsGrid(g, a.Length0, a.Length1)
    ensures forall i, j :: InGrid(a.Length0, a.Length1, i, j) ==> g[i][j] == a[i, j]
  {
    seq(a.Length0, i requires 0 <= i < a.Length0 reads a =>
      seq(a.Length1, j requires 0 <= j < a.Length1 reads a => a[i, j]))
  }

  /** The array a holds exactly the grid g. */
  ghost predicate Holds(a: array2<real>, g: Grid)
    reads a
  {
    IsGrid(g, a.Length0, a.Length1) &&
    forall i, j :: InGrid(a.Length0, a.Length1, i, j) ==> a[i, j] == g[i][j]
  }

  /** Adding n maps whose cells lie in [-hi, hi] moves a cell by at most n * hi either way. */
  lemma AccumulateBounded(t: Grid, solved: seq<Grid>, h: nat, w: nat, i: int, j: int, n: nat, lo: real, hi: real)
    requires IsGrid(t, h, w) && AllGrids(solved, h, w) && InGrid(h, w, i, j) && |solved| == n && lo == -hi
    requires AllBounded(solved, h, w, lo, hi)
    ensures var change := Accumulate(t, solved, h, w)[i][j] - t[i][j];
            -Scale(n, hi) <= change <= Scale(n, hi)
  {
    AccumulateIsSum(t, solved, h, w, i, j);
    CellSumBounded(solved, h, w, i, j, lo, hi);
    AbsWithin(CellSum(solved, h, w, i, j), Scale(n, hi));
  }

  lemma AbsWithin(x: real, limit: real)
    requires Abs(x) <= limit
    ensures -limit <= x <= limit
  {
  }

  lemma SnapshotOfHolds(a: array2<real>, g: Grid)
    requires Holds(a, g)
    ensures Snapshot(a) == g
  {
    var s := Snapshot(a);
    forall i | 0 <= i < a.Length0
      ensures s[i] == g[i]
    {
      assert forall j :: 0 <= j < a.Length1 ==> s[i][j] == g[i][j] by {
        forall j | 0 <= j < a.Length1 ensures s[i][j] == g[i][j] {
          assert InGrid(a.Length0, a.Length1, i, j);
        }
      }
    }
  }

  /** `np.zeros([h, w])`: a new array of zeros. */
  method Zeros(h: nat, w: nat) returns (a: array2<real>)
    ensures fresh(a) && a.Length0 == h && a.Length1 == w
    ensures Snapshot(a) == Zero(h, w)
  {
    a := new real[h, w]((i, j) => 0.0);
    SnapshotOfHolds(a, Zero(h, w));
  }

  /** numpy's `a + b` on two arrays of one shape: a new array of the element-wise sums. */
  method Plus(a: array2<real>, b: array2<real>) returns (c: array2<real>)
    requires a.Length0 == b.Length0 && a.Length1 == b.Length1
    ensures fresh(c) && c.Length0 == a.Length0 && c.Length1 == a.Length1
    ensures Snapshot(c) == Add(Snapshot(a), Snapshot(b), a.Length0, a.Length1)
  {
    c := new real[a.Length0, a.Length1];
    for i := 0 to a.Length0
      invariant forall k, l :: 0 <= k < i && 0 <= l < a.Length1 ==> c[k, l] == a[k, l] + b[k, l]
    {
      for j := 0 to a.Length1
        invariant forall k, l :: 0 <= k < i && 0 <= l < a.Length1 ==> c[k, l] == a[k, l] + b[k, l]
        invariant forall l :: 0 <= l < j ==> c[i, l] == a[i, l] + b[i, l]
      {
        c[i, j] := a[i, j] + b[i, j];
      }
    }
    SnapshotOfHolds(c, Add(Snapshot(a), Snapshot(b), a.Length0, a.Length1));
  }
}
