/** The potential solver, `solve_potential` (generate.py:151-176).

    The cells that are non-zero on entry (the mask) are held fixed.  Every other cell is
    repeatedly replaced by the mean of its neighbours: the cells above and below when they
    exist (rows do not wrap) and the cells to the left and right, whose columns wrap
    modulo the width.  Because `new_potential` and `potential` name one array, every
    sweep works in place, cell by cell in row-major order, and reads the values already
    written earlier in the same sweep (a Gauss-Seidel sweep).  The number of sweeps is
    `ceil((height + width) / 5)`.

    The specification is written on grid values: Relax visits one cell, RowPrefix and
    SweepPrefix are a sweep cut off after a given cell, Sweeps repeats whole sweeps and
    Solve is the solver's result. */
module PotentialSolver {
  import opened Grids

  /** `math.ceil((height + width) / 5)`, the number of sweeps (line 155). */
  function Iterations(h: nat, w: nat): (n: nat)
    ensures n == (h + w + 4) / 5
    ensures 5 * n - 5 < h + w <= 5 * n
  {
    var q := (h + w + 4) / 5;
    assert q as real - 1.0 < (h + w) as real / 5.0 <= q as real;
    Ceil((h + w) as real / 5.0)
  }

  /** The list `neighbours` built at lines 162-168 for cell (h, w): the cell above unless
      h is the first row, the cell below unless h is the last row, then the cells to the
      right and to the left, whose columns wrap modulo the width. */
  ghost function Neighbours(g: Grid, H: nat, W: nat, h: nat, w: nat): (ns: seq<real>)
    requires IsGrid(g, H, W) && h < H && w < W
    ensures 2 <= |ns| <= 4
    ensures |ns| == 2 + (if h != 0 then 1 else 0) + (if h != H - 1 then 1 else 0)
  {
    (if h != 0 then [g[h - 1][w]] else []) +
    (if h != H - 1 then [g[h + 1][w]] else []) +
    [g[h][(w + 1) % W], g[h][(w - 1) % W]]
  }

  /** The running sum of lines 169-171, first element first. */
  function Sum(s: seq<real>): real
  {
    if s == [] then 0.0 else Sum(s[..|s| - 1]) + s[|s| - 1]
  }

  function Mean(s: seq<real>): real
    requires |s| > 0
  {
    Sum(s) / |s| as real
  }

  lemma {:induction false} SumBounded(s: seq<real>, lo: real, hi: real)
    requires forall k :: 0 <= k < |s| ==> lo <= s[k] <= hi
    ensures |s| as real * lo <= Sum(s) <= |s| as real * hi
  {
    if s != [] {
      SumBounded(s[..|s| - 1], lo, hi);
    }
  }

  /** A mean lies between the least and the greatest value averaged. */
  lemma MeanBounded(s: seq<real>, lo: real, hi: real)
    requires |s| > 0
    requires forall k :: 0 <= k < |s| ==> lo <= s[k] <= hi
    ensures lo <= Mean(s) <= hi
  {
    SumBounded(s, lo, hi);
    var n := |s| as real;
    assert Mean(s) * n == Sum(s);
  }

  /** The visit of cell (h, w) in a sweep (lines 161-174).  `seed` is the grid on entry to
      the solver: its non-zero cells are the mask, and such a cell is written back with its
      current value; any other cell becomes the mean of its neighbours' current values. */
  ghost function Relax(g: Grid, seed: Grid, H: nat, W: nat, h: nat, w: nat): (r: Grid)
    requires IsGrid(g, H, W) && IsGrid(seed, H, W) && h < H && w < W
    ensures IsGrid(r, H, W)
    ensures seed[h][w] != 0.0 ==> r == g
    ensures seed[h][w] == 0.0 ==> r[h][w] == Mean(Neighbours(g, H, W, h, w))
    ensures forall i, j :: InGrid(H, W, i, j) && (i != h || j != w) ==> r[i][j] == g[i][j]
  {
    if seed[h][w] != 0.0 then
      assert g[h][w := g[h][w]] == g[h];
      Set(g, h, w, g[h][w])
    else Set(g, h, w, Mean(Neighbours(g, H, W, h, w)))
  }

  /** Cells that are masked by `seed` keep their values in r. */
  ghost predicate SeedsKept(r: Grid, g: Grid, seed: Grid, H: nat, W: nat)
    requires IsGrid(r, H, W) && IsGrid(g, H, W) && IsGrid(seed, H, W)
  {
    forall i, j :: InGrid(H, W, i, j) && seed[i][j] != 0.0 ==> r[i][j] == g[i][j]
  }

  /** g after the visits of cells (h, 0), ..., (h, w - 1) of row h. */
  ghost function RowPrefix(g: Grid, seed: Grid, H: nat, W: nat, h: nat, w: nat): (r: Grid)
    requires IsGrid(g, H, W) && IsGrid(seed, H, W) && h < H && w <= W
    ensures IsGrid(r, H, W) && SeedsKept(r, g, seed, H, W)
    decreases w
  {
    if w == 0 then g else Relax(RowPrefix(g, seed, H, W, h, w - 1), seed, H, W, h, w - 1)
  }

  /** g after the visits of all cells of rows 0, ..., h - 1, in row-major order. */
  ghost function SweepPrefix(g: Grid, seed: Grid, H: nat, W: nat, h: nat): (r: Grid)
    requires IsGrid(g, H, W) && IsGrid(seed, H, W) && h <= H
    ensures IsGrid(r, H, W) && SeedsKept(r, g, seed, H, W)
    decreases h
  {
    if h == 0 then g else RowPrefix(SweepPrefix(g, seed, H, W, h - 1), seed, H, W, h - 1, W)
  }

  /** g after n complete in-place sweeps. */
  ghost function Sweeps(g: Grid, seed: Grid, H: nat, W: nat, n: nat): (r: Grid)
    requires IsGrid(g, H, W) && IsGrid(seed, H, W)
    ensures IsGrid(r, H, W) && SeedsKept(r, g, seed, H, W)
    decreases n
  {
    if n == 0 then g else SweepPrefix(Sweeps(g, seed, H, W, n - 1), seed, H, W, H)
  }

  /** The grid `solve_potential` returns for the grid g: every cell non-zero in g keeps its
      value exactly. */
  ghost function Solve(g: Grid, H: nat, W: nat): (r: Grid)
    requires IsGrid(g, H, W)
    ensures IsGrid(r, H, W)
    ensures forall i, j :: InGrid(H, W, i, j) && g[i][j] != 0.0 ==> r[i][j] == g[i][j]
  {
    Sweeps(g, g, H, W, Iterations(H, W))
  }

  lemma NeighboursBounded(g: Grid, H: nat, W: nat, h: nat, w: nat, lo: real, hi: real)
    requires IsGrid(g, H, W) && h < H && w < W && Bounded(g, H, W, lo, hi)
    ensures forall k :: 0 <= k < |Neighbours(g, H, W, h, w)| ==> lo <= Neighbours(g, H, W, h, w)[k] <= hi
  {
    assert InGrid(H, W, h, (w + 1) % W) && InGrid(H, W, h, (w - 1) % W);
    assert h != 0 ==> InGrid(H, W, h - 1, w);
    assert h != H - 1 ==> InGrid(H, W, h + 1, w);
  }

  lemma RelaxBounded(g: Grid, seed: Grid, H: nat, W: nat, h: nat, w: nat, lo: real, hi: real)
    requires IsGrid(g, H, W) && IsGrid(seed, H, W) && h < H && w < W && Bounded(g, H, W, lo, hi)
    ensures Bounded(Relax(g, seed, H, W, h, w), H, W, lo, hi)
  {
    if seed[h][w] == 0.0 {
      NeighboursBounded(g, H, W, h, w, lo, hi);
      MeanBounded(Neighbours(g, H, W, h, w), lo, hi);
    }
  }

  lemma {:induction false} RowPrefixBounded(g: Grid, seed: Grid, H: nat, W: nat, h: nat, w: nat, lo: real, hi: real)
    requires IsGrid(g, H, W) && IsGrid(seed, H, W) && h < H && w <= W && Bounded(g, H, W, lo, hi)
    ensures Bounded(RowPrefix(g, seed, H, W, h, w), H, W, lo, hi)
    decreases w
  {
    if w > 0 {
      RowPrefixBounded(g, seed, H, W, h, w - 1, lo, hi);
      RelaxBounded(RowPrefix(g, seed, H, W, h, w - 1), seed, H, W, h, w - 1, lo, hi);
    }
  }

  lemma {:induction false} SweepPrefixBounded(g: Grid, seed: Grid, H: nat, W: nat, h: nat, lo: real, hi: real)
    requires IsGrid(g, H, W) && IsGrid(seed, H, W) && h <= H && Bounded(g, H, W, lo, hi)
    ensures Bounded(SweepPrefix(g, seed, H, W, h), H, W, lo, hi)
    decreases h
  {
    if h > 0 {
      SweepPrefixBounded(g, seed, H, W, h - 1, lo, hi);
      RowPrefixBounded(SweepPrefix(g, seed, H, W, h - 1), seed, H, W, h - 1, W, lo, hi);
    }
  }

  lemma {:induction false} SweepsBounded(g: Grid, seed: Grid, H: nat, W: nat, n: nat, lo: real, hi: real)
    requires IsGrid(g, H, W) && IsGrid(seed, H, W) && Bounded(g, H, W, lo, hi)
    ensures Bounded(Sweeps(g, seed, H, W, n), H, W, lo, hi)
    decreases n
  {
    if n > 0 {
      SweepsBounded(g, seed, H, W, n - 1, lo, hi);
      SweepPrefixBounded(Sweeps(g, seed, H, W, n - 1), seed, H, W, H, lo, hi);
    }
  }

  /** Maximum principle: every value the solver produces is an average of values already in
      the grid, so if every input cell (the zeros included) lies in [lo, hi], so does every
      output cell. */
  lemma SolveBounded(g: Grid, H: nat, W: nat, lo: real, hi: real)
    requires IsGrid(g, H, W) && Bounded(g, H, W, lo, hi)
    ensures Bounded(Solve(g, H, W), H, W, lo, hi)
  {
    SweepsBounded(g, g, H, W, Iterations(H, W), lo, hi);
  }

  /** The sweep is in place: on the 1-by-3 grid [1, 0, 0] the last cell is averaged from the
      value 0.5 its left neighbour received earlier in the same sweep, giving 0.75 (a
      two-buffer update would give 0.5).  One sweep is all the solver runs on this grid. */
  lemma SolveReadsCurrentSweep()
    ensures Iterations(1, 3) == 1
    ensures Solve([[1.0, 0.0, 0.0]], 1, 3) == [[1.0, 0.5, 0.75]]
  {
    var g := [[1.0, 0.0, 0.0]];
    var r1 := Relax(g, g, 1, 3, 0, 0);
    assert r1 == g;
    assert Neighbours(r1, 1, 3, 0, 1) == [0.0, 1.0];
    assert Sum([0.0, 1.0]) == 1.0 by {
      assert [0.0, 1.0][..1] == [0.0];
      assert [0.0][..0] == [];
    }
    var r2 := Relax(r1, g, 1, 3, 0, 1);
    assert Mean(Neighbours(r1, 1, 3, 0, 1)) == 0.5;
    assert r2[0] == [1.0, 0.5, 0.0];
    assert r2 == [[1.0, 0.5, 0.0]];
    assert Neighbours(r2, 1, 3, 0, 2) == [1.0, 0.5];
    assert Sum([1.0, 0.5]) == 1.5 by {
      assert [1.0, 0.5][..1] == [1.0];
      assert [1.0][..0] == [];
    }
    var r3 := Relax(r2, g, 1, 3, 0, 2);
    assert Mean(Neighbours(r2, 1, 3, 0, 2)) == 0.75;
    assert r3[0] == [1.0, 0.5, 0.75];
    assert r3 == [[1.0, 0.5, 0.75]];
    assert RowPrefix(g, g, 1, 3, 0, 3) == r3;
    assert SweepPrefix(g, g, 1, 3, 1) == r3;
    assert Sweeps(g, g, 1, 3, 1) == r3;
  }

  /** `mask = potential != 0` (line 152): a new array marking the non-zero cells. */
  method NonZeroMask(potential: array2<real>) returns (mask: array2<bool>)
    ensures fresh(mask) && mask.Length0 == potential.Length0 && mask.Length1 == potential.Length1
    ensures forall i, j :: InGrid(mask.Length0, mask.Length1, i, j) ==> mask[i, j] == (potential[i, j] != 0.0)
  {
    mask := new bool[potential.Length0, potential.Length1];
    for h := 0 to potential.Length0
      invariant forall i, j :: 0 <= i < h && 0 <= j < potential.Length1 ==> mask[i, j] == (potential[i, j] != 0.0)
    {
      for w := 0 to potential.Length1
        invariant forall i, j :: 0 <= i < h && 0 <= j < potential.Length1 ==> mask[i, j] == (potential[i, j] != 0.0)
        invariant forall j :: 0 <= j < w ==> mask[h, j] == (potential[h, j] != 0.0)
      {
        mask[h, w] := potential[h, w] != 0.0;
      }
    }
  }

  /** One pass of the innermost loop body (lines 161-174) on the array, which holds the
      grid g: cell (h, w) is visited as Relax describes. */
  method VisitCell(potential: array2<real>, mask: array2<bool>, ghost seed: Grid, ghost g: Grid, h: nat, w: nat)
    requires Holds(potential, g) && IsGrid(seed, potential.Length0, potential.Length1)
    requires mask.Length0 == potential.Length0 && mask.Length1 == potential.Length1
    requires forall i, j :: InGrid(mask.Length0, mask.Length1, i, j) ==> mask[i, j] == (seed[i][j] != 0.0)
    requires h < potential.Length0 && w < potential.Length1
    modifies potential
    ensures Holds(potential, Relax(g, seed, potential.Length0, potential.Length1, h, w))
  {
    var height, width := potential.Length0, potential.Length1;
    assert InGrid(height, width, h, w);
    if mask[h, w] == false {
      var neighbours := [];
      if h != 0 {
        assert InGrid(height, width, h - 1, w);
        neighbours := neighbours + [potential[h - 1, w]];
      }
      if h != height - 1 {
        assert InGrid(height, width, h + 1, w);
        neighbours := neighbours + [potential[h + 1, w]];
      }
      assert InGrid(height, width, h, (w + 1) % width) && InGrid(height, width, h, (w - 1) % width);
      neighbours := neighbours + [potential[h, (w + 1) % width]];
      neighbours := neighbours + [potential[h, (w - 1) % width]];
      assert neighbours == Neighbours(g, height, width, h, w);
      var s := 0.0;
      for k := 0 to |neighbours|
        invariant s == Sum(neighbours[..k])
      {
        assert neighbours[..k + 1][..k] == neighbours[..k];
        s := s + neighbours[k];
      }
      assert neighbours[..|neighbours|] == neighbours;
      potential[h, w] := s / |neighbours| as real;
    } else {
      potential[h, w] := potential[h, w];
    }
  }

  /** The loop over the columns of row h (lines 160-174). */
  method SweepRow(potential: array2<real>, mask: array2<bool>, ghost seed: Grid, ghost g: Grid, h: nat)
    requires Holds(potential, g) && IsGrid(seed, potential.Length0, potential.Length1)
    requires mask.Length0 == potential.Length0 && mask.Length1 == potential.Length1
    requires forall i, j :: InGrid(mask.Length0, mask.Length1, i, j) ==> mask[i, j] == (seed[i][j] != 0.0)
    requires h < potential.Length0
    modifies potential
    ensures Holds(potential, RowPrefix(g, seed, potential.Length0, potential.Length1, h, potential.Length1))
  {
    var height, width := potential.Length0, potential.Length1;
    ghost var cur := g;
    for w := 0 to width
      invariant Holds(potential, cur) && cur == RowPrefix(g, seed, height, width, h, w)
    {
      VisitCell(potential, mask, seed, cur, h, w);
      cur := Relax(cur, seed, height, width, h, w);
    }
  }

  /** One sweep: the loop over the rows (lines 159-174). */
  method Sweep(potential: array2<real>, mask: array2<bool>, ghost seed: Grid, ghost g: Grid)
    requires Holds(potential, g) && IsGrid(seed, potential.Length0, potential.Length1)
    requires mask.Length0 == potential.Length0 && mask.Length1 == potential.Length1
    requires forall i, j :: InGrid(mask.Length0, mask.Length1, i, j) ==> mask[i, j] == (seed[i][j] != 0.0)
    modifies potential
    ensures Holds(potential, SweepPrefix(g, seed, potential.Length0, potential.Length1, potential.Length0))
  {
    var height, width := potential.Length0, potential.Length1;
    ghost var cur := g;
    for h := 0 to height
      invariant Holds(potential, cur) && cur == SweepPrefix(g, seed, height, width, h)
    {
      SweepRow(potential, mask, seed, cur, h);
      cur := RowPrefix(cur, seed, height, width, h, width);
    }
  }

  /** `solve_potential(potential)`: the mask of non-zero cells is computed first, then
      `ceil((height + width) / 5)` sweeps overwrite the array in place.  The caller's array
      is the one returned (line 176), so the model changes it and returns nothing. */
  method SolvePotential(potential: array2<real>)
    requires potential.Length0 >= 1
    modifies potential
    ensures Snapshot(potential) == Solve(old(Snapshot(potential)), potential.Length0, potential.Length1)
  {
    ghost var seed := Snapshot(potential);
    var mask := NonZeroMask(potential);
    var height, width := potential.Length0, potential.Length1;
    var iterations := Ceil((height + width) as real / 5.0);
    assert iterations == Iterations(height, width);
    ghost var g := seed;
    for it := 0 to iterations
      invariant Holds(potential, g) && g == Sweeps(seed, seed, height, width, it)
      invariant forall i, j :: InGrid(height, width, i, j) ==> mask[i, j] == (seed[i][j] != 0.0)
    {
      Sweep(potential, mask, seed, g);
      g := SweepPrefix(g, seed, height, width, height);
    }
    SnapshotOfHolds(potential, g);
  }
}
