/** The rasterizer, `draw_vertices_on_potential` (generate.py:66-93).

    A path gets one magnitude per segment (the single value 1 for a one-vertex path): a
    half-sine bump over the segments, all negated together when the coin flip at line 76
    says so, each then scaled by its own draw from [0, 2) (the model allows [0, 2]).  Each segment from `begin` to
    `end` is sampled at `ceil(max(|dh|, |dw|)) + 1` evenly spaced points from `end`
    (j = 0) to `begin` (j = num_points), and each sample point stamps the segment's
    magnitude into cell (floor(row), floor(col) mod width).  Later stamps overwrite earlier
    ones.  A segment whose two ends coincide has `num_points == 0`, and the division at
    line 90 then fails.  `math.sin` is the caller-supplied bump function. */
module Rasterizer {
  import opened Grids

  /** The draws for one path: `random.randrange(2)` at line 76 and one `random.uniform(0, 2)`
      per magnitude at line 80 (only the first ones, as many as there are magnitudes, are
      used). */
  datatype StampDraws = StampDraws(invert: int, scales: seq<real>)

  /** How drawing a path ended: all segments drawn, or the division by zero at line 90 on
      the given segment. */
  datatype DrawOutcome = Drawn | DivisionByZero(segment: nat)

  /** `len(range(len(vertices) - 1))`, the number of segments. */
  function Segments(n: nat): nat {
    if n == 0 then 0 else n - 1
  }

  /** The length of `power` for a path of n vertices (lines 69-74). */
  function ProfileLength(n: nat): nat {
    if n == 1 then 1 else Segments(n)
  }

  predicate ValidStampDraws(d: StampDraws, n: nat) {
    && (d.invert == 0 || d.invert == 1)
    && ProfileLength(n) <= |d.scales|
    && forall k :: 0 <= k < |d.scales| ==> 0.0 <= d.scales[k] <= 2.0
  }

  /** bump(i, m) stands for `math.sin(math.pi * (i + 0.5) / m)`, which lies in (0, 1] for
      0 <= i < m. */
  ghost predicate IsBump(bump: (int, int) -> real) {
    forall i, m :: 0 <= i < m ==> 0.0 < bump(i, m) <= 1.0
  }

  /** Magnitude i of a path of n vertices before sign and scale (lines 70-74). */
  function Base(n: nat, bump: (int, int) -> real, i: int): real {
    if n == 1 then 1.0 else bump(i, n - 1)
  }

  /** The list `power` after line 80. */
  function Power(n: nat, bump: (int, int) -> real, d: StampDraws): (power: seq<real>)
    requires ProfileLength(n) <= |d.scales|
    ensures |power| == ProfileLength(n)
  {
    seq(ProfileLength(n), i requires 0 <= i < ProfileLength(n) =>
      (if d.invert == 1 then -Base(n, bump, i) else Base(n, bump, i)) * d.scales[i])
  }

  /** Lines 69-80: the magnitude profile of a path of n vertices.  All magnitudes share the
      sign the coin flip chose and lie within 2 of zero; a one-vertex path gets the single
      magnitude +-1 times its scale. */
  method PowerProfile(n: nat, bump: (int, int) -> real, d: StampDraws) returns (power: seq<real>)
    requires ValidStampDraws(d, n) && IsBump(bump)
    ensures power == Power(n, bump, d)
    ensures d.invert == 1 ==> forall i :: 0 <= i < |power| ==> -2.0 <= power[i] <= 0.0
    ensures d.invert == 0 ==> forall i :: 0 <= i < |power| ==> 0.0 <= power[i] <= 2.0
    ensures n == 1 ==> power == [if d.invert == 1 then -d.scales[0] else d.scales[0]]
  {
    power := [];
    if n == 1 {
      power := [1.0];
    } else {
      for i := 0 to Segments(n)
        invariant |power| == i
        invariant forall k :: 0 <= k < i ==> power[k] == Base(n, bump, k)
      {
        power := power + [bump(i, n - 1)];
      }
    }
    var invert := d.invert;
    for i := 0 to |power|
      invariant |power| == ProfileLength(n)
      invariant forall k :: 0 <= k < i ==> power[k] == Power(n, bump, d)[k]
      invariant forall k :: i <= k < |power| ==> power[k] == Base(n, bump, k)
    {
      if invert == 1 {
        power := power[i := -power[i]];
      }
      power := power[i := power[i] * d.scales[i]];
    }
    assert power == Power(n, bump, d);
    PowerSigns(n, bump, d);
  }

  /** Magnitude k carries the sign the coin flip chose and lies within 2 of zero. */
  lemma PowerAt(n: nat, bump: (int, int) -> real, d: StampDraws, k: int)
    requires ValidStampDraws(d, n) && IsBump(bump) && 0 <= k < ProfileLength(n)
    ensures d.invert == 1 ==> -2.0 <= Power(n, bump, d)[k] <= 0.0
    ensures d.invert == 0 ==> 0.0 <= Power(n, bump, d)[k] <= 2.0
  {
    BaseInRange(n, bump, k);
    ScaledInRange(Base(n, bump, k), d.scales[k]);
  }

  /** The whole profile has one sign and lies within 2 of zero; a one-vertex path gets
      the single magnitude +-1 times its scale. */
  lemma PowerSigns(n: nat, bump: (int, int) -> real, d: StampDraws)
    requires ValidStampDraws(d, n) && IsBump(bump)
    ensures d.invert == 1 ==> forall i :: 0 <= i < ProfileLength(n) ==> -2.0 <= Power(n, bump, d)[i] <= 0.0
    ensures d.invert == 0 ==> forall i :: 0 <= i < ProfileLength(n) ==> 0.0 <= Power(n, bump, d)[i] <= 2.0
    ensures n == 1 ==> Power(n, bump, d) == [if d.invert == 1 then -d.scales[0] else d.scales[0]]
  {
    forall k | 0 <= k < ProfileLength(n)
      ensures d.invert == 1 ==> -2.0 <= Power(n, bump, d)[k] <= 0.0
      ensures d.invert == 0 ==> 0.0 <= Power(n, bump, d)[k] <= 2.0
    {
      PowerAt(n, bump, d, k);
    }
    if n == 1 {
      var power := Power(n, bump, d);
      assert Base(n, bump, 0) == 1.0;
      assert |power| == 1 && power[0] == (if d.invert == 1 then -d.scales[0] else d.scales[0]);
      assert power == [power[0]];
    }
  }

  lemma BaseInRange(n: nat, bump: (int, int) -> real, i: int)
    requires IsBump(bump) && 0 <= i < ProfileLength(n)
    ensures 0.0 < Base(n, bump, i) <= 1.0
  {
    if n != 1 {
      assert 0 <= i < n - 1;
    }
  }

  lemma ScaledInRange(b: real, s: real)
    requires 0.0 < b <= 1.0 && 0.0 <= s <= 2.0
    ensures 0.0 <= b * s <= 2.0 && -2.0 <= -b * s <= 0.0
  {
    assert b * s <= 1.0 * s;
  }

  /** `math.ceil(max(abs(delta_h), abs(delta_w)))` (line 88); zero exactly when the two ends
      of the segment coincide. */
  function NumPoints(begin: Point, end: Point): (n: nat)
    ensures n == 0 <==> begin == end
  {
    Ceil(Max(Abs(end.row - begin.row), Abs(end.col - begin.col)))
  }

  /** `num_points` is the least count of steps that moves neither coordinate by more than
      one cell per step: at least each coordinate difference, and less than the larger one
      plus 1. */
  lemma NumPointsCovers(begin: Point, end: Point)
    ensures Abs(end.row - begin.row) <= NumPoints(begin, end) as real
    ensures Abs(end.col - begin.col) <= NumPoints(begin, end) as real
    ensures NumPoints(begin, end) as real < Max(Abs(end.row - begin.row), Abs(end.col - begin.col)) + 1.0
  {
  }

  /** Sample point j of the segment (lines 90-91): `l * begin + (1 - l) * end` with
      `l = 1 / num_points * j`; the first sample is `end` and sample num_points is `begin`. */
  function SamplePoint(begin: Point, end: Point, n: nat, j: int): (p: Point)
    requires n > 0
    ensures j == 0 ==> p == end
    ensures j == n ==> p == begin
  {
    var l := 1.0 / n as real * j as real;
    Point(l * begin.row + (1.0 - l) * end.row, l * begin.col + (1.0 - l) * end.col)
  }

  /** x / n lies within one cell when x is at most n either way. */
  lemma PartWithinOne(d: real, n: nat)
    requires n > 0 && -(n as real) <= d <= n as real
    ensures -1.0 <= 1.0 / n as real * d <= 1.0
  {
    var q := 1.0 / n as real;
    assert q * n as real == 1.0;
    if d >= 0.0 {
      assert q * d <= q * n as real;
    } else {
      assert q * -d <= q * n as real;
    }
  }

  /** One coordinate of the interpolation at line 91 moves by (b - e) / n from sample j to
      sample j + 1. */
  lemma LerpStep(b: real, e: real, n: nat, j: int)
    requires n > 0
    ensures (1.0 / n as real * (j + 1) as real * b + (1.0 - 1.0 / n as real * (j + 1) as real) * e)
            - (1.0 / n as real * j as real * b + (1.0 - 1.0 / n as real * j as real) * e)
            == 1.0 / n as real * (b - e)
  {
    var q := 1.0 / n as real;
    assert q * (j + 1) as real == q * j as real + q;
  }

  /** The rows of sample points j and j + 1 differ by delta_h / n. */
  lemma RowSpacing(begin: Point, end: Point, n: nat, j: int)
    requires n > 0 && -(n as real) <= begin.row - end.row <= n as real
    ensures -1.0 <= SamplePoint(begin, end, n, j + 1).row - SamplePoint(begin, end, n, j).row <= 1.0
  {
    LerpStep(begin.row, end.row, n, j);
    PartWithinOne(begin.row - end.row, n);
  }

  /** The columns of sample points j and j + 1 differ by delta_w / n. */
  lemma ColSpacing(begin: Point, end: Point, n: nat, j: int)
    requires n > 0 && -(n as real) <= begin.col - end.col <= n as real
    ensures -1.0 <= SamplePoint(begin, end, n, j + 1).col - SamplePoint(begin, end, n, j).col <= 1.0
  {
    LerpStep(begin.col, end.col, n, j);
    PartWithinOne(begin.col - end.col, n);
  }

  /** Consecutive sample points of a segment are at most one cell apart in each coordinate,
      which is why `num_points` is the ceiling of the larger coordinate difference. */
  lemma SampleSpacing(begin: Point, end: Point, j: int)
    requires begin != end
    ensures var n := NumPoints(begin, end);
            var p, q := SamplePoint(begin, end, n, j), SamplePoint(begin, end, n, j + 1);
            -1.0 <= q.row - p.row <= 1.0 && -1.0 <= q.col - p.col <= 1.0
  {
    var n := NumPoints(begin, end);
    NumPointsCovers(begin, end);
    AbsWithin(begin.row - end.row, n as real);
    AbsWithin(begin.col - end.col, n as real);
    RowSpacing(begin, end, n, j);
    ColSpacing(begin, end, n, j);
  }

  /** The cell stamped for point p (line 92): the row floored, the column floored and taken
      modulo the width, with Python's non-negative remainder. */
  function Cell(p: Point, width: nat): (c: (int, int))
    requires width > 0
    ensures 0 <= c.1 < width
  {
    (p.row.Floor, p.col.Floor % width)
  }

  /** Every vertex row lies in [0, height): as the sampler and the perturbation leave them. */
  ghost predicate RowsWithin(vs: seq<Point>, height: int) {
    forall k :: 0 <= k < |vs| ==> 0.0 <= vs[k].row < height as real
  }

  lemma MulSign(x: real, y: real)
    requires 0.0 <= x && 0.0 <= y
    ensures 0.0 <= x * y
    ensures 0.0 < x && 0.0 < y ==> 0.0 < x * y
  {
  }

  lemma Convex(l: real, a: real, b: real, hi: real)
    requires 0.0 <= l <= 1.0 && 0.0 <= a < hi && 0.0 <= b < hi
    ensures 0.0 <= l * a + (1.0 - l) * b < hi
  {
    MulSign(l, a);
    MulSign(1.0 - l, b);
    MulSign(l, hi - a);
    MulSign(1.0 - l, hi - b);
    var x := l * a + (1.0 - l) * b;
    assert l * (hi - a) == l * hi - l * a;
    assert (1.0 - l) * (hi - b) == (1.0 - l) * hi - (1.0 - l) * b;
    assert l * hi + (1.0 - l) * hi == hi;
    assert hi - x == l * (hi - a) + (1.0 - l) * (hi - b);
    if l > 0.0 {
      assert 0.0 < l * (hi - a);
    } else {
      assert 0.0 < (1.0 - l) * (hi - b);
    }
  }

  /** 1 / n * j lies in [0, 1] for 0 <= j <= n. */
  lemma UnitFraction(j: int, n: nat)
    requires n > 0 && 0 <= j <= n
    ensures 0.0 <= 1.0 / n as real * j as real <= 1.0
  {
    var q := 1.0 / n as real;
    MulSign(q, j as real);
    MulSign(q, (n - j) as real);
    assert q * (n - j) as real == q * n as real - q * j as real;
  }

  /** Sample points of a segment whose ends lie in rows [0, height) lie there too. */
  lemma SampleRowWithin(begin: Point, end: Point, n: nat, j: int, height: nat)
    requires n > 0 && 0 <= j <= n && 0.0 <= begin.row < height as real && 0.0 <= end.row < height as real
    ensures 0.0 <= SamplePoint(begin, end, n, j).row < height as real
  {
    UnitFraction(j, n);
    Convex(1.0 / n as real * j as real, begin.row, end.row, height as real);
  }

  /** The cell of sample point j of a segment whose ends lie in rows [0, height): inside the
      grid. */
  function SampleCell(begin: Point, end: Point, j: int, height: nat, width: nat): (c: (int, int))
    requires width > 0 && 0.0 <= begin.row < height as real && 0.0 <= end.row < height as real
    requires begin != end && 0 <= j <= NumPoints(begin, end)
    ensures InGrid(height, width, c.0, c.1)
    ensures c == Cell(SamplePoint(begin, end, NumPoints(begin, end), j), width)
  {
    var p := SamplePoint(begin, end, NumPoints(begin, end), j);
    SampleRowWithin(begin, end, NumPoints(begin, end), j, height);
    assert 0 <= p.row.Floor < height;
    Cell(p, width)
  }

  /** The grid after sample points 0, ..., j - 1 of the segment have stamped v. */
  ghost function StampSegment(g: Grid, height: nat, width: nat, begin: Point, end: Point, v: real, j: nat): (r: Grid)
    requires IsGrid(g, height, width) && width > 0
    requires 0.0 <= begin.row < height as real && 0.0 <= end.row < height as real
    requires begin != end && j <= NumPoints(begin, end) + 1
    ensures IsGrid(r, height, width)
    decreases j
  {
    if j == 0 then g
    else
      var c := SampleCell(begin, end, j - 1, height, width);
      Set(StampSegment(g, height, width, begin, end, v, j - 1), c.0, c.1, v)
  }

  /** No segment among the first i of vs has coinciding ends. */
  ghost predicate NoZeroSegment(vs: seq<Point>, i: nat)
    requires i <= Segments(|vs|)
  {
    forall k :: 0 <= k < i ==> vs[k] != vs[k + 1]
  }

  lemma NoZeroSegmentSnoc(vs: seq<Point>, i: nat)
    requires i < Segments(|vs|) && NoZeroSegment(vs, i) && vs[i] != vs[i + 1]
    ensures NoZeroSegment(vs, i + 1)
  {
  }

  /** The grid after segments 0, ..., i - 1 of vs have been stamped with their magnitudes. */
  ghost function StampPath(g: Grid, height: nat, width: nat, vs: seq<Point>, power: seq<real>, i: nat): (r: Grid)
    requires IsGrid(g, height, width) && width > 0 && RowsWithin(vs, height)
    requires i <= Segments(|vs|) && i <= |power| && NoZeroSegment(vs, i)
    ensures IsGrid(r, height, width)
    decreases i
  {
    if i == 0 then g
    else
      StampSegment(StampPath(g, height, width, vs, power, i - 1), height, width,
                   vs[i - 1], vs[i], power[i - 1], NumPoints(vs[i - 1], vs[i]) + 1)
  }

  /** Some sample point j < upTo of the segment lands in cell (r, c). */
  ghost predicate Hits(begin: Point, end: Point, width: nat, upTo: int, r: int, c: int)
    requires width > 0 && begin != end
  {
    exists j :: 0 <= j < upTo && j <= NumPoints(begin, end) &&
      Cell(SamplePoint(begin, end, NumPoints(begin, end), j), width) == (r, c)
  }

  /** The reference meaning of "last writer wins": the value of cell (r, c) after segments
      0, ..., i - 1 is the magnitude of the last of those segments that has a sample point in
      the cell, or the cell's old value when none has. */
  ghost function Painted(g: Grid, width: nat, vs: seq<Point>, power: seq<real>, i: nat, r: int, c: int): real
    requires 0 <= r < |g| && 0 <= c < |g[r]| && width > 0
    requires i <= Segments(|vs|) && i <= |power| && NoZeroSegment(vs, i)
    decreases i
  {
    if i == 0 then g[r][c]
    else if Hits(vs[i - 1], vs[i], width, NumPoints(vs[i - 1], vs[i]) + 1, r, c) then power[i - 1]
    else Painted(g, width, vs, power, i - 1, r, c)
  }

  /** Stamping the first j points of one segment changes exactly the cells those points
      land in, each to v. */
  lemma {:induction false} StampSegmentCell(g: Grid, height: nat, width: nat, begin: Point, end: Point, v: real, j: nat, r: int, c: int)
    requires IsGrid(g, height, width) && width > 0
    requires 0.0 <= begin.row < height as real && 0.0 <= end.row < height as real
    requires begin != end && j <= NumPoints(begin, end) + 1 && InGrid(height, width, r, c)
    ensures StampSegment(g, height, width, begin, end, v, j)[r][c] ==
            if Hits(begin, end, width, j, r, c) then v else g[r][c]
    decreases j
  {
    if j > 0 {
      StampSegmentCell(g, height, width, begin, end, v, j - 1, r, c);
      var n := NumPoints(begin, end);
      var cell := SampleCell(begin, end, j - 1, height, width);
      if cell == (r, c) {
        assert Hits(begin, end, width, j, r, c) by {
          assert Cell(SamplePoint(begin, end, n, j - 1), width) == (r, c);
        }
      } else {
        if Hits(begin, end, width, j, r, c) {
          var k :| 0 <= k < j && k <= n && Cell(SamplePoint(begin, end, n, k), width) == (r, c);
          assert k != j - 1;
          assert Hits(begin, end, width, j - 1, r, c);
        }
        if Hits(begin, end, width, j - 1, r, c) {
          var k :| 0 <= k < j - 1 && k <= n && Cell(SamplePoint(begin, end, n, k), width) == (r, c);
          assert Hits(begin, end, width, j, r, c);
        }
      }
    }
  }

  /** StampPath agrees with the reference Painted on every cell. */
  lemma {:induction false} StampPathCell(g: Grid, height: nat, width: nat, vs: seq<Point>, power: seq<real>, i: nat, r: int, c: int)
    requires IsGrid(g, height, width) && width > 0 && RowsWithin(vs, height)
    requires i <= Segments(|vs|) && i <= |power| && NoZeroSegment(vs, i) && InGrid(height, width, r, c)
    ensures StampPath(g, height, width, vs, power, i)[r][c] == Painted(g, width, vs, power, i, r, c)
    decreases i
  {
    if i > 0 {
      StampPathCell(g, height, width, vs, power, i - 1, r, c);
      assert vs[i - 1] != vs[i];
      StampSegmentCell(StampPath(g, height, width, vs, power, i - 1), height, width,
                       vs[i - 1], vs[i], power[i - 1], NumPoints(vs[i - 1], vs[i]) + 1, r, c);
    }
  }

  /** A cell that no sample point of the first i segments lands in keeps its value. */
  lemma {:induction false} PaintedUntouched(g: Grid, width: nat, vs: seq<Point>, power: seq<real>, i: nat, r: int, c: int)
    requires 0 <= r < |g| && 0 <= c < |g[r]| && width > 0
    requires i <= Segments(|vs|) && i <= |power| && NoZeroSegment(vs, i)
    requires forall k :: 0 <= k < i ==> !Hits(vs[k], vs[k + 1], width, NumPoints(vs[k], vs[k + 1]) + 1, r, c)
    ensures Painted(g, width, vs, power, i, r, c) == g[r][c]
    decreases i
  {
    if i > 0 {
      assert !Hits(vs[i - 1], vs[i], width, NumPoints(vs[i - 1], vs[i]) + 1, r, c);
      PaintedUntouched(g, width, vs, power, i - 1, r, c);
    }
  }

  /** A cell that segment k samples, and no later segment among the first i does, holds
      power[k]: the last writer wins. */
  lemma {:induction false} PaintedLastWriter(g: Grid, width: nat, vs: seq<Point>, power: seq<real>, i: nat, k: nat, r: int, c: int)
    requires 0 <= r < |g| && 0 <= c < |g[r]| && width > 0
    requires i <= Segments(|vs|) && i <= |power| && NoZeroSegment(vs, i) && k < i
    requires Hits(vs[k], vs[k + 1], width, NumPoints(vs[k], vs[k + 1]) + 1, r, c)
    requires forall t :: k < t < i ==> !Hits(vs[t], vs[t + 1], width, NumPoints(vs[t], vs[t + 1]) + 1, r, c)
    ensures Painted(g, width, vs, power, i, r, c) == power[k]
    decreases i
  {
    if i - 1 != k {
      assert !Hits(vs[i - 1], vs[i], width, NumPoints(vs[i - 1], vs[i]) + 1, r, c);
      PaintedLastWriter(g, width, vs, power, i - 1, k, r, c);
    }
  }

  /** Stamping never leaves a range that holds the old value of the cell and every
      magnitude used so far. */
  lemma {:induction false} PaintedBounded(g: Grid, width: nat, vs: seq<Point>, power: seq<real>, i: nat, r: int, c: int, lo: real, hi: real)
    requires 0 <= r < |g| && 0 <= c < |g[r]| && width > 0
    requires i <= Segments(|vs|) && i <= |power| && NoZeroSegment(vs, i)
    requires lo <= g[r][c] <= hi
    requires forall k :: 0 <= k < i ==> lo <= power[k] <= hi
    ensures lo <= Painted(g, width, vs, power, i, r, c) <= hi
    decreases i
  {
    if i > 0 {
      PaintedBounded(g, width, vs, power, i - 1, r, c, lo, hi);
    }
  }

  /** A path drawn with magnitudes in [lo, hi] onto a grid within [lo, hi] leaves it there. */
  lemma StampPathBounded(g: Grid, height: nat, width: nat, vs: seq<Point>, power: seq<real>, lo: real, hi: real)
    requires IsGrid(g, height, width) && width > 0 && RowsWithin(vs, height)
    requires Segments(|vs|) <= |power| && NoZeroSegment(vs, Segments(|vs|))
    requires Bounded(g, height, width, lo, hi)
    requires forall k :: 0 <= k < |power| ==> lo <= power[k] <= hi
    ensures Bounded(StampPath(g, height, width, vs, power, Segments(|vs|)), height, width, lo, hi)
  {
    var r := StampPath(g, height, width, vs, power, Segments(|vs|));
    forall i, j | InGrid(height, width, i, j) ensures lo <= r[i][j] <= hi {
      StampPathCell(g, height, width, vs, power, Segments(|vs|), i, j);
      PaintedBounded(g, width, vs, power, Segments(|vs|), i, j, lo, hi);
    }
  }

  /** Every magnitude of a profile lies in [-2, 2]. */
  lemma PowerBounded(n: nat, bump: (int, int) -> real, d: StampDraws)
    requires ValidStampDraws(d, n) && IsBump(bump)
    ensures forall k :: 0 <= k < ProfileLength(n) ==> -2.0 <= Power(n, bump, d)[k] <= 2.0
  {
    forall k | 0 <= k < ProfileLength(n) ensures -2.0 <= Power(n, bump, d)[k] <= 2.0 {
      PowerAt(n, bump, d, k);
    }
  }

  /** The loop of lines 89-92 for one segment: stamps v at every sample point. */
  method StampSegmentPoints(potential: array2<real>, begin: Point, end: Point, v: real)
    requires potential.Length1 > 0
    requires 0.0 <= begin.row < potential.Length0 as real && 0.0 <= end.row < potential.Length0 as real
    requires begin != end
    modifies potential
    ensures Snapshot(potential) ==
            StampSegment(old(Snapshot(potential)), potential.Length0, potential.Length1, begin, end, v, NumPoints(begin, end) + 1)
  {
    var height, width := potential.Length0, potential.Length1;
    ghost var g := Snapshot(potential);
    ghost var cur := g;
    var numPoints := NumPoints(begin, end);
    for j := 0 to numPoints + 1
      invariant Holds(potential, cur) && cur == StampSegment(g, height, width, begin, end, v, j)
    {
      var p := SamplePoint(begin, end, numPoints, j);
      var cell := SampleCell(begin, end, j, height, width);
      potential[p.row.Floor, p.col.Floor % width] := v;
      cur := Set(cur, cell.0, cell.1, v);
    }
    SnapshotOfHolds(potential, cur);
  }

  /** `draw_vertices_on_potential(vertices, potential_map)`: stamps the path into the array
      in place.  On success every segment was stamped in order; on a zero-length segment the
      segments before it are stamped and the division at line 90 fails. */
  method DrawVerticesOnPotential(vertices: seq<Point>, potential: array2<real>, bump: (int, int) -> real, d: StampDraws)
    returns (outcome: DrawOutcome)
    requires potential.Length0 >= 1 && potential.Length1 >= 1
    requires RowsWithin(vertices, potential.Length0) && ValidStampDraws(d, |vertices|) && IsBump(bump)
    modifies potential
    ensures outcome.Drawn? <==> NoZeroSegment(vertices, Segments(|vertices|))
    ensures outcome.Drawn? ==>
      Snapshot(potential) == StampPath(old(Snapshot(potential)), potential.Length0, potential.Length1,
                                       vertices, Power(|vertices|, bump, d), Segments(|vertices|))
    ensures outcome.DivisionByZero? ==>
      && outcome.segment < Segments(|vertices|)
      && vertices[outcome.segment] == vertices[outcome.segment + 1]
      && NoZeroSegment(vertices, outcome.segment)
      && Snapshot(potential) == StampPath(old(Snapshot(potential)), potential.Length0, potential.Length1,
                                          vertices, Power(|vertices|, bump, d), outcome.segment)
    ensures |vertices| <= 1 ==> outcome == Drawn && Snapshot(potential) == old(Snapshot(potential))
  {
    var power := PowerProfile(|vertices|, bump, d);
    ghost var g := Snapshot(potential);
    var i := 0;
    while i < Segments(|vertices|)
      invariant i <= Segments(|vertices|) && NoZeroSegment(vertices, i)
      invariant Snapshot(potential) == StampPath(g, potential.Length0, potential.Length1, vertices, power, i)
    {
      var begin := vertices[i];
      var end := vertices[i + 1];
      if NumPoints(begin, end) == 0 {
        return DivisionByZero(i);
      }
      StampSegmentPoints(potential, begin, end, power[i]);
      NoZeroSegmentSnoc(vertices, i);
      i := i + 1;
    }
    return Drawn;
  }
}
