/** The path sampler, `calculate_vertices` (generate.py:25-40): a random walk with
    momentum.  Each new vertex is the last one plus a displacement that keeps the previous
    step and adds a fresh random vector; the new row is clamped into [0, height - 1] and
    the column is left as it is (it wraps only when the path is drawn).  The displacement is
    then reset to the step actually taken, so clamping feeds back into the momentum.

    The random draws are supplied by the caller as a WalkDraws value. */
module PathSampler {
  import opened Grids

  /** The draws `calculate_vertices` makes: the start cell (`random.randrange(height)`,
      `random.randrange(width)`, line 28), the initial displacement
      (`random_vector(max_segment_length)`, line 29) and one
      `random_vector(max_segment_length * 0.5)` per segment (line 32).  Only the first
      `num_segments` steps are used. */
  datatype WalkDraws = WalkDraws(startRow: int, startCol: int, initial: Point, steps: seq<Point>)

  /** `random_vector(len)` returns a vector of length at most len. */
  predicate WithinLength(v: Point, len: real) {
    v.row * v.row + v.col * v.col <= len * len
  }

  /** Draws the sampler can receive for a walk of numSegments segments on a height-by-width
      grid with the given maximum segment length. */
  predicate ValidWalkDraws(d: WalkDraws, numSegments: nat, height: int, width: int, maxSegmentLength: real) {
    && 0 <= d.startRow < height
    && 0 <= d.startCol < width
    && numSegments <= |d.steps|
    && WithinLength(d.initial, maxSegmentLength)
    && forall k :: 0 <= k < |d.steps| ==> WithinLength(d.steps[k], maxSegmentLength * 0.5)
  }

  /** The row clamp at lines 34-37. */
  function ClampRow(x: real, height: int): (r: real)
    ensures height >= 1 ==> 0.0 <= r <= height as real - 1.0
    ensures 0.0 < x < height as real - 1.0 ==> r == x
    ensures x <= 0.0 ==> r == 0.0
    ensures x > 0.0 && x >= height as real - 1.0 ==> r == height as real - 1.0
  {
    if x <= 0.0 then 0.0
    else if x >= height as real - 1.0 then height as real - 1.0
    else x
  }

  /** The displacement carried into step k (k >= 1): the initial draw for the first step,
      afterwards the previous step as actually taken. */
  function Momentum(vs: seq<Point>, d: WalkDraws, k: int): Point
    requires 1 <= k <= |vs|
  {
    if k == 1 then d.initial else vs[k - 1].Minus(vs[k - 2])
  }

  /** Vertex k follows from vertex k - 1, the momentum and step k - 1. */
  predicate WalkStep(vs: seq<Point>, d: WalkDraws, height: int, k: int)
    requires 1 <= k < |vs| && k <= |d.steps|
  {
    var next := vs[k - 1].Plus(Momentum(vs, d, k).Plus(d.steps[k - 1]));
    vs[k] == Point(ClampRow(next.row, height), next.col)
  }

  /** vs is the walk of numSegments segments that the draws d determine. */
  predicate IsWalk(vs: seq<Point>, d: WalkDraws, numSegments: nat, height: int) {
    && numSegments <= |d.steps|
    && |vs| == numSegments + 1
    && vs[0] == Point(d.startRow as real, d.startCol as real)
    && forall k :: 1 <= k <= numSegments ==> WalkStep(vs, d, height, k)
  }

  /** The walk of numSegments segments the draws d determine: vertex 0 is the start cell and
      each later vertex is the previous one moved by the momentum plus the next step draw,
      with its row clamped.  A walk that starts inside the map stays inside it. */
  function Walk(d: WalkDraws, numSegments: nat, height: int): (vs: seq<Point>)
    requires numSegments <= |d.steps|
    ensures |vs| == numSegments + 1 && vs[0] == Point(d.startRow as real, d.startCol as real)
    ensures 0 <= d.startRow < height ==> forall k :: 0 <= k < |vs| ==> 0.0 <= vs[k].row <= height as real - 1.0
    decreases numSegments
  {
    if numSegments == 0 then [Point(d.startRow as real, d.startCol as real)]
    else
      var vs := Walk(d, numSegments - 1, height);
      var next := vs[numSegments - 1].Plus(Momentum(vs, d, numSegments).Plus(d.steps[numSegments - 1]));
      vs + [Point(ClampRow(next.row, height), next.col)]
  }

  /** `calculate_vertices(potential_map, num_segments, max_segment_length)`, with the
      height of `potential_map` passed as `height` and the random draws as d. */
  method CalculateVertices(height: nat, width: nat, numSegments: nat, maxSegmentLength: real, d: WalkDraws)
    returns (vertices: seq<Point>)
    requires ValidWalkDraws(d, numSegments, height, width, maxSegmentLength)
    ensures vertices == Walk(d, numSegments, height)
    ensures |vertices| == numSegments + 1
    ensures forall k :: 0 <= k < |vertices| ==> 0.0 <= vertices[k].row <= height as real - 1.0
  {
    vertices := [Point(d.startRow as real, d.startCol as real)];
    var displacement := d.initial;
    for i := 0 to numSegments
      invariant vertices == Walk(d, i, height)
      invariant displacement == Momentum(vertices, d, i + 1)
    {
      var last := vertices[|vertices| - 1];
      displacement := displacement.Plus(d.steps[i]);
      var next := last.Plus(displacement);
      if next.row <= 0.0 {
        next := next.(row := 0.0);
      } else if next.row >= height as real - 1.0 {
        next := next.(row := height as real - 1.0);
      }
      vertices := vertices + [next];
      displacement := next.Minus(last);
    }
  }

  /** Walk satisfies the step relation IsWalk, ... */
  lemma {:induction false} WalkIsWalk(d: WalkDraws, numSegments: nat, height: int)
    requires numSegments <= |d.steps|
    ensures IsWalk(Walk(d, numSegments, height), d, numSegments, height)
    decreases numSegments
  {
    if numSegments > 0 {
      var vs := Walk(d, numSegments - 1, height);
      WalkIsWalk(d, numSegments - 1, height);
      var ws := Walk(d, numSegments, height);
      assert ws[..numSegments] == vs;
      forall k | 1 <= k <= numSegments ensures WalkStep(ws, d, height, k) {
        if k < numSegments {
          assert WalkStep(vs, d, height, k);
        }
      }
    }
  }

  /** ... and is the only sequence that does: IsWalk and Walk define the same path. */
  lemma WalkIff(vs: seq<Point>, d: WalkDraws, numSegments: nat, height: int)
    requires numSegments <= |d.steps|
    ensures IsWalk(vs, d, numSegments, height) <==> vs == Walk(d, numSegments, height)
  {
    WalkIsWalk(d, numSegments, height);
    if IsWalk(vs, d, numSegments, height) {
      WalkUnique(vs, Walk(d, numSegments, height), d, numSegments, height);
    }
  }

  lemma {:induction false} WalkAgrees(a: seq<Point>, b: seq<Point>, d: WalkDraws, numSegments: nat, height: int, k: nat)
    requires IsWalk(a, d, numSegments, height) && IsWalk(b, d, numSegments, height)
    requires k <= numSegments
    ensures a[k] == b[k]
    decreases k
  {
    if k >= 1 {
      assert WalkStep(a, d, height, k) && WalkStep(b, d, height, k);
      WalkAgrees(a, b, d, numSegments, height, k - 1);
      if k >= 2 {
        WalkAgrees(a, b, d, numSegments, height, k - 2);
      }
    }
  }

  /** The draws determine the walk: two walks from the same draws are equal. */
  lemma WalkUnique(a: seq<Point>, b: seq<Point>, d: WalkDraws, numSegments: nat, height: int)
    requires IsWalk(a, d, numSegments, height) && IsWalk(b, d, numSegments, height)
    ensures a == b
  {
    forall k | 0 <= k < |a| ensures a[k] == b[k] {
      WalkAgrees(a, b, d, numSegments, height, k);
    }
  }

  /** Sum of the column parts of a sequence of vectors. */
  function ColumnSum(ps: seq<Point>): real {
    if ps == [] then 0.0 else ColumnSum(ps[..|ps| - 1]) + ps[|ps| - 1].col
  }

  /** Columns are never clamped, so the column displacement of step k is the initial draw
      plus all step draws so far: the momentum of the walk. */
  lemma {:induction false} WalkColumnVelocity(vs: seq<Point>, d: WalkDraws, numSegments: nat, height: int, k: nat)
    requires IsWalk(vs, d, numSegments, height)
    requires 1 <= k <= numSegments
    ensures vs[k].col - vs[k - 1].col == d.initial.col + ColumnSum(d.steps[..k])
    decreases k
  {
    assert WalkStep(vs, d, height, k);
    assert d.steps[..k][..k - 1] == d.steps[..k - 1];
    if k >= 2 {
      WalkColumnVelocity(vs, d, numSegments, height, k - 1);
    } else {
      assert d.steps[..0] == [];
    }
  }
}
