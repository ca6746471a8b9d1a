/** The perturbation step, `modify_vertices` (generate.py:116-131).

    First every path is translated rigidly by one shared random vector, and every vertex
    also gets its own small random jitter.  A row that ends up at or below 0 becomes 0, and
    a row at or above height - 1 becomes height - 0.01 (not height - 1 as in the sampler).
    Columns are left as they are.  Then, one path at a time, a draw of 0 from
    `random.randrange(15)` replaces the path by a freshly sampled one with `num_segments`
    segments, the single value the caller passes in.

    `height` is the module-level global of generate.py (lines 183/186), passed here as a
    parameter; the sampler uses the height of `potential_map` instead. */
module Perturbation {
  import opened Grids
  import opened PathSampler

  /** The draws for one path at lines 118-121: the shared `random_vector(displ)` and one
      `random_vector(displ / 4)` per vertex (only the first ones, one per vertex, are used). */
  datatype ShiftDraws = ShiftDraws(shift: Point, jitter: seq<Point>)

  predicate ValidShiftDraws(d: ShiftDraws, displ: real) {
    && WithinLength(d.shift, displ)
    && forall k :: 0 <= k < |d.jitter| ==> WithinLength(d.jitter[k], displ / 4.0)
  }

  /** There is one ShiftDraws per path, with a jitter vector for every vertex. */
  ghost predicate JitterCovers(paths: seq<seq<Point>>, shifts: seq<ShiftDraws>) {
    |shifts| == |paths| && forall i :: 0 <= i < |paths| ==> |paths[i]| <= |shifts[i].jitter|
  }

  /** The row clamp at lines 123-126. */
  function PerturbRow(x: real, height: int): (r: real)
    ensures height >= 1 ==> 0.0 <= r <= height as real - 0.01
    ensures 0.0 < x < height as real - 1.0 ==> r == x
    ensures x <= 0.0 ==> r == 0.0
    ensures x > 0.0 && x >= height as real - 1.0 ==> r == height as real - 0.01
  {
    if x <= 0.0 then 0.0
    else if x >= height as real - 1.0 then height as real - 0.01
    else x
  }

  /** Lines 121-126 for one vertex: v moved by the displacement, its row clamped. */
  function Nudge(v: Point, displacement: Point, height: int): Point {
    var moved := v.Plus(displacement);
    Point(PerturbRow(moved.row, height), moved.col)
  }

  /** Path p translated by the shared vector and jittered vertex by vertex (lines 118-126). */
  function Shift(p: seq<Point>, d: ShiftDraws, height: int): (q: seq<Point>)
    requires |p| <= |d.jitter|
    ensures |q| == |p|
  {
    seq(|p|, j requires 0 <= j < |p| => Nudge(p[j], d.shift.Plus(d.jitter[j]), height))
  }

  /** The paths `modify_vertices` returns: path i is re-sampled from walks[i] when
      regen[i] == 0 and shifted otherwise. */
  function Perturb(paths: seq<seq<Point>>, shifts: seq<ShiftDraws>, regen: seq<nat>, walks: seq<WalkDraws>,
                   numSegments: nat, mapHeight: int, height: int): (r: seq<seq<Point>>)
    requires JitterCovers(paths, shifts) && |regen| == |walks| == |paths|
    requires forall i :: 0 <= i < |paths| && regen[i] == 0 ==> numSegments <= |walks[i].steps|
    ensures |r| == |paths|
    ensures forall i :: 0 <= i < |paths| ==> |r[i]| == if regen[i] == 0 then numSegments + 1 else |paths[i]|
  {
    seq(|paths|, i requires 0 <= i < |paths| =>
      if regen[i] == 0 then Walk(walks[i], numSegments, mapHeight) else Shift(paths[i], shifts[i], height))
  }

  /** When the global height is the map's height, every row of the perturbed paths lies in
      [0, height - 0.01], whatever rows the input paths had. */
  lemma {:induction false} PerturbRowsWithin(paths: seq<seq<Point>>, shifts: seq<ShiftDraws>, regen: seq<nat>,
                                             walks: seq<WalkDraws>, numSegments: nat, height: int)
    requires JitterCovers(paths, shifts) && |regen| == |walks| == |paths|
    requires forall i :: 0 <= i < |paths| && regen[i] == 0 ==> numSegments <= |walks[i].steps| && 0 <= walks[i].startRow < height
    requires height >= 1
    ensures var r := Perturb(paths, shifts, regen, walks, numSegments, height, height);
            forall i, j :: 0 <= i < |r| && 0 <= j < |r[i]| ==> 0.0 <= r[i][j].row <= height as real - 0.01
  {
    var r: seq<seq<Point>> := Perturb(paths, shifts, regen, walks, numSegments, height, height);
    forall i, j | 0 <= i < |r| && 0 <= j < |r[i]| ensures 0.0 <= r[i][j].row <= height as real - 0.01 {
      if regen[i] == 0 {
        assert r[i] == Walk(walks[i], numSegments, height);
      } else {
        assert r[i][j] == Nudge(paths[i][j], shifts[i].shift.Plus(shifts[i].jitter[j]), height);
      }
    }
  }

  /** `modify_vertices(vertices_set, potential_map, num_segments, max_segment_length, displ)`
      with the global `height` as a parameter and `potential_map` given by its dimensions.
      Afterwards there are as many paths as before, a kept path has as many vertices as
      before and a regenerated one has num_segments + 1, and when the global height is the
      map's height every row lies in [0, height - 0.01]. */
  method ModifyVertices(paths: seq<seq<Point>>, mapHeight: nat, mapWidth: nat, numSegments: nat,
                        maxSegmentLength: real, displ: real, height: int,
                        shifts: seq<ShiftDraws>, regen: seq<nat>, walks: seq<WalkDraws>)
    returns (result: seq<seq<Point>>)
    requires JitterCovers(paths, shifts) && |regen| == |walks| == |paths|
    requires forall i :: 0 <= i < |paths| ==> ValidShiftDraws(shifts[i], displ)
    requires forall i :: 0 <= i < |paths| ==> regen[i] < 15
    requires forall i :: 0 <= i < |paths| && regen[i] == 0 ==>
               numSegments <= |walks[i].steps| && ValidWalkDraws(walks[i], numSegments, mapHeight, mapWidth, maxSegmentLength)
    ensures result == Perturb(paths, shifts, regen, walks, numSegments, mapHeight, height)
    ensures mapHeight == height >= 1 ==>
              forall i, j :: 0 <= i < |result| && 0 <= j < |result[i]| ==> 0.0 <= result[i][j].row <= height as real - 0.01
  {
    result := paths;
    for i := 0 to |result|
      invariant |result| == |paths|
      invariant forall k :: 0 <= k < i ==> result[k] == Shift(paths[k], shifts[k], height)
      invariant forall k :: i <= k < |paths| ==> result[k] == paths[k]
    {
      var displacement := shifts[i].shift;
      ghost var before := result;
      for j := 0 to |result[i]|
        invariant |result| == |paths| && |result[i]| == |paths[i]|
        invariant forall k :: 0 <= k < |paths| && k != i ==> result[k] == before[k]
        invariant forall k :: 0 <= k < j ==> result[i][k] == Nudge(paths[i][k], displacement.Plus(shifts[i].jitter[k]), height)
        invariant forall k :: j <= k < |paths[i]| ==> result[i][k] == paths[i][k]
      {
        var vDispl := displacement.Plus(shifts[i].jitter[j]);
        var moved := result[i][j].Plus(vDispl);
        if moved.row <= 0.0 {
          moved := moved.(row := 0.0);
        } else if moved.row >= height as real - 1.0 {
          moved := moved.(row := height as real - 0.01);
        }
        result := result[i := result[i][j := moved]];
      }
      assert result[i] == Shift(paths[i], shifts[i], height);
    }
    ghost var shifted := result;
    for i := 0 to |result|
      invariant |result| == |paths|
      invariant forall k :: 0 <= k < i ==>
                  result[k] == Perturb(paths, shifts, regen, walks, numSegments, mapHeight, height)[k]
      invariant forall k :: i <= k < |paths| ==> result[k] == shifted[k]
      invariant forall k :: 0 <= k < i && regen[k] == 0 ==>
                  forall j :: 0 <= j < |result[k]| ==> 0.0 <= result[k][j].row <= mapHeight as real - 1.0
    {
      if regen[i] == 0 {
        var resampled := CalculateVertices(mapHeight, mapWidth, numSegments, maxSegmentLength, walks[i]);
        result := result[i := resampled];
      }
    }
    assert result == Perturb(paths, shifts, regen, walks, numSegments, mapHeight, height);
  }
}
