/** The drift engine, `create_potential_map_and_drift` (generate.py:43-63), and the
    parameter formula of its caller `apply_drift` (generate.py:12-18).

    n paths are sampled, each with `random.randrange(max_drift_segments) + 3` segments, and
    drawn one after the other onto one zero map, which is then solved and added to the
    terrain.  Each of the `iterations` drift passes then perturbs the paths, draws all of
    them onto a fresh zero map, solves it and adds it to the terrain.  Every pass re-samples
    paths with the segment count of the last path of the first phase: the loop variable
    `num_segments` of line 48, still in scope at line 57.  When n == 0 that variable was
    never bound, so the first pass raises instead.

    A run is specified by functions of its draws: Seed is the first set of paths,
    History the sets of paths after each pass, SolvedMaps the map each phase adds to the
    terrain.  The methods are proved to compute exactly these. */
module DriftEngine {
  import opened Grids
  import opened PathSampler
  import opened Rasterizer
  import opened PotentialSolver
  import opened Perturbation

  /** How a run ended: with the terrain, with the division by zero of line 90 on a
      zero-length segment, or with the unbound `num_segments` at line 57. */
  datatype DriftOutcome = Completed | ZeroLengthSegment | UnboundSegmentCount

  /** The draws of one drift pass: the random vectors and the `random.randrange(15)` of
      `modify_vertices`, and the draws of every path it may re-sample. */
  datatype PassDraws = PassDraws(shifts: seq<ShiftDraws>, regen: seq<nat>, walks: seq<WalkDraws>)

  /** `max_segment_length` of line 16. */
  function MaxSegmentLength(height: nat, width: nat, numDrifts: nat, maxDriftSegments: nat): (r: real)
    requires numDrifts > 0 && maxDriftSegments > 0
    ensures 0.0 <= r
    ensures r * (numDrifts * maxDriftSegments) as real == 5.0 * (height + width) as real
  {
    var perDrift := (height + width) as real / numDrifts as real;
    var perSegment := perDrift / maxDriftSegments as real;
    assert perDrift * numDrifts as real == (height + width) as real;
    assert perSegment * maxDriftSegments as real == perDrift;
    assert perSegment * 5.0 * (numDrifts * maxDriftSegments) as real
        == 5.0 * (perSegment * maxDriftSegments as real) * numDrifts as real;
    perSegment * 5.0
  }

  /** Every path can be drawn: its rows lie in the map and none of its segments has zero
      length. */
  ghost predicate Drawable(paths: seq<seq<Point>>, height: nat) {
    forall i :: 0 <= i < |paths| ==> RowsWithin(paths[i], height) && NoZeroSegment(paths[i], Segments(|paths[i]|))
  }

  /** There is a StampDraws for every path with a scale for each of its magnitudes. */
  ghost predicate StampsFit(paths: seq<seq<Point>>, stamps: seq<StampDraws>) {
    |paths| <= |stamps| && forall i :: 0 <= i < |paths| ==> ProfileLength(|paths[i]|) <= |stamps[i].scales|
  }

  /** g after every path has been drawn onto it, first path first (lines 47-51, 58-59). */
  ghost function DrawAll(g: Grid, height: nat, width: nat, paths: seq<seq<Point>>, stamps: seq<StampDraws>,
                         bump: (int, int) -> real): (r: Grid)
    requires IsGrid(g, height, width) && width > 0 && Drawable(paths, height) && StampsFit(paths, stamps)
    ensures IsGrid(r, height, width)
    decreases |paths|
  {
    if |paths| == 0 then g
    else
      var k := |paths| - 1;
      StampPath(DrawAll(g, height, width, paths[..k], stamps, bump), height, width,
                paths[k], Power(|paths[k]|, bump, stamps[k]), Segments(|paths[k]|))
  }

  /** Drawing one more path stamps it onto the map the earlier paths left. */
  lemma DrawAllSnoc(g: Grid, height: nat, width: nat, paths: seq<seq<Point>>, p: seq<Point>,
                    stamps: seq<StampDraws>, bump: (int, int) -> real)
    requires IsGrid(g, height, width) && width > 0 && Drawable(paths, height) && StampsFit(paths, stamps)
    requires RowsWithin(p, height) && NoZeroSegment(p, Segments(|p|))
    requires |paths| < |stamps| && ProfileLength(|p|) <= |stamps[|paths|].scales|
    ensures Drawable(paths + [p], height) && StampsFit(paths + [p], stamps)
    ensures DrawAll(g, height, width, paths + [p], stamps, bump) ==
            StampPath(DrawAll(g, height, width, paths, stamps, bump), height, width,
                      p, Power(|p|, bump, stamps[|paths|]), Segments(|p|))
  {
    assert (paths + [p])[..|paths|] == paths;
  }

  /** With every scale in [0, 2], drawing keeps a map within [-2, 2] there. */
  lemma {:induction false} DrawAllBounded(g: Grid, height: nat, width: nat, paths: seq<seq<Point>>,
                                          stamps: seq<StampDraws>, bump: (int, int) -> real)
    requires IsGrid(g, height, width) && width > 0 && Drawable(paths, height) && StampsFit(paths, stamps)
    requires IsBump(bump) && Bounded(g, height, width, -2.0, 2.0)
    requires forall i :: 0 <= i < |paths| ==> ValidStampDraws(stamps[i], |paths[i]|)
    ensures Bounded(DrawAll(g, height, width, paths, stamps, bump), height, width, -2.0, 2.0)
    decreases |paths|
  {
    if |paths| > 0 {
      var k := |paths| - 1;
      DrawAllBounded(g, height, width, paths[..k], stamps, bump);
      PowerBounded(|paths[k]|, bump, stamps[k]);
      StampPathBounded(DrawAll(g, height, width, paths[..k], stamps, bump), height, width,
                       paths[k], Power(|paths[k]|, bump, stamps[k]), -2.0, 2.0);
    }
  }

  /** Draw validity is monotone in the number of vertices. */
  lemma StampDrawsCover(d: StampDraws, len: nat, maxVertices: nat)
    requires ValidStampDraws(d, maxVertices) && len <= maxVertices && 2 <= maxVertices
    ensures ValidStampDraws(d, len)
  {
  }

  /** `num_segments` after i turns of the loop of lines 45-51: the segment count of the last
      path sampled (0 stands for the unbound name when no path was sampled). */
  function SegmentCountAfter(segmentDraws: seq<nat>, i: nat): nat
    requires i <= |segmentDraws|
  {
    if i == 0 then 0 else segmentDraws[i - 1] + 3
  }

  /** `num_segments` after the whole loop of lines 45-51. */
  function LastSegmentCount(segmentDraws: seq<nat>): nat {
    SegmentCountAfter(segmentDraws, |segmentDraws|)
  }

  /** Every path of paths has at most maxVertices vertices. */
  ghost predicate Fits(paths: seq<seq<Point>>, maxVertices: nat) {
    forall i :: 0 <= i < |paths| ==> |paths[i]| <= maxVertices
  }

  /** The draws of a pass have the shape a pass over n paths of up to maxVertices vertices
      needs: one shift, jitter per vertex and one `random.randrange(15)` per path, and
      numSegments step draws for every path that is re-sampled. */
  ghost predicate PassFits(p: PassDraws, n: nat, numSegments: nat, maxVertices: nat) {
    && |p.shifts| == n && |p.regen| == n && |p.walks| == n
    && forall i :: 0 <= i < n ==>
         maxVertices <= |p.shifts[i].jitter| && (p.regen[i] == 0 ==> numSegments <= |p.walks[i].steps|)
  }

  /** The draws of a drift pass lie in ranges that contain every value the random functions can return. */
  ghost predicate ValidPass(p: PassDraws, n: nat, numSegments: nat, height: nat, width: nat,
                            maxSegmentLength: real, maxVertices: nat) {
    && PassFits(p, n, numSegments, maxVertices)
    && forall i :: 0 <= i < n ==>
         && ValidShiftDraws(p.shifts[i], maxSegmentLength / 4.0)
         && p.regen[i] < 15
         && (p.regen[i] == 0 ==> ValidWalkDraws(p.walks[i], numSegments, height, width, maxSegmentLength))
  }

  /** One StampDraws per path, valid for paths of up to maxVertices vertices. */
  ghost predicate ValidStamps(s: seq<StampDraws>, n: nat, maxVertices: nat) {
    |s| == n && forall i :: 0 <= i < n ==> ValidStampDraws(s[i], maxVertices)
  }

  /** The draws of the first phase (lines 45-49): n segment counts below maxDriftSegments
      and a walk for each. */
  ghost predicate ValidSeed(segmentDraws: seq<nat>, walks: seq<WalkDraws>, n: nat, maxDriftSegments: nat,
                            height: nat, width: nat, maxSegmentLength: real) {
    && |segmentDraws| == n && |walks| == n
    && forall i :: 0 <= i < n ==>
         && segmentDraws[i] < maxDriftSegments
         && segmentDraws[i] + 3 <= |walks[i].steps|
         && ValidWalkDraws(walks[i], segmentDraws[i] + 3, height, width, maxSegmentLength)
  }

  /** The paths of the first phase: path i is the walk walks[i] determines with
      segmentDraws[i] + 3 segments. */
  function Seed(walks: seq<WalkDraws>, segmentDraws: seq<nat>, height: nat): (paths: seq<seq<Point>>)
    requires |walks| == |segmentDraws|
    requires forall i :: 0 <= i < |walks| ==> segmentDraws[i] + 3 <= |walks[i].steps|
    ensures |paths| == |walks|
    ensures forall i :: 0 <= i < |walks| ==> |paths[i]| == segmentDraws[i] + 4
  {
    seq(|walks|, i requires 0 <= i < |walks| => Walk(walks[i], segmentDraws[i] + 3, height))
  }

  /** The paths after one drift pass with the draws p (line 57): kept paths shifted,
      re-sampled ones of numSegments segments; the global height is the map's. */
  function PassPaths(paths: seq<seq<Point>>, p: PassDraws, numSegments: nat, height: nat, maxVertices: nat)
    : (r: seq<seq<Point>>)
    requires Fits(paths, maxVertices) && numSegments + 1 <= maxVertices
    requires PassFits(p, |paths|, numSegments, maxVertices)
    ensures |r| == |paths| && Fits(r, maxVertices)
  {
    Perturb(paths, p.shifts, p.regen, p.walks, numSegments, height, height)
  }

  /** The sets of paths of a run that starts from first: entry 0 is first and entry k + 1
      is entry k perturbed with the draws of pass k (line 57). */
  function History(first: seq<seq<Point>>, passes: seq<PassDraws>, numSegments: nat, height: nat,
                   maxVertices: nat): (h: seq<seq<seq<Point>>>)
    requires numSegments + 1 <= maxVertices && Fits(first, maxVertices)
    requires forall k :: 0 <= k < |passes| ==> PassFits(passes[k], |first|, numSegments, maxVertices)
    ensures |h| == |passes| + 1 && h[0] == first
    ensures forall k :: 0 <= k < |h| ==> |h[k]| == |first| && Fits(h[k], maxVertices)
    decreases |passes|
  {
    if |passes| == 0 then [first]
    else
      var prev := History(first, passes[..|passes| - 1], numSegments, height, maxVertices);
      prev + [PassPaths(prev[|prev| - 1], passes[|passes| - 1], numSegments, height, maxVertices)]
  }

  /** The draws of a run have the shape Run needs. */
  ghost predicate RunFits(segmentDraws: seq<nat>, walks: seq<WalkDraws>, passes: seq<PassDraws>, maxVertices: nat) {
    && |segmentDraws| == |walks|
    && (forall i :: 0 <= i < |walks| ==> segmentDraws[i] + 4 <= maxVertices && segmentDraws[i] + 3 <= |walks[i].steps|)
    && LastSegmentCount(segmentDraws) + 1 <= maxVertices
    && forall k :: 0 <= k < |passes| ==> PassFits(passes[k], |walks|, LastSegmentCount(segmentDraws), maxVertices)
  }

  /** All sets of paths of a run: the seed, then one set per pass, every pass re-sampling
      with the segment count of the last seeded path. */
  function Run(segmentDraws: seq<nat>, walks: seq<WalkDraws>, passes: seq<PassDraws>, height: nat,
               maxVertices: nat): (h: seq<seq<seq<Point>>>)
    requires RunFits(segmentDraws, walks, passes, maxVertices)
    ensures |h| == |passes| + 1
  {
    History(Seed(walks, segmentDraws, height), passes, LastSegmentCount(segmentDraws), height, maxVertices)
  }

  /** Every set of paths can be drawn with its own draws. */
  ghost predicate AllDrawable(history: seq<seq<seq<Point>>>, stamps: seq<seq<StampDraws>>, height: nat) {
    |history| <= |stamps| &&
    forall k :: 0 <= k < |history| ==> Drawable(history[k], height) && StampsFit(history[k], stamps[k])
  }

  /** The map each phase adds to the terrain: its set of paths drawn onto a zero map and
      solved (lines 46-53 and 56-61). */
  ghost function SolvedMaps(history: seq<seq<seq<Point>>>, stamps: seq<seq<StampDraws>>, height: nat, width: nat,
                            bump: (int, int) -> real): (s: seq<Grid>)
    requires width > 0 && AllDrawable(history, stamps, height)
    ensures |s| == |history| && AllGrids(s, height, width)
  {
    seq(|history|, k requires 0 <= k < |history| =>
      Solve(DrawAll(Zero(height, width), height, width, history[k], stamps[k], bump), height, width))
  }

  /** One pass more extends the history by the perturbed last set of paths. */
  lemma HistorySnoc(first: seq<seq<Point>>, passes: seq<PassDraws>, numSegments: nat, height: nat,
                    maxVertices: nat, i: nat)
    requires numSegments + 1 <= maxVertices && Fits(first, maxVertices)
    requires forall k :: 0 <= k < |passes| ==> PassFits(passes[k], |first|, numSegments, maxVertices)
    requires i < |passes|
    ensures var prev := History(first, passes[..i], numSegments, height, maxVertices);
            History(first, passes[..i + 1], numSegments, height, maxVertices) ==
            prev + [PassPaths(prev[i], passes[i], numSegments, height, maxVertices)]
  {
    assert passes[..i + 1][..i] == passes[..i];
  }

  /** The history of the first j passes is a prefix of the whole history. */
  lemma {:induction false} HistoryPrefix(first: seq<seq<Point>>, passes: seq<PassDraws>, numSegments: nat,
                                         height: nat, maxVertices: nat, j: nat)
    requires numSegments + 1 <= maxVertices && Fits(first, maxVertices)
    requires forall k :: 0 <= k < |passes| ==> PassFits(passes[k], |first|, numSegments, maxVertices)
    requires j <= |passes|
    ensures History(first, passes[..j], numSegments, height, maxVertices) ==
            History(first, passes, numSegments, height, maxVertices)[..j + 1]
    decreases |passes|
  {
    if j == |passes| {
      assert passes[..j] == passes;
    } else {
      var shorter := passes[..|passes| - 1];
      HistoryPrefix(first, shorter, numSegments, height, maxVertices, j);
      assert shorter[..j] == passes[..j];
    }
  }

  lemma AccumulateSnoc(t: Grid, solved: seq<Grid>, s: Grid, height: nat, width: nat)
    requires IsGrid(t, height, width) && AllGrids(solved, height, width) && IsGrid(s, height, width)
    ensures Accumulate(t, solved + [s], height, width) == Add(Accumulate(t, solved, height, width), s, height, width)
  {
    assert (solved + [s])[..|solved|] == solved;
  }

  /** Path k of paths is the walk walks[k] determines with segmentDraws[k] + 3 segments. */
  ghost predicate Seeded(paths: seq<seq<Point>>, walks: seq<WalkDraws>, segmentDraws: seq<nat>, height: nat) {
    && |paths| <= |walks| && |paths| <= |segmentDraws|
    && forall k :: 0 <= k < |paths| ==>
         segmentDraws[k] + 3 <= |walks[k].steps| && paths[k] == Walk(walks[k], segmentDraws[k] + 3, height)
  }

  lemma SeededSnoc(paths: seq<seq<Point>>, p: seq<Point>, walks: seq<WalkDraws>, segmentDraws: seq<nat>, height: nat)
    requires Seeded(paths, walks, segmentDraws, height) && |paths| < |walks| && |paths| < |segmentDraws|
    requires segmentDraws[|paths|] + 3 <= |walks[|paths|].steps|
    requires p == Walk(walks[|paths|], segmentDraws[|paths|] + 3, height)
    ensures Seeded(paths + [p], walks, segmentDraws, height)
  {
    assert forall k :: 0 <= k < |paths| ==> (paths + [p])[k] == paths[k];
  }

  /** A set of paths that agrees with the seed path by path is the seed. */
  lemma SeedIs(paths: seq<seq<Point>>, walks: seq<WalkDraws>, segmentDraws: seq<nat>, height: nat)
    requires |walks| == |segmentDraws| == |paths|
    requires forall i :: 0 <= i < |walks| ==> segmentDraws[i] + 3 <= |walks[i].steps|
    requires Seeded(paths, walks, segmentDraws, height)
    ensures paths == Seed(walks, segmentDraws, height)
  {
  }

  /** A seeded walk with a zero-length segment makes the seed undrawable. */
  lemma SeedBlocked(walks: seq<WalkDraws>, segmentDraws: seq<nat>, height: nat, i: nat)
    requires |walks| == |segmentDraws| && i < |walks|
    requires forall k :: 0 <= k < |walks| ==> segmentDraws[k] + 3 <= |walks[k].steps|
    requires var w := Walk(walks[i], segmentDraws[i] + 3, height); !NoZeroSegment(w, Segments(|w|))
    ensures !Drawable(Seed(walks, segmentDraws, height), height)
  {
    assert Seed(walks, segmentDraws, height)[i] == Walk(walks[i], segmentDraws[i] + 3, height);
  }

  /** Lines 48-51 for one path of numSegments segments: sampled, then drawn onto the
      potential. */
  method SeedPath(potential: array2<real>, numSegments: nat, maxSegmentLength: real, maxVertices: nat,
                  bump: (int, int) -> real, walk: WalkDraws, stamp: StampDraws)
    returns (vertices: seq<Point>, ok: bool)
    requires potential.Length0 >= 1 && potential.Length1 >= 1 && IsBump(bump)
    requires ValidWalkDraws(walk, numSegments, potential.Length0, potential.Length1, maxSegmentLength)
    requires ValidStampDraws(stamp, maxVertices) && 2 <= maxVertices && numSegments + 1 <= maxVertices
    modifies potential
    ensures vertices == Walk(walk, numSegments, potential.Length0) && RowsWithin(vertices, potential.Length0)
    ensures ok <==> NoZeroSegment(vertices, Segments(|vertices|))
    ensures ok ==> Snapshot(potential) == StampPath(old(Snapshot(potential)), potential.Length0, potential.Length1,
                                                    vertices, Power(|vertices|, bump, stamp), Segments(|vertices|))
  {
    vertices := CalculateVertices(potential.Length0, potential.Length1, numSegments, maxSegmentLength, walk);
    StampDrawsCover(stamp, |vertices|, maxVertices);
    var outcome := DrawVerticesOnPotential(vertices, potential, bump, stamp);
    ok := outcome.Drawn?;
  }

  /** One iteration of lines 45-51: path |paths| is sampled and drawn onto the potential,
      which holds the earlier paths drawn onto g. */
  method SeedStep(potential: array2<real>, ghost g: Grid, ghost paths: seq<seq<Point>>, i: nat, numSegments: nat,
                  maxDriftSegments: nat, maxSegmentLength: real, bump: (int, int) -> real,
                  segmentDraws: seq<nat>, walks: seq<WalkDraws>, stamps: seq<StampDraws>)
    returns (vertices: seq<Point>, drawn: bool)
    requires potential.Length0 >= 1 && potential.Length1 >= 1 && IsBump(bump)
    requires ValidSeed(segmentDraws, walks, |walks|, maxDriftSegments, potential.Length0, potential.Length1, maxSegmentLength)
    requires ValidStamps(stamps, |walks|, maxDriftSegments + 3)
    requires i == |paths| < |walks| && numSegments == segmentDraws[i] + 3
    requires Seeded(paths, walks, segmentDraws, potential.Length0)
    requires Drawable(paths, potential.Length0) && StampsFit(paths, stamps) && IsGrid(g, potential.Length0, potential.Length1)
    requires Snapshot(potential) == DrawAll(g, potential.Length0, potential.Length1, paths, stamps, bump)
    modifies potential
    ensures !drawn ==> !Drawable(Seed(walks, segmentDraws, potential.Length0), potential.Length0)
    ensures drawn ==> Seeded(paths + [vertices], walks, segmentDraws, potential.Length0)
    ensures drawn ==> Drawable(paths + [vertices], potential.Length0) && StampsFit(paths + [vertices], stamps)
    ensures drawn ==> Snapshot(potential) == DrawAll(g, potential.Length0, potential.Length1, paths + [vertices], stamps, bump)
  {
    vertices, drawn := SeedPath(potential, numSegments, maxSegmentLength, maxDriftSegments + 3, bump,
                                walks[i], stamps[i]);
    if !drawn {
      SeedBlocked(walks, segmentDraws, potential.Length0, i);
      return;
    }
    DrawAllSnoc(g, potential.Length0, potential.Length1, paths, vertices, stamps, bump);
    SeededSnoc(paths, vertices, walks, segmentDraws, potential.Length0);
  }

  /** Lines 45-51: samples n paths and draws each onto the potential as soon as it is
      sampled, stopping at the first zero-length segment.  numSegments is the segment count
      of the last path. */
  method SeedPaths(potential: array2<real>, n: nat, maxDriftSegments: nat, maxSegmentLength: real,
                   bump: (int, int) -> real, segmentDraws: seq<nat>, walks: seq<WalkDraws>, stamps: seq<StampDraws>)
    returns (paths: seq<seq<Point>>, numSegments: nat, ok: bool)
    requires potential.Length0 >= 1 && potential.Length1 >= 1 && IsBump(bump)
    requires ValidSeed(segmentDraws, walks, n, maxDriftSegments, potential.Length0, potential.Length1, maxSegmentLength)
    requires ValidStamps(stamps, n, maxDriftSegments + 3)
    modifies potential
    ensures ok <==> Drawable(Seed(walks, segmentDraws, potential.Length0), potential.Length0)
    ensures ok ==>
      && paths == Seed(walks, segmentDraws, potential.Length0) && StampsFit(paths, stamps)
      && numSegments == LastSegmentCount(segmentDraws)
      && Snapshot(potential) == DrawAll(old(Snapshot(potential)), potential.Length0, potential.Length1, paths, stamps, bump)
    ensures ok ==> |paths| == n && forall i :: 0 <= i < n ==> 4 <= |paths[i]| <= maxDriftSegments + 3
  {
    ghost var g := Snapshot(potential);
    paths := [];
    numSegments := 0;
    for i := 0 to n
      invariant |paths| == i && Seeded(paths, walks, segmentDraws, potential.Length0)
      invariant Drawable(paths, potential.Length0) && StampsFit(paths, stamps)
      invariant Snapshot(potential) == DrawAll(g, potential.Length0, potential.Length1, paths, stamps, bump)
      invariant numSegments == SegmentCountAfter(segmentDraws, i)
    {
      numSegments := segmentDraws[i] + 3;
      var vertices, drawn := SeedStep(potential, g, paths, i, numSegments, maxDriftSegments, maxSegmentLength, bump,
                                      segmentDraws, walks, stamps);
      if !drawn {
        return paths, numSegments, false;
      }
      paths := paths + [vertices];
    }
    SeedIs(paths, walks, segmentDraws, potential.Length0);
    assert |segmentDraws| == n;
    ok := true;
  }

  /** One turn of the drawing loop: draws path i onto the map that already holds the paths
      before it. */
  method DrawNext(paths: seq<seq<Point>>, potential: array2<real>, bump: (int, int) -> real, stamps: seq<StampDraws>,
                  ghost g: Grid, i: nat)
    returns (ok: bool)
    requires potential.Length0 >= 1 && potential.Length1 >= 1 && IsBump(bump)
    requires i < |paths| <= |stamps|
    requires RowsWithin(paths[i], potential.Length0) && ValidStampDraws(stamps[i], |paths[i]|)
    requires IsGrid(g, potential.Length0, potential.Length1)
    requires Drawable(paths[..i], potential.Length0) && StampsFit(paths[..i], stamps)
    requires Snapshot(potential) == DrawAll(g, potential.Length0, potential.Length1, paths[..i], stamps, bump)
    modifies potential
    ensures !ok ==> !Drawable(paths, potential.Length0)
    ensures ok ==> Drawable(paths[..i + 1], potential.Length0) && StampsFit(paths[..i + 1], stamps)
    ensures ok ==> Snapshot(potential) == DrawAll(g, potential.Length0, potential.Length1, paths[..i + 1], stamps, bump)
  {
    var outcome := DrawVerticesOnPotential(paths[i], potential, bump, stamps[i]);
    ok := outcome.Drawn?;
    if ok {
      DrawAllSnoc(g, potential.Length0, potential.Length1, paths[..i], paths[i], stamps, bump);
      PrefixSnoc(paths, i);
    }
  }

  /** Lines 58-59: draws the paths one after the other, stopping at the first zero-length
      segment. */
  method DrawPaths(paths: seq<seq<Point>>, potential: array2<real>, bump: (int, int) -> real, stamps: seq<StampDraws>)
    returns (ok: bool)
    requires potential.Length0 >= 1 && potential.Length1 >= 1 && IsBump(bump)
    requires |paths| <= |stamps|
    requires forall i :: 0 <= i < |paths| ==>
               RowsWithin(paths[i], potential.Length0) && ValidStampDraws(stamps[i], |paths[i]|)
    modifies potential
    ensures ok <==> Drawable(paths, potential.Length0)
    ensures ok ==> StampsFit(paths, stamps) && Snapshot(potential) ==
                   DrawAll(old(Snapshot(potential)), potential.Length0, potential.Length1, paths, stamps, bump)
  {
    ghost var g := Snapshot(potential);
    for i := 0 to |paths|
      invariant Drawable(paths[..i], potential.Length0) && StampsFit(paths[..i], stamps)
      invariant Snapshot(potential) == DrawAll(g, potential.Length0, potential.Length1, paths[..i], stamps, bump)
    {
      ok := DrawNext(paths, potential, bump, stamps, g, i);
      if !ok {
        return;
      }
    }
    assert paths[..|paths|] == paths;
    ok := true;
  }

  /** Lines 45-53: the paths sampled and drawn onto one zero map, the map solved and added
      to the terrain as a new array. */
  method FirstPhase(terrain: array2<real>, n: nat, maxDriftSegments: nat, maxSegmentLength: real,
                    bump: (int, int) -> real, segmentDraws: seq<nat>, walks: seq<WalkDraws>, stamps: seq<StampDraws>)
    returns (result: array2<real>, paths: seq<seq<Point>>, numSegments: nat, ok: bool)
    requires terrain.Length0 >= 1 && terrain.Length1 >= 1 && IsBump(bump)
    requires ValidSeed(segmentDraws, walks, n, maxDriftSegments, terrain.Length0, terrain.Length1, maxSegmentLength)
    requires ValidStamps(stamps, n, maxDriftSegments + 3)
    ensures ok <==> Drawable(Seed(walks, segmentDraws, terrain.Length0), terrain.Length0)
    ensures ok ==>
      && paths == Seed(walks, segmentDraws, terrain.Length0) && numSegments == LastSegmentCount(segmentDraws)
      && fresh(result) && result.Length0 == terrain.Length0 && result.Length1 == terrain.Length1
      && StampsFit(paths, stamps)
      && Snapshot(result) == Add(Snapshot(terrain),
                                 Solve(DrawAll(Zero(terrain.Length0, terrain.Length1), terrain.Length0, terrain.Length1,
                                               paths, stamps, bump), terrain.Length0, terrain.Length1),
                                 terrain.Length0, terrain.Length1)
  {
    var potential := Zeros(terrain.Length0, terrain.Length1);
    paths, numSegments, ok := SeedPaths(potential, n, maxDriftSegments, maxSegmentLength, bump,
                                        segmentDraws, walks, stamps);
    if !ok {
      return terrain, paths, numSegments, false;
    }
    SolvePotential(potential);
    result := Plus(terrain, potential);
  }

  /** One drift pass, lines 55-61: a fresh zero map, the perturbed paths drawn onto it,
      the map solved and added to the terrain as a new array. */
  method DriftPass(terrain: array2<real>, paths: seq<seq<Point>>, numSegments: nat, maxSegmentLength: real,
                   maxVertices: nat, bump: (int, int) -> real, draws: PassDraws, stamps: seq<StampDraws>)
    returns (next: array2<real>, moved: seq<seq<Point>>, ok: bool)
    requires terrain.Length0 >= 1 && terrain.Length1 >= 1 && IsBump(bump)
    requires PassFits(draws, |paths|, numSegments, maxVertices)
    requires ValidPass(draws, |paths|, numSegments, terrain.Length0, terrain.Length1, maxSegmentLength, maxVertices)
    requires ValidStamps(stamps, |paths|, maxVertices)
    requires 2 <= maxVertices && numSegments + 1 <= maxVertices && Fits(paths, maxVertices)
    ensures moved == PassPaths(paths, draws, numSegments, terrain.Length0, maxVertices)
    ensures ok <==> Drawable(moved, terrain.Length0)
    ensures ok ==>
      && fresh(next) && next.Length0 == terrain.Length0 && next.Length1 == terrain.Length1
      && StampsFit(moved, stamps)
      && Snapshot(next) == Add(Snapshot(terrain),
                               Solve(DrawAll(Zero(terrain.Length0, terrain.Length1), terrain.Length0, terrain.Length1,
                                             moved, stamps, bump), terrain.Length0, terrain.Length1),
                               terrain.Length0, terrain.Length1)
  {
    var potential := Zeros(terrain.Length0, terrain.Length1);
    moved := ModifyVertices(paths, potential.Length0, potential.Length1, numSegments, maxSegmentLength,
                            maxSegmentLength / 4.0, terrain.Length0, draws.shifts, draws.regen, draws.walks);
    forall i | 0 <= i < |moved| ensures ValidStampDraws(stamps[i], |moved[i]|) {
      StampDrawsCover(stamps[i], |moved[i]|, maxVertices);
    }
    ok := DrawPaths(moved, potential, bump, stamps);
    if !ok {
      return terrain, moved, false;
    }
    SolvePotential(potential);
    next := Plus(terrain, potential);
  }

  /** A pass whose paths cannot be drawn leaves the whole run with a set of paths that
      cannot be drawn. */
  lemma Blocked(seed: seq<seq<Point>>, passes: seq<PassDraws>, numSegments: nat, height: nat, maxVertices: nat,
                stamps: seq<seq<StampDraws>>, it: nat, moved: seq<seq<Point>>)
    requires numSegments + 1 <= maxVertices && Fits(seed, maxVertices)
    requires forall k :: 0 <= k < |passes| ==> PassFits(passes[k], |seed|, numSegments, maxVertices)
    requires it < |passes|
    requires moved == History(seed, passes[..it + 1], numSegments, height, maxVertices)[it + 1]
    requires !Drawable(moved, height)
    ensures !AllDrawable(History(seed, passes, numSegments, height, maxVertices), stamps, height)
  {
    HistoryPrefix(seed, passes, numSegments, height, maxVertices, it + 1);
    assert History(seed, passes, numSegments, height, maxVertices)[it + 1] == moved;
  }

  /** solved holds, for each set of paths of history, that set drawn onto a zero map and
      solved. */
  ghost predicate PhaseMaps(solved: seq<Grid>, history: seq<seq<seq<Point>>>, stamps: seq<seq<StampDraws>>,
                            height: nat, width: nat, bump: (int, int) -> real) {
    && width > 0 && AllDrawable(history, stamps, height) && |solved| == |history|
    && forall k {:trigger solved[k]} :: 0 <= k < |solved| ==>
         solved[k] == Solve(DrawAll(Zero(height, width), height, width, history[k], stamps[k], bump), height, width)
  }

  lemma PhaseMapsSnoc(solved: seq<Grid>, history: seq<seq<seq<Point>>>, paths: seq<seq<Point>>, s: Grid,
                      stamps: seq<seq<StampDraws>>, height: nat, width: nat, bump: (int, int) -> real)
    requires PhaseMaps(solved, history, stamps, height, width, bump)
    requires |history| < |stamps| && Drawable(paths, height) && StampsFit(paths, stamps[|history|])
    requires s == Solve(DrawAll(Zero(height, width), height, width, paths, stamps[|history|], bump), height, width)
    ensures PhaseMaps(solved + [s], history + [paths], stamps, height, width, bump)
  {
    var h := history + [paths];
    assert forall k :: 0 <= k < |history| ==> h[k] == history[k];
    forall k | 0 <= k < |solved| + 1
      ensures (solved + [s])[k] == Solve(DrawAll(Zero(height, width), height, width, h[k], stamps[k], bump), height, width)
    {
      if k < |solved| {
        assert (solved + [s])[k] == solved[k];
      }
    }
  }

  /** The maps PhaseMaps describes are the SolvedMaps of the history. */
  lemma PhaseMapsAreSolvedMaps(solved: seq<Grid>, history: seq<seq<seq<Point>>>,
                               stamps: seq<seq<StampDraws>>, height: nat, width: nat,
                               bump: (int, int) -> real)
    requires PhaseMaps(solved, history, stamps, height, width, bump)
    ensures solved == SolvedMaps(history, stamps, height, width, bump)
  {
    var s := SolvedMaps(history, stamps, height, width, bump);
    forall k | 0 <= k < |solved| ensures solved[k] == s[k] {
      assert solved[k] == Solve(DrawAll(Zero(height, width), height, width, history[k], stamps[k], bump), height, width);
    }
  }

  /** The drift passes, lines 55-61, from the terrain after the first phase: pass k
      perturbs the paths with passes[k], draws them with stamps[k + 1], and adds the solved
      map to the terrain.  The run fails on the first pass whose paths cannot be drawn;
      otherwise the terrain has every solved map of the run added. */
  method DriftPasses(ghost t: Grid, terrain: array2<real>, seed: seq<seq<Point>>, numSegments: nat,
                     maxSegmentLength: real, maxVertices: nat, bump: (int, int) -> real,
                     stamps: seq<seq<StampDraws>>, passes: seq<PassDraws>)
    returns (result: array2<real>, ok: bool)
    requires terrain.Length0 >= 1 && terrain.Length1 >= 1 && IsBump(bump)
    requires 2 <= maxVertices && numSegments + 1 <= maxVertices && Fits(seed, maxVertices)
    requires forall k :: 0 <= k < |passes| ==> PassFits(passes[k], |seed|, numSegments, maxVertices)
    requires forall k :: 0 <= k < |passes| ==>
               ValidPass(passes[k], |seed|, numSegments, terrain.Length0, terrain.Length1, maxSegmentLength, maxVertices)
    requires |stamps| == |passes| + 1 && forall k :: 0 <= k < |stamps| ==> ValidStamps(stamps[k], |seed|, maxVertices)
    requires IsGrid(t, terrain.Length0, terrain.Length1)
    requires Drawable(seed, terrain.Length0) && StampsFit(seed, stamps[0])
    requires Snapshot(terrain) == Add(t, Solve(DrawAll(Zero(terrain.Length0, terrain.Length1), terrain.Length0,
                                                       terrain.Length1, seed, stamps[0], bump),
                                               terrain.Length0, terrain.Length1), terrain.Length0, terrain.Length1)
    ensures ok <==> AllDrawable(History(seed, passes, numSegments, terrain.Length0, maxVertices), stamps, terrain.Length0)
    ensures ok ==> result.Length0 == terrain.Length0 && result.Length1 == terrain.Length1
    ensures ok ==> result == terrain || fresh(result)
    ensures ok ==>
      Snapshot(result) == Accumulate(t, SolvedMaps(History(seed, passes, numSegments, terrain.Length0, maxVertices),
                                                   stamps, terrain.Length0, terrain.Length1, bump),
                                     terrain.Length0, terrain.Length1)
  {
    ghost var height, width := terrain.Length0, terrain.Length1;
    ghost var first := Solve(DrawAll(Zero(height, width), height, width, seed, stamps[0], bump), height, width);
    ghost var history := [seed];
    ghost var solved := [first];
    assert PhaseMaps(solved, history, stamps, height, width, bump);
    assert Accumulate(t, solved, height, width) == Snapshot(terrain) by {
      AccumulateSnoc(t, [], first, height, width);
      assert [] + [first] == solved;
    }
    assert passes[..0] == [];
    result := terrain;
    var paths := seed;
    for it := 0 to |passes|
      invariant result.Length0 == height && result.Length1 == width && (result == terrain || fresh(result))
      invariant history == History(seed, passes[..it], numSegments, height, maxVertices)
      invariant paths == history[it]
      invariant PhaseMaps(solved, history, stamps, height, width, bump)
      invariant Snapshot(result) == Accumulate(t, solved, height, width)
    {
      var next, moved, passOk := DriftPass(result, paths, numSegments, maxSegmentLength, maxVertices, bump,
                                           passes[it], stamps[it + 1]);
      HistorySnoc(seed, passes, numSegments, height, maxVertices, it);
      if !passOk {
        Blocked(seed, passes, numSegments, height, maxVertices, stamps, it, moved);
        return next, false;
      }
      ghost var s := Solve(DrawAll(Zero(height, width), height, width, moved, stamps[it + 1], bump), height, width);
      PhaseMapsSnoc(solved, history, moved, s, stamps, height, width, bump);
      AccumulateSnoc(t, solved, s, height, width);
      history, solved := history + [moved], solved + [s];
      result := next;
      paths := moved;
    }
    assert passes[..|passes|] == passes;
    PhaseMapsAreSolvedMaps(solved, history, stamps, height, width, bump);
    assert AllDrawable(history, stamps, height);
    ok := true;
  }

  /** `create_potential_map_and_drift(terrain, height, width, n, max_drift_segments,
      max_segment_length, iterations)` with its random draws as parameters: the first phase
      uses segmentDraws, walks and stamps[0], drift pass k uses passes[k] and stamps[k + 1].
      The run raises at line 57 exactly when n == 0 and a pass is due; otherwise it fails on
      a zero-length segment exactly when some set of paths of the run cannot be drawn, and
      on success the terrain has every solved map of the run added. */
  method CreatePotentialMapAndDrift(terrain: array2<real>, height: nat, width: nat, n: nat, maxDriftSegments: nat,
                                    maxSegmentLength: real, iterations: nat, bump: (int, int) -> real,
                                    segmentDraws: seq<nat>, walks: seq<WalkDraws>,
                                    stamps: seq<seq<StampDraws>>, passes: seq<PassDraws>)
    returns (result: array2<real>, outcome: DriftOutcome)
    requires terrain.Length0 == height >= 1 && terrain.Length1 == width >= 1 && IsBump(bump)
    requires ValidSeed(segmentDraws, walks, n, maxDriftSegments, height, width, maxSegmentLength)
    requires |stamps| == iterations + 1 && forall k :: 0 <= k <= iterations ==> ValidStamps(stamps[k], n, maxDriftSegments + 3)
    requires |passes| == iterations
    requires RunFits(segmentDraws, walks, passes, maxDriftSegments + 3)
    requires forall k :: 0 <= k < iterations ==>
               ValidPass(passes[k], n, LastSegmentCount(segmentDraws), height, width, maxSegmentLength, maxDriftSegments + 3)
    ensures outcome == UnboundSegmentCount <==> n == 0 && iterations > 0
    ensures outcome == ZeroLengthSegment <==>
              !(n == 0 && iterations > 0) && !AllDrawable(Run(segmentDraws, walks, passes, height, maxDriftSegments + 3), stamps, height)
    ensures outcome == Completed ==>
      && fresh(result) && result.Length0 == height && result.Length1 == width
      && AllDrawable(Run(segmentDraws, walks, passes, height, maxDriftSegments + 3), stamps, height)
      && |SolvedMaps(Run(segmentDraws, walks, passes, height, maxDriftSegments + 3), stamps, height, width, bump)| == iterations + 1
      && Snapshot(result) == Accumulate(Snapshot(terrain),
           SolvedMaps(Run(segmentDraws, walks, passes, height, maxDriftSegments + 3), stamps, height, width, bump),
           height, width)
  {
    var maxVertices := maxDriftSegments + 3;
    var paths, numSegments, ok;
    result, paths, numSegments, ok := FirstPhase(terrain, n, maxDriftSegments, maxSegmentLength, bump,
                                                 segmentDraws, walks, stamps[0]);
    if !ok {
      assert Run(segmentDraws, walks, passes, height, maxVertices)[0] == Seed(walks, segmentDraws, height);
      return terrain, ZeroLengthSegment;
    }
    if n == 0 && iterations > 0 {
      return result, UnboundSegmentCount;
    }
    ghost var t := Snapshot(terrain);
    var drifted;
    result, drifted := DriftPasses(t, result, paths, numSegments, maxSegmentLength, maxVertices, bump, stamps, passes);
    outcome := if drifted then Completed else ZeroLengthSegment;
  }

  /** `apply_drift(terrain)` with its defaults: 10 paths, at most 10 segments each, 100
      drift passes and the maximum segment length of line 16.  With 10 paths the run never
      reaches the unbound `num_segments`. */
  method ApplyDrift(terrain: array2<real>, bump: (int, int) -> real, segmentDraws: seq<nat>, walks: seq<WalkDraws>,
                    stamps: seq<seq<StampDraws>>, passes: seq<PassDraws>)
    returns (result: array2<real>, outcome: DriftOutcome)
    requires terrain.Length0 >= 1 && terrain.Length1 >= 1 && IsBump(bump)
    requires ValidSeed(segmentDraws, walks, 10, 8, terrain.Length0, terrain.Length1,
                       MaxSegmentLength(terrain.Length0, terrain.Length1, 10, 8))
    requires |stamps| == 101 && forall k :: 0 <= k <= 100 ==> ValidStamps(stamps[k], 10, 11)
    requires |passes| == 100 && RunFits(segmentDraws, walks, passes, 11)
    requires forall k :: 0 <= k < 100 ==>
               ValidPass(passes[k], 10, LastSegmentCount(segmentDraws), terrain.Length0, terrain.Length1,
                         MaxSegmentLength(terrain.Length0, terrain.Length1, 10, 8), 11)
    ensures outcome != UnboundSegmentCount
    ensures outcome == ZeroLengthSegment <==> !AllDrawable(Run(segmentDraws, walks, passes, terrain.Length0, 11), stamps, terrain.Length0)
    ensures outcome == Completed ==>
      && fresh(result) && result.Length0 == terrain.Length0 && result.Length1 == terrain.Length1
      && Snapshot(result) == Accumulate(Snapshot(terrain),
           SolvedMaps(Run(segmentDraws, walks, passes, terrain.Length0, 11), stamps, terrain.Length0, terrain.Length1, bump),
           terrain.Length0, terrain.Length1)
    ensures outcome == Completed ==>
      |SolvedMaps(Run(segmentDraws, walks, passes, terrain.Length0, 11), stamps, terrain.Length0, terrain.Length1, bump)| == 101
  {
    var maxSegmentLength := MaxSegmentLength(terrain.Length0, terrain.Length1, 10, 8);
    result, outcome := CreatePotentialMapAndDrift(terrain, terrain.Length0, terrain.Length1, 10, 8, maxSegmentLength,
                                                  100, bump, segmentDraws, walks, stamps, passes);
  }

  /** A drawable set of paths of up to maxVertices vertices, drawn with scales in [0, 2] and
      solved, gives a map within [-2, 2]. */
  lemma PhaseBounded(paths: seq<seq<Point>>, stamps: seq<StampDraws>, height: nat, width: nat,
                     bump: (int, int) -> real, maxVertices: nat)
    requires width > 0 && Drawable(paths, height) && StampsFit(paths, stamps) && IsBump(bump)
    requires 2 <= maxVertices && Fits(paths, maxVertices)
    requires forall p :: 0 <= p < |paths| ==> ValidStampDraws(stamps[p], maxVertices)
    ensures Bounded(Solve(DrawAll(Zero(height, width), height, width, paths, stamps, bump), height, width),
                    height, width, -2.0, 2.0)
  {
    forall p | 0 <= p < |paths| ensures ValidStampDraws(stamps[p], |paths[p]|) {
      StampDrawsCover(stamps[p], |paths[p]|, maxVertices);
    }
    DrawAllBounded(Zero(height, width), height, width, paths, stamps, bump);
    SolveBounded(DrawAll(Zero(height, width), height, width, paths, stamps, bump), height, width, -2.0, 2.0);
  }

  /** Every solved map of a run lies within [-2, 2]. */
  lemma SolvedMapsBounded(history: seq<seq<seq<Point>>>, stamps: seq<seq<StampDraws>>,
                          height: nat, width: nat, bump: (int, int) -> real, maxVertices: nat)
    requires width > 0 && AllDrawable(history, stamps, height)
    requires IsBump(bump) && 2 <= maxVertices
    requires forall k :: 0 <= k < |history| ==>
               Fits(history[k], maxVertices) && ValidStamps(stamps[k], |history[k]|, maxVertices)
    ensures AllBounded(SolvedMaps(history, stamps, height, width, bump), height, width, -2.0, 2.0)
  {
    var solved := SolvedMaps(history, stamps, height, width, bump);
    forall k | 0 <= k < |solved| ensures Bounded(solved[k], height, width, -2.0, 2.0) {
      PhaseBounded(history[k], stamps[k], height, width, bump, maxVertices);
    }
  }

  /** Every phase moves each terrain cell by at most 2: each drawn map lies within [-2, 2],
      solving keeps it there, and the solved maps are summed into the terrain. */
  lemma DriftChangeBounded(t: Grid, history: seq<seq<seq<Point>>>, stamps: seq<seq<StampDraws>>,
                           height: nat, width: nat, bump: (int, int) -> real, maxVertices: nat, i: int, j: int)
    requires IsGrid(t, height, width) && width > 0 && AllDrawable(history, stamps, height)
    requires IsBump(bump) && 2 <= maxVertices
    requires forall k :: 0 <= k < |history| ==>
               Fits(history[k], maxVertices) && ValidStamps(stamps[k], |history[k]|, maxVertices)
    requires InGrid(height, width, i, j)
    ensures var change := Accumulate(t, SolvedMaps(history, stamps, height, width, bump), height, width)[i][j] - t[i][j];
            -2.0 * |history| as real <= change <= 2.0 * |history| as real
  {
    SolvedMapsBounded(history, stamps, height, width, bump, maxVertices);
    AccumulateBounded(t, SolvedMaps(history, stamps, height, width, bump), height, width, i, j, |history|, -2.0, 2.0);
    ScaleTwo(|history|);
  }
}
