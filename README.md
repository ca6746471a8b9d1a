# Terra-Generator drift engine in Dafny

This project models the terrain engine of `generate.py`. The engine builds a terrain grid in phases.

In each phase:
- it takes a set of random paths with momentum ("drifts");
- it stamps the paths onto a zero potential map, with a half-sine magnitude profile per path;
- it relaxes the map into a smooth potential with an iterative neighbour-averaging solver;
- it adds the solved map to the terrain.

The first phase samples the paths. Each of the following drift passes perturbs the paths and sometimes re-samples one.

The modules follow the functions of `generate.py`:

| module | file | models |
|---|---|---|
| `Grids` | grids.dfy | points, grids as `seq<seq<real>>`, `np.zeros`, element-wise `+`, the running terrain sum |
| `PathSampler` | sampler.dfy | `calculate_vertices` |
| `Rasterizer` | rasterizer.dfy | `draw_vertices_on_potential` |
| `PotentialSolver` | solver.dfy | `solve_potential` |
| `Perturbation` | perturbation.dfy | `modify_vertices` |
| `DriftEngine` | drift.dfy | `create_potential_map_and_drift`, `apply_drift` |

The code updates arrays and lists step by step, and the model does the same.
- Each operation is a `method` over `array2<real>` grids and sequences of points, with loops and their invariants.
- Each method is proved against a specification function on grid values: `Walk`, `Power`, `StampPath`, `Solve`, `Perturb`, `Seed`, `History`, `Run` and `SolvedMaps`. Those functions are in turn related to independent reference definitions (`IsWalk` for the walk, `Painted` for last-writer-wins stamping) or bounded by lemmas.
- Every random draw is a parameter of the method that makes it: `WalkDraws`, `StampDraws`, `ShiftDraws` and `PassDraws`. Each is constrained to a range that contains at least every value the Python random calls can return.
- `math.sin(math.pi * (i + 0.5) / m)` is a caller-supplied function `bump` with values in (0, 1].

Points of the code's behaviour that the model keeps:
- **Solver sweep order.** `solve_potential` sweeps in place. `new_potential = potential` (line 156) makes both names refer to one array, so each cell reads the values already written earlier in the same sweep (Gauss-Seidel). `PotentialSolver.SolveReadsCurrentSweep` shows a 1-by-3 grid where a two-buffer update would give a different result.
- **Scale range.** `random.uniform(0, 2)` at line 80 computes `0 + 2 * random()`, which lies in [0, 2). The model lets the stamp scales range over the closed interval [0, 2], which contains every such draw, so each bound proved for scales in [0, 2] holds for the draws the code makes.
- **One map per phase.** All paths of a phase are drawn onto one map, one after the other (lines 47-51, 58-59). Later paths overwrite earlier ones.
- **Sample order.** Sample point `j = 0` of a segment is its `end` and `j = num_points` its `begin` (line 91).
- **Re-sampling segment count.** Re-sampled paths in every drift pass have the segment count of the last path of the first phase. This is the leftover loop variable `num_segments` (line 48, read at line 57). When `n == 0` that variable is never bound, so the first drift pass raises; the model reports this as `UnboundSegmentCount`.

## Model

| member | source | states |
|---|---|---|
| Grids.Abs | generate.py:86-88 | `abs` of a coordinate difference: non-negative and equal to x or -x |
| Grids.Max | generate.py:88 | `max`: at least both arguments and equal to one of them |
| Grids.Ceil | generate.py:88 | `math.ceil`: the result is the least integer not below x |
| Grids.Zeros | generate.py:45 | `np.zeros`: a fresh array of the given shape whose every cell is 0 |
| Grids.Plus | generate.py:53 | `terrain + solved_map`: a fresh array holding the cell-wise sums |
| Grids.Set | generate.py:92 | the store `potential_map[r][c] = power[i]`: the grid keeps its shape, cell (r, c) holds the value and every other cell is unchanged |
| Grids.Zero | generate.py:45 | the value of `np.zeros([height, width])`: a height-by-width grid whose every cell is 0 |
| Grids.Add | generate.py:53 | the value of `terrain + solved_map`: a grid of the same shape whose every cell is the sum of the two cells |
| Grids.Accumulate | generate.py:52-61 | the running terrain: the entry terrain with each solved map added in turn, first map first; the shape is kept |
| Grids.AccumulateIsSum | generate.py:52-61 | after the phases, each terrain cell is its initial value plus the sum of that cell over all solved maps added |
| Grids.AccumulateBounded | generate.py:52-61 | adding n maps whose cells lie in [-hi, hi] moves each terrain cell by at most n * hi either way |
| PathSampler.ClampRow | generate.py:34-37 | the clamped row lies in [0, height - 1]; a row strictly inside is kept, a row at or below 0 becomes 0, and a row at or above height - 1 becomes exactly height - 1 |
| PathSampler.Momentum | generate.py:29-39 | the `displacement` carried into step k: the initial `random_vector` draw (line 29) for the first step, afterwards the previous step as actually taken (line 39) |
| PathSampler.WalkStep | generate.py:31-38 | vertex k is vertex k - 1 moved by the momentum plus step draw k - 1 (lines 31-33), with the row clamped (lines 34-37) and the column kept |
| PathSampler.IsWalk | generate.py:28-39 | the reference definition of a walk: num_segments + 1 vertices, vertex 0 the drawn start cell, every later vertex related to the one before by WalkStep |
| PathSampler.Walk | generate.py:28-39 | the walk has num_segments + 1 vertices and starts at the drawn integer cell; a walk that starts in the map keeps every row in [0, height - 1] |
| PathSampler.CalculateVertices | generate.py:25-40 | returns exactly the walk the draws determine: num_segments + 1 vertices, every row in [0, height - 1], displacement reset to the step taken |
| PathSampler.WalkIsWalk | generate.py:30-39 | each vertex of the walk is the previous vertex plus the momentum (the initial draw, then the last actual step) plus the step draw, with its row clamped and its column unchanged |
| PathSampler.WalkIff | generate.py:30-39 | a sequence satisfies that step relation if and only if it is the walk |
| PathSampler.WalkUnique | generate.py:28-39 | two sequences satisfying the step relation for the same draws are equal: the draws determine the path |
| PathSampler.WalkColumnVelocity | generate.py:32-39 | columns are never clamped, so the column step k is the initial column draw plus the sum of the first k step draws |
| Rasterizer.Segments | generate.py:73-83 | `len(vertices) - 1`, the number of segments the loops at lines 73 and 83 run over; 0 for an empty path |
| Rasterizer.ProfileLength | generate.py:69-74 | the length of `power`: 1 for a one-vertex path (line 71), otherwise one entry per segment (lines 73-74) |
| Rasterizer.Base | generate.py:70-74 | the magnitude before sign and scale: 1 for a one-vertex path, otherwise bump(i, len(vertices) - 1), the half-sine of line 74 |
| Rasterizer.Power | generate.py:69-80 | the list `power` after line 80: ProfileLength(n) magnitudes, entry i being ±Base(n, bump, i) × scales[i] with the sign the coin flip chose; ±scales[0] for a one-vertex path |
| Rasterizer.PowerProfile | generate.py:69-80 | the profile is Power: one magnitude per segment (the single value ±scale for a one-vertex path), all with the sign of the coin flip, each within 2 of zero |
| Rasterizer.PowerSigns | generate.py:76-80 | invert == 1 makes every magnitude lie in [-2, 0] and invert == 0 makes it lie in [0, 2]; a one-vertex path gets ±scales[0] |
| Rasterizer.PowerAt | generate.py:74-80 | magnitude k has the sign the coin flip chose and lies within 2 of zero |
| Rasterizer.PowerBounded | generate.py:69-80 | every magnitude lies in [-2, 2] |
| Rasterizer.NumPoints | generate.py:86-88 | `num_points` is 0 exactly when the segment's two ends coincide |
| Rasterizer.NumPointsCovers | generate.py:86-88 | `num_points` is at least each coordinate difference and less than the larger one plus 1 |
| Rasterizer.SampleSpacing | generate.py:88-91 | consecutive sample points of a segment are at most one cell apart in each coordinate |
| Rasterizer.SamplePoint | generate.py:90-91 | sample 0 is the segment's end and sample num_points is its begin |
| Rasterizer.Cell | generate.py:92 | the stamped column `floor(col) % width` lies in [0, width) |
| Rasterizer.SampleRowWithin | generate.py:90-92 | every sample point of a segment whose ends lie in rows [0, height) lies there too |
| Rasterizer.SampleCell | generate.py:89-92 | the cell each sample point stamps lies inside the grid |
| Rasterizer.StampSegment | generate.py:89-92 | the grid after the first j turns of the inner loop: the old grid with the segment's magnitude written at the cells of sample points 0, ..., j - 1, in that order; the shape is kept |
| Rasterizer.StampSegmentCell | generate.py:89-92 | stamping a segment sets exactly the cells its sample points land in to the segment's magnitude and leaves every other cell unchanged |
| Rasterizer.StampPath | generate.py:83-92 | the grid after the first i turns of the outer loop: segments 0, ..., i - 1 stamped in order, each with its own magnitude power[k]; the shape is kept |
| Rasterizer.StampPathCell | generate.py:83-92 | stamping a path agrees cell by cell with the last-writer-wins reference Painted |
| Rasterizer.Painted | generate.py:83-92 | the reference meaning of last-writer-wins: a cell holds the magnitude of the last segment with a sample point in it, or its old value when no segment has one |
| Rasterizer.PaintedUntouched | generate.py:83-92 | a cell that no sample point of any segment lands in keeps its value |
| Rasterizer.PaintedLastWriter | generate.py:83-92 | a cell sampled by segment k and by no later segment holds power[k] |
| Rasterizer.PaintedBounded | generate.py:83-92 | a stamped cell stays within any range holding its old value and every magnitude |
| Rasterizer.StampPathBounded | generate.py:83-92 | a path stamped with magnitudes in [lo, hi] onto a grid within [lo, hi] leaves it within [lo, hi] |
| Rasterizer.StampSegmentPoints | generate.py:89-92 | the array after the inner loop is the old grid with the segment stamped at all num_points + 1 sample points |
| Rasterizer.DrawVerticesOnPotential | generate.py:66-93 | succeeds if and only if no segment has length zero, and then the array is the path stamped segment by segment. On a zero-length segment it reports that segment, with every earlier segment stamped (the division at line 90). A path of at most one vertex writes nothing |
| PotentialSolver.Iterations | generate.py:155 | the sweep count is ceil((height + width) / 5): 5n - 5 < height + width <= 5n |
| PotentialSolver.Neighbours | generate.py:162-168 | 2 to 4 neighbours: the two wrapping column neighbours, one more unless the cell is in the first row, and one more unless it is in the last row |
| PotentialSolver.Sum | generate.py:169-171 | `s` after the loop of lines 170-171: the neighbours added first to last, starting from 0 |
| PotentialSolver.Mean | generate.py:172 | `s / len(neighbours)`, the average written into an unmasked cell |
| PotentialSolver.MeanBounded | generate.py:169-172 | the mean of the neighbours lies between their least and greatest values |
| PotentialSolver.Relax | generate.py:161-174 | a masked cell is written back unchanged, an unmasked cell becomes the mean of its neighbours' current values, and every other cell is unchanged |
| PotentialSolver.RowPrefix | generate.py:160-174 | the grid after the visits of cells 0, ..., w - 1 of row h, in column order, each reading the values already written; every seed cell keeps its value |
| PotentialSolver.SweepPrefix | generate.py:159-174 | the grid after the visits of all cells of rows 0, ..., h - 1 in row-major order; every seed cell keeps its value |
| PotentialSolver.Sweeps | generate.py:158-175 | the grid after n complete in-place sweeps; every seed cell keeps its value |
| PotentialSolver.Solve | generate.py:151-176 | every cell non-zero on entry has exactly its entry value on exit |
| PotentialSolver.RelaxBounded | generate.py:161-174 | one cell visit keeps a grid within [lo, hi] |
| PotentialSolver.SolveBounded | generate.py:158-175 | maximum principle: if every input cell, zeros included, lies in [lo, hi], so does every output cell |
| PotentialSolver.SolveReadsCurrentSweep | generate.py:156-175 | the sweep is in place: on [1, 0, 0] the one sweep gives [1, 0.5, 0.75], where a two-buffer update would give [1, 0.5, 0.5] |
| PotentialSolver.NonZeroMask | generate.py:152 | a fresh mask marking exactly the cells non-zero on entry |
| PotentialSolver.VisitCell | generate.py:161-174 | the array after one cell visit is Relax of the grid before it, with the neighbours summed first to last |
| PotentialSolver.SweepRow | generate.py:160-174 | the array after the column loop is the row's cells relaxed in column order |
| PotentialSolver.Sweep | generate.py:159-174 | the array after the row loop is one full row-major in-place sweep |
| PotentialSolver.SolvePotential | generate.py:151-176 | the caller's array is overwritten with Solve of its entry values: exactly ceil((height + width) / 5) sweeps, with the mask fixed on entry |
| Perturbation.PerturbRow | generate.py:123-126 | the clamped row lies in [0, height - 0.01]; a row strictly inside (0, height - 1) is kept, a row at or below 0 becomes 0, and a row at or above height - 1 becomes height - 0.01 |
| Perturbation.Nudge | generate.py:121-126 | one vertex moved by the shared vector plus its own jitter, its row then clamped by PerturbRow and its column kept |
| Perturbation.Shift | generate.py:118-126 | a shifted path keeps its vertex count |
| Perturbation.Perturb | generate.py:117-131 | the number of paths is kept; a kept path keeps its vertex count and a re-sampled one has num_segments + 1 vertices |
| Perturbation.PerturbRowsWithin | generate.py:117-131 | when the global height is the map's height, every row afterwards lies in [0, height - 0.01], whatever the input rows were |
| Perturbation.ModifyVertices | generate.py:116-131 | returns Perturb of its inputs (rigid shift plus jitter with the row clamp, then re-sample where the draw is 0), with every row in [0, height - 0.01] when the global height is the map's |
| DriftEngine.MaxSegmentLength | generate.py:16 | the result is non-negative and times num_drifts * max_drift_segments it gives 5 * (height + width) |
| DriftEngine.SegmentCountAfter | generate.py:47-48 | the value of `num_segments` after i turns of the loop: the last draw plus 3, or 0 standing for the unbound name when no turn was taken |
| DriftEngine.LastSegmentCount | generate.py:48-57 | the `num_segments` that every drift pass passes to `modify_vertices` (line 57): the segment count of the last path of the first phase |
| DriftEngine.DrawAll | generate.py:47-59 | one map with the paths drawn onto it one after the other, first path first, each with its own stamp draws (lines 51 and 59); the shape is kept |
| DriftEngine.DrawAllSnoc | generate.py:58-59 | drawing one more path stamps it onto the map that the earlier paths left |
| DriftEngine.DrawAllBounded | generate.py:58-59 | drawing paths with scales in [0, 2] keeps a map within [-2, 2] |
| DriftEngine.Seed | generate.py:47-50 | n paths, path i with segmentDraws[i] + 4 vertices |
| DriftEngine.History | generate.py:54-57 | iterations + 1 sets of paths, the first being the seed, each set with n paths |
| DriftEngine.HistoryPrefix | generate.py:54-57 | the history of the first j passes is a prefix of the whole history |
| DriftEngine.PassPaths | generate.py:57 | the paths after one drift pass's `modify_vertices` with the last segment count; the path count is kept and every path still fits the vertex bound |
| DriftEngine.Run | generate.py:47-57 | the sets of paths of a whole run: the seeded paths, then each pass's perturbation of the previous set; one set more than there are passes |
| DriftEngine.SolvedMaps | generate.py:45-61 | one solved map per set of paths: the set drawn onto a zero map and solved (lines 45-52 for the first phase, 56-60 for each pass); one map per set, each of the terrain's shape |
| DriftEngine.SeedBlocked | generate.py:49-51 | a sampled path with a zero-length segment makes the first phase's paths undrawable |
| DriftEngine.SeedPath | generate.py:48-51 | the sampled path is the walk of its draws, and it is drawn if and only if it has no zero-length segment |
| DriftEngine.SeedStep | generate.py:47-51 | one loop turn extends the seeded paths by the next walk and the map by that path, or shows that the seed is undrawable |
| DriftEngine.SeedPaths | generate.py:45-51 | succeeds exactly when the seed is drawable. Then it gives the n seeded paths, each with 4 to max_drift_segments + 3 vertices, the map with all of them drawn, and the last segment count as num_segments |
| DriftEngine.DrawNext | generate.py:58-59 | one loop turn: the map afterwards has one more path drawn, or the paths are undrawable |
| DriftEngine.DrawPaths | generate.py:58-59 | succeeds exactly when every path is drawable, and then the map has all of them drawn in order |
| DriftEngine.FirstPhase | generate.py:45-53 | succeeds exactly when the seed is drawable, and then the new terrain is the old terrain plus the seed drawn on a zero map and solved |
| DriftEngine.DriftPass | generate.py:55-61 | the paths become PassPaths of the draws; the pass succeeds exactly when they are drawable, and the new terrain is the old plus them drawn on a fresh zero map and solved |
| DriftEngine.Blocked | generate.py:57-59 | an undrawable pass makes the whole run undrawable |
| DriftEngine.PhaseMapsSnoc | generate.py:56-61 | one more pass adds its solved map to the list of phase maps |
| DriftEngine.PhaseMapsAreSolvedMaps | generate.py:52-61 | the maps collected pass by pass are exactly SolvedMaps of the history |
| DriftEngine.DriftPasses | generate.py:54-61 | succeeds exactly when every set of paths of the history is drawable, and then the terrain has every phase's solved map added in order |
| DriftEngine.CreatePotentialMapAndDrift | generate.py:43-63 | raises at line 57 exactly when n == 0 and a pass is due. It fails on a zero-length segment exactly when some set of paths of the run is undrawable. Otherwise it returns the input terrain plus the sum of exactly iterations + 1 solved maps, one per set of paths of the run |
| DriftEngine.ApplyDrift | generate.py:12-18 | with 10 paths, max_drift_segments = 8 and 100 passes, the unbound-name failure cannot happen; on success the terrain has exactly 101 solved maps added |
| DriftEngine.PhaseBounded | generate.py:52-60 | each phase's solved map lies within [-2, 2] |
| DriftEngine.SolvedMapsBounded | generate.py:52-61 | every solved map of a run lies within [-2, 2] |
| DriftEngine.DriftChangeBounded | generate.py:43-63 | a run of k phases moves each terrain cell by at most 2k either way |

## Left out

- Rendering and the program's entry: `generate_terrain`'s normalisation by mean and standard deviation, its corner sentinels and sea flooring (lines 100-112), `show_terrain` (lines 145-148), `generate_empty_terrain` and the `__main__` block (lines 180-188). These are floating-point statistics, plotting and terminal input.
- All `print` calls: output only.
- `random_direction` and `random_vector` (lines 134-142): they are the sources of the draws. The model keeps only their contract, a vector of length at most the given bound (`WithinLength`). The cosine and sine of a uniform angle are not modelled.
- `math.sin` at line 74: it is the parameter `bump`, with values in (0, 1] for 0 <= i < m.
- The order of draws in the single random stream: draws are grouped by purpose (walks, stamps, shifts, re-sample draws), not interleaved as one stream.
- The unused `random.randrange(8)` at line 119: it affects nothing but the position in the random stream.
- Floating point: values and coordinates are exact reals. `math.floor` is `.Floor`, and Python's `%` by a positive width is Dafny's `%`; the two agree for negative columns too.
- Grids with no rows: every call of the core reads row 0 (`terrain[0]` at line 15, `potential_map[0]` at lines 27 and 68, `potential[0]` at line 154) and raises IndexError. The methods require at least one row, so this error is not modelled.
- PathSampler.CalculateVertices: requires a start cell inside the map, so a map with no columns is excluded. There the source raises ValueError at line 28 (`random.randrange(0)`).
- Rasterizer.DrawVerticesOnPotential: requires at least one column. On a map with no columns the source still returns normally for a one-vertex path, writing nothing because the loop at line 83 is empty. For a longer path it raises ZeroDivisionError at line 90 or line 92 (`% 0`). Neither case is modelled.
- DriftEngine.CreatePotentialMapAndDrift: requires at least one column. On a terrain with no columns the source raises ValueError at line 28 when n >= 1, and raises at line 57 when n == 0 and a pass is due. When n == 0 and iterations == 0 it returns normally, with the terrain plus the solved empty map. These cases are not modelled.
- DriftEngine.CreatePotentialMapAndDrift: the seed draws require segmentDraws[i] < max_drift_segments. With max_drift_segments == 0 and n >= 1 no draw meets this. The source then raises ValueError at line 48 (`random.randrange(0)`), which is not modelled as an outcome. `apply_drift` always passes 8.
- DriftEngine.MaxSegmentLength: requires num_drifts > 0 and max_drift_segments > 0. Otherwise line 16 raises ZeroDivisionError, which is not modelled. `apply_drift` always passes 10 and 8.
- Rasterizer.DrawVerticesOnPotential: requires every row to lie in [0, height). The sampler and the perturbation guarantee this: the perturbation's clamp is height - 0.01 < height. Python's negative-index wrap and IndexError for other rows are therefore not modelled.
- DriftEngine.CreatePotentialMapAndDrift: requires the `height` and `width` arguments to equal the terrain's shape, as `apply_drift` passes them (lines 14-18).
- DriftEngine.DriftPass: the global `height` that `modify_vertices` reads is taken to be the map's height, which it is on every run started from the `__main__` block.
- DriftEngine.DriftPasses: states only that the result is the input array or a fresh one. It does not state which, because the source rebinds `terrain` to a new array each pass.
- DriftEngine.CreatePotentialMapAndDrift: on a failure it does not state the terrain. The source raises, and nothing is returned.
