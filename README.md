# Cell-chirality simulator: geometry post-processing in Dafny

This project models the post-processing of the `Simulator` class of
Cell-Chirality-Visualization. The simulator integrates the positions of four
cells (entities 1 to 4) over the non-dimensionalised time interval [0, 1].
It stores the sampled states as a trajectory table. From that table it
derives two tables: the six pairwise distances, and four view angles
(`ABa_dorsal`, `ABp_dorsal`, `ABa_ant`, `ABp_ant`). The project also models
`column_average` from the plotting module, the row-wise mean of a frame.

Modules:

- `Common` (common.dfy): the exceptions the code raises, as an `Error`
  datatype, and the `Outcome` / `Result` types that carry them.
- `Geometry` (geometry.dfy): one state row of 12 reals. Entity k sits in
  columns 3(k-1) to 3(k-1)+2. The module holds the six distance formulas as
  written with literal column indices, the two axis vectors, the dorsal and
  anterior projection angles, and the sign rule, with lemmas about each.
- `Simulation` (simulator.dfy): the tables and the `Simulator` class. Its
  fields `df`, `distance` and `angle` are updated by `Run`,
  `ComputeDistance` and `ComputeAngles`. The sign-flip pass of
  `ComputeAngles` is a loop that rewrites angle cells in place, as in the
  source.
- `PlotAll` (plot_all.dfy): `ColumnAverage`, the accumulation loop of
  `column_average`, proved against `RowMean`.

Representation:

- A table is a sequence of rows. The trajectory table has 12 reals per row,
  in columns "0" to "11". The distance table has 6 reals per row, in columns
  "12", "13", "14", "23", "24", "34". The angle table has 4 cells per row.
- An angle cell is `Degrees(d)` or `NaN`. A zero projection denominator makes
  the source compute 0/0 (or pass an infinity to arccos), which gives NaN.
  The model keeps that NaN as a value. NaN is not an error.
- `np.sqrt` and `np.arccos(..) * 180 / np.pi` are library calls. They are the
  parameter `MathLib(sqrt, arccosDeg)`. The predicate `Sound` states what a
  correct library satisfies: the square root is non-negative and squares back;
  arccos in degrees lies in [0, 180] on [-1, 1], strictly inside (0, 180) on
  (-1, 1), and sends 1 to 0 and -1 to 180.
- The integrator is given as its outcome `SolverResult(status, y)`. `y[k][j]`
  is component k at evaluation time j. `Honours` states what `solve_ivp`
  guarantees on success: one component per entry of `y0`, each sampled at all
  40 evaluation times, with the sample at time 0 equal to `y0`. The 12
  components come from the caller's `y0`: building the trajectory table with
  the 12 names "0" .. "11" raises in pandas for any other width, and `Run`
  models that as the `ShapeMismatch` error.
- pandas `DataFrame.empty` on the trajectory table is `df == []`.

The sign flip negates `ABa_ant` when the stored `-z` column of `axis_1to2` is
negative, that is when z > 0 (entity 2 above entity 1). The same holds for
`ABp_ant` with `axis_4to3`. `AngleTable` and `AnteriorSignRule` state this
rule.

## Model

| member | source | states |
|---|---|---|
| `Simulation.Simulator.constructor` | src/modelling/Simulator.py:9-16 | the simulator starts with empty trajectory, distance and angle tables, keeps the initial state, and satisfies its invariant (both derived tables are those of the trajectory) |
| `Simulation.Simulator.Run` | src/modelling/Simulator.py:18-41 | a non-zero solver status raises `SolverFailed`, and samples not 12 wide raise `ShapeMismatch`, both leaving all three tables unchanged; on success the trajectory has one row per sample (40), row j column k is component k of sample j, the first row is the initial state, and both derived tables are recomputed from it; the invariant holds afterwards |
| `Simulation.Simulator.ComputeDistance` | src/modelling/Simulator.py:51-62 | an empty trajectory raises `DataFrameNotFound` and leaves the distance table unchanged; otherwise the distance table becomes that of the trajectory; the invariant is preserved |
| `Simulation.Simulator.ComputeAngles` | src/modelling/Simulator.py:64-105 | an empty trajectory raises `DataFrameNotFound` and leaves the angle table unchanged; otherwise the vectorised columns and the row-by-row flip loop leave exactly `AngleTable` of the trajectory; the invariant is preserved, and re-established when the distance table is already current |
| `Simulation.Honours` | src/modelling/Simulator.py:25-34 | what a successful integration delivers for the initial state: one component per entry of `y0`, each sampled at every evaluation time, starting from `y0` |
| `Simulation.DistanceTable` | src/modelling/Simulator.py:57-62 | one distance row per trajectory row, in order, with the six pair columns |
| `Simulation.DistanceTableEntry` | src/modelling/Simulator.py:57-62 | cell (i, p) is the distance between the two entities column p names, read through the entity-to-column mapping; it is non-negative, symmetric in the pair, and 0 exactly when the two entities coincide |
| `Simulation.AngleTable` | src/modelling/Simulator.py:76-105 | one angle row per trajectory row, in order; the dorsal angles are those of axis 2-1 and axis 3-4; each anterior angle is negated exactly when entity 2 is above entity 1 (resp. entity 3 above entity 4) |
| `Simulation.UnsignedAngleTable` | src/modelling/Simulator.py:92-97 | the angle table as the four vectorised assignments leave it: row i is the dorsal and unflipped anterior angles of trajectory row i |
| `Simulation.Simulator.FlipAnteriorSigns` | src/modelling/Simulator.py:100-105 | the row loop, negating anterior cells in place, turns the unsigned angle table into exactly `AngleTable` of the trajectory and changes nothing but the angle table |
| `Simulation.FlipStep` | src/modelling/Simulator.py:100-105 | one iteration of the loop (negate `ABa_ant` if the stored `-z` of `axis_1to2` is negative, then `ABp_ant` likewise for `axis_4to3`) turns the unsigned row into the final row |
| `Simulation.FlipKeepsDorsal` | src/modelling/Simulator.py:100-105 | the flip pass leaves both dorsal columns as computed and changes an anterior cell at most by negation |
| `Simulation.DerivedRowsAreLocal` | src/modelling/Simulator.py:57-105 | a distance row and an angle row depend only on their own trajectory row |
| `Simulation.Transpose` | src/modelling/Simulator.py:38 | transposing the solver's component-by-sample matrix gives one row per sample with entry k equal to component k |
| `Simulation.TransposeInvolution` | src/modelling/Simulator.py:38 | transposing twice gives the matrix back |
| `Simulation.Linspace` | src/modelling/Simulator.py:30 | the evaluation grid has `num` points, starts at the start and ends at the stop; its even spacing is stated by `LinspaceEvenlySpaced` |
| `Simulation.LinspaceEvenlySpaced` | src/modelling/Simulator.py:30 | consecutive evaluation times are exactly (stop - start) / (num - 1) apart, the last gap included |
| `Simulation.LinspaceIncreasing` | src/modelling/Simulator.py:30 | the grid strictly increases when start < stop |
| `Simulation.EvalTimes` | src/modelling/Simulator.py:30 | the run asks for 40 evaluation times |
| `Simulation.EvalTimesSpanUnitInterval` | src/modelling/Simulator.py:11-12 | the evaluation times run from 0 to 1 and strictly increase |
| `Geometry.DistanceRowFollowsEntities` | src/modelling/Simulator.py:57-62 | each literal column formula of "12" .. "34" is the distance between the entities its name pairs |
| `Geometry.PairColumn` | src/modelling/Simulator.py:57-62 | every unordered pair of distinct entities has exactly one distance column, whose name is the two entity digits in increasing order |
| `Geometry.DistanceRow` | src/modelling/Simulator.py:57-62 | the six literal-index formulas of a row give, in column order "12" .. "34", the distances between the entity positions the names pair |
| `Geometry.DistanceNonNegative` | src/modelling/Simulator.py:57-62 | a distance is non-negative |
| `Geometry.DistanceSymmetric` | src/modelling/Simulator.py:57-62 | a distance does not depend on which point is named first |
| `Geometry.DistanceZeroIffCoincide` | src/modelling/Simulator.py:57-62 | a distance is 0 exactly when the two points coincide |
| `Geometry.Axis1To2` | src/modelling/Simulator.py:76-78 | `axis_1to2`, written with columns 3..5 minus 0..2, is the position of entity 2 minus that of entity 1 |
| `Geometry.Axis4To3` | src/modelling/Simulator.py:79-81 | `axis_4to3`, written with columns 6..8 minus 9..11, is the position of entity 3 minus that of entity 4 |
| `Geometry.ProjectionAngle` | src/modelling/Simulator.py:92-97 | the shared shape of the four angle formulas, arccos(num / sqrt(u^2 + v^2)) in degrees, NaN on a zero denominator; its range is stated by `ProjectionAngleRange` and `ProjectionAngleStrict` |
| `Geometry.DorsalAngle` | src/modelling/Simulator.py:92-93 | the dorsal formula on (x, y) with reference direction (-1, 0); its range is stated by `DorsalAngleUnsigned` |
| `Geometry.AnteriorAngle` | src/modelling/Simulator.py:96-97 | the anterior formula on (y, z) before the flip, with numerator the stored `-y`; its signed form is stated by `AnteriorSignRule` |
| `Geometry.SignedAnteriorAngle` | src/modelling/Simulator.py:100-105 | after the flip an anterior angle is negated when z > 0 (the stored `-z` is negative) and unchanged otherwise |
| `Geometry.ProjectionInRange` | src/modelling/Simulator.py:92-97 | the normalised projection passed to arccos lies in [-1, 1] |
| `Geometry.ProjectionAngleStrict` | src/modelling/Simulator.py:96-97 | when the second component is non-zero the angle is a number strictly between 0 and 180 |
| `Geometry.ProjectionAngleRange` | src/modelling/Simulator.py:92-97 | a view angle is NaN exactly when the projected axis is zero, and otherwise lies in [0, 180] |
| `Geometry.ProjectionAngleOnAxis` | src/modelling/Simulator.py:90-97 | an axis along the reference direction gives 0 degrees, one pointing the opposite way gives 180 |
| `Geometry.DorsalAngleUnsigned` | src/modelling/Simulator.py:92-93 | a dorsal angle is NaN exactly when x = y = 0, otherwise in [0, 180]; 0 for an axis along -x and 180 along +x |
| `Geometry.AnteriorSignRule` | src/modelling/Simulator.py:85-105 | the stored `-z < 0` test is z > 0; the signed anterior angle is NaN exactly when y = z = 0, strictly inside (-180, 0) when z > 0, strictly inside (0, 180) when z < 0, in [0, 180] when z = 0, and so always in (-180, 180] |
| `Geometry.AnteriorMirror` | src/modelling/Simulator.py:96-105 | mirroring an axis in z (z != 0) negates its signed anterior angle |
| `Geometry.CoincidentEntities` | src/modelling/Simulator.py:57-97 | when all four entities coincide every distance is 0 and every angle is NaN |
| `PlotAll.AddColumn` | Plot/PlotAll.py:50 | `col_sum += column` adds element-wise, the initial scalar 0 broadcasting to every row, and yields an array as long as the column |
| `PlotAll.ColumnAverage` | Plot/PlotAll.py:43-52 | no columns raise `ZeroDivision`; otherwise one entry per row, each the row's sum over all columns divided by the column count |
| `PlotAll.SingleColumnMean` | Plot/PlotAll.py:47-51 | with one column the average is that column |
| `PlotAll.IdenticalColumnsMean` | Plot/PlotAll.py:47-51 | when all columns are equal the average is that column |
| `PlotAll.RowMeanBetweenBounds` | Plot/PlotAll.py:47-51 | each average lies between any lower and upper bound on its row's entries |

## Left out

- The RK45 integration (`solve_ivp` with the model callback): a foreign floating-point library call. `Run` takes its outcome (status and samples); the callback is not stored.
- Numerical accuracy of `np.sqrt`, `np.arccos` and the degree conversion: they are the `MathLib` parameter, and only the facts in `Sound` are assumed of them.
- Floating-point effects: rounding, -0.0, infinite or NaN inputs, and a normalised projection that rounds outside [-1, 1]. The model computes in exact reals.
- Simulation.Simulator.Run: a solver that reports success with samples not matching `y0` and the 40 evaluation times is excluded by `Honours`; `solve_ivp` does not produce one.
- Simulation.Simulator.Run: the `save` flag and the Excel export of the three tables (file I/O).
- Timing and the printed evaluation counters of `run` (diagnostic I/O).
- pandas index alignment when a column is assigned into an existing frame: the model replaces each derived table whole. On every path the code takes, the old table is either empty (before the first run), and pandas takes the index of the first column assigned, or has the same 40-row index as the new columns.
- `plot_all`: it reads CSV and Excel files through configuration paths and draws with matplotlib.
- PlotAll.ColumnAverage: every column is treated as float, and column dtypes are not modelled. In the source, when the first column is integer-typed, `col_sum` becomes an integer array. A later float column then makes the in-place `col_sum += ...` raise a casting error. The model returns the means on such a frame, and does not capture that error.
- The input frame of `column_average` is only read: the model passes it by value, so this holds by construction and has no separate lemma.
