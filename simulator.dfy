/** The Simulator: it takes the integrator's outcome, stores the trajectory
    table and derives the distance and angle tables from it. The RK45
    integration itself is abstracted to its outcome (a status and the sampled
    states). */
module Simulation {
  import opened Common
  import opened Geometry

  /** The non-dimensionalised time domain and the number of output samples. */
  const TauInitial: real := 0.0
  const TauFinal: real := 1.0
  const NumEvalPoints: nat := 40

  /** np.linspace(start, stop, num) with endpoint: `num` evenly spaced values,
      the last one set to `stop` exactly. */
  function Linspace(start: real, stop: real, num: nat): (r: seq<real>)
    requires num >= 2
    ensures |r| == num && r[0] == start && r[num - 1] == stop
  {
    var step := (stop - start) / ((num - 1) as real);
    seq(num, k requires 0 <= k < num => if k == num - 1 then stop else start + (k as real) * step)
  }

  lemma LinspaceIncreasing(start: real, stop: real, num: nat, i: nat, j: nat)
    requires num >= 2 && start < stop && i < j < num
    ensures Linspace(start, stop, num)[i] < Linspace(start, stop, num)[j]
  {
    var d := (num - 1) as real;
    var step := (stop - start) / d;
    Quotient(stop - start, d);
    var r := Linspace(start, stop, num);
    assert r[i] == start + (i as real) * step;
    if j == num - 1 {
      assert r[j] == stop;
      ScaledOrder(i as real, d, step, start, stop);
    } else {
      assert r[j] == start + (j as real) * step;
      ScaledOrder(i as real, j as real, step, start, start + (j as real) * step);
    }
  }

  /** Consecutive points are one step (stop - start) / (num - 1) apart,
      including the last gap, where the point is `stop` itself. */
  lemma LinspaceEvenlySpaced(start: real, stop: real, num: nat, k: nat)
    requires num >= 2 && k + 1 < num
    ensures Linspace(start, stop, num)[k + 1] - Linspace(start, stop, num)[k]
         == (stop - start) / ((num - 1) as real)
  {
    var d := (num - 1) as real;
    var step := (stop - start) / d;
    assert d * step == stop - start;
    var r := Linspace(start, stop, num);
    assert r[k] == start + (k as real) * step;
    if k + 1 == num - 1 {
      assert (k as real) == d - 1.0;
      assert (d - 1.0) * step == d * step - step;
    } else {
      assert r[k + 1] == start + ((k + 1) as real) * step;
      assert ((k + 1) as real) * step == (k as real) * step + step;
    }
  }

  /** start + a * step < b-th point, for a < b and a positive step. */
  lemma ScaledOrder(a: real, b: real, step: real, start: real, target: real)
    requires a < b && step > 0.0 && target == start + b * step
    ensures start + a * step < target
  {
    MulPositive(b - a, step);
    assert (b - a) * step == b * step - a * step;
  }

  lemma Quotient(x: real, d: real)
    requires x > 0.0 && d > 0.0
    ensures x / d > 0.0 && d * (x / d) == x && (x / d) * d == x
  {
  }

  /** t_eval of `run`: 40 evaluation times from 0 to 1. */
  function EvalTimes(): (t: seq<real>)
    ensures |t| == NumEvalPoints
  {
    Linspace(TauInitial, TauFinal, NumEvalPoints)
  }

  /** The sample times span [0, 1] and strictly increase. */
  lemma EvalTimesSpanUnitInterval()
    ensures EvalTimes()[0] == 0.0 && EvalTimes()[NumEvalPoints - 1] == 1.0
    ensures forall i, j :: 0 <= i < j < NumEvalPoints ==> EvalTimes()[i] < EvalTimes()[j]
  {
    forall i, j | 0 <= i < j < NumEvalPoints
      ensures EvalTimes()[i] < EvalTimes()[j]
    {
      LinspaceIncreasing(TauInitial, TauFinal, NumEvalPoints, i, j);
    }
  }

  /** Every row of y has w entries. */
  predicate IsMatrix(y: seq<seq<real>>, w: nat)
  {
    forall k :: 0 <= k < |y| ==> |y[k]| == w
  }

  /** np.transpose of a |y| x w matrix: row j of the result is column j of y. */
  function Transpose(y: seq<seq<real>>, w: nat): (t: seq<seq<real>>)
    requires IsMatrix(y, w)
    ensures |t| == w && IsMatrix(t, |y|)
    ensures forall j, k :: 0 <= j < w && 0 <= k < |y| ==> t[j][k] == y[k][j]
  {
    seq(w, j requires 0 <= j < w => seq(|y|, k requires 0 <= k < |y| => y[k][j]))
  }

  /** Transposing twice gives the matrix back. */
  lemma TransposeInvolution(y: seq<seq<real>>, w: nat)
    requires IsMatrix(y, w)
    ensures Transpose(Transpose(y, w), |y|) == y
  {
    var t := Transpose(Transpose(y, w), |y|);
    assert |t| == |y|;
    forall k | 0 <= k < |y|
      ensures t[k] == y[k]
    {
      assert |t[k]| == w == |y[k]|;
    }
  }

  /** What `run` uses of the integrator's answer: its status code and `y`,
      one row per state component and one column per evaluation time. */
  datatype SolverResult = SolverResult(status: int, y: seq<seq<real>>)

  /** The integrator's guarantee on success (status 0) for initial state y0:
      one component per entry of y0, each sampled at every requested
      evaluation time, and the sample at the first time (0) is y0 itself. */
  predicate Honours(s: SolverResult, y0: seq<real>)
  {
    s.status == 0 ==>
      && |s.y| == |y0|
      && IsMatrix(s.y, |EvalTimes()|)
      && forall k :: 0 <= k < |y0| ==> s.y[k][0] == y0[k]
  }

  /** The distance table of a trajectory: one row per trajectory row, in the
      same order, holding the six pair distances in column order "12" .. "34". */
  function DistanceTable(m: MathLib, df: seq<seq<real>>): (t: seq<seq<real>>)
    requires IsTrajectory(df)
    ensures |t| == |df|
    ensures forall i :: 0 <= i < |t| ==> |t[i]| == |DistanceColumns|
  {
    seq(|df|, i requires 0 <= i < |df| => DistanceRow(m, df[i]))
  }

  /** Cell (i, p) of the distance table is the distance, at sample i, between
      the two entities column p names: non-negative, the same whichever entity
      is named first, and 0 exactly when the two entities coincide. */
  lemma DistanceTableEntry(m: MathLib, df: seq<seq<real>>, i: int, p: int)
    requires Sound(m) && IsTrajectory(df) && 0 <= i < |df| && 0 <= p < |DistanceColumns|
    ensures var a, b := Position(df[i], PairFirst[p]), Position(df[i], PairSecond[p]);
      && DistanceTable(m, df)[i][p] == Distance(m, a, b) == Distance(m, b, a)
      && DistanceTable(m, df)[i][p] >= 0.0
      && (DistanceTable(m, df)[i][p] == 0.0 <==> a == b)
  {
    var a, b := Position(df[i], PairFirst[p]), Position(df[i], PairSecond[p]);
    DistanceRowFollowsEntities(m, df[i], p);
    DistanceSymmetric(m, a, b);
    DistanceNonNegative(m, a, b);
    DistanceZeroIffCoincide(m, a, b);
  }

  /** The angle table as the vectorised assignments leave it, before the
      sign-flip loop. */
  function UnsignedAngleTable(m: MathLib, df: seq<seq<real>>): (t: seq<seq<Angle>>)
    requires IsTrajectory(df)
    ensures |t| == |df|
    ensures forall i :: 0 <= i < |t| ==> t[i] == UnsignedAngleRow(m, df[i])
  {
    seq(|df|, i requires 0 <= i < |df| => UnsignedAngleRow(m, df[i]))
  }

  /** The final angle table: one row per trajectory row, in the same order.
      The dorsal angles are those of the two axes; each anterior angle is
      negated exactly when its axis points up (z > 0), i.e. when entity 2 is
      above entity 1 (ABa_ant), or entity 3 above entity 4 (ABp_ant). */
  function AngleTable(m: MathLib, df: seq<seq<real>>): (t: seq<seq<Angle>>)
    requires IsTrajectory(df)
    ensures |t| == |df|
    ensures forall i :: 0 <= i < |t| ==> |t[i]| == |AngleColumns|
    ensures forall i :: 0 <= i < |t| ==>
      var a, p := Minus(Position(df[i], 2), Position(df[i], 1)), Minus(Position(df[i], 3), Position(df[i], 4));
      && t[i][ABaDorsal] == DorsalAngle(m, a)
      && t[i][ABpDorsal] == DorsalAngle(m, p)
      && t[i][ABaAnt] == (if Position(df[i], 2).z > Position(df[i], 1).z
                          then Negate(AnteriorAngle(m, a)) else AnteriorAngle(m, a))
      && t[i][ABpAnt] == (if Position(df[i], 3).z > Position(df[i], 4).z
                          then Negate(AnteriorAngle(m, p)) else AnteriorAngle(m, p))
  {
    AngleRowsFollowEntities(m, df);
    seq(|df|, i requires 0 <= i < |df| => AngleRow(m, df[i]))
  }

  lemma AngleRowsFollowEntities(m: MathLib, df: seq<seq<real>>)
    requires IsTrajectory(df)
    ensures forall i :: 0 <= i < |df| ==>
      var a, p := Minus(Position(df[i], 2), Position(df[i], 1)), Minus(Position(df[i], 3), Position(df[i], 4));
      AngleRow(m, df[i]) ==
        [ DorsalAngle(m, a), DorsalAngle(m, p),
          if Position(df[i], 2).z > Position(df[i], 1).z then Negate(AnteriorAngle(m, a)) else AnteriorAngle(m, a),
          if Position(df[i], 3).z > Position(df[i], 4).z then Negate(AnteriorAngle(m, p)) else AnteriorAngle(m, p) ]
  {
    forall i | 0 <= i < |df|
      ensures Axis1To2(df[i]) == Minus(Position(df[i], 2), Position(df[i], 1))
      ensures Axis4To3(df[i]) == Minus(Position(df[i], 3), Position(df[i], 4))
    {
    }
  }

  /** The sign-flip pass touches only the anterior columns. */
  lemma FlipKeepsDorsal(m: MathLib, df: seq<seq<real>>, i: int)
    requires IsTrajectory(df) && 0 <= i < |df|
    ensures AngleTable(m, df)[i][ABaDorsal] == UnsignedAngleTable(m, df)[i][ABaDorsal]
    ensures AngleTable(m, df)[i][ABpDorsal] == UnsignedAngleTable(m, df)[i][ABpDorsal]
    ensures AngleTable(m, df)[i][ABaAnt] in {UnsignedAngleTable(m, df)[i][ABaAnt], Negate(UnsignedAngleTable(m, df)[i][ABaAnt])}
    ensures AngleTable(m, df)[i][ABpAnt] in {UnsignedAngleTable(m, df)[i][ABpAnt], Negate(UnsignedAngleTable(m, df)[i][ABpAnt])}
  {
  }

  /** Each derived row depends on its own trajectory row only. */
  lemma DerivedRowsAreLocal(m: MathLib, df: seq<seq<real>>, other: seq<seq<real>>, i: int, j: int)
    requires IsTrajectory(df) && IsTrajectory(other)
    requires 0 <= i < |df| && 0 <= j < |other| && df[i] == other[j]
    ensures DistanceTable(m, df)[i] == DistanceTable(m, other)[j]
    ensures AngleTable(m, df)[i] == AngleTable(m, other)[j]
  {
  }

  /** The flip of one row, cell by cell as the loop does it, turns the
      unsigned row into the signed one. */
  lemma FlipStep(m: MathLib, r: seq<real>)
    requires IsState(r)
    ensures var u, a, p := UnsignedAngleRow(m, r), Axis1To2(r), Axis4To3(r);
      var once := if -a.z < 0.0 then u[ABaAnt := Negate(u[ABaAnt])] else u;
      AngleRow(m, r) == if -p.z < 0.0 then once[ABpAnt := Negate(once[ABpAnt])] else once
  {
  }

  class Simulator {
    /** np.sqrt and np.arccos in degrees, as the simulator uses them. */
    const lib: MathLib
    /** The initial state handed to the integrator. */
    const y0: seq<real>
    /** The trajectory table: columns "0" .. "11", one row per sample. */
    var df: seq<seq<real>>
    /** Columns "12", "13", "14", "23", "24", "34". */
    var distance: seq<seq<real>>
    /** Columns "ABa_dorsal", "ABp_dorsal", "ABa_ant", "ABp_ant". */
    var angle: seq<seq<Angle>>

    /** The derived tables are those of the current trajectory, row for row:
        as many rows as the trajectory, in the same order (all three empty
        before the first run). */
    ghost predicate Valid()
      reads this
    {
      && IsTrajectory(df)
      && distance == DistanceTable(lib, df)
      && angle == AngleTable(lib, df)
    }

    constructor (lib: MathLib, y0: seq<real>)
      ensures Valid()
      ensures this.lib == lib && this.y0 == y0
      ensures df == [] && distance == [] && angle == []
    {
      this.lib := lib;
      this.y0 := y0;
      df, distance, angle := [], [], [];
    }

    /** compute_distance: raises on an empty trajectory table; otherwise
        fills the six pair columns from it. */
    method ComputeDistance() returns (r: Outcome)
      requires IsTrajectory(df)
      modifies this`distance
      ensures df == [] ==> r == Fail(DataFrameNotFound) && distance == old(distance)
      ensures df != [] ==> r == Pass && distance == DistanceTable(lib, df)
      ensures old(Valid()) ==> Valid()
    {
      if df == [] {
        return Fail(DataFrameNotFound);
      }
      distance := DistanceTable(lib, df);
      r := Pass;
    }

    /** compute_angles: raises on an empty trajectory table; otherwise fills
        the four angle columns, then visits every row once and negates each
        anterior angle whose axis has a negative "-z" entry. */
    method ComputeAngles() returns (r: Outcome)
      requires IsTrajectory(df)
      modifies this`angle
      ensures df == [] ==> r == Fail(DataFrameNotFound) && angle == old(angle)
      ensures df != [] ==> r == Pass && angle == AngleTable(lib, df)
      ensures old(Valid()) ==> Valid()
      ensures df != [] && distance == DistanceTable(lib, df) ==> Valid()
    {
      if df == [] {
        return Fail(DataFrameNotFound);
      }
      angle := UnsignedAngleTable(lib, df);
      FlipAnteriorSigns();
      r := Pass;
    }

    /** The sign-flip loop of compute_angles: visits the rows in order and
        negates ABa_ant (resp. ABp_ant) in place when the stored -z of
        axis_1to2 (resp. axis_4to3) is negative. */
    method FlipAnteriorSigns()
      requires IsTrajectory(df) && angle == UnsignedAngleTable(lib, df)
      modifies this`angle
      ensures angle == AngleTable(lib, df)
    {
      ghost var unsigned, signed := angle, AngleTable(lib, df);
      var i := 0;
      while i < |angle|
        invariant |angle| == |df| && 0 <= i <= |angle|
        invariant forall k :: 0 <= k < i ==> angle[k] == signed[k]
        invariant forall k :: i <= k < |angle| ==> angle[k] == unsigned[k]
      {
        var axis1to2, axis4to3 := Axis1To2(df[i]), Axis4To3(df[i]);
        var row := angle[i];
        FlipStep(lib, df[i]);
        if -axis1to2.z < 0.0 {
          row := row[ABaAnt := Negate(row[ABaAnt])];
        }
        if -axis4to3.z < 0.0 {
          row := row[ABpAnt := Negate(row[ABpAnt])];
        }
        assert row == signed[i];
        angle := angle[i := row];
        i := i + 1;
      }
      assert angle == signed;
    }

    /** run: fails before touching any table when the integrator reports a
        non-zero status, or when the samples do not have the 12 columns the
        trajectory table is built with; otherwise stores the transposed
        samples as the trajectory table and recomputes both derived tables
        from it. */
    method Run(solver: SolverResult) returns (r: Outcome)
      requires Valid() && Honours(solver, y0)
      modifies this
      ensures Valid()
      ensures solver.status != 0 ==>
        r == Fail(SolverFailed) && df == old(df) && distance == old(distance) && angle == old(angle)
      ensures solver.status == 0 && |y0| != StateWidth ==>
        r == Fail(ShapeMismatch) && df == old(df) && distance == old(distance) && angle == old(angle)
      ensures solver.status == 0 && |y0| == StateWidth ==>
        && r == Pass
        && df == Transpose(solver.y, |EvalTimes()|)
        && |df| == NumEvalPoints
        && df[0] == y0
        && distance == DistanceTable(lib, df)
        && angle == AngleTable(lib, df)
    {
      if solver.status != 0 {
        return Fail(SolverFailed);
      }
      if |solver.y| != StateWidth {
        return Fail(ShapeMismatch);
      }
      df := Transpose(solver.y, |EvalTimes()|);
      assert df[0] == y0;
      r := ComputeDistance();
      if r.Fail? {
        return;
      }
      r := ComputeAngles();
    }
  }
}
