/** The per-row geometry of the simulator's post-processing: where each of the
    four entities sits in a state row, the six pairwise distances, the two axis
    vectors and the four view angles with their sign rule. Everything here is a
    pure function of one state row; the tables and the in-place sign-flip loop
    are in module Simulation. */
module Geometry {

  /** The numeric library calls of the source: np.sqrt, and np.arccos followed
      by the conversion to degrees (* 180 / np.pi). Their numerics are not
      modelled; they are parameters, and `Sound` states the facts about them
      that the properties below rely on. */
  datatype MathLib = MathLib(sqrt: real -> real, arccosDeg: real -> real)

  /** What a correct square root and a correct arccos in degrees satisfy. */
  ghost predicate Sound(m: MathLib)
  {
    && (forall x :: 0.0 <= x ==> 0.0 <= m.sqrt(x) && m.sqrt(x) * m.sqrt(x) == x)
    && (forall c :: -1.0 <= c <= 1.0 ==> 0.0 <= m.arccosDeg(c) <= 180.0)
    && (forall c :: -1.0 < c < 1.0 ==> 0.0 < m.arccosDeg(c) < 180.0)
    && m.arccosDeg(1.0) == 0.0
    && m.arccosDeg(-1.0) == 180.0
  }

  /** A state row holds 12 reals: four 3D positions. */
  const StateWidth := 12

  predicate IsState(row: seq<real>)
  {
    |row| == StateWidth
  }

  /** A trajectory table: one state row per sample. */
  predicate IsTrajectory(df: seq<seq<real>>)
  {
    forall i :: 0 <= i < |df| ==> IsState(df[i])
  }

  datatype Point = Point(x: real, y: real, z: real)

  function Minus(a: Point, b: Point): Point
  {
    Point(a.x - b.x, a.y - b.y, a.z - b.z)
  }

  /** Entity k (1..4) occupies columns 3(k-1), 3(k-1)+1, 3(k-1)+2 of a state row. */
  function Position(row: seq<real>, k: int): Point
    requires IsState(row) && 1 <= k <= 4
  {
    var c := 3 * (k - 1);
    Point(row[c], row[c + 1], row[c + 2])
  }

  function Sq(a: real): real
  {
    a * a
  }

  /** Euclidean distance between two points, through the library square root. */
  function Distance(m: MathLib, a: Point, b: Point): real
  {
    m.sqrt(Sq(a.x - b.x) + Sq(a.y - b.y) + Sq(a.z - b.z))
  }

  lemma DistanceNonNegative(m: MathLib, a: Point, b: Point)
    requires Sound(m)
    ensures Distance(m, a, b) >= 0.0
  {
    SqNonNegative(a.x - b.x);
    SqNonNegative(a.y - b.y);
    SqNonNegative(a.z - b.z);
  }

  lemma DistanceSymmetric(m: MathLib, a: Point, b: Point)
    ensures Distance(m, a, b) == Distance(m, b, a)
  {
    assert Sq(a.x - b.x) == Sq(b.x - a.x);
    assert Sq(a.y - b.y) == Sq(b.y - a.y);
    assert Sq(a.z - b.z) == Sq(b.z - a.z);
  }

  lemma DistanceZeroIffCoincide(m: MathLib, a: Point, b: Point)
    requires Sound(m)
    ensures Distance(m, a, b) == 0.0 <==> a == b
  {
    var dx, dy, dz := a.x - b.x, a.y - b.y, a.z - b.z;
    var s := Sq(dx) + Sq(dy) + Sq(dz);
    SqNonNegative(dx);
    SqNonNegative(dy);
    SqNonNegative(dz);
    assert m.sqrt(s) * m.sqrt(s) == s;
    if Distance(m, a, b) == 0.0 {
      SqZero(dx);
      SqZero(dy);
      SqZero(dz);
    }
    if a == b {
      SqrtZero(m);
    }
  }

  lemma SqNonNegative(a: real)
    ensures Sq(a) >= 0.0
  {
    if a > 0.0 {
      MulPositive(a, a);
    } else if a < 0.0 {
      MulPositive(-a, -a);
      assert (-a) * (-a) == a * a;
    }
  }

  lemma MulPositive(x: real, y: real)
    requires x > 0.0 && y > 0.0
    ensures x * y > 0.0
  {
  }

  /** Squaring is strictly increasing on the non-negative reals. */
  lemma SqStrictlyIncreasing(a: real, b: real)
    requires 0.0 <= a < b
    ensures Sq(a) < Sq(b)
  {
    var x, y := b - a, b + a;
    MulPositive(x, y);
    assert x * y == b * b - a * a;
  }

  lemma SqZero(a: real)
    requires Sq(a) <= 0.0
    ensures a == 0.0
  {
    if a > 0.0 {
      SqStrictlyIncreasing(0.0, a);
    } else if a < 0.0 {
      assert Sq(-a) == Sq(a);
      SqStrictlyIncreasing(0.0, -a);
    }
  }

  lemma SqrtZero(m: MathLib)
    requires Sound(m)
    ensures m.sqrt(0.0) == 0.0
  {
    SqZero(m.sqrt(0.0));
  }

  /** Two non-negative reals with the same square are equal. */
  lemma SqInjective(s: real, a: real)
    requires s >= 0.0 && a >= 0.0 && Sq(s) == Sq(a)
    ensures s == a
  {
    if s < a {
      SqStrictlyIncreasing(s, a);
    } else if a < s {
      SqStrictlyIncreasing(a, s);
    }
  }

  /** The distance columns, in the order the source creates them, and the
      entities each column pairs. */
  const DistanceColumns: seq<string> := ["12", "13", "14", "23", "24", "34"]
  const PairFirst: seq<int> := [1, 1, 1, 2, 2, 3]
  const PairSecond: seq<int> := [2, 3, 4, 3, 4, 4]

  /** The digit that names entity k in a column label. */
  function EntityDigit(k: int): char
    requires 1 <= k <= 4
  {
    "1234"[k - 1]
  }

  /** The distance column that holds the pair {i, j}: every unordered pair of
      distinct entities has exactly one column, named by its two indices. */
  function PairColumn(i: int, j: int): (p: nat)
    requires 1 <= i <= 4 && 1 <= j <= 4 && i != j
    ensures p < |DistanceColumns|
    ensures DistanceColumns[p] == [EntityDigit(PairFirst[p]), EntityDigit(PairSecond[p])]
    ensures {PairFirst[p], PairSecond[p]} == {i, j} && PairFirst[p] < PairSecond[p]
    ensures forall q :: 0 <= q < |DistanceColumns| && {PairFirst[q], PairSecond[q]} == {i, j} ==> q == p
  {
    var lo, hi := if i < j then i else j, if i < j then j else i;
    if lo == 1 then hi - 2 else if lo == 2 then hi else 5
  }

  /** One row of the distance table, written with the column indices the
      source uses for "12", "13", "14", "23", "24", "34". Each column is the
      distance between the two entities its label names, read through the
      entity-to-column mapping. */
  function DistanceRow(m: MathLib, r: seq<real>): (d: seq<real>)
    requires IsState(r)
    ensures |d| == |DistanceColumns|
    ensures d[0] == Distance(m, Position(r, 1), Position(r, 2))
    ensures d[1] == Distance(m, Position(r, 1), Position(r, 3))
    ensures d[2] == Distance(m, Position(r, 1), Position(r, 4))
    ensures d[3] == Distance(m, Position(r, 2), Position(r, 3))
    ensures d[4] == Distance(m, Position(r, 2), Position(r, 4))
    ensures d[5] == Distance(m, Position(r, 3), Position(r, 4))
  {
    [ m.sqrt(Sq(r[0] - r[3]) + Sq(r[1] - r[4]) + Sq(r[2] - r[5])),
      m.sqrt(Sq(r[0] - r[6]) + Sq(r[1] - r[7]) + Sq(r[2] - r[8])),
      m.sqrt(Sq(r[0] - r[9]) + Sq(r[1] - r[10]) + Sq(r[2] - r[11])),
      m.sqrt(Sq(r[3] - r[6]) + Sq(r[4] - r[7]) + Sq(r[5] - r[8])),
      m.sqrt(Sq(r[3] - r[9]) + Sq(r[4] - r[10]) + Sq(r[5] - r[11])),
      m.sqrt(Sq(r[6] - r[9]) + Sq(r[7] - r[10]) + Sq(r[8] - r[11])) ]
  }

  /** Column p of a distance row, for any p, is the distance between the
      entities PairFirst[p] and PairSecond[p]. */
  lemma DistanceRowFollowsEntities(m: MathLib, r: seq<real>, p: int)
    requires IsState(r) && 0 <= p < |DistanceColumns|
    ensures DistanceRow(m, r)[p] == Distance(m, Position(r, PairFirst[p]), Position(r, PairSecond[p]))
  {
  }

  /** An angle cell: degrees, or NaN where the source divides 0 by 0. */
  datatype Angle = Degrees(deg: real) | NaN

  /** `cell *= -1`; NaN stays NaN. */
  function Negate(a: Angle): Angle
  {
    match a
    case Degrees(d) => Degrees(-d)
    case NaN => NaN
  }

  /** arccos(num / sqrt(u^2 + v^2)) in degrees. A zero denominator gives NaN
      in floating point (0/0, or +-inf passed to arccos), and NaN here. */
  function ProjectionAngle(m: MathLib, num: real, u: real, v: real): Angle
  {
    var s := m.sqrt(Sq(u) + Sq(v));
    if s == 0.0 then NaN else Degrees(m.arccosDeg(num / s))
  }

  /** axis_1to2: position of entity 2 minus position of entity 1, by column. */
  function Axis1To2(r: seq<real>): (a: Point)
    requires IsState(r)
    ensures a == Minus(Position(r, 2), Position(r, 1))
  {
    Point(r[3] - r[0], r[4] - r[1], r[5] - r[2])
  }

  /** axis_4to3: position of entity 3 minus position of entity 4, by column. */
  function Axis4To3(r: seq<real>): (a: Point)
    requires IsState(r)
    ensures a == Minus(Position(r, 3), Position(r, 4))
  {
    Point(r[6] - r[9], r[7] - r[10], r[8] - r[11])
  }

  /** Dorsal view (x, y), 0 degrees along (-1, 0): arccos(-x / sqrt(x^2 + y^2)). */
  function DorsalAngle(m: MathLib, a: Point): Angle
  {
    ProjectionAngle(m, -a.x, a.x, a.y)
  }

  /** Anterior view (y, z) before the sign flip: arccos(-y / sqrt(y^2 + z^2)). */
  function AnteriorAngle(m: MathLib, a: Point): Angle
  {
    ProjectionAngle(m, -a.y, a.y, a.z)
  }

  /** The anterior angle after the flip, with the condition as the source
      writes it: negate when the stored column -z is negative. */
  function SignedAnteriorAngle(m: MathLib, a: Point): (r: Angle)
    ensures a.z > 0.0 ==> r == Negate(AnteriorAngle(m, a))
    ensures a.z <= 0.0 ==> r == AnteriorAngle(m, a)
  {
    var pre := AnteriorAngle(m, a);
    if -a.z < 0.0 then Negate(pre) else pre
  }

  /** Column order of the angle table. */
  const AngleColumns: seq<string> := ["ABa_dorsal", "ABp_dorsal", "ABa_ant", "ABp_ant"]
  const ABaDorsal := 0
  const ABpDorsal := 1
  const ABaAnt := 2
  const ABpAnt := 3

  /** The four angles of a row as the vectorised assignments compute them,
      before the sign-flip loop. */
  function UnsignedAngleRow(m: MathLib, r: seq<real>): seq<Angle>
    requires IsState(r)
  {
    [ DorsalAngle(m, Axis1To2(r)), DorsalAngle(m, Axis4To3(r)),
      AnteriorAngle(m, Axis1To2(r)), AnteriorAngle(m, Axis4To3(r)) ]
  }

  /** The four angles of a row once the sign-flip loop has visited it. */
  function AngleRow(m: MathLib, r: seq<real>): seq<Angle>
    requires IsState(r)
  {
    [ DorsalAngle(m, Axis1To2(r)), DorsalAngle(m, Axis4To3(r)),
      SignedAnteriorAngle(m, Axis1To2(r)), SignedAnteriorAngle(m, Axis4To3(r)) ]
  }

  /** num / s lies in [-1, 1] whenever s is the length of a vector one of
      whose components is num. */
  lemma ProjectionInRange(num: real, rest: real, s: real)
    requires s > 0.0 && s * s == Sq(num) + Sq(rest)
    ensures -1.0 <= num / s <= 1.0
  {
    SqNonNegative(rest);
    if num > s {
      SqStrictlyIncreasing(s, num);
    } else if -num > s {
      assert Sq(-num) == Sq(num);
      SqStrictlyIncreasing(s, -num);
    }
  }

  /** num / s lies strictly inside (-1, 1) when the other component is not 0. */
  lemma ProjectionStrictlyInRange(num: real, rest: real, s: real)
    requires s > 0.0 && s * s == Sq(num) + Sq(rest) && rest != 0.0
    ensures -1.0 < num / s < 1.0
  {
    SqNonNegative(rest);
    if Sq(rest) <= 0.0 {
      SqZero(rest);
    }
    if num >= s {
      if num > s {
        SqStrictlyIncreasing(s, num);
      }
    } else if -num >= s {
      assert Sq(-num) == Sq(num);
      if -num > s {
        SqStrictlyIncreasing(s, -num);
      }
    }
  }

  /** A view angle whose second component is not 0 lies strictly between 0
      and 180. */
  lemma ProjectionAngleStrict(m: MathLib, u: real, v: real)
    requires Sound(m) && v != 0.0
    ensures ProjectionAngle(m, -u, u, v).Degrees?
    ensures 0.0 < ProjectionAngle(m, -u, u, v).deg < 180.0
  {
    var q := Sq(u) + Sq(v);
    SqNonNegative(u);
    SqNonNegative(v);
    var s := m.sqrt(q);
    assert s >= 0.0 && s * s == q;
    if s == 0.0 {
      SqZero(v);
    }
    ProjectionStrictlyInRange(-u, v, s);
  }

  /** A projection angle is NaN exactly when the projected vector is zero, and
      otherwise lies in [0, 180]. */
  lemma ProjectionAngleRange(m: MathLib, u: real, v: real)
    requires Sound(m)
    ensures ProjectionAngle(m, -u, u, v) == NaN <==> u == 0.0 && v == 0.0
    ensures ProjectionAngle(m, -u, u, v).Degrees? ==>
      0.0 <= ProjectionAngle(m, -u, u, v).deg <= 180.0
  {
    var q := Sq(u) + Sq(v);
    SqNonNegative(u);
    SqNonNegative(v);
    var s := m.sqrt(q);
    assert s >= 0.0 && s * s == q;
    if s == 0.0 {
      SqZero(u);
      SqZero(v);
    } else {
      ProjectionInRange(-u, v, s);
      if u == 0.0 && v == 0.0 {
        SqrtZero(m);
      }
    }
  }

  lemma UnitQuotient(n: real, s: real)
    requires s > 0.0 && (n == s || n == -s)
    ensures n == s ==> n / s == 1.0
    ensures n == -s ==> n / s == -1.0
  {
  }

  /** A vector along the first view axis: pointing at the reference
      direction gives 0 degrees, pointing away gives 180. */
  lemma ProjectionAngleOnAxis(m: MathLib, u: real)
    requires Sound(m)
    ensures u < 0.0 ==> ProjectionAngle(m, -u, u, 0.0) == Degrees(0.0)
    ensures u > 0.0 ==> ProjectionAngle(m, -u, u, 0.0) == Degrees(180.0)
  {
    var q := Sq(u) + Sq(0.0);
    SqNonNegative(u);
    var s := m.sqrt(q);
    assert s >= 0.0 && s * s == q;
    if u < 0.0 {
      SqInjective(s, -u);
      UnitQuotient(-u, s);
    } else if u > 0.0 {
      SqInjective(s, u);
      UnitQuotient(-u, s);
    }
  }

  /** The dorsal angles are never sign-corrected and lie in [0, 180]. */
  lemma DorsalAngleUnsigned(m: MathLib, a: Point)
    requires Sound(m)
    ensures DorsalAngle(m, a) == NaN <==> a.x == 0.0 && a.y == 0.0
    ensures DorsalAngle(m, a).Degrees? ==> 0.0 <= DorsalAngle(m, a).deg <= 180.0
    ensures a.y == 0.0 && a.x < 0.0 ==> DorsalAngle(m, a) == Degrees(0.0)
    ensures a.y == 0.0 && a.x > 0.0 ==> DorsalAngle(m, a) == Degrees(180.0)
  {
    ProjectionAngleRange(m, a.x, a.y);
    ProjectionAngleOnAxis(m, a.x);
  }

  /** The sign rule of the anterior angles: flipped exactly when the axis
      points up (z > 0). An axis pointing up gets an angle strictly between
      -180 and 0, one pointing down an angle strictly between 0 and 180, so
      the two senses of rotation are told apart; an axis with z = 0 keeps its
      unflipped angle in [0, 180], and the angle is NaN exactly when the axis
      has no (y, z) component. Every defined value lies in (-180, 180]. */
  lemma AnteriorSignRule(m: MathLib, a: Point)
    requires Sound(m)
    ensures SignedAnteriorAngle(m, a) ==
      (if a.z > 0.0 then Negate(AnteriorAngle(m, a)) else AnteriorAngle(m, a))
    ensures SignedAnteriorAngle(m, a) == NaN <==> a.y == 0.0 && a.z == 0.0
    ensures a.z > 0.0 ==>
      (SignedAnteriorAngle(m, a).Degrees? && -180.0 < SignedAnteriorAngle(m, a).deg < 0.0)
    ensures a.z < 0.0 ==>
      (SignedAnteriorAngle(m, a).Degrees? && 0.0 < SignedAnteriorAngle(m, a).deg < 180.0)
    ensures SignedAnteriorAngle(m, a).Degrees? && a.z == 0.0 ==>
      0.0 <= SignedAnteriorAngle(m, a).deg <= 180.0
    ensures SignedAnteriorAngle(m, a).Degrees? ==>
      -180.0 < SignedAnteriorAngle(m, a).deg <= 180.0
  {
    ProjectionAngleRange(m, a.y, a.z);
    if a.z != 0.0 {
      ProjectionAngleStrict(m, a.y, a.z);
    }
  }

  /** Mirroring the axis in z (z != 0) mirrors the signed anterior angle: the
      unsigned part is the same and exactly one of the two is flipped. */
  lemma AnteriorMirror(m: MathLib, a: Point)
    requires a.z != 0.0
    ensures SignedAnteriorAngle(m, Point(a.x, a.y, -a.z)) == Negate(SignedAnteriorAngle(m, a))
  {
    var b := Point(a.x, a.y, -a.z);
    assert Sq(b.z) == Sq(a.z);
    assert AnteriorAngle(m, b) == AnteriorAngle(m, a);
    var pre := AnteriorAngle(m, a);
    assert Negate(Negate(pre)) == pre;
  }

  /** When all four entities coincide every distance is 0 and every angle is NaN. */
  lemma CoincidentEntities(m: MathLib, r: seq<real>)
    requires Sound(m) && IsState(r)
    requires Position(r, 1) == Position(r, 2) == Position(r, 3) == Position(r, 4)
    ensures DistanceRow(m, r) == [0.0, 0.0, 0.0, 0.0, 0.0, 0.0]
    ensures AngleRow(m, r) == [NaN, NaN, NaN, NaN]
  {
    SqrtZero(m);
  }
}
