/** N cells simulated together (behavior/motion_vectorized.py): positions, body
    velocities and spin vectors are N-row arrays updated in place, orientations and
    sedimentation velocities are rebuilt as a whole, and numpy-quaternion's
    `from_rotation_vector` replaces pyquaternion. Every row evolves on its own data. */
module MotionVectorized {
  import opened Results
  import opened Quaternions
  import opened Elementary
  import opened Rotations
  import opened Motion

  /** An argument that numpy broadcasts over the N cells: one value for all of
      them, or one value per row. */
  datatype Broadcast<T> = Single(value: T) | Rows(rows: seq<T>)

  /** The argument broadcasts to n rows. */
  predicate Fits<T>(b: Broadcast<T>, n: nat) {
    b.Single? || |b.rows| == n
  }

  /** Row i of a broadcast argument. */
  function At<T>(b: Broadcast<T>, i: nat): T
    requires b.Single? || i < |b.rows|
  {
    if b.Single? then b.value else b.rows[i]
  }

  /** `set_orientation(axis, angle)`: `from_rotation_vector(axis * angle)`, for the one
      axis of every cell or for the axis of each row. */
  function Orientations(m: MathLib, axes: Broadcast<Vec3>, angle: real, n: nat): (r: seq<Quat>)
    requires Fits(axes, n)
    ensures |r| == n
    ensures axes.Single? ==> forall i, j :: 0 <= i < n && 0 <= j < n ==> r[i] == r[j]
  {
    seq(n, i requires 0 <= i < n => FromRotationVector(m, Scale(angle, At(axes, i))))
  }

  /** Every orientation `set_orientation` builds is a unit quaternion. */
  lemma OrientationsUnit(m: MathLib, axes: Broadcast<Vec3>, angle: real, n: nat)
    requires Lawful(m) && Fits(axes, n)
    ensures forall i :: 0 <= i < n ==> QNormSq(Orientations(m, axes, angle, n)[i]) == 1.0
  {
    forall i | 0 <= i < n
      ensures QNormSq(Orientations(m, axes, angle, n)[i]) == 1.0
    {
      FromRotationVectorUnit(m, Scale(angle, At(axes, i)));
    }
  }

  /** The default orientation of the batch is the default of a single cell: a right
      angle about x built by numpy-quaternion is the one pyquaternion builds. */
  lemma DefaultOrientationsAgree(m: MathLib, n: nat)
    requires TrigLaws(m) && RootLaws(m)
    ensures Orientations(m, Single(EX), m.pi / 2.0, n) == seq(n, _ => DefaultQuat(m))
  {
    DefaultRotationVector(m);
  }

  /** `from_rotation_vector((π/2, 0, 0))` is (cos π/4, sin π/4, 0, 0). */
  lemma DefaultRotationVector(m: MathLib)
    requires TrigLaws(m) && RootLaws(m)
    ensures FromRotationVector(m, Scale(m.pi / 2.0, EX)) == DefaultQuat(m)
  {
    QuarterHalfNorm(m);
    var h := m.pi / 4.0;
    assert m.sin(h) / h * (m.pi / 2.0 / 2.0) == m.sin(h);
  }

  /** The half angle of the rotation vector (π/2, 0, 0) is π/4. */
  lemma QuarterHalfNorm(m: MathLib)
    requires TrigLaws(m) && RootLaws(m)
    ensures HalfNorm(m, Scale(m.pi / 2.0, EX)) == m.pi / 4.0
  {
    assert NormSq(Scale(m.pi / 2.0, EX)) / 4.0 == (m.pi / 4.0) * (m.pi / 4.0);
    SqrtUnique(m, NormSq(Scale(m.pi / 2.0, EX)) / 4.0, m.pi / 4.0);
  }

  /** The axes (cos θ_i, sin θ_i, 0) of the planar `set_orientation(theta)`. */
  function PlaneAxes(m: MathLib, theta: Broadcast<real>, n: nat): (r: Broadcast<Vec3>)
    requires Fits(theta, n)
    ensures Fits(r, n)
  {
    Rows(seq(n, i requires 0 <= i < n => Vec3(m.cos(At(theta, i)), m.sin(At(theta, i)), 0.0)))
  }

  /** Row by row, the planar batch starts where a single planar cell with the same
      angle starts. */
  lemma PlaneOrientationsAgree(m: MathLib, theta: Broadcast<real>, n: nat)
    requires Lawful(m) && Fits(theta, n)
    ensures forall i :: 0 <= i < n ==>
              PlaneOrientation(m, At(theta, i)) == Ok(Orientations(m, PlaneAxes(m, theta, n), m.pi / 2.0, n)[i])
  {
    forall i | 0 <= i < n
      ensures PlaneOrientation(m, At(theta, i)) == Ok(Orientations(m, PlaneAxes(m, theta, n), m.pi / 2.0, n)[i])
    {
      Pythagoras(m, At(theta, i));
      var u := Vec3(m.cos(At(theta, i)), m.sin(At(theta, i)), 0.0);
      assert NormSq(u) == 1.0;
      AxisAngleRotationVector(m, u, m.pi / 2.0);
    }
  }

  /** The orientations after one three-dimensional step of `integrate`, row by row:
      each row turns at its own spin plus its own gravity torque. */
  function Steps(m: MathLib, qs: seq<Quat>, omegas: seq<Vec3>, beta: real, h: real): (r: seq<Quat>)
    requires |qs| == |omegas|
    ensures |r| == |qs|
  {
    seq(|qs|, i requires 0 <= i < |qs| => SteppedOrientation(m, qs[i], Add(omegas[i], GravityRate(qs[i], beta)), h))
  }

  /** A step keeps every unit orientation a unit quaternion. */
  lemma StepsUnit(m: MathLib, qs: seq<Quat>, omegas: seq<Vec3>, beta: real, h: real)
    requires Lawful(m) && |qs| == |omegas| && forall i :: 0 <= i < |qs| ==> QNormSq(qs[i]) == 1.0
    ensures forall i :: 0 <= i < |qs| ==> QNormSq(Steps(m, qs, omegas, beta, h)[i]) == 1.0
  {
    forall i | 0 <= i < |qs|
      ensures QNormSq(Steps(m, qs, omegas, beta, h)[i]) == 1.0
    {
      SteppedUnit(m, qs[i], Add(omegas[i], GravityRate(qs[i], beta)), h);
    }
  }

  /** Without spin and gravity torque a step leaves every unit orientation as it is. */
  lemma StepsAtRest(m: MathLib, qs: seq<Quat>, omegas: seq<Vec3>, h: real)
    requires Lawful(m) && |qs| == |omegas|
    requires forall i :: 0 <= i < |qs| ==> QNormSq(qs[i]) == 1.0 && omegas[i] == Zero
    ensures Steps(m, qs, omegas, 0.0, h) == qs
  {
    forall i | 0 <= i < |qs|
      ensures Steps(m, qs, omegas, 0.0, h)[i] == qs[i]
    {
      var g := GravityRate(qs[i], 0.0);
      AddZeros(omegas[i], g);
      RowAtRest(m, qs[i], Add(omegas[i], g), h);
    }
  }

  lemma AddZeros(a: Vec3, b: Vec3)
    requires a == Zero && b == Zero
    ensures Add(a, b) == Zero
  {
  }

  /** One row at rest: a zero turning rate leaves a unit orientation in place. */
  lemma RowAtRest(m: MathLib, q: Quat, rate: Vec3, h: real)
    requires Lawful(m) && QNormSq(q) == 1.0 && rate == Zero
    ensures SteppedOrientation(m, q, rate, h) == q
  {
    StepAtRest(m, q, h);
  }

  // ---- the batch spiral axis --------------------------------------------------------

  /** Row i of `spiral_axis()` as written: the vector part of q from_rotation_vector(ω) q*,
      which is not the pure quaternion (0, ω) of the single-cell version. */
  function BatchSpiralAxis(m: MathLib, q: Quat, omega: Vec3): (r: Vec3)
    ensures r == Rotate(q, VecPart(FromRotationVector(m, omega)))
  {
    SandwichVecPart(q, FromRotationVector(m, omega));
    VecPart(Mul(Mul(q, FromRotationVector(m, omega)), Conj(q)))
  }

  /** One full turn per second, the default spin, has a rotation vector of length 2π:
      `from_rotation_vector` turns it into the rotation by 2π, -1, whose vector part is zero. */
  lemma FullTurnVectorPart(m: MathLib, theta: real)
    requires Lawful(m)
    ensures VecPart(FromRotationVector(m, SpinVector(m, theta, 2.0 * m.pi))) == Zero
  {
    var w := SpinVector(m, theta, 2.0 * m.pi);
    SpinVectorShape(m, theta, 2.0 * m.pi);
    assert NormSq(w) / 4.0 == m.pi * m.pi;
    SqrtUnique(m, NormSq(w) / 4.0, m.pi);
    SinPi(m);
  }

  /** The batch spiral axis of a cell spinning at the default one turn per second is
      the zero vector, whatever its orientation and tilt; the world-frame spin of the
      single cell has length 2π for a unit orientation. */
  lemma SpiralAxisVanishes(m: MathLib, q: Quat, theta: real)
    requires Lawful(m) && QNormSq(q) == 1.0
    ensures BatchSpiralAxis(m, q, SpinVector(m, theta, 2.0 * m.pi)) == Zero
    ensures NormSq(Rotate(q, SpinVector(m, theta, 2.0 * m.pi))) == 4.0 * m.pi * m.pi
    ensures 0.0 < NormSq(Rotate(q, SpinVector(m, theta, 2.0 * m.pi)))
  {
    FullTurnVectorPart(m, theta);
    RotateZero(q);
    SpinVectorShape(m, theta, 2.0 * m.pi);
    RotatePreservesLength(q, SpinVector(m, theta, 2.0 * m.pi));
    ProductPositive(m.pi, m.pi, m.pi * m.pi);
  }

  // ---- the batch planar correction --------------------------------------------------

  /** |p_H| of the batch correction, where p_H keeps the z column of p: |p_z|. */
  function VerticalNorm(m: MathLib, p: Vec3): real {
    m.sqrt(NormSq(Vec3(0.0, 0.0, p.z)))
  }

  /** The correction of one row as written: `from_rotation_vector` of the unnormalised
      axis e_z × p times atan2(p_z, |p_z|). */
  function BatchCorrection(m: MathLib, p: Vec3): Quat {
    FromRotationVector(m, Scale(m.atan2(p.z, VerticalNorm(m, p)), Cross(EZ, p)))
  }

  /** The correction of a row whose orientation is q: the main axis is normalised
      first (numpy's 0/0 for a zero axis). */
  function BatchPlanarCorrection(m: MathLib, q: Quat): Result<Quat> {
    var p0 := Rotate(q, EZ);
    var n := m.sqrt(NormSq(p0));
    if n == 0.0 then Err(InvalidValue) else Ok(BatchCorrection(m, Vec3(p0.x / n, p0.y / n, p0.z / n)))
  }

  /** For a unit orientation the correction exists, is a unit quaternion, and is
      computed from the main axis itself. */
  lemma BatchPlanarCorrectionOfUnit(m: MathLib, q: Quat)
    requires Lawful(m) && QNormSq(q) == 1.0
    ensures BatchPlanarCorrection(m, q) == Ok(BatchCorrection(m, Rotate(q, EZ)))
    ensures QNormSq(BatchCorrection(m, Rotate(q, EZ))) == 1.0
  {
    RotateNormSq(q, EZ);
    SqrtUnique(m, 1.0, 1.0);
    var p0 := Rotate(q, EZ);
    assert Vec3(p0.x / 1.0, p0.y / 1.0, p0.z / 1.0) == p0;
    FromRotationVectorUnit(m, Scale(m.atan2(p0.z, VerticalNorm(m, p0)), Cross(EZ, p0)));
  }

  /** A row whose main axis is already horizontal gets the identity correction. */
  lemma BatchCorrectionFlat(m: MathLib, p: Vec3)
    requires RootLaws(m) && Atan2Laws(m) && p.z == 0.0
    ensures BatchCorrection(m, p) == Identity
  {
    FlatAngle(m, p);
    assert Scale(m.atan2(p.z, VerticalNorm(m, p)), Cross(EZ, p)) == Zero;
    FromRotationVectorZero(m);
  }

  /** The batch correction angle of a horizontal main axis is atan2(0, 0) = 0. */
  lemma FlatAngle(m: MathLib, p: Vec3)
    requires RootLaws(m) && Atan2Laws(m) && p.z == 0.0
    ensures m.atan2(p.z, VerticalNorm(m, p)) == 0.0
  {
    VerticalNormZero(m, p);
    Atan2Origin(m, p.z, VerticalNorm(m, p));
  }

  lemma VerticalNormZero(m: MathLib, p: Vec3)
    requires RootLaws(m) && p.z == 0.0
    ensures VerticalNorm(m, p) == 0.0
  {
    FlatNormSq(p);
    SqrtZero(m, 0.0);
  }

  lemma FlatNormSq(p: Vec3)
    requires p.z == 0.0
    ensures NormSq(Vec3(0.0, 0.0, p.z)) == 0.0
  {
  }

  lemma Atan2Origin(m: MathLib, y: real, x: real)
    requires Atan2Laws(m) && y == 0.0 && x == 0.0
    ensures m.atan2(y, x) == 0.0
  {
  }

  /** The main axis of the example: elevation atan2(0.8, 0.6), above the plane. */
  const Tilted := Vec3(0.6, 0.0, 0.8)

  /** The rotation vector of the batch correction at `Tilted`: (0, 0.15 π, 0). */
  lemma TiltedRotationVector(m: MathLib)
    requires RootLaws(m) && Atan2Laws(m)
    ensures Scale(m.atan2(Tilted.z, VerticalNorm(m, Tilted)), Cross(EZ, Tilted)) == Vec3(0.0, 0.15 * m.pi, 0.0)
  {
    TiltedAngle(m);
    TiltedAxis(m.atan2(Tilted.z, VerticalNorm(m, Tilted)), m.pi);
  }

  /** The batch correction angle at `Tilted` is atan2(0.8, 0.8) = π/4. */
  lemma TiltedAngle(m: MathLib)
    requires RootLaws(m) && Atan2Laws(m)
    ensures m.atan2(Tilted.z, VerticalNorm(m, Tilted)) == m.pi / 4.0
  {
    TiltedVerticalNorm(m);
    Atan2Diagonal(m, Tilted.z, VerticalNorm(m, Tilted));
  }

  /** The unnormalised axis e_z × (0.6, 0, 0.8) = (0, 0.6, 0), scaled by π/4. */
  lemma TiltedAxis(t: real, pi: real)
    requires t == pi / 4.0
    ensures Scale(t, Cross(EZ, Tilted)) == Vec3(0.0, 0.15 * pi, 0.0)
  {
  }

  /** |p_z| = 0.8 at `Tilted`. */
  lemma TiltedVerticalNorm(m: MathLib)
    requires RootLaws(m)
    ensures VerticalNorm(m, Tilted) == 0.8
  {
    assert NormSq(Vec3(0.0, 0.0, Tilted.z)) == 0.64;
    SqrtUnique(m, 0.64, 0.8);
  }

  lemma Atan2Diagonal(m: MathLib, y: real, x: real)
    requires Atan2Laws(m) && 0.0 < x && y == x
    ensures m.atan2(y, x) == m.pi / 4.0
  {
  }

  /** `from_rotation_vector((0, 2a, 0))` for a > 0 is (cos a, 0, sin a, 0). */
  lemma AboutYFields(m: MathLib, a: real)
    requires TrigLaws(m) && RootLaws(m) && 0.0 < a
    ensures FromRotationVector(m, Vec3(0.0, 2.0 * a, 0.0)).w == m.cos(a)
    ensures FromRotationVector(m, Vec3(0.0, 2.0 * a, 0.0)).x == 0.0
    ensures FromRotationVector(m, Vec3(0.0, 2.0 * a, 0.0)).y == m.sin(a)
    ensures FromRotationVector(m, Vec3(0.0, 2.0 * a, 0.0)).z == 0.0
  {
    assert NormSq(Vec3(0.0, 2.0 * a, 0.0)) / 4.0 == a * a;
    SqrtUnique(m, NormSq(Vec3(0.0, 2.0 * a, 0.0)) / 4.0, a);
    assert m.sin(a) / a * (2.0 * a / 2.0) == m.sin(a);
  }

  lemma AboutY(m: MathLib, a: real)
    requires TrigLaws(m) && RootLaws(m) && 0.0 < a
    ensures FromRotationVector(m, Vec3(0.0, 2.0 * a, 0.0)) == Quat(m.cos(a), 0.0, m.sin(a), 0.0)
  {
    AboutYFields(m, a);
  }

  /** The batch correction at `Tilted` is the rotation by 0.15 π about y. */
  lemma TiltedCorrection(m: MathLib)
    requires Lawful(m)
    ensures BatchCorrection(m, Tilted) == Quat(m.cos(0.075 * m.pi), 0.0, m.sin(0.075 * m.pi), 0.0)
  {
    var a := 0.075 * m.pi;
    TiltedRotationVector(m);
    assert Vec3(0.0, 0.15 * m.pi, 0.0) == Vec3(0.0, 2.0 * a, 0.0);
    AboutY(m, a);
  }

  /** The height of v after the rotation (c, 0, s, 0) about y. */
  lemma RotateAboutY(c: real, s: real, v: Vec3)
    ensures Rotate(Quat(c, 0.0, s, 0.0), v).z == v.z * (c * c - s * s) - 2.0 * c * s * v.x
  {
    SandwichFields(Quat(c, 0.0, s, 0.0), v);
  }

  /** The height of `Tilted` after the rotation (c, 0, s, 0) about y. */
  lemma RotateTilted(c: real, s: real)
    ensures Rotate(Quat(c, 0.0, s, 0.0), Tilted).z == 0.8 * (c * c - s * s) - 2.0 * c * s * 0.6
  {
    RotateAboutY(c, s, Tilted);
  }

  /** |s| <= a gives s² <= a². */
  lemma SquareBound(s: real, a: real)
    requires -a <= s <= a
    ensures s * s <= a * a
  {
    assert a * a - s * s == (a - s) * (a + s);
    if 0.0 < a - s && 0.0 < a + s {
      ProductPositive(a - s, a + s, (a - s) * (a + s));
    }
  }

  /** With c² + s² = 1 and s² below 0.06, 0.8 (c² - s²) - 1.2 c s stays positive. */
  lemma TiltBound(c: real, s: real)
    requires c * c + s * s == 1.0 && s * s < 0.06
    ensures 0.8 * (c * c - s * s) - 2.0 * c * s * 0.6 > 0.0
  {
    SquarePositive(c - s, (c - s) * (c - s));
    assert 2.0 * c * s <= 1.0;
  }

  /** (0.075 π)² < 0.06 since π < 3.15. */
  lemma SmallAngle(m: MathLib)
    requires TrigLaws(m)
    ensures 0.0 < 0.075 * m.pi
    ensures (0.075 * m.pi) * (0.075 * m.pi) < 0.06
  {
    var a := 0.075 * m.pi;
    assert a < 0.075 * 3.15;
    assert a * a < 0.075 * 3.15 * a;
  }

  /** A turn about y by 2a, with a = 0.075 π, leaves `Tilted` above the plane. */
  lemma SmallTurnStaysAbove(m: MathLib)
    requires TrigLaws(m) && SineBounds(m)
    ensures Rotate(Quat(m.cos(0.075 * m.pi), 0.0, m.sin(0.075 * m.pi), 0.0), Tilted).z > 0.0
  {
    var a := 0.075 * m.pi;
    SmallAngle(m);
    RotateTilted(m.cos(a), m.sin(a));
    Pythagoras(m, a);
    SineBound(m, a);
    TiltHeight(m.cos(a), m.sin(a), a);
  }

  /** The height bound on plain reals: |s| <= a with a² < 0.06. */
  lemma TiltHeight(c: real, s: real, a: real)
    requires s * s + c * c == 1.0
    requires -a <= s <= a && a * a < 0.06
    ensures 0.8 * (c * c - s * s) - 2.0 * c * s * 0.6 > 0.0
  {
    SquareBound(s, a);
    TiltBound(c, s);
  }

  lemma SineBound(m: MathLib, t: real)
    requires SineBounds(m) && 0.0 <= t
    ensures -t <= m.sin(t) <= t
  {
  }

  /** The batch correction does not level a tilted cell: the unit main axis
      (0.6, 0, 0.8) is turned about y by 0.15 π instead of by its elevation
      atan2(0.8, 0.6), and stays above the plane. The correction of the single cell
      (`Levels`) takes the same vector into the plane. */
  lemma BatchCorrectionTilts(m: MathLib)
    requires Lawful(m) && SineBounds(m)
    ensures Rotate(BatchCorrection(m, Tilted), Tilted).z > 0.0
    ensures Levelling(m, Tilted).Ok? && Rotate(Levelling(m, Tilted).value, Tilted).z == 0.0
  {
    TiltedCorrection(m);
    SmallTurnStaysAbove(m);
    TiltedLevels(m);
  }

  /** The single-cell correction takes `Tilted` into the plane. */
  lemma TiltedLevels(m: MathLib)
    requires Lawful(m)
    ensures Levelling(m, Tilted).Ok? && Rotate(Levelling(m, Tilted).value, Tilted).z == 0.0
  {
    assert NormSq(Tilted) == 1.0;
    Levels(m, Tilted);
  }

  /** N cells moving in 3D: `MovingCells` of behavior/motion_vectorized.py. Positions,
      body velocities and spin vectors are N-row arrays changed in place. */
  /** Every quaternion of the sequence is a unit quaternion. */
  ghost predicate AllUnit(qs: seq<Quat>) {
    forall i :: 0 <= i < |qs| ==> QNormSq(qs[i]) == 1.0
  }

  class MovingCells {
    /** The elementary functions the simulation evaluates. */
    const m: MathLib
    const x: array<Vec3>
    const v: array<Vec3>
    const omega: array<Vec3>
    var q: seq<Quat>
    var vSedimentation: seq<Vec3>
    var dt: real
    var betaGravity: real

    /** N rows everywhere, three distinct arrays, lawful elementary functions and unit
        orientations. */
    ghost predicate Valid()
      reads this
    {
      && Lawful(m)
      && v.Length == x.Length && omega.Length == x.Length
      && |q| == x.Length && |vSedimentation| == x.Length
      && x != v && x != omega && v != omega
      && AllUnit(q)
    }

    /** `__len__`: the number of cells, the number of rows of every per-cell quantity. */
    function Length(): (r: nat)
      requires Valid()
      reads this
      ensures r == |q| && r == |vSedimentation| && r == v.Length && r == omega.Length
    {
      x.Length
    }

    /** `MovingCells(N, axis=None)`: N cells at the origin turned by a right angle about
        the given axis (x by default), then the set-up of a single cell: 1 mm/s, a
        spin of one turn per second tilted by 20 degrees, no sedimentation and no
        gravity torque. An (N, 3) axis must have N rows. */
    constructor(m: MathLib, n: nat, axis: Option<Broadcast<Vec3>>)
      requires Lawful(m)
      requires axis.Some? ==> Fits(axis.value, n)
      ensures Valid() && fresh(x) && fresh(v) && fresh(omega)
      ensures this.m == m && x.Length == n
      ensures forall i :: 0 <= i < n ==> x[i] == Zero
      ensures q == Orientations(m, if axis.Some? then axis.value else Single(EX), m.pi / 2.0, n)
      ensures dt == 1.0 && betaGravity == 0.0
      ensures vSedimentation == seq(n, _ => Sedimentation(0.0))
      ensures forall i :: 0 <= i < n ==> v[i] == BodyVelocity(1000.0)
      ensures forall i :: 0 <= i < n ==> omega[i] == SpinVector(m, 20.0 / 180.0 * m.pi, 2.0 * m.pi)
    {
      var axes := if axis.Some? then axis.value else Single(EX);
      var orientations := Orientations(m, axes, m.pi / 2.0, n);
      OrientationsUnit(m, axes, m.pi / 2.0, n);
      assert AllUnit(orientations);
      var velocity, spin := BodyVelocity(1000.0), SpinVector(m, 20.0 / 180.0 * m.pi, 2.0 * m.pi);
      this.m := m;
      x := new Vec3[n](_ => Zero);
      v := new Vec3[n](_ => velocity);
      omega := new Vec3[n](_ => spin);
      q := orientations;
      dt := 1.0;
      vSedimentation := seq(n, _ => Sedimentation(0.0));
      betaGravity := 0.0;
    }

    /** `set_orientation(axis, angle=pi/2)`: every cell turned by the angle about the
        one axis, or each row about its own axis. */
    method SetOrientation(axes: Broadcast<Vec3>, angle: real := m.pi / 2.0)
      requires Valid() && Fits(axes, x.Length)
      modifies this
      ensures Valid()
      ensures q == Orientations(m, axes, angle, x.Length)
      ensures vSedimentation == old(vSedimentation) && dt == old(dt) && betaGravity == old(betaGravity)
    {
      OrientationsUnit(m, axes, angle, x.Length);
      q := Orientations(m, axes, angle, x.Length);
    }

    /** `set_gravity(v_sedimentation=84., beta=7/180*pi)`: every cell sinks at the given
        speed and feels the given torque coefficient. */
    method SetGravity(speed: real := 84.0, beta: real := 7.0 / 180.0 * m.pi)
      requires Valid()
      modifies this
      ensures Valid()
      ensures vSedimentation == seq(x.Length, _ => Sedimentation(speed)) && betaGravity == beta
      ensures q == old(q) && dt == old(dt)
    {
      vSedimentation := seq(x.Length, _ => Vec3(0.0, 0.0, -speed));
      betaGravity := beta;
    }

    /** `set_velocity(v)`: row i of the body velocity becomes (0, 0, v_i); nothing else
        changes. */
    method SetVelocity(speed: Broadcast<real>)
      requires Valid() && Fits(speed, v.Length)
      modifies v
      ensures forall i :: 0 <= i < v.Length ==> v[i] == BodyVelocity(At(speed, i))
    {
      forall i | 0 <= i < v.Length {
        v[i] := Vec3(0.0, 0.0, At(speed, i));
      }
    }

    /** `set_rotation_angle(theta, spin=2*pi)`: row i of the spin vector becomes
        (-sin θ_i s_i, 0, -cos θ_i s_i); nothing else changes. */
    method SetRotationAngle(theta: Broadcast<real>, spin: Broadcast<real> := Single(2.0 * m.pi))
      requires Valid() && Fits(theta, omega.Length) && Fits(spin, omega.Length)
      modifies omega
      ensures forall i :: 0 <= i < omega.Length ==> omega[i] == SpinVector(m, At(theta, i), At(spin, i))
    {
      forall i | 0 <= i < omega.Length
        ensures SpinVector(m, At(theta, i), At(spin, i))
             == Vec3(-m.sin(At(theta, i)) * At(spin, i), 0.0, -m.cos(At(theta, i)) * At(spin, i))
      {
        SpinVectorShape(m, At(theta, i), At(spin, i));
      }
      forall i | 0 <= i < omega.Length {
        omega[i] := Vec3(-m.sin(At(theta, i)) * At(spin, i), 0.0, -m.cos(At(theta, i)) * At(spin, i));
      }
    }

    /** `spiral_axis()` as written: row i is the spin vector's rotation `from_rotation_vector`
        turned into the world frame, whose vector part is not the spin vector. */
    function SpiralAxis(): (r: seq<Vec3>)
      requires Valid()
      reads this, omega
      ensures |r| == |q|
      ensures forall i :: 0 <= i < |r| ==> r[i] == Rotate(q[i], VecPart(FromRotationVector(m, omega[i])))
    {
      var qs, ws := q, omega[..];
      seq(|qs|, i requires 0 <= i < |qs| && i < |ws| => BatchSpiralAxis(m, qs[i], ws[i]))
    }

    /** The spin vectors turned into the world frame, as `spiral_axis` of the single
        cell has them: row i keeps the length of row i of the spin vector. */
    function WorldSpins(): (r: seq<Vec3>)
      requires Valid()
      reads this, omega
      ensures |r| == |q|
      ensures forall i :: 0 <= i < |r| ==> NormSq(r[i]) == NormSq(omega[i])
    {
      var qs, ws := q, omega[..];
      RotationsKeepLength(qs, ws);
      seq(|qs|, i requires 0 <= i < |qs| && i < |ws| => Rotate(qs[i], ws[i]))
    }

    /** `integrate(dt=None)`: row i moves by its own world-frame velocity and sedimentation
        times the step, with the orientation from before the step, and its orientation is
        right-multiplied by the rotation of the step and normalised. */
    method Integrate(step: Option<real>)
      requires Valid()
      modifies this, x
      ensures Valid()
      ensures forall i :: 0 <= i < x.Length ==>
                x[i] == Add(old(x[i]), Displacement(old(q)[i], v[i], vSedimentation[i],
                                                    if step.Some? then step.value else dt))
      ensures q == Steps(m, old(q), omega[..], betaGravity, if step.Some? then step.value else dt)
      ensures vSedimentation == old(vSedimentation) && dt == old(dt) && betaGravity == old(betaGravity)
    {
      var h := if step.Some? then step.value else dt;
      forall i | 0 <= i < x.Length {
        x[i] := Add(x[i], Scale(h, Add(Rotate(q[i], v[i]), vSedimentation[i])));
      }
      StepsUnit(m, q, omega[..], betaGravity, h);
      q := Steps(m, q, omega[..], betaGravity, h);
    }
  }

  /** Rotation by unit quaternions keeps lengths, row by row. */
  lemma RotationsKeepLength(qs: seq<Quat>, ws: seq<Vec3>)
    requires |qs| == |ws| && forall i :: 0 <= i < |qs| ==> QNormSq(qs[i]) == 1.0
    ensures forall i :: 0 <= i < |qs| ==> NormSq(Rotate(qs[i], ws[i])) == NormSq(ws[i])
  {
    forall i | 0 <= i < |qs|
      ensures NormSq(Rotate(qs[i], ws[i])) == NormSq(ws[i])
    {
      RotatePreservesLength(qs[i], ws[i]);
    }
  }

  /** The corrected orientations of the planar batch, row by row. */
  function Corrections(m: MathLib, qs: seq<Quat>): (r: seq<Quat>)
    requires Lawful(m) && forall i :: 0 <= i < |qs| ==> QNormSq(qs[i]) == 1.0
    ensures |r| == |qs|
    ensures forall i :: 0 <= i < |qs| ==> QNormSq(r[i]) == 1.0
    ensures forall i :: 0 <= i < |qs| ==> r[i] == Mul(BatchCorrection(m, Rotate(qs[i], EZ)), qs[i])
  {
    CorrectionsOk(m, qs);
    seq(|qs|, i requires 0 <= i < |qs| => Mul(BatchPlanarCorrection(m, qs[i]).value, qs[i]))
  }

  lemma CorrectionsOk(m: MathLib, qs: seq<Quat>)
    requires Lawful(m) && forall i :: 0 <= i < |qs| ==> QNormSq(qs[i]) == 1.0
    ensures forall i :: 0 <= i < |qs| ==> BatchPlanarCorrection(m, qs[i]) == Ok(BatchCorrection(m, Rotate(qs[i], EZ)))
    ensures forall i :: 0 <= i < |qs| ==> QNormSq(Mul(BatchCorrection(m, Rotate(qs[i], EZ)), qs[i])) == 1.0
  {
    forall i | 0 <= i < |qs|
      ensures BatchPlanarCorrection(m, qs[i]) == Ok(BatchCorrection(m, Rotate(qs[i], EZ)))
      ensures QNormSq(Mul(BatchCorrection(m, Rotate(qs[i], EZ)), qs[i])) == 1.0
    {
      BatchPlanarCorrectionOfUnit(m, qs[i]);
      MulNorm(BatchCorrection(m, Rotate(qs[i], EZ)), qs[i]);
    }
  }

  /** The orientations after one step of the planar batch: the three-dimensional step,
      then the correction of every row. */
  function PlaneSteps(m: MathLib, qs: seq<Quat>, omegas: seq<Vec3>, beta: real, h: real): (r: seq<Quat>)
    requires Lawful(m) && |qs| == |omegas| && forall i :: 0 <= i < |qs| ==> QNormSq(qs[i]) == 1.0
    ensures |r| == |qs|
    ensures forall i :: 0 <= i < |qs| ==> QNormSq(r[i]) == 1.0
  {
    StepsUnit(m, qs, omegas, beta, h);
    Corrections(m, Steps(m, qs, omegas, beta, h))
  }

  /** Rows whose main axis is horizontal keep their orientation through the correction. */
  lemma CorrectionsKeepFlatRows(m: MathLib, qs: seq<Quat>)
    requires Lawful(m) && forall i :: 0 <= i < |qs| ==> QNormSq(qs[i]) == 1.0
    ensures forall i :: 0 <= i < |qs| && Rotate(qs[i], EZ).z == 0.0 ==> Corrections(m, qs)[i] == qs[i]
  {
    forall i | 0 <= i < |qs| && Rotate(qs[i], EZ).z == 0.0
      ensures Corrections(m, qs)[i] == qs[i]
    {
      BatchCorrectionFlat(m, Rotate(qs[i], EZ));
      MulIdentity(qs[i]);
    }
  }

  /** Headings of all rows; a vertical row has none. */
  function Headings(m: MathLib, qs: seq<Quat>): (r: seq<Result<real>>)
    requires RootLaws(m)
    ensures |r| == |qs|
    ensures forall i :: 0 <= i < |qs| ==> (r[i].Err? <==> Rotate(qs[i], EZ).x == 0.0 && Rotate(qs[i], EZ).y == 0.0)
  {
    HeadingsFail(m, qs);
    seq(|qs|, i requires 0 <= i < |qs| => Heading(m, qs[i]))
  }

  lemma HeadingsFail(m: MathLib, qs: seq<Quat>)
    requires RootLaws(m)
    ensures forall i :: 0 <= i < |qs| ==>
              (Heading(m, qs[i]).Err? <==> Rotate(qs[i], EZ).x == 0.0 && Rotate(qs[i], EZ).y == 0.0)
  {
    forall i | 0 <= i < |qs|
      ensures Heading(m, qs[i]).Err? <==> Rotate(qs[i], EZ).x == 0.0 && Rotate(qs[i], EZ).y == 0.0
    {
      BearingFails(m, Rotate(qs[i], EZ));
    }
  }

  /** N cells in a plane: `PlaneMovingCells` of behavior/motion_vectorized.py, built
      around the batch it extends. */
  class PlaneMovingCells {
    const cells: MovingCells

    ghost predicate Valid()
      reads this, cells
    {
      cells.Valid()
    }

    /** `PlaneMovingCells(N, theta=0.)`: N cells at the origin with the velocity and spin
        of a single cell, no sedimentation, and each turned by a right angle about
        (cos θ_i, sin θ_i, 0). `set_gravity(0.)` keeps its default torque coefficient,
        so these cells do feel a gravity torque of 7 degrees per second. */
    constructor(m: MathLib, n: nat, theta: Broadcast<real> := Single(0.0))
      requires Lawful(m) && Fits(theta, n)
      ensures Valid() && fresh(cells) && fresh(cells.x) && fresh(cells.v) && fresh(cells.omega)
      ensures cells.m == m && cells.x.Length == n
      ensures forall i :: 0 <= i < n ==> cells.x[i] == Zero
      ensures cells.q == Orientations(m, PlaneAxes(m, theta, n), m.pi / 2.0, n)
      ensures cells.dt == 1.0 && cells.betaGravity == 7.0 / 180.0 * m.pi
      ensures cells.vSedimentation == seq(n, _ => Sedimentation(0.0))
      ensures forall i :: 0 <= i < n ==> cells.v[i] == BodyVelocity(1000.0)
      ensures forall i :: 0 <= i < n ==> cells.omega[i] == SpinVector(m, 20.0 / 180.0 * m.pi, 2.0 * m.pi)
    {
      var c := new MovingCells(m, n, Some(PlaneAxes(m, theta, n)));
      c.SetGravity(0.0);
      cells := c;
    }

    /** `set_orientation(theta)`: each row turned by a right angle about (cos θ_i, sin θ_i, 0). */
    method SetOrientation(theta: Broadcast<real>)
      requires Valid() && Fits(theta, cells.x.Length)
      modifies cells
      ensures Valid()
      ensures cells.q == Orientations(cells.m, PlaneAxes(cells.m, theta, cells.x.Length), cells.m.pi / 2.0, cells.x.Length)
      ensures cells.vSedimentation == old(cells.vSedimentation) && cells.dt == old(cells.dt)
      ensures cells.betaGravity == old(cells.betaGravity)
    {
      cells.SetOrientation(PlaneAxes(cells.m, theta, cells.x.Length));
    }

    /** `integrate(dt=None)`: the batch step, then each row left-multiplied by its
        correction as written (see `BatchCorrection`). */
    method Integrate(step: Option<real>)
      requires Valid()
      modifies cells, cells.x
      ensures Valid()
      ensures forall i :: 0 <= i < cells.x.Length ==>
                cells.x[i] == Add(old(cells.x[i]), Displacement(old(cells.q)[i], cells.v[i], cells.vSedimentation[i],
                                                                if step.Some? then step.value else cells.dt))
      ensures cells.q == PlaneSteps(cells.m, old(cells.q), cells.omega[..], cells.betaGravity,
                                    if step.Some? then step.value else cells.dt)
      ensures cells.vSedimentation == old(cells.vSedimentation) && cells.dt == old(cells.dt)
      ensures cells.betaGravity == old(cells.betaGravity)
    {
      cells.Integrate(step);
      cells.q := Corrections(cells.m, cells.q);
    }

    /** `orientation()`: the heading of every row. */
    function Orientation(): (r: seq<Result<real>>)
      requires Valid()
      reads this, cells
      ensures |r| == |cells.q|
      ensures forall i :: 0 <= i < |r| ==> (r[i].Err? <==> Rotate(cells.q[i], EZ).x == 0.0 && Rotate(cells.q[i], EZ).y == 0.0)
    {
      Headings(cells.m, cells.q)
    }
  }
}
