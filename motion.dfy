/** One swimming cell (behavior/motion.py): a rigid body with a position and an
    orientation quaternion that moves with a body-frame velocity along its main
    axis and turns with a body-frame spin, plus an optional sedimentation velocity
    and a gravity torque; and the planar variant that is rotated back into the
    horizontal plane after every step. The body frame has the cell pointing along
    +z and the mouth along +x. */
module Motion {
  import opened Results
  import opened Quaternions
  import opened Elementary
  import opened Rotations

  /** The vertical pointing down, (0, 0, -1). */
  const Down := Vec3(0.0, 0.0, -1.0)

  // ---- quantities shared by the single-cell and the batch simulators ---------------

  /** `set_velocity`: the speed along the main cell axis. */
  function BodyVelocity(speed: real): Vec3 {
    Vec3(0.0, 0.0, speed)
  }

  /** `set_rotation_angle`: the spin vector -(sin θ, 0, cos θ) * spin, tilted by θ
      from the main axis towards the mouth side. */
  function SpinVector(m: MathLib, theta: real, spin: real): Vec3 {
    Scale(spin, Scale(-1.0, Vec3(m.sin(theta), 0.0, m.cos(theta))))
  }

  /** `set_gravity`: sedimentation straight down at the given speed. */
  function Sedimentation(speed: real): Vec3 {
    Vec3(0.0, 0.0, -speed)
  }

  /** The direction of gravity seen in the cell frame, q* (0, 0, -1) q. */
  function GravityDirection(q: Quat): Vec3 {
    Rotate(Conj(q), Down)
  }

  /** The angular velocity of the gravity torque, -β (e_z × p), in the cell frame. */
  function GravityRate(q: Quat, beta: real): (r: Vec3)
    ensures r.z == 0.0
    ensures Dot(r, GravityDirection(q)) == 0.0
    ensures beta == 0.0 ==> r == Zero
  {
    var p := GravityDirection(q);
    CrossOrthogonal(EZ, p);
    assert Dot(Scale(-beta, Cross(EZ, p)), p) == -beta * Dot(Cross(EZ, p), p);
    Scale(-beta, Cross(EZ, p))
  }

  /** The displacement over one step: the body velocity turned into the world frame,
      plus sedimentation, times the step. */
  function Displacement(q: Quat, v: Vec3, sedimentation: Vec3, dt: real): Vec3 {
    Scale(dt, Add(Rotate(q, v), sedimentation))
  }

  /** A cell that neither swims nor sinks stays where it is; with no sedimentation
      a unit orientation keeps the speed: the step has length |dt| |v|. */
  lemma DisplacementLength(q: Quat, v: Vec3, sedimentation: Vec3, dt: real)
    ensures v == Zero && sedimentation == Zero ==> Displacement(q, v, sedimentation, dt) == Zero
    ensures QNormSq(q) == 1.0 && sedimentation == Zero ==>
              NormSq(Displacement(q, v, sedimentation, dt)) == dt * dt * NormSq(v)
  {
    RotateZero(q);
    RotateNormSq(q, v);
    ScaledNormSq(dt, Rotate(q, v));
    assert Add(Rotate(q, v), Zero) == Rotate(q, v);
  }

  /** The spin vector has no y component and its length is |spin|. */
  lemma SpinVectorShape(m: MathLib, theta: real, spin: real)
    requires TrigLaws(m)
    ensures SpinVector(m, theta, spin) == Vec3(-m.sin(theta) * spin, 0.0, -m.cos(theta) * spin)
    ensures NormSq(SpinVector(m, theta, spin)) == spin * spin
  {
    Pythagoras(m, theta);
    assert NormSq(SpinVector(m, theta, spin))
        == spin * spin * (m.sin(theta) * m.sin(theta) + m.cos(theta) * m.cos(theta));
  }

  /** The orientation argument of `MovingCell(x, q)`: none (the default), a
      quaternion, or an axis about which the cell is turned by a right angle. */
  datatype OrientationArg = DefaultOrientation | GivenQuaternion(q: Quat) | GivenAxis(axis: Vec3)

  /** The initial orientation; the default is a right-angle turn about x, and a zero
      axis makes pyquaternion raise ZeroDivisionError. */
  function InitialOrientation(m: MathLib, arg: OrientationArg): Result<Quat> {
    match arg
    case DefaultOrientation => AxisAngle(m, EX, m.pi / 2.0)
    case GivenQuaternion(q) => Ok(q)
    case GivenAxis(axis) => AxisAngle(m, axis, m.pi / 2.0)
  }

  /** The default orientation (cos π/4, sin π/4, 0, 0): a unit quaternion that lays
      the cell horizontally, its main axis along -y and its mouth along +x. */
  function DefaultQuat(m: MathLib): Quat {
    Quat(m.cos(m.pi / 4.0), m.sin(m.pi / 4.0), 0.0, 0.0)
  }

  /** Only a zero axis fails; an axis given by the caller always yields a unit
      quaternion; a given quaternion is kept as it is. */
  lemma InitialOrientationOutcome(m: MathLib, arg: OrientationArg)
    requires Lawful(m)
    ensures InitialOrientation(m, arg).Err? <==> arg.GivenAxis? && arg.axis == Zero
    ensures InitialOrientation(m, arg).Err? ==> InitialOrientation(m, arg).error == ZeroDivisionError
    ensures arg.GivenQuaternion? ==> InitialOrientation(m, arg) == Ok(arg.q)
    ensures arg.GivenAxis? && arg.axis != Zero ==> QNormSq(InitialOrientation(m, arg).value) == 1.0
  {
    match arg
    case DefaultOrientation =>
      AxisAngleFails(m, EX, m.pi / 2.0);
    case GivenQuaternion(q) =>
    case GivenAxis(axis) =>
      AxisAngleFails(m, axis, m.pi / 2.0);
      if axis != Zero {
        AxisAngleUnit(m, axis, m.pi / 2.0);
      }
  }

  lemma SameFactor(a: real, b: real, c: real)
    requires a == b
    ensures a * c == b * c
  {
  }

  lemma HalfOfHalf(p: real)
    ensures p / 2.0 / 2.0 == p / 4.0
  {
  }

  lemma DefaultQuatValue(m: MathLib)
    requires RootLaws(m)
    ensures InitialOrientation(m, DefaultOrientation) == Ok(DefaultQuat(m))
  {
    calc {
      InitialOrientation(m, DefaultOrientation);
      AxisAngle(m, EX, m.pi / 2.0);
      { AxisAngleOfUnit(m, EX, m.pi / 2.0); }
      Ok(Quat(m.cos(m.pi / 2.0 / 2.0), m.sin(m.pi / 2.0 / 2.0) * 1.0, m.sin(m.pi / 2.0 / 2.0) * 0.0, m.sin(m.pi / 2.0 / 2.0) * 0.0));
      { HalfOfHalf(m.pi); }
      Ok(DefaultQuat(m));
    }
  }

  /** The default orientation is a unit quaternion that turns the main axis e_z to
      (0, -1, 0) and leaves the mouth direction e_x in place. */
  lemma DefaultQuatFrame(m: MathLib)
    requires TrigLaws(m)
    ensures QNormSq(DefaultQuat(m)) == 1.0
    ensures Rotate(DefaultQuat(m), EZ) == Vec3(0.0, -1.0, 0.0)
    ensures Rotate(DefaultQuat(m), EX) == EX
  {
    QuarterTurn(m);
    Pythagoras(m, m.pi / 4.0);
    RotateEZ(DefaultQuat(m));
    RotateEX(DefaultQuat(m));
  }

  /** The orientation after one step of a unit orientation q turning at `rate` for
      time h: right multiplication by the rotation of the step, then normalisation. */
  function SteppedOrientation(m: MathLib, q: Quat, rate: Vec3, h: real): Quat {
    Normalise(m, Mul(q, FromRotationVector(m, Scale(h, rate))))
  }

  /** A step keeps a unit orientation a unit quaternion. */
  lemma SteppedUnit(m: MathLib, q: Quat, rate: Vec3, h: real)
    requires Lawful(m) && QNormSq(q) == 1.0
    ensures QNormSq(SteppedOrientation(m, q, rate, h)) == 1.0
  {
    FromRotationVectorUnit(m, Scale(h, rate));
    MulNorm(q, FromRotationVector(m, Scale(h, rate)));
    NormaliseOfUnit(m, Mul(q, FromRotationVector(m, Scale(h, rate))));
  }

  /** A cell that does not turn keeps its unit orientation over a step. */
  lemma StepAtRest(m: MathLib, q: Quat, h: real)
    requires Lawful(m) && QNormSq(q) == 1.0
    ensures SteppedOrientation(m, q, Zero, h) == q
  {
    assert Scale(h, Zero) == Zero;
    FromRotationVectorZero(m);
    MulIdentity(q);
    NormaliseOfUnit(m, q);
  }

  /** A swimming cell: `MovingCell` of behavior/motion.py. */
  class MovingCell {
    /** The elementary functions the simulation evaluates. */
    const m: MathLib
    var x: Vec3
    var q: Quat
    var dt: real
    var vSedimentation: Vec3
    var v: Vec3
    var omega: Vec3
    var betaGravity: real

    /** `MovingCell(x, q)` once the orientation argument has been turned into a
        quaternion: then 1 mm/s along the main axis, a spin of one turn per second
        tilted by 20 degrees, no sedimentation and no gravity torque. */
    constructor(m: MathLib, x: Option<Vec3>, q: Quat)
      ensures this.m == m && this.q == q
      ensures this.x == (if x.Some? then x.value else Zero)
      ensures dt == 1.0 && vSedimentation == Zero && betaGravity == 0.0
      ensures v == Vec3(0.0, 0.0, 1000.0)
      ensures omega == SpinVector(m, 20.0 / 180.0 * m.pi, 2.0 * m.pi)
    {
      this.m := m;
      this.x := if x.Some? then x.value else Zero;
      this.q := q;
      dt := 1.0;
      vSedimentation := Zero;
      new;
      SetVelocity(1000.0);
      SetRotationAngle(20.0 / 180.0 * m.pi);
      betaGravity := 0.0;
    }

    /** `MovingCell(x, q)` with the orientation argument as the caller gives it; a zero
        axis raises before any cell exists. */
    static method Create(m: MathLib, x: Option<Vec3>, q: OrientationArg) returns (r: Result<MovingCell>)
      ensures r.Err? <==> InitialOrientation(m, q).Err?
      ensures r.Err? ==> r.error == InitialOrientation(m, q).error
      ensures r.Ok? ==> fresh(r.value) && r.value.m == m && r.value.q == InitialOrientation(m, q).value
      ensures r.Ok? ==> r.value.x == (if x.Some? then x.value else Zero)
      ensures r.Ok? ==> r.value.dt == 1.0 && r.value.vSedimentation == Zero && r.value.betaGravity == 0.0
      ensures r.Ok? ==> r.value.v == Vec3(0.0, 0.0, 1000.0)
      ensures r.Ok? ==> r.value.omega == SpinVector(m, 20.0 / 180.0 * m.pi, 2.0 * m.pi)
    {
      match InitialOrientation(m, q)
      case Err(e) =>
        r := Err(e);
      case Ok(q0) =>
        var cell := new MovingCell(m, x, q0);
        r := Ok(cell);
    }

    /** `set_gravity(v_sedimentation=84., beta=7/180*pi)`. */
    method SetGravity(speed: real := 84.0, beta: real := 7.0 / 180.0 * m.pi)
      modifies this
      ensures vSedimentation == Sedimentation(speed) && betaGravity == beta
      ensures x == old(x) && q == old(q) && dt == old(dt) && v == old(v) && omega == old(omega)
    {
      vSedimentation := Scale(speed, Down);
      betaGravity := beta;
    }

    /** `set_velocity(v)`: the velocity is (0, 0, v) and nothing else changes. */
    method SetVelocity(speed: real)
      modifies this
      ensures v == BodyVelocity(speed)
      ensures x == old(x) && q == old(q) && dt == old(dt) && omega == old(omega)
      ensures vSedimentation == old(vSedimentation) && betaGravity == old(betaGravity)
    {
      v := Scale(speed, EZ);
    }

    /** `set_rotation_angle(theta, spin=2*pi)`. */
    method SetRotationAngle(theta: real, spin: real := 2.0 * m.pi)
      modifies this
      ensures omega == SpinVector(m, theta, spin)
      ensures x == old(x) && q == old(q) && dt == old(dt) && v == old(v)
      ensures vSedimentation == old(vSedimentation) && betaGravity == old(betaGravity)
    {
      omega := Scale(spin, Scale(-1.0, Vec3(m.sin(theta), 0.0, m.cos(theta))));
    }

    /** `spiral_axis()`: the spin vector turned into the world frame; for a unit
        orientation its length is that of the spin vector, the angular speed. */
    function SpiralAxis(): (r: Vec3)
      reads this
      ensures QNormSq(q) == 1.0 ==> NormSq(r) == NormSq(omega)
    {
      RotateNormSq(q, omega);
      Rotate(q, omega)
    }

    /** The angular velocity `integrate` turns the cell by: spin plus gravity torque. */
    function TurnRate(): Vec3
      reads this
    {
      Add(omega, GravityRate(q, betaGravity))
    }

    /** `integrate(dt=None)`: one step. The position moves by the world-frame velocity
        times the step, with the orientation from before the step, and the orientation
        is integrated by pyquaternion, which amounts to right multiplication by the
        rotation of the step followed by normalisation. */
    method Integrate(step: Option<real>)
      requires Lawful(m)
      modifies this
      ensures x == Add(old(x), Displacement(old(q), v, vSedimentation, if step.Some? then step.value else dt))
      ensures PyIntegrate(m, old(q), old(TurnRate()), if step.Some? then step.value else dt) == Ok(q)
      ensures QNormSq(old(q)) == 1.0 ==>
                q == SteppedOrientation(m, old(q), old(TurnRate()), if step.Some? then step.value else dt)
      ensures QNormSq(old(q)) != 0.0 ==> QNormSq(q) == 1.0
      ensures dt == old(dt) && v == old(v) && omega == old(omega)
      ensures vSedimentation == old(vSedimentation) && betaGravity == old(betaGravity)
    {
      var h := if step.Some? then step.value else dt;
      var p := Rotate(Conj(q), Down);
      var omegaGravity := Scale(-betaGravity, Cross(EZ, p));
      x := Add(x, Scale(h, Add(Rotate(q, v), vSedimentation)));
      var rate := Add(omega, omegaGravity);
      PyIntegrateOk(m, q, rate, h);
      if QNormSq(q) != 0.0 {
        PyIntegrateUnit(m, q, rate, h);
      }
      if QNormSq(q) == 1.0 {
        PyIntegrateRightMultiply(m, q, rate, h);
      }
      q := PyIntegrate(m, q, rate, h).value;
    }
  }

  // ---- the planar cell -------------------------------------------------------------

  /** The orientation `PlaneMovingCell(x, theta)` starts from: a right-angle turn
      about the horizontal axis (cos θ, sin θ, 0). */
  function PlaneOrientation(m: MathLib, theta: real): Result<Quat> {
    InitialOrientation(m, GivenAxis(Vec3(m.cos(theta), m.sin(theta), 0.0)))
  }

  /** `orientation()`: the heading in the plane, atan2 of the normalised horizontal
      part of the main axis; a vertical cell has no heading (numpy gives NaN). */
  function Heading(m: MathLib, q: Quat): Result<real> {
    Bearing(m, Rotate(q, EZ))
  }

  /** The bearing of p in the horizontal plane: atan2 of its normalised horizontal part. */
  function Bearing(m: MathLib, p: Vec3): Result<real> {
    var n := HorizontalNorm(m, p);
    if n == 0.0 then Err(InvalidValue) else Ok(m.atan2(p.y / n, p.x / n))
  }

  /** `mouth_position()`: the horizontal position of the mouth relative to the centre,
      or None when the mouth faces downwards. */
  function MouthProjection(q: Quat): Option<(real, real)> {
    var p2 := Rotate(q, EX);
    if p2.z < 0.0 then None else Some((p2.x, p2.y))
  }

  /** The length of the horizontal part (p_x, p_y, 0) of p. */
  function HorizontalNorm(m: MathLib, p: Vec3): real {
    m.sqrt(NormSq(Vec3(p.x, p.y, 0.0)))
  }

  /** The rotation about the horizontal axis e_z × p by the elevation
      atan2(p_z, |(p_x, p_y)|) of p; for a vertical p the axis is zero and
      pyquaternion raises ZeroDivisionError. */
  function Levelling(m: MathLib, p: Vec3): Result<Quat> {
    AxisAngle(m, Cross(EZ, p), m.atan2(p.z, HorizontalNorm(m, p)))
  }

  /** The corrective rotation of the planar `integrate`: the main axis is normalised
      and then levelled. */
  function PlanarCorrection(m: MathLib, q: Quat): Result<Quat> {
    var p0 := Rotate(q, EZ);
    var n := m.sqrt(NormSq(p0));
    if n == 0.0 then Err(InvalidValue) else Levelling(m, Vec3(p0.x / n, p0.y / n, p0.z / n))
  }

  lemma AxisAngleHorizontalFields(m: MathLib, cc: real, ss: real, t: real)
    requires RootLaws(m) && cc * cc + ss * ss == 1.0
    ensures AxisAngle(m, Vec3(cc, ss, 0.0), t).Ok?
    ensures AxisAngle(m, Vec3(cc, ss, 0.0), t).value.w == m.cos(t / 2.0)
    ensures AxisAngle(m, Vec3(cc, ss, 0.0), t).value.x == m.sin(t / 2.0) * cc
    ensures AxisAngle(m, Vec3(cc, ss, 0.0), t).value.y == m.sin(t / 2.0) * ss
    ensures AxisAngle(m, Vec3(cc, ss, 0.0), t).value.z == m.sin(t / 2.0) * 0.0
  {
    assert NormSq(Vec3(cc, ss, 0.0)) == 1.0;
    AxisAngleOfUnitFields(m, Vec3(cc, ss, 0.0), t);
  }

  /** pyquaternion's constructor for a unit horizontal axis. */
  lemma AxisAngleHorizontal(m: MathLib, cc: real, ss: real, t: real)
    requires RootLaws(m) && cc * cc + ss * ss == 1.0
    ensures AxisAngle(m, Vec3(cc, ss, 0.0), t)
         == Ok(Quat(m.cos(t / 2.0), m.sin(t / 2.0) * cc, m.sin(t / 2.0) * ss, m.sin(t / 2.0) * 0.0))
  {
    AxisAngleHorizontalFields(m, cc, ss, t);
  }

  /** A quarter turn halved: the facts of `QuarterTurn` at the angle (π/2)/2 that
      pyquaternion halves a right angle to. */
  lemma HalfRightAngle(m: MathLib)
    requires TrigLaws(m)
    ensures m.sin(m.pi / 2.0 / 2.0) == m.cos(m.pi / 2.0 / 2.0)
    ensures m.cos(m.pi / 2.0 / 2.0) * m.cos(m.pi / 2.0 / 2.0) == 0.5
    ensures 2.0 * m.sin(m.pi / 2.0 / 2.0) * m.cos(m.pi / 2.0 / 2.0) == 1.0
  {
    QuarterTurn(m);
    HalfOfHalf(m.pi);
  }

  /** The frame of a right-angle turn about the horizontal axis (C, S, 0), with
      c = s = cos(π/4): the main axis goes to (S, -C, 0) and the mouth direction to
      (C², C S, -S). */
  lemma PlaneFrameFields(c: real, s: real, cc: real, ss: real)
    requires s == c && c * c == 0.5 && 2.0 * s * c == 1.0 && cc * cc + ss * ss == 1.0
    ensures QNormSq(Quat(c, s * cc, s * ss, s * 0.0)) == 1.0
    ensures Rotate(Quat(c, s * cc, s * ss, s * 0.0), EZ).x == ss
    ensures Rotate(Quat(c, s * cc, s * ss, s * 0.0), EZ).y == -cc
    ensures Rotate(Quat(c, s * cc, s * ss, s * 0.0), EZ).z == 0.0
    ensures Rotate(Quat(c, s * cc, s * ss, s * 0.0), EX).x == cc * cc
    ensures Rotate(Quat(c, s * cc, s * ss, s * 0.0), EX).y == cc * ss
    ensures Rotate(Quat(c, s * cc, s * ss, s * 0.0), EX).z == -ss
  {
    var q := Quat(c, s * cc, s * ss, s * 0.0);
    RotateEZFields(q);
    RotateEXFields(q);
    assert s * s == 0.5;
    assert (s * cc) * (s * cc) + (s * ss) * (s * ss) == 0.5 * (cc * cc + ss * ss);
  }

  /** The frame of a right-angle turn about the unit horizontal axis (C, S, 0). */
  lemma HorizontalTurnFrame(m: MathLib, cc: real, ss: real)
    requires TrigLaws(m) && RootLaws(m) && cc * cc + ss * ss == 1.0
    ensures AxisAngle(m, Vec3(cc, ss, 0.0), m.pi / 2.0).Ok?
    ensures QNormSq(AxisAngle(m, Vec3(cc, ss, 0.0), m.pi / 2.0).value) == 1.0
    ensures Rotate(AxisAngle(m, Vec3(cc, ss, 0.0), m.pi / 2.0).value, EZ).x == ss
    ensures Rotate(AxisAngle(m, Vec3(cc, ss, 0.0), m.pi / 2.0).value, EZ).y == -cc
    ensures Rotate(AxisAngle(m, Vec3(cc, ss, 0.0), m.pi / 2.0).value, EZ).z == 0.0
    ensures Rotate(AxisAngle(m, Vec3(cc, ss, 0.0), m.pi / 2.0).value, EX).x == cc * cc
    ensures Rotate(AxisAngle(m, Vec3(cc, ss, 0.0), m.pi / 2.0).value, EX).y == cc * ss
    ensures Rotate(AxisAngle(m, Vec3(cc, ss, 0.0), m.pi / 2.0).value, EX).z == -ss
  {
    HalfRightAngle(m);
    AxisAngleHorizontal(m, cc, ss, m.pi / 2.0);
    PlaneFrameFields(m.cos(m.pi / 2.0 / 2.0), m.sin(m.pi / 2.0 / 2.0), cc, ss);
  }

  /** A fresh planar cell at angle θ lies in the plane with its main axis along
      (sin θ, -cos θ, 0) and its mouth direction at (cos² θ, cos θ sin θ, -sin θ). */
  lemma PlaneFrameValues(m: MathLib, theta: real)
    requires Lawful(m)
    ensures PlaneOrientation(m, theta).Ok?
    ensures QNormSq(PlaneOrientation(m, theta).value) == 1.0
    ensures Rotate(PlaneOrientation(m, theta).value, EZ).x == m.sin(theta)
    ensures Rotate(PlaneOrientation(m, theta).value, EZ).y == -m.cos(theta)
    ensures Rotate(PlaneOrientation(m, theta).value, EZ).z == 0.0
    ensures Rotate(PlaneOrientation(m, theta).value, EX).x == m.cos(theta) * m.cos(theta)
    ensures Rotate(PlaneOrientation(m, theta).value, EX).y == m.cos(theta) * m.sin(theta)
    ensures Rotate(PlaneOrientation(m, theta).value, EX).z == -m.sin(theta)
  {
    Pythagoras(m, theta);
    HorizontalTurnFrame(m, m.cos(theta), m.sin(theta));
  }

  lemma PlaneFrame(m: MathLib, theta: real)
    requires Lawful(m)
    ensures PlaneOrientation(m, theta).Ok?
    ensures QNormSq(PlaneOrientation(m, theta).value) == 1.0
    ensures Rotate(PlaneOrientation(m, theta).value, EZ) == Vec3(m.sin(theta), -m.cos(theta), 0.0)
    ensures Rotate(PlaneOrientation(m, theta).value, EX)
         == Vec3(m.cos(theta) * m.cos(theta), m.cos(theta) * m.sin(theta), -m.sin(theta))
  {
    PlaneFrameValues(m, theta);
  }
  // ---- the planar correction levels the cell ---------------------------------------

  /** The quaternion of a rotation about (-p_y, p_x, 0) scaled by s/h. */
  lemma AxisComponents(s: real, h: real, px: real, py: real, pz: real, ax: real, ay: real, az: real,
                       cx: real, cy: real, cz: real, k: real)
    requires 0.0 < h && k == s / h
    requires ax == 0.0 * pz - 1.0 * py && ay == 1.0 * px - 0.0 * pz && az == 0.0 * py - 0.0 * px
    requires cx == s * (ax / h) && cy == s * (ay / h) && cz == s * (az / h)
    ensures cx == -(k * py) && cy == k * px && cz == 0.0
  {
  }

  /** The sandwich product of p by (w, -k p_y, k p_x, 0), as polynomials. */
  lemma SandwichHorizontal(w: real, k: real, px: real, py: real, pz: real, cx: real, cy: real, cz: real,
                           rx: real, ry: real, rz: real)
    requires cx == -(k * py) && cy == k * px && cz == 0.0
    requires rx == -(-cx * px - cy * py - cz * pz) * cx + (w * px + cy * pz - cz * py) * w
                   - (w * py - cx * pz + cz * px) * cz + (w * pz + cx * py - cy * px) * cy
    requires ry == -(-cx * px - cy * py - cz * pz) * cy + (w * px + cy * pz - cz * py) * cz
                   + (w * py - cx * pz + cz * px) * w - (w * pz + cx * py - cy * px) * cx
    requires rz == -(-cx * px - cy * py - cz * pz) * cz - (w * px + cy * pz - cz * py) * cy
                   + (w * py - cx * pz + cz * px) * cx + (w * pz + cx * py - cy * px) * w
    ensures rx == (w * w - k * k * (px * px + py * py)) * px + 2.0 * w * k * px * pz
    ensures ry == (w * w - k * k * (px * px + py * py)) * py + 2.0 * w * k * py * pz
    ensures rz == (w * w - k * k * (px * px + py * py)) * pz - 2.0 * w * k * (px * px + py * py)
  {
  }

  /** With cos θ = h, sin θ = p_z and the half angle (w, s), the sandwich product is
      (p_x/h, p_y/h, 0). */
  lemma LevelledComponents(w: real, s: real, k: real, h: real, px: real, py: real, pz: real,
                           rx: real, ry: real, rz: real)
    requires 0.0 < h && k == s / h && h * h == px * px + py * py && px * px + py * py + pz * pz == 1.0
    requires w * w - s * s == h && 2.0 * s * w == pz
    requires rx == (w * w - k * k * (px * px + py * py)) * px + 2.0 * w * k * px * pz
    requires ry == (w * w - k * k * (px * px + py * py)) * py + 2.0 * w * k * py * pz
    requires rz == (w * w - k * k * (px * px + py * py)) * pz - 2.0 * w * k * (px * px + py * py)
    ensures rx == px / h && ry == py / h && rz == 0.0
  {
    assert k * h == s;
    assert k * k * (px * px + py * py) == s * s;
    assert 2.0 * w * k * h == pz;
    assert rz == h * pz - 2.0 * w * k * h * h;
    assert rx * h == h * h * px + pz * pz * px;
    assert ry * h == h * h * py + pz * pz * py;
  }

  lemma CrossEZNormSq(p: Vec3)
    ensures NormSq(Cross(EZ, p)) == p.x * p.x + p.y * p.y
    ensures NormSq(Vec3(p.x, p.y, 0.0)) == p.x * p.x + p.y * p.y
  {
  }

  /** n · a = b with n = 1 gives a = b. */
  lemma UnitFactor(n: real, a: real, b: real)
    requires n == 1.0 && n * a == b
    ensures a == b
  {
  }

  /** The elevation of a unit vector p that is not vertical: cos θ = |(p_x, p_y)|
      and sin θ = p_z. */
  lemma ElevationPolar(m: MathLib, p: Vec3)
    requires Lawful(m) && NormSq(p) == 1.0 && Vec3(p.x, p.y, 0.0) != Zero
    ensures 0.0 < HorizontalNorm(m, p)
    ensures HorizontalNorm(m, p) * HorizontalNorm(m, p) == p.x * p.x + p.y * p.y
    ensures m.cos(m.atan2(p.z, HorizontalNorm(m, p))) == HorizontalNorm(m, p)
    ensures m.sin(m.atan2(p.z, HorizontalNorm(m, p))) == p.z
  {
    var h := HorizontalNorm(m, p);
    NormSqZero(Vec3(p.x, p.y, 0.0));
    CrossEZNormSq(p);
    AxisNormPositive(m, Vec3(p.x, p.y, 0.0));
    Atan2Polar(m, p.z, h);
    SqrtUnique(m, h * h + p.z * p.z, 1.0);
    UnitFactor(m.sqrt(h * h + p.z * p.z), m.cos(m.atan2(p.z, h)), h);
    UnitFactor(m.sqrt(h * h + p.z * p.z), m.sin(m.atan2(p.z, h)), p.z);
  }

  /** Rotation by (w, -k p_y, k p_x, 0) of p itself, in closed form. */
  lemma RotateHorizontalAxis(c: Quat, p: Vec3, k: real)
    requires c.x == -(k * p.y) && c.y == k * p.x && c.z == 0.0
    ensures Rotate(c, p).x == (c.w * c.w - k * k * (p.x * p.x + p.y * p.y)) * p.x + 2.0 * c.w * k * p.x * p.z
    ensures Rotate(c, p).y == (c.w * c.w - k * k * (p.x * p.x + p.y * p.y)) * p.y + 2.0 * c.w * k * p.y * p.z
    ensures Rotate(c, p).z == (c.w * c.w - k * k * (p.x * p.x + p.y * p.y)) * p.z
                              - 2.0 * c.w * k * (p.x * p.x + p.y * p.y)
  {
    var r := Rotate(c, p);
    SandwichFields(c, p);
    SandwichHorizontal(c.w, k, p.x, p.y, p.z, c.x, c.y, c.z, r.x, r.y, r.z);
  }

  /** The rotation (w, s e) about the unit axis e = (-p_y, p_x, 0)/h by an angle
      whose cosine is h and whose sine is p_z takes the unit vector p to (p_x/h, p_y/h, 0). */
  lemma RotateLevels(c: Quat, p: Vec3, h: real, s: real, w: real)
    requires 0.0 < h && h * h == p.x * p.x + p.y * p.y && p.x * p.x + p.y * p.y + p.z * p.z == 1.0
    requires c.w == w && w * w - s * s == h && 2.0 * s * w == p.z
    requires c.x == s * ((0.0 * p.z - 1.0 * p.y) / h) && c.y == s * ((1.0 * p.x - 0.0 * p.z) / h)
    requires c.z == s * ((0.0 * p.y - 0.0 * p.x) / h)
    ensures Rotate(c, p).x == p.x / h && Rotate(c, p).y == p.y / h && Rotate(c, p).z == 0.0
  {
    var k := s / h;
    AxisComponents(s, h, p.x, p.y, p.z, 0.0 * p.z - 1.0 * p.y, 1.0 * p.x - 0.0 * p.z, 0.0 * p.y - 0.0 * p.x,
                   c.x, c.y, c.z, k);
    RotateHorizontalAxis(c, p, k);
    var r := Rotate(c, p);
    LevelledComponents(c.w, s, k, h, p.x, p.y, p.z, r.x, r.y, r.z);
  }

  /** The rotation about e_z × p by an angle t with cos t = h = |(p_x, p_y)| and
      sin t = p_z takes the unit vector p to (p_x/h, p_y/h, 0); the half-angle
      identities of t are given rather than the laws of `m`. */
  lemma LevelsAtElevation(m: MathLib, p: Vec3, t: real, h: real)
    requires NormSq(p) == 1.0 && 0.0 < h && h * h == p.x * p.x + p.y * p.y
    requires m.sqrt(NormSq(Cross(EZ, p))) == h
    requires m.cos(t) == h && m.sin(t) == p.z
    requires m.sin(t) == 2.0 * m.sin(t / 2.0) * m.cos(t / 2.0)
    requires m.cos(t) == m.cos(t / 2.0) * m.cos(t / 2.0) - m.sin(t / 2.0) * m.sin(t / 2.0)
    ensures AxisAngle(m, Cross(EZ, p), t).Ok?
    ensures Rotate(AxisAngle(m, Cross(EZ, p), t).value, p).x == p.x / h
    ensures Rotate(AxisAngle(m, Cross(EZ, p), t).value, p).y == p.y / h
    ensures Rotate(AxisAngle(m, Cross(EZ, p), t).value, p).z == 0.0
  {
    var c := AxisAngle(m, Cross(EZ, p), t).value;
    RotateLevels(c, p, h, m.sin(t / 2.0), m.cos(t / 2.0));
  }

  lemma LevellingFields(m: MathLib, p: Vec3)
    requires Lawful(m) && NormSq(p) == 1.0 && Vec3(p.x, p.y, 0.0) != Zero
    ensures 0.0 < HorizontalNorm(m, p) && Levelling(m, p).Ok?
    ensures Rotate(Levelling(m, p).value, p).x == p.x / HorizontalNorm(m, p)
    ensures Rotate(Levelling(m, p).value, p).y == p.y / HorizontalNorm(m, p)
    ensures Rotate(Levelling(m, p).value, p).z == 0.0
  {
    var h, t := HorizontalNorm(m, p), m.atan2(p.z, HorizontalNorm(m, p));
    ElevationPolar(m, p);
    CrossEZNormSq(p);
    assert NormSq(Cross(EZ, p)) == NormSq(Vec3(p.x, p.y, 0.0));
    DoubleAngle(m, t / 2.0, t);
    LevelsAtElevation(m, p, t, h);
  }

  /** The levelling rotation fails exactly for a vertical p, whose axis e_z × p is
      zero: pyquaternion raises ZeroDivisionError. */
  lemma LevellingFails(m: MathLib, p: Vec3)
    requires RootLaws(m)
    ensures Levelling(m, p).Err? <==> p.x == 0.0 && p.y == 0.0
    ensures Levelling(m, p).Err? ==> Levelling(m, p).error == ZeroDivisionError
  {
    AxisAngleFails(m, Cross(EZ, p), m.atan2(p.z, HorizontalNorm(m, p)));
  }

  /** Levelling a unit vector that is not vertical: a unit rotation that takes p to
      its horizontal direction (p_x, p_y, 0)/|(p_x, p_y)|. */
  lemma Levels(m: MathLib, p: Vec3)
    requires Lawful(m) && NormSq(p) == 1.0 && (p.x != 0.0 || p.y != 0.0)
    ensures 0.0 < HorizontalNorm(m, p) && Levelling(m, p).Ok?
    ensures QNormSq(Levelling(m, p).value) == 1.0
    ensures Rotate(Levelling(m, p).value, p)
         == Vec3(p.x / HorizontalNorm(m, p), p.y / HorizontalNorm(m, p), 0.0)
  {
    LevellingFields(m, p);
    assert Cross(EZ, p).x == -p.y && Cross(EZ, p).y == p.x;
    AxisAngleUnit(m, Cross(EZ, p), m.atan2(p.z, HorizontalNorm(m, p)));
  }

  /** For a unit orientation the main axis already has length one, so the
      normalisation in the planar correction changes nothing. */
  lemma PlanarCorrectionOfUnit(m: MathLib, q: Quat)
    requires RootLaws(m) && QNormSq(q) == 1.0
    ensures NormSq(Rotate(q, EZ)) == 1.0
    ensures PlanarCorrection(m, q) == Levelling(m, Rotate(q, EZ))
  {
    RotateNormSq(q, EZ);
    SqrtUnique(m, 1.0, 1.0);
    var p0 := Rotate(q, EZ);
    assert Vec3(p0.x / 1.0, p0.y / 1.0, p0.z / 1.0) == p0;
  }

  /** The planar correction of a unit orientation fails exactly when the main axis is
      vertical; otherwise the corrected orientation c q is again a unit quaternion and
      its main axis is the horizontal direction of the old main axis: the cell is back
      in the plane. */
  lemma PlanarCorrectionLevels(m: MathLib, q: Quat)
    requires Lawful(m) && QNormSq(q) == 1.0
    ensures PlanarCorrection(m, q).Err? <==> Rotate(q, EZ).x == 0.0 && Rotate(q, EZ).y == 0.0
    ensures PlanarCorrection(m, q).Err? ==> PlanarCorrection(m, q).error == ZeroDivisionError
    ensures PlanarCorrection(m, q).Ok? ==> QNormSq(Mul(PlanarCorrection(m, q).value, q)) == 1.0
    ensures PlanarCorrection(m, q).Ok? ==> 0.0 < HorizontalNorm(m, Rotate(q, EZ))
    ensures PlanarCorrection(m, q).Ok? ==>
              Rotate(Mul(PlanarCorrection(m, q).value, q), EZ)
              == Vec3(Rotate(q, EZ).x / HorizontalNorm(m, Rotate(q, EZ)),
                      Rotate(q, EZ).y / HorizontalNorm(m, Rotate(q, EZ)), 0.0)
  {
    PlanarCorrectionOfUnit(m, q);
    LevellingFails(m, Rotate(q, EZ));
    if Rotate(q, EZ).x != 0.0 || Rotate(q, EZ).y != 0.0 {
      Levels(m, Rotate(q, EZ));
      ElevationPolar(m, Rotate(q, EZ));
      MulNorm(Levelling(m, Rotate(q, EZ)).value, q);
      RotateCompose(Levelling(m, Rotate(q, EZ)).value, q, EZ);
    }
  }

  /** The horizontal length of p: zero exactly for a vertical p, and its square is
      p_x² + p_y². */
  lemma HorizontalNormZero(m: MathLib, p: Vec3)
    requires RootLaws(m)
    ensures 0.0 <= HorizontalNorm(m, p)
    ensures HorizontalNorm(m, p) == 0.0 <==> p.x == 0.0 && p.y == 0.0
    ensures HorizontalNorm(m, p) * HorizontalNorm(m, p) == p.x * p.x + p.y * p.y
  {
    NormSqZero(Vec3(p.x, p.y, 0.0));
    CrossEZNormSq(p);
    SqrtLaw(m, NormSq(Vec3(p.x, p.y, 0.0)));
    SqrtZero(m, NormSq(Vec3(p.x, p.y, 0.0)));
  }

  /** A horizontal part of length one has horizontal norm one. */
  lemma HorizontalNormUnit(m: MathLib, p: Vec3)
    requires RootLaws(m) && p.x * p.x + p.y * p.y == 1.0
    ensures HorizontalNorm(m, p) == 1.0
  {
    CrossEZNormSq(p);
    SqrtUnique(m, NormSq(Vec3(p.x, p.y, 0.0)), 1.0);
  }

  /** A bearing exists exactly when p is not vertical (numpy's 0/0 otherwise). */
  lemma BearingFails(m: MathLib, p: Vec3)
    requires RootLaws(m)
    ensures Bearing(m, p).Err? <==> p.x == 0.0 && p.y == 0.0
    ensures Bearing(m, p).Err? ==> Bearing(m, p).error == InvalidValue
  {
    HorizontalNormZero(m, p);
  }

  /** (p_x/h)² + (p_y/h)² = 1 when h² = p_x² + p_y². */
  lemma UnitDirection(px: real, py: real, h: real)
    requires 0.0 < h && h * h == px * px + py * py
    ensures (px / h) * (px / h) + (py / h) * (py / h) == 1.0
  {
    var a := px / h;
    var b := py / h;
    assert a * h == px && b * h == py;
    assert (a * a + b * b) * (h * h) == (a * h) * (a * h) + (b * h) * (b * h);
    assert (a * a + b * b - 1.0) * (h * h) == 0.0;
    ProductPositive(h, h, h * h);
    ProductZero(a * a + b * b - 1.0, h * h);
  }

  /** The horizontal direction (p_x, p_y, 0)/|(p_x, p_y)| has the bearing of p. */
  lemma BearingOfDirection(m: MathLib, p: Vec3)
    requires RootLaws(m) && (p.x != 0.0 || p.y != 0.0)
    ensures 0.0 < HorizontalNorm(m, p)
    ensures Bearing(m, p).Ok?
    ensures Bearing(m, Vec3(p.x / HorizontalNorm(m, p), p.y / HorizontalNorm(m, p), 0.0)) == Bearing(m, p)
  {
    HorizontalNormZero(m, p);
    UnitDirection(p.x, p.y, HorizontalNorm(m, p));
    HorizontalNormUnit(m, Vec3(p.x / HorizontalNorm(m, p), p.y / HorizontalNorm(m, p), 0.0));
  }

  /** The correction turns the cell about a horizontal axis only, so it keeps the
      heading: after a correction the cell has the heading it had before. */
  lemma CorrectionKeepsHeading(m: MathLib, q: Quat)
    requires Lawful(m) && QNormSq(q) == 1.0 && (Rotate(q, EZ).x != 0.0 || Rotate(q, EZ).y != 0.0)
    ensures PlanarCorrection(m, q).Ok? && Heading(m, q).Ok?
    ensures Heading(m, Mul(PlanarCorrection(m, q).value, q)) == Heading(m, q)
  {
    PlanarCorrectionLevels(m, q);
    BearingOfDirection(m, Rotate(q, EZ));
  }

  /** A fresh planar cell built with angle θ heads at atan2(-cos θ, sin θ), which is
      θ - π/2 rather than θ: the main axis is at right angles to the turning axis
      (cos θ, sin θ, 0). */
  lemma FreshHeading(m: MathLib, theta: real)
    requires Lawful(m)
    ensures PlaneOrientation(m, theta).Ok?
    ensures Heading(m, PlaneOrientation(m, theta).value) == Ok(m.atan2(-m.cos(theta), m.sin(theta)))
  {
    PlaneFrame(m, theta);
    Pythagoras(m, theta);
    HorizontalNormUnit(m, Vec3(m.sin(theta), -m.cos(theta), 0.0));
  }

  /** The mouth of a fresh planar cell is hidden exactly when sin θ > 0; otherwise
      it is seen at (cos² θ, cos θ sin θ). */
  lemma FreshMouth(m: MathLib, theta: real)
    requires Lawful(m)
    ensures PlaneOrientation(m, theta).Ok?
    ensures MouthProjection(PlaneOrientation(m, theta).value)
         == if 0.0 < m.sin(theta) then None
            else Some((m.cos(theta) * m.cos(theta), m.cos(theta) * m.sin(theta)))
  {
    PlaneFrame(m, theta);
  }

  /** For a unit orientation a visible mouth lies within the unit disc around the
      centre, the cell's width being one. */
  lemma MouthWithinWidth(q: Quat)
    requires QNormSq(q) == 1.0
    ensures MouthProjection(q).Some? ==>
              MouthProjection(q).value.0 * MouthProjection(q).value.0
              + MouthProjection(q).value.1 * MouthProjection(q).value.1 <= 1.0
  {
    RotatePreservesLength(q, EX);
    var p2 := Rotate(q, EX);
    assert p2.z * p2.z >= 0.0;
  }

  /** A cell kept in the horizontal plane: `PlaneMovingCell` of behavior/motion.py,
      built around the three-dimensional cell it extends. Python's subclass replaces
      `set_gravity` and `integrate`; here the wrapper's own methods play that part, so a
      caller goes through the wrapper only and does not call the methods of `cell`
      directly (in particular not `cell.SetGravity`, which the subclass forbids). */
  class PlaneMovingCell {
    const cell: MovingCell

    /** The elementary functions obey their laws and the orientation is a unit quaternion. */
    ghost predicate Valid()
      reads this, cell
    {
      Lawful(cell.m) && QNormSq(cell.q) == 1.0
    }

    /** `PlaneMovingCell(x, theta=0.)`: the position (x, y) is lifted to (x, y, 0) and the
        cell is turned by a right angle about (cos θ, sin θ, 0), which lays it in the
        plane with its main axis along (sin θ, -cos θ, 0). */
    constructor(m: MathLib, x: Option<(real, real)>, theta: real := 0.0)
      requires Lawful(m)
      ensures Valid() && fresh(cell)
      ensures cell.m == m && cell.q == PlaneOrientation(m, theta).value
      ensures cell.x == (if x.Some? then Vec3(x.value.0, x.value.1, 0.0) else Zero)
      ensures Rotate(cell.q, EZ) == Vec3(m.sin(theta), -m.cos(theta), 0.0)
      ensures cell.dt == 1.0 && cell.vSedimentation == Zero && cell.betaGravity == 0.0
      ensures cell.v == Vec3(0.0, 0.0, 1000.0)
      ensures cell.omega == SpinVector(m, 20.0 / 180.0 * m.pi, 2.0 * m.pi)
    {
      PlaneFrame(m, theta);
      var lifted := if x.Some? then Some(Vec3(x.value.0, x.value.1, 0.0)) else None;
      cell := new MovingCell(m, lifted, PlaneOrientation(m, theta).value);
    }

    /** `set_gravity`: a cell held in the plane does not sink; the call always raises
        NotImplementedError and changes nothing. */
    method SetGravity(speed: real, beta: real) returns (e: PyError)
      ensures e == NotImplementedError
    {
      e := NotImplementedError;
    }

    /** `integrate(dt=None)`: the three-dimensional step, then the corrective rotation
        that lays the main axis back in the plane, left-multiplied. If the step left
        the main axis vertical, pyquaternion raises ZeroDivisionError after the step has
        already moved the cell. A successful step ends in the plane and keeps the
        heading the three-dimensional step gave. */
    method Integrate(step: Option<real>) returns (r: Option<PyError>)
      requires Valid()
      modifies cell
      ensures Valid()
      ensures cell.x == Add(old(cell.x), Displacement(old(cell.q), cell.v, cell.vSedimentation,
                                                      if step.Some? then step.value else cell.dt))
      ensures r.Some? <==> PlanarCorrection(cell.m, SteppedOrientation(cell.m, old(cell.q), old(cell.TurnRate()), if step.Some? then step.value else cell.dt)).Err?
      ensures r.Some? ==> r.value == ZeroDivisionError
      ensures r.Some? ==> cell.q == SteppedOrientation(cell.m, old(cell.q), old(cell.TurnRate()), if step.Some? then step.value else cell.dt)
      ensures r.None? ==>
                cell.q == Mul(PlanarCorrection(cell.m, SteppedOrientation(cell.m, old(cell.q), old(cell.TurnRate()), if step.Some? then step.value else cell.dt)).value,
                              SteppedOrientation(cell.m, old(cell.q), old(cell.TurnRate()), if step.Some? then step.value else cell.dt))
      ensures r.None? ==> Rotate(cell.q, EZ).z == 0.0 && NormSq(Rotate(cell.q, EZ)) == 1.0
      ensures r.None? ==> Heading(cell.m, cell.q) == Heading(cell.m, SteppedOrientation(cell.m, old(cell.q), old(cell.TurnRate()), if step.Some? then step.value else cell.dt))
      ensures cell.dt == old(cell.dt) && cell.v == old(cell.v) && cell.omega == old(cell.omega)
      ensures cell.vSedimentation == old(cell.vSedimentation) && cell.betaGravity == old(cell.betaGravity)
    {
      cell.Integrate(step);
      var q1 := cell.q;
      PlanarCorrectionLevels(cell.m, q1);
      RotatePreservesLength(q1, EZ);
      match PlanarCorrection(cell.m, q1)
      case Err(e) =>
        r := Some(e);
      case Ok(c) =>
        CorrectionKeepsHeading(cell.m, q1);
        RotatePreservesLength(Mul(c, q1), EZ);
        cell.q := Mul(c, q1);
        r := None;
    }

    /** `orientation()`: the heading in the plane; a vertical cell has none. */
    function Orientation(): (r: Result<real>)
      requires Valid()
      reads this, cell
      ensures r.Err? <==> Rotate(cell.q, EZ).x == 0.0 && Rotate(cell.q, EZ).y == 0.0
    {
      BearingFails(cell.m, Rotate(cell.q, EZ));
      Heading(cell.m, cell.q)
    }

    /** `mouth_position()`: None exactly when the mouth faces downwards; a visible
        mouth lies within the cell's width of the centre. */
    function MouthPosition(): (r: Option<(real, real)>)
      requires Valid()
      reads this, cell
      ensures r.None? <==> Rotate(cell.q, EX).z < 0.0
      ensures r.Some? ==> r.value.0 * r.value.0 + r.value.1 * r.value.1 <= 1.0
    {
      MouthWithinWidth(cell.q);
      MouthProjection(cell.q)
    }
  }
}
