/** The rotation constructors of the two quaternion libraries the simulators use,
    written over exact reals:
      numpy-quaternion `from_rotation_vector(r)`: the exponential of (0, r/2);
      pyquaternion `Quaternion(axis=a, radians=t)`: cos(t/2) + sin(t/2) a/|a|;
      pyquaternion `normalised` and `integrate(rate, dt)`. */
module Rotations {
  import opened Results
  import opened Quaternions
  import opened Elementary

  /** Half the length of a rotation vector: the norm of the vector part of r/2. */
  function HalfNorm(m: MathLib, r: Vec3): real {
    m.sqrt(NormSq(r) / 4.0)
  }

  /** `quaternion.from_rotation_vector(r)` = exp((0, r/2)) = cos a + (sin a / a)(r/2),
      with a = |r|/2, and the identity for the zero vector. */
  function FromRotationVector(m: MathLib, r: Vec3): Quat {
    if 0.0 < HalfNorm(m, r) then
      Quat(m.cos(HalfNorm(m, r)),
           m.sin(HalfNorm(m, r)) / HalfNorm(m, r) * (r.x / 2.0),
           m.sin(HalfNorm(m, r)) / HalfNorm(m, r) * (r.y / 2.0),
           m.sin(HalfNorm(m, r)) / HalfNorm(m, r) * (r.z / 2.0))
    else
      Identity
  }

  /** pyquaternion's `Quaternion(axis=axis, radians=angle)`: the axis is scaled to
      unit length and a zero axis raises ZeroDivisionError. */
  function AxisAngle(m: MathLib, axis: Vec3, angle: real): Result<Quat> {
    if m.sqrt(NormSq(axis)) == 0.0 then
      Err(ZeroDivisionError)
    else
      Ok(Quat(m.cos(angle / 2.0),
              m.sin(angle / 2.0) * (axis.x / m.sqrt(NormSq(axis))),
              m.sin(angle / 2.0) * (axis.y / m.sqrt(NormSq(axis))),
              m.sin(angle / 2.0) * (axis.z / m.sqrt(NormSq(axis)))))
  }

  /** Division by the norm (pyquaternion `normalised`, numpy `q / np.absolute(q)`);
      pyquaternion divides only by a positive norm and leaves the zero quaternion
      as it is. */
  function Normalise(m: MathLib, q: Quat): Quat {
    if m.sqrt(QNormSq(q)) <= 0.0 then
      q
    else
      Quat(q.w / m.sqrt(QNormSq(q)), q.x / m.sqrt(QNormSq(q)),
           q.y / m.sqrt(QNormSq(q)), q.z / m.sqrt(QNormSq(q)))
  }

  /** pyquaternion's in-place `q.integrate(rate, dt)`: normalise q, then, when the
      rotation vector dt * rate is non-zero, right-multiply by the rotation about
      its direction by its length and normalise again. */
  function PyIntegrate(m: MathLib, q: Quat, rate: Vec3, dt: real): Result<Quat> {
    if 0.0 < m.sqrt(NormSq(Scale(dt, rate))) then
      match AxisAngle(m, Scale(1.0 / m.sqrt(NormSq(Scale(dt, rate))), Scale(dt, rate)),
                      m.sqrt(NormSq(Scale(dt, rate))))
      case Ok(step) => Ok(Normalise(m, Mul(Normalise(m, q), step)))
      case Err(e) => Err(e)
    else
      Ok(Normalise(m, q))
  }

  // ---- unit length -------------------------------------------------------------

  lemma UnitFromParts(c: real, s: real, a: real, x: real, y: real, z: real)
    requires 0.0 < a && c * c + s * s == 1.0 && a * a == (x * x + y * y + z * z) / 4.0
    ensures c * c + (s / a * (x / 2.0)) * (s / a * (x / 2.0)) + (s / a * (y / 2.0)) * (s / a * (y / 2.0))
              + (s / a * (z / 2.0)) * (s / a * (z / 2.0)) == 1.0
  {
    var k := s / a;
    assert k * a == s;
    assert (k * (x / 2.0)) * (k * (x / 2.0)) + (k * (y / 2.0)) * (k * (y / 2.0)) + (k * (z / 2.0)) * (k * (z / 2.0))
        == k * k * (a * a);
  }

  /** `from_rotation_vector` always yields a unit quaternion. */
  lemma FromRotationVectorUnit(m: MathLib, r: Vec3)
    requires Lawful(m)
    ensures QNormSq(FromRotationVector(m, r)) == 1.0
  {
    if 0.0 < HalfNorm(m, r) {
      SqrtLaw(m, NormSq(r) / 4.0);
      Pythagoras(m, HalfNorm(m, r));
      UnitFromParts(m.cos(HalfNorm(m, r)), m.sin(HalfNorm(m, r)), HalfNorm(m, r), r.x, r.y, r.z);
    }
  }

  /** The zero rotation vector gives the identity. */
  lemma FromRotationVectorZero(m: MathLib)
    requires RootLaws(m)
    ensures FromRotationVector(m, Zero) == Identity
  {
    SqrtUnique(m, 0.0, 0.0);
  }

  lemma UnitAxisParts(c: real, s: real, n: real, x: real, y: real, z: real)
    requires 0.0 < n && c * c + s * s == 1.0 && n * n == x * x + y * y + z * z
    ensures c * c + (s * (x / n)) * (s * (x / n)) + (s * (y / n)) * (s * (y / n)) + (s * (z / n)) * (s * (z / n)) == 1.0
  {
    var k := s / n;
    assert s * (x / n) == k * x && s * (y / n) == k * y && s * (z / n) == k * z;
    assert k * n == s;
    assert (k * x) * (k * x) + (k * y) * (k * y) + (k * z) * (k * z) == k * k * (n * n);
  }

  /** The norm of a non-zero axis is positive. */
  lemma AxisNormPositive(m: MathLib, axis: Vec3)
    requires RootLaws(m) && NormSq(axis) != 0.0
    ensures 0.0 < m.sqrt(NormSq(axis))
    ensures m.sqrt(NormSq(axis)) * m.sqrt(NormSq(axis)) == NormSq(axis)
  {
    NormSqZero(axis);
    SqrtLaw(m, NormSq(axis));
  }

  /** The square root vanishes only at zero. */
  lemma SqrtZero(m: MathLib, r: real)
    requires RootLaws(m) && 0.0 <= r
    ensures m.sqrt(r) == 0.0 <==> r == 0.0
  {
    SqrtLaw(m, r);
    if r == 0.0 {
      SqrtUnique(m, 0.0, 0.0);
    }
  }

  /** `Quaternion(axis, radians)` fails, with ZeroDivisionError, exactly for the zero axis. */
  lemma AxisAngleFails(m: MathLib, axis: Vec3, angle: real)
    requires RootLaws(m)
    ensures AxisAngle(m, axis, angle).Err? <==> axis == Zero
    ensures AxisAngle(m, axis, angle).Err? ==> AxisAngle(m, axis, angle).error == ZeroDivisionError
  {
    AxisNormZero(m, axis);
  }

  /** Only the zero axis has a zero norm. */
  lemma AxisNormZero(m: MathLib, axis: Vec3)
    requires RootLaws(m)
    ensures m.sqrt(NormSq(axis)) == 0.0 <==> axis == Zero
  {
    NormSqZero(axis);
    SqrtZero(m, NormSq(axis));
  }

  /** For a non-zero axis, `Quaternion(axis, radians)` is a unit quaternion. */
  lemma AxisAngleUnit(m: MathLib, axis: Vec3, angle: real)
    requires Lawful(m) && axis != Zero
    ensures AxisAngle(m, axis, angle).Ok?
    ensures QNormSq(AxisAngle(m, axis, angle).value) == 1.0
  {
    AxisAngleFails(m, axis, angle);
    NormSqZero(axis);
    AxisNormPositive(m, axis);
    Pythagoras(m, angle / 2.0);
    UnitAxisParts(m.cos(angle / 2.0), m.sin(angle / 2.0), m.sqrt(NormSq(axis)), axis.x, axis.y, axis.z);
  }

  lemma AxisAngleOfUnitFields(m: MathLib, u: Vec3, t: real)
    requires RootLaws(m) && NormSq(u) == 1.0
    ensures AxisAngle(m, u, t).Ok?
    ensures AxisAngle(m, u, t).value.w == m.cos(t / 2.0)
    ensures AxisAngle(m, u, t).value.x == m.sin(t / 2.0) * u.x
    ensures AxisAngle(m, u, t).value.y == m.sin(t / 2.0) * u.y
    ensures AxisAngle(m, u, t).value.z == m.sin(t / 2.0) * u.z
  {
    SqrtUnique(m, 1.0, 1.0);
    ScaledByOne(m.sin(t / 2.0), u.x, m.sqrt(NormSq(u)));
    ScaledByOne(m.sin(t / 2.0), u.y, m.sqrt(NormSq(u)));
    ScaledByOne(m.sin(t / 2.0), u.z, m.sqrt(NormSq(u)));
  }

  /** For a unit axis pyquaternion's constructor is cos(t/2) + sin(t/2) u. */
  lemma AxisAngleOfUnit(m: MathLib, u: Vec3, t: real)
    requires RootLaws(m) && NormSq(u) == 1.0
    ensures AxisAngle(m, u, t) == Ok(Quat(m.cos(t / 2.0), m.sin(t / 2.0) * u.x, m.sin(t / 2.0) * u.y, m.sin(t / 2.0) * u.z))
  {
    AxisAngleOfUnitFields(m, u, t);
  }

  lemma ScaledByOne(s: real, a: real, n: real)
    requires n == 1.0
    ensures s * (a / n) == s * a
  {
  }

  lemma UnitNormalisedParts(n: real, w: real, x: real, y: real, z: real)
    requires 0.0 < n && n * n == w * w + x * x + y * y + z * z
    ensures (w / n) * (w / n) + (x / n) * (x / n) + (y / n) * (y / n) + (z / n) * (z / n) == 1.0
  {
    var k := 1.0 / n;
    assert w / n == k * w && x / n == k * x && y / n == k * y && z / n == k * z;
    assert k * n == 1.0;
    assert (k * w) * (k * w) + (k * x) * (k * x) + (k * y) * (k * y) + (k * z) * (k * z) == k * k * (n * n);
  }

  /** Normalising a non-zero quaternion gives a unit quaternion. */
  lemma NormaliseUnit(m: MathLib, q: Quat)
    requires Lawful(m) && QNormSq(q) != 0.0
    ensures QNormSq(Normalise(m, q)) == 1.0
  {
    QNormSqNonNegative(q);
    SqrtLaw(m, QNormSq(q));
    UnitNormalisedParts(m.sqrt(QNormSq(q)), q.w, q.x, q.y, q.z);
  }

  /** Normalising a unit quaternion changes nothing. */
  lemma NormaliseOfUnit(m: MathLib, q: Quat)
    requires Lawful(m) && QNormSq(q) == 1.0
    ensures Normalise(m, q) == q
  {
    SqrtUnique(m, 1.0, 1.0);
  }

  /** The zero quaternion is left as it is. */
  lemma NormaliseZero(m: MathLib, q: Quat)
    requires Lawful(m) && QNormSq(q) == 0.0
    ensures Normalise(m, q) == q
  {
    SqrtUnique(m, 0.0, 0.0);
  }

  /** Normalising twice is normalising once. */
  lemma NormaliseIdempotent(m: MathLib, q: Quat)
    requires Lawful(m)
    ensures Normalise(m, Normalise(m, q)) == Normalise(m, q)
  {
    if QNormSq(q) != 0.0 {
      NormaliseUnit(m, q);
      NormaliseOfUnit(m, Normalise(m, q));
    } else {
      NormaliseZero(m, q);
    }
  }

  lemma InverseSquare(n: real, r: real)
    requires 0.0 < n && n * n == r
    ensures 1.0 / n * (1.0 / n) * r == 1.0
  {
  }

  // ---- the axis-angle form of a rotation vector ----------------------------------

  /** Scalar core of `AxisAngleRotationVector`: the components agree. */
  lemma AxisAngleParts(s: real, a: real, t: real, x: real, rx: real, n: real)
    requires 0.0 < t && a == t / 2.0 && rx == t * x && n == 1.0
    ensures s / a * (rx / 2.0) == s * (x / n)
  {
    assert rx / 2.0 == a * x;
  }

  /** The components of `AxisAngleRotationVector`. */
  lemma AxisAngleRotationVectorFields(m: MathLib, u: Vec3, t: real)
    requires Lawful(m) && NormSq(u) == 1.0 && 0.0 < t
    ensures AxisAngle(m, u, t).Ok?
    ensures AxisAngle(m, u, t).value.w == FromRotationVector(m, Scale(t, u)).w
    ensures AxisAngle(m, u, t).value.x == FromRotationVector(m, Scale(t, u)).x
    ensures AxisAngle(m, u, t).value.y == FromRotationVector(m, Scale(t, u)).y
    ensures AxisAngle(m, u, t).value.z == FromRotationVector(m, Scale(t, u)).z
  {
    var r := Scale(t, u);
    ScaledNormSq(t, u);
    SqrtUnique(m, NormSq(r) / 4.0, t / 2.0);
    SqrtUnique(m, 1.0, 1.0);
    RotationVectorParts(m, u, t);
  }

  /** `AxisAngleRotationVectorFields` once the two square roots are known. */
  lemma RotationVectorParts(m: MathLib, u: Vec3, t: real)
    requires NormSq(u) == 1.0 && 0.0 < t
    requires m.sqrt(1.0) == 1.0 && HalfNorm(m, Scale(t, u)) == t / 2.0
    ensures AxisAngle(m, u, t).Ok?
    ensures AxisAngle(m, u, t).value.w == FromRotationVector(m, Scale(t, u)).w
    ensures AxisAngle(m, u, t).value.x == FromRotationVector(m, Scale(t, u)).x
    ensures AxisAngle(m, u, t).value.y == FromRotationVector(m, Scale(t, u)).y
    ensures AxisAngle(m, u, t).value.z == FromRotationVector(m, Scale(t, u)).z
  {
    var r := Scale(t, u);
    AxisAngleParts(m.sin(t / 2.0), HalfNorm(m, r), t, u.x, r.x, m.sqrt(NormSq(u)));
    AxisAngleParts(m.sin(t / 2.0), HalfNorm(m, r), t, u.y, r.y, m.sqrt(NormSq(u)));
    AxisAngleParts(m.sin(t / 2.0), HalfNorm(m, r), t, u.z, r.z, m.sqrt(NormSq(u)));
  }

  /** For a unit axis u and a positive angle t, `Quaternion(axis=u, radians=t)` and
      `from_rotation_vector(t u)` are the same quaternion. */
  lemma AxisAngleRotationVector(m: MathLib, u: Vec3, t: real)
    requires Lawful(m) && NormSq(u) == 1.0 && 0.0 < t
    ensures AxisAngle(m, u, t) == Ok(FromRotationVector(m, Scale(t, u)))
  {
    AxisAngleRotationVectorFields(m, u, t);
  }

  /** pyquaternion's `integrate` is right multiplication by `from_rotation_vector`
      of dt * rate followed by normalisation, for a unit starting orientation. */
  lemma PyIntegrateRightMultiply(m: MathLib, q: Quat, rate: Vec3, dt: real)
    requires Lawful(m) && QNormSq(q) == 1.0
    ensures PyIntegrate(m, q, rate, dt) == Ok(Normalise(m, Mul(q, FromRotationVector(m, Scale(dt, rate)))))
  {
    var rv := Scale(dt, rate);
    NormaliseOfUnit(m, q);
    SqrtLaw(m, NormSq(rv));
    if 0.0 < m.sqrt(NormSq(rv)) {
      var rn := m.sqrt(NormSq(rv));
      var u := Scale(1.0 / rn, rv);
      ScaledNormSq(1.0 / rn, rv);
      InverseSquare(rn, NormSq(rv));
      AxisAngleRotationVector(m, u, rn);
      ScaleInverse(rn, rv);
    } else {
      NormSqZero(rv);
      FromRotationVectorZero(m);
      MulIdentity(q);
    }
  }

  /** Integration keeps or produces a unit orientation: the result is a unit
      quaternion whenever the starting one is non-zero, and integration never fails. */
  lemma PyIntegrateUnit(m: MathLib, q: Quat, rate: Vec3, dt: real)
    requires Lawful(m) && QNormSq(q) != 0.0
    ensures PyIntegrate(m, q, rate, dt).Ok?
    ensures QNormSq(PyIntegrate(m, q, rate, dt).value) == 1.0
  {
    NormaliseUnit(m, q);
    PyIntegrateRightMultiply(m, Normalise(m, q), rate, dt);
    NormaliseOfUnit(m, Normalise(m, q));
    NormaliseIdempotent(m, q);
    FromRotationVectorUnit(m, Scale(dt, rate));
    MulNorm(Normalise(m, q), FromRotationVector(m, Scale(dt, rate)));
    NormaliseUnit(m, Mul(Normalise(m, q), FromRotationVector(m, Scale(dt, rate))));
  }

  /** Integration never raises, whatever the starting quaternion: the axis it hands
      to `Quaternion(axis, radians)` has unit length. */
  lemma PyIntegrateOk(m: MathLib, q: Quat, rate: Vec3, dt: real)
    requires Lawful(m)
    ensures PyIntegrate(m, q, rate, dt).Ok?
  {
    var rv := Scale(dt, rate);
    SqrtLaw(m, NormSq(rv));
    if 0.0 < m.sqrt(NormSq(rv)) {
      var rn := m.sqrt(NormSq(rv));
      var u := Scale(1.0 / rn, rv);
      ScaledNormSq(1.0 / rn, rv);
      InverseSquare(rn, NormSq(rv));
      AxisAngleFails(m, u, rn);
    }
  }

  /** A zero rate leaves a unit orientation unchanged. */
  lemma PyIntegrateZeroRate(m: MathLib, q: Quat, dt: real)
    requires Lawful(m) && QNormSq(q) == 1.0
    ensures PyIntegrate(m, q, Zero, dt) == Ok(q)
  {
    assert Scale(dt, Zero) == Zero;
    SqrtUnique(m, 0.0, 0.0);
    NormaliseOfUnit(m, q);
  }
}
