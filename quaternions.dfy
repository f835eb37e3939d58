/** Exact vector and quaternion algebra over the reals: the part of numpy,
    pyquaternion and numpy-quaternion that the motion integrators use and that
    needs no transcendental function. */
module Quaternions {

  datatype Vec3 = Vec3(x: real, y: real, z: real)

  const Zero := Vec3(0.0, 0.0, 0.0)
  const EX := Vec3(1.0, 0.0, 0.0)
  const EZ := Vec3(0.0, 0.0, 1.0)

  function Add(a: Vec3, b: Vec3): Vec3 { Vec3(a.x + b.x, a.y + b.y, a.z + b.z) }

  function Scale(k: real, a: Vec3): Vec3 { Vec3(k * a.x, k * a.y, k * a.z) }

  function Dot(a: Vec3, b: Vec3): real { a.x * b.x + a.y * b.y + a.z * b.z }

  function NormSq(a: Vec3): real { Dot(a, a) }

  /** numpy's `np.cross` of two 3-vectors. */
  function Cross(a: Vec3, b: Vec3): Vec3 {
    Vec3(a.y * b.z - a.z * b.y, a.z * b.x - a.x * b.z, a.x * b.y - a.y * b.x)
  }

  /** A quaternion w + x i + y j + z k. */
  datatype Quat = Quat(w: real, x: real, y: real, z: real)

  const Identity := Quat(1.0, 0.0, 0.0, 0.0)

  /** The Hamilton product `p * q`. */
  function Mul(p: Quat, q: Quat): Quat {
    Quat(p.w * q.w - p.x * q.x - p.y * q.y - p.z * q.z,
         p.w * q.x + p.x * q.w + p.y * q.z - p.z * q.y,
         p.w * q.y - p.x * q.z + p.y * q.w + p.z * q.x,
         p.w * q.z + p.x * q.y - p.y * q.x + p.z * q.w)
  }

  function Conj(q: Quat): Quat { Quat(q.w, -q.x, -q.y, -q.z) }

  function QNormSq(q: Quat): real { q.w * q.w + q.x * q.x + q.y * q.y + q.z * q.z }

  function ScaleQ(k: real, q: Quat): Quat { Quat(k * q.w, k * q.x, k * q.y, k * q.z) }

  /** `Quaternion(vector=v)` / `quaternion.from_vector_part(v)`: the pure quaternion (0, v). */
  function Pure(v: Vec3): Quat { Quat(0.0, v.x, v.y, v.z) }

  /** `.vector` / `quaternion.as_vector_part`: the imaginary part. */
  function VecPart(q: Quat): Vec3 { Vec3(q.x, q.y, q.z) }

  /** The sandwich product `(q * (0, v) * q.conjugate).vector` written out in the source. */
  function Rotate(q: Quat, v: Vec3): Vec3 { VecPart(Mul(Mul(q, Pure(v)), Conj(q))) }

  /** The closed form of the sandwich product, for any quaternion (unit or not):
      v (w² - |u|²) + 2 (u·v) u + 2 w (u × v), where u is the vector part of q. */
  function RotationFormula(q: Quat, v: Vec3): Vec3 {
    var n := q.w * q.w - (q.x * q.x + q.y * q.y + q.z * q.z);
    var d := q.x * v.x + q.y * v.y + q.z * v.z;
    Vec3(n * v.x + 2.0 * d * q.x + 2.0 * q.w * (q.y * v.z - q.z * v.y),
         n * v.y + 2.0 * d * q.y + 2.0 * q.w * (q.z * v.x - q.x * v.z),
         n * v.z + 2.0 * d * q.z + 2.0 * q.w * (q.x * v.y - q.y * v.x))
  }

  /** The square of one component of a product, multiplied out; likewise X, Y and Z below. */
  lemma ProductSquareW(p: Quat, q: Quat, a: Quat)
    requires a.w == p.w * q.w - p.x * q.x - p.y * q.y - p.z * q.z
    ensures a.w * a.w
      == p.w * p.w * q.w * q.w
      + p.x * p.x * q.x * q.x
      + p.y * p.y * q.y * q.y
      + p.z * p.z * q.z * q.z
      - 2.0 * p.w * p.x * q.w * q.x
      - 2.0 * p.w * p.y * q.w * q.y
      - 2.0 * p.w * p.z * q.w * q.z
      + 2.0 * p.x * p.y * q.x * q.y
      + 2.0 * p.x * p.z * q.x * q.z
      + 2.0 * p.y * p.z * q.y * q.z
  {
  }

  lemma ProductSquareX(p: Quat, q: Quat, a: Quat)
    requires a.x == p.w * q.x + p.x * q.w + p.y * q.z - p.z * q.y
    ensures a.x * a.x
      == p.w * p.w * q.x * q.x
      + p.x * p.x * q.w * q.w
      + p.y * p.y * q.z * q.z
      + p.z * p.z * q.y * q.y
      + 2.0 * p.w * p.x * q.w * q.x
      + 2.0 * p.w * p.y * q.x * q.z
      - 2.0 * p.w * p.z * q.x * q.y
      + 2.0 * p.x * p.y * q.w * q.z
      - 2.0 * p.x * p.z * q.w * q.y
      - 2.0 * p.y * p.z * q.y * q.z
  {
  }

  lemma ProductSquareY(p: Quat, q: Quat, a: Quat)
    requires a.y == p.w * q.y - p.x * q.z + p.y * q.w + p.z * q.x
    ensures a.y * a.y
      == p.w * p.w * q.y * q.y
      + p.x * p.x * q.z * q.z
      + p.y * p.y * q.w * q.w
      + p.z * p.z * q.x * q.x
      - 2.0 * p.w * p.x * q.y * q.z
      + 2.0 * p.w * p.y * q.w * q.y
      + 2.0 * p.w * p.z * q.x * q.y
      - 2.0 * p.x * p.y * q.w * q.z
      - 2.0 * p.x * p.z * q.x * q.z
      + 2.0 * p.y * p.z * q.w * q.x
  {
  }

  lemma ProductSquareZ(p: Quat, q: Quat, a: Quat)
    requires a.z == p.w * q.z + p.x * q.y - p.y * q.x + p.z * q.w
    ensures a.z * a.z
      == p.w * p.w * q.z * q.z
      + p.x * p.x * q.y * q.y
      + p.y * p.y * q.x * q.x
      + p.z * p.z * q.w * q.w
      + 2.0 * p.w * p.x * q.y * q.z
      - 2.0 * p.w * p.y * q.x * q.z
      + 2.0 * p.w * p.z * q.w * q.z
      - 2.0 * p.x * p.y * q.x * q.y
      + 2.0 * p.x * p.z * q.w * q.y
      - 2.0 * p.y * p.z * q.w * q.x
  {
  }

  /** Euler's four-square identity, for a product given component by component. */
  lemma FourSquares(p: Quat, q: Quat, a: Quat)
    requires IsProduct(a, p, q)
    ensures QNormSq(a) == QNormSq(p) * QNormSq(q)
  {
    FourSquareIdentity(p, q, a);
    NormSqOfExpansion(p, q, a);
  }

  /** The four-square identity multiplied out, for a product given component by component. */
  lemma FourSquareIdentity(p: Quat, q: Quat, a: Quat)
    requires IsProduct(a, p, q)
    ensures a.w * a.w + a.x * a.x + a.y * a.y + a.z * a.z == (p.w * p.w + p.x * p.x + p.y * p.y + p.z * p.z) * (q.w * q.w + q.x * q.x + q.y * q.y + q.z * q.z)
  {
    ProductSquareW(p, q, a);
    ProductSquareX(p, q, a);
    ProductSquareY(p, q, a);
    ProductSquareZ(p, q, a);
  }

  /** The multiplied-out identity, restated with QNormSq. */
  lemma NormSqOfExpansion(p: Quat, q: Quat, a: Quat)
    requires a.w * a.w + a.x * a.x + a.y * a.y + a.z * a.z == (p.w * p.w + p.x * p.x + p.y * p.y + p.z * p.z) * (q.w * q.w + q.x * q.x + q.y * q.y + q.z * q.z)
    ensures QNormSq(a) == QNormSq(p) * QNormSq(q)
  {
  }

  lemma MulNorm(p: Quat, q: Quat)
    ensures QNormSq(Mul(p, q)) == QNormSq(p) * QNormSq(q)
  {
    ProductOfMul(p, q);
    FourSquares(p, q, Mul(p, q));
  }

  lemma ConjNorm(q: Quat)
    ensures QNormSq(Conj(q)) == QNormSq(q)
  {
  }

  /** The sandwich product of a pure quaternion is pure: its scalar part is zero. */
  lemma {:induction false} SandwichIsPure(q: Quat, v: Vec3)
    ensures Mul(Mul(q, Pure(v)), Conj(q)).w == 0.0
  {
    var t := Mul(q, Pure(v));
    ProductOfMul(q, Pure(v));
    ProductOfMul(t, Conj(q));
    SandwichW(q, v, Pure(v), Conj(q), t, Mul(t, Conj(q)));
  }

  /** The sandwich product scales the squared length of v by |q|⁴. */
  lemma {:induction false} RotateNormSq(q: Quat, v: Vec3)
    ensures NormSq(Rotate(q, v)) == QNormSq(q) * QNormSq(q) * NormSq(v)
  {
    var t := Mul(q, Pure(v));
    var r := Mul(t, Conj(q));
    MulNorm(q, Pure(v));
    MulNorm(t, Conj(q));
    ConjNorm(q);
    SandwichIsPure(q, v);
    assert QNormSq(r) == QNormSq(q) * NormSq(v) * QNormSq(q);
    assert NormSq(Rotate(q, v)) == QNormSq(r) - r.w * r.w;
  }

  /** Rotation by a unit quaternion preserves length. */
  lemma RotatePreservesLength(q: Quat, v: Vec3)
    requires QNormSq(q) == 1.0
    ensures NormSq(Rotate(q, v)) == NormSq(v)
  {
    RotateNormSq(q, v);
  }

  /** The x, y and z components of the sandwich product equal those of the closed form,
      as polynomial identities in the components of q and v. */
  lemma FormulaPolynomials(q: Quat, v: Vec3)
    ensures -(-q.x * v.x - q.y * v.y - q.z * v.z) * q.x + (q.w * v.x + q.y * v.z - q.z * v.y) * q.w
              - (q.w * v.y - q.x * v.z + q.z * v.x) * q.z + (q.w * v.z + q.x * v.y - q.y * v.x) * q.y
            == (q.w * q.w - (q.x * q.x + q.y * q.y + q.z * q.z)) * v.x + 2.0 * (q.x * v.x + q.y * v.y + q.z * v.z) * q.x + 2.0 * q.w * (q.y * v.z - q.z * v.y)
    ensures -(-q.x * v.x - q.y * v.y - q.z * v.z) * q.y + (q.w * v.x + q.y * v.z - q.z * v.y) * q.z
              + (q.w * v.y - q.x * v.z + q.z * v.x) * q.w - (q.w * v.z + q.x * v.y - q.y * v.x) * q.x
            == (q.w * q.w - (q.x * q.x + q.y * q.y + q.z * q.z)) * v.y + 2.0 * (q.x * v.x + q.y * v.y + q.z * v.z) * q.y + 2.0 * q.w * (q.z * v.x - q.x * v.z)
    ensures -(-q.x * v.x - q.y * v.y - q.z * v.z) * q.z - (q.w * v.x + q.y * v.z - q.z * v.y) * q.y
              + (q.w * v.y - q.x * v.z + q.z * v.x) * q.x + (q.w * v.z + q.x * v.y - q.y * v.x) * q.w
            == (q.w * q.w - (q.x * q.x + q.y * q.y + q.z * q.z)) * v.z + 2.0 * (q.x * v.x + q.y * v.y + q.z * v.z) * q.z + 2.0 * q.w * (q.x * v.y - q.y * v.x)
  {
    // the four products on the left, multiplied out
    assert -(-q.x * v.x - q.y * v.y - q.z * v.z) * q.x == q.x * q.x * v.x + q.x * q.y * v.y + q.x * q.z * v.z;
    assert -(-q.x * v.x - q.y * v.y - q.z * v.z) * q.y == q.x * q.y * v.x + q.y * q.y * v.y + q.y * q.z * v.z;
    assert -(-q.x * v.x - q.y * v.y - q.z * v.z) * q.z == q.x * q.z * v.x + q.y * q.z * v.y + q.z * q.z * v.z;
    assert (q.w * v.x + q.y * v.z - q.z * v.y) * q.w == q.w * q.w * v.x + q.w * q.y * v.z - q.w * q.z * v.y;
    assert (q.w * v.x + q.y * v.z - q.z * v.y) * q.z == q.w * q.z * v.x + q.y * q.z * v.z - q.z * q.z * v.y;
    assert (q.w * v.x + q.y * v.z - q.z * v.y) * q.y == q.w * q.y * v.x + q.y * q.y * v.z - q.y * q.z * v.y;
    assert (q.w * v.y - q.x * v.z + q.z * v.x) * q.z == q.w * q.z * v.y - q.x * q.z * v.z + q.z * q.z * v.x;
    assert (q.w * v.y - q.x * v.z + q.z * v.x) * q.w == q.w * q.w * v.y - q.w * q.x * v.z + q.w * q.z * v.x;
    assert (q.w * v.y - q.x * v.z + q.z * v.x) * q.x == q.w * q.x * v.y - q.x * q.x * v.z + q.x * q.z * v.x;
    assert (q.w * v.z + q.x * v.y - q.y * v.x) * q.y == q.w * q.y * v.z + q.x * q.y * v.y - q.y * q.y * v.x;
    assert (q.w * v.z + q.x * v.y - q.y * v.x) * q.x == q.w * q.x * v.z + q.x * q.x * v.y - q.x * q.y * v.x;
    assert (q.w * v.z + q.x * v.y - q.y * v.x) * q.w == q.w * q.w * v.z + q.w * q.x * v.y - q.w * q.y * v.x;
    // the closed form, multiplied out
    assert (q.w * q.w - (q.x * q.x + q.y * q.y + q.z * q.z)) * v.x == q.w * q.w * v.x - q.x * q.x * v.x - q.y * q.y * v.x - q.z * q.z * v.x;
    assert (q.w * q.w - (q.x * q.x + q.y * q.y + q.z * q.z)) * v.y == q.w * q.w * v.y - q.x * q.x * v.y - q.y * q.y * v.y - q.z * q.z * v.y;
    assert (q.w * q.w - (q.x * q.x + q.y * q.y + q.z * q.z)) * v.z == q.w * q.w * v.z - q.x * q.x * v.z - q.y * q.y * v.z - q.z * q.z * v.z;
    assert 2.0 * (q.x * v.x + q.y * v.y + q.z * v.z) * q.x == 2.0 * (q.x * q.x * v.x) + 2.0 * (q.x * q.y * v.y) + 2.0 * (q.x * q.z * v.z);
    assert 2.0 * (q.x * v.x + q.y * v.y + q.z * v.z) * q.y == 2.0 * (q.x * q.y * v.x) + 2.0 * (q.y * q.y * v.y) + 2.0 * (q.y * q.z * v.z);
    assert 2.0 * (q.x * v.x + q.y * v.y + q.z * v.z) * q.z == 2.0 * (q.x * q.z * v.x) + 2.0 * (q.y * q.z * v.y) + 2.0 * (q.z * q.z * v.z);
    assert 2.0 * q.w * (q.y * v.z - q.z * v.y) == 2.0 * (q.w * q.y * v.z) - 2.0 * (q.w * q.z * v.y);
    assert 2.0 * q.w * (q.z * v.x - q.x * v.z) == 2.0 * (q.w * q.z * v.x) - 2.0 * (q.w * q.x * v.z);
    assert 2.0 * q.w * (q.x * v.y - q.y * v.x) == 2.0 * (q.w * q.x * v.y) - 2.0 * (q.w * q.y * v.x);
  }

  /** The components of the sandwich product. */
  lemma SandwichFields(q: Quat, v: Vec3)
    ensures Rotate(q, v).x == -(-q.x * v.x - q.y * v.y - q.z * v.z) * q.x + (q.w * v.x + q.y * v.z - q.z * v.y) * q.w
                              - (q.w * v.y - q.x * v.z + q.z * v.x) * q.z + (q.w * v.z + q.x * v.y - q.y * v.x) * q.y
    ensures Rotate(q, v).y == -(-q.x * v.x - q.y * v.y - q.z * v.z) * q.y + (q.w * v.x + q.y * v.z - q.z * v.y) * q.z
                              + (q.w * v.y - q.x * v.z + q.z * v.x) * q.w - (q.w * v.z + q.x * v.y - q.y * v.x) * q.x
    ensures Rotate(q, v).z == -(-q.x * v.x - q.y * v.y - q.z * v.z) * q.z - (q.w * v.x + q.y * v.z - q.z * v.y) * q.y
                              + (q.w * v.y - q.x * v.z + q.z * v.x) * q.x + (q.w * v.z + q.x * v.y - q.y * v.x) * q.w
  {
    var t := Mul(q, Pure(v));
    ProductOfMul(q, Pure(v));
    ProductOfMul(t, Conj(q));
    SandwichX(q, v, Pure(v), Conj(q), t, Mul(t, Conj(q)));
    SandwichY(q, v, Pure(v), Conj(q), t, Mul(t, Conj(q)));
    SandwichZ(q, v, Pure(v), Conj(q), t, Mul(t, Conj(q)));
  }

  /** The components of the sandwich product as one vector. */
  function SandwichPoly(q: Quat, v: Vec3): Vec3 {
    Vec3(-(-q.x * v.x - q.y * v.y - q.z * v.z) * q.x + (q.w * v.x + q.y * v.z - q.z * v.y) * q.w
         - (q.w * v.y - q.x * v.z + q.z * v.x) * q.z + (q.w * v.z + q.x * v.y - q.y * v.x) * q.y,
         -(-q.x * v.x - q.y * v.y - q.z * v.z) * q.y + (q.w * v.x + q.y * v.z - q.z * v.y) * q.z
         + (q.w * v.y - q.x * v.z + q.z * v.x) * q.w - (q.w * v.z + q.x * v.y - q.y * v.x) * q.x,
         -(-q.x * v.x - q.y * v.y - q.z * v.z) * q.z - (q.w * v.x + q.y * v.z - q.z * v.y) * q.y
         + (q.w * v.y - q.x * v.z + q.z * v.x) * q.x + (q.w * v.z + q.x * v.y - q.y * v.x) * q.w)
  }

  lemma SandwichIsPoly(q: Quat, v: Vec3)
    ensures Rotate(q, v) == SandwichPoly(q, v)
  {
    SandwichFields(q, v);
    PolyComponents(Rotate(q, v), q, v);
    SameComponents(Rotate(q, v), SandwichPoly(q, v));
  }

  /** A vector whose components are the sandwich polynomials has the components of `SandwichPoly`. */
  lemma PolyComponents(a: Vec3, q: Quat, v: Vec3)
    requires a.x == -(-q.x * v.x - q.y * v.y - q.z * v.z) * q.x + (q.w * v.x + q.y * v.z - q.z * v.y) * q.w
                - (q.w * v.y - q.x * v.z + q.z * v.x) * q.z + (q.w * v.z + q.x * v.y - q.y * v.x) * q.y
    requires a.y == -(-q.x * v.x - q.y * v.y - q.z * v.z) * q.y + (q.w * v.x + q.y * v.z - q.z * v.y) * q.z
                + (q.w * v.y - q.x * v.z + q.z * v.x) * q.w - (q.w * v.z + q.x * v.y - q.y * v.x) * q.x
    requires a.z == -(-q.x * v.x - q.y * v.y - q.z * v.z) * q.z - (q.w * v.x + q.y * v.z - q.z * v.y) * q.y
                + (q.w * v.y - q.x * v.z + q.z * v.x) * q.x + (q.w * v.z + q.x * v.y - q.y * v.x) * q.w
    ensures a.x == SandwichPoly(q, v).x && a.y == SandwichPoly(q, v).y && a.z == SandwichPoly(q, v).z
  {
  }

  /** Vectors with the same components are equal. */
  lemma SameComponents(a: Vec3, b: Vec3)
    requires a.x == b.x && a.y == b.y && a.z == b.z
    ensures a == b
  {
  }

  lemma PolyIsFormula(q: Quat, v: Vec3)
    ensures SandwichPoly(q, v) == RotationFormula(q, v)
  {
    FormulaPolynomials(q, v);
  }

  /** The sandwich product equals its closed form. */
  lemma RotateClosedForm(q: Quat, v: Vec3)
    ensures Rotate(q, v) == RotationFormula(q, v)
  {
    SandwichIsPoly(q, v);
    PolyIsFormula(q, v);
  }

  /** The components of the rotation of k v. */
  lemma RotateScaleFields(q: Quat, k: real, v: Vec3)
    ensures Rotate(q, Scale(k, v)).x == k * Rotate(q, v).x
    ensures Rotate(q, Scale(k, v)).y == k * Rotate(q, v).y
    ensures Rotate(q, Scale(k, v)).z == k * Rotate(q, v).z
  {
    var s := Scale(k, v);
    var t, t2 := Mul(q, Pure(v)), Mul(q, Pure(s));
    ProductOfMul(q, Pure(v));
    ProductOfMul(q, Pure(s));
    ProductOfMul(t, Conj(q));
    ProductOfMul(t2, Conj(q));
    ProductScaledRight(q, Pure(v), Pure(s), k, t, t2);
    ProductScaledLeft(t, t2, Conj(q), k, Mul(t, Conj(q)), Mul(t2, Conj(q)));
  }

  /** Rotation is linear in the rotated vector. */
  lemma RotateScale(q: Quat, k: real, v: Vec3)
    ensures Rotate(q, Scale(k, v)) == Scale(k, Rotate(q, v))
  {
    RotateScaleFields(q, k, v);
  }

  lemma RotateZero(q: Quat)
    ensures Rotate(q, Zero) == Zero
  {
  }

  /** The identity quaternion rotates nothing. */
  lemma RotateIdentity(v: Vec3)
    ensures Rotate(Identity, v) == v
  {
    MulIdentity(Pure(v));
  }

  lemma MulIdentity(q: Quat)
    ensures Mul(q, Identity) == q && Mul(Identity, q) == q
  {
  }

  /** The cross product with a fixed axis is orthogonal to both factors. */
  lemma CrossOrthogonal(a: Vec3, b: Vec3)
    ensures Dot(Cross(a, b), a) == 0.0 && Dot(Cross(a, b), b) == 0.0
  {
  }

  /** The product of two positive numbers is positive. */
  lemma ProductPositive(x: real, y: real, n: real)
    requires n == x * y && 0.0 < x && 0.0 < y
    ensures 0.0 < n
  {
  }

  lemma SquarePositive(x: real, n: real)
    requires n == x * x
    ensures 0.0 <= n
    ensures x != 0.0 ==> 0.0 < n
  {
    if 0.0 < x {
      ProductPositive(x, x, n);
    } else if x < 0.0 {
      ProductPositive(-x, -x, n);
    }
  }

  /** A sum of squares is non-negative, and positive unless every term is zero. */
  lemma SumOfSquares(w: real, x: real, y: real, z: real, n: real)
    requires n == w * w + x * x + y * y + z * z
    ensures 0.0 <= n
    ensures n == 0.0 <==> w == 0.0 && x == 0.0 && y == 0.0 && z == 0.0
  {
    var sw, sx, sy, sz := w * w, x * x, y * y, z * z;
    SquarePositive(w, sw);
    SquarePositive(x, sx);
    SquarePositive(y, sy);
    SquarePositive(z, sz);
  }

  /** Only the zero vector has zero length. */
  lemma NormSqZero(a: Vec3)
    ensures 0.0 <= NormSq(a)
    ensures NormSq(a) == 0.0 <==> a == Zero
  {
    SumOfSquares(0.0, a.x, a.y, a.z, NormSq(a));
  }

  /** Only the zero quaternion has zero norm. */
  lemma QNormSqNonNegative(q: Quat)
    ensures 0.0 <= QNormSq(q)
    ensures QNormSq(q) == 0.0 <==> q == Quat(0.0, 0.0, 0.0, 0.0)
  {
    SumOfSquares(q.w, q.x, q.y, q.z, QNormSq(q));
  }

  lemma ScaledNormSq(k: real, a: Vec3)
    ensures NormSq(Scale(k, a)) == k * k * NormSq(a)
  {
  }

  /** Scaling by k and then by 1/k is the identity. */
  lemma ScaleInverse(k: real, a: Vec3)
    requires k != 0.0
    ensures Scale(k, Scale(1.0 / k, a)) == a
  {
  }
  // ---- composition of rotations ----------------------------------------------------

  /** a is the Hamilton product of p and q, component by component. */
  predicate IsProduct(a: Quat, p: Quat, q: Quat) {
    && a.w == p.w * q.w - p.x * q.x - p.y * q.y - p.z * q.z
    && a.x == p.w * q.x + p.x * q.w + p.y * q.z - p.z * q.y
    && a.y == p.w * q.y - p.x * q.z + p.y * q.w + p.z * q.x
    && a.z == p.w * q.z + p.x * q.y - p.y * q.x + p.z * q.w
  }

  /** pv is the pure quaternion (0, v). */
  predicate IsPure(pv: Quat, v: Vec3) {
    pv.w == 0.0 && pv.x == v.x && pv.y == v.y && pv.z == v.z
  }

  /** cq is the conjugate of q. */
  predicate IsConj(cq: Quat, q: Quat) {
    cq.w == q.w && cq.x == -q.x && cq.y == -q.y && cq.z == -q.z
  }

  /** b is k a. */
  predicate IsScaled(b: Quat, k: real, a: Quat) {
    b.w == k * a.w && b.x == k * a.x && b.y == k * a.y && b.z == k * a.z
  }

  /** The components of the sandwich product r = (q (0, v)) q*, multiplied out one at a time. */
  lemma SandwichW(q: Quat, v: Vec3, pv: Quat, cq: Quat, t: Quat, r: Quat)
    requires IsPure(pv, v) && IsConj(cq, q) && IsProduct(t, q, pv) && IsProduct(r, t, cq)
    ensures r.w == 0.0
  {
  }

  lemma SandwichX(q: Quat, v: Vec3, pv: Quat, cq: Quat, t: Quat, r: Quat)
    requires IsPure(pv, v) && IsConj(cq, q) && IsProduct(t, q, pv) && IsProduct(r, t, cq)
    ensures r.x == -(-q.x * v.x - q.y * v.y - q.z * v.z) * q.x + (q.w * v.x + q.y * v.z - q.z * v.y) * q.w
              - (q.w * v.y - q.x * v.z + q.z * v.x) * q.z + (q.w * v.z + q.x * v.y - q.y * v.x) * q.y
  {
  }

  lemma SandwichY(q: Quat, v: Vec3, pv: Quat, cq: Quat, t: Quat, r: Quat)
    requires IsPure(pv, v) && IsConj(cq, q) && IsProduct(t, q, pv) && IsProduct(r, t, cq)
    ensures r.y == -(-q.x * v.x - q.y * v.y - q.z * v.z) * q.y + (q.w * v.x + q.y * v.z - q.z * v.y) * q.z
              + (q.w * v.y - q.x * v.z + q.z * v.x) * q.w - (q.w * v.z + q.x * v.y - q.y * v.x) * q.x
  {
  }

  lemma SandwichZ(q: Quat, v: Vec3, pv: Quat, cq: Quat, t: Quat, r: Quat)
    requires IsPure(pv, v) && IsConj(cq, q) && IsProduct(t, q, pv) && IsProduct(r, t, cq)
    ensures r.z == -(-q.x * v.x - q.y * v.y - q.z * v.z) * q.z - (q.w * v.x + q.y * v.z - q.z * v.y) * q.y
              + (q.w * v.y - q.x * v.z + q.z * v.x) * q.x + (q.w * v.z + q.x * v.y - q.y * v.x) * q.w
  {
  }

  /** Scaling the right factor scales the product. */
  lemma ProductScaledRight(q: Quat, p: Quat, p2: Quat, k: real, a: Quat, b: Quat)
    requires IsProduct(a, q, p) && IsProduct(b, q, p2) && IsScaled(p2, k, p)
    ensures IsScaled(b, k, a)
  {
    ScaledRightW(q, p, p2, k, a, b);
    ScaledRightX(q, p, p2, k, a, b);
    ScaledRightY(q, p, p2, k, a, b);
    ScaledRightZ(q, p, p2, k, a, b);
  }

  /** Scaling the left factor scales the product. */
  lemma ProductScaledLeft(t: Quat, t2: Quat, c: Quat, k: real, a: Quat, b: Quat)
    requires IsProduct(a, t, c) && IsProduct(b, t2, c) && IsScaled(t2, k, t)
    ensures IsScaled(b, k, a)
  {
    ScaledLeftW(t, t2, c, k, a, b);
    ScaledLeftX(t, t2, c, k, a, b);
    ScaledLeftY(t, t2, c, k, a, b);
    ScaledLeftZ(t, t2, c, k, a, b);
  }

  // The two lemmas above, one component at a time.
  lemma ScaledRightW(q: Quat, p: Quat, p2: Quat, k: real, a: Quat, b: Quat)
    requires IsProduct(a, q, p) && IsProduct(b, q, p2) && IsScaled(p2, k, p)
    ensures b.w == k * a.w
  {
  }

  lemma ScaledLeftW(t: Quat, t2: Quat, c: Quat, k: real, a: Quat, b: Quat)
    requires IsProduct(a, t, c) && IsProduct(b, t2, c) && IsScaled(t2, k, t)
    ensures b.w == k * a.w
  {
  }

  lemma ScaledRightX(q: Quat, p: Quat, p2: Quat, k: real, a: Quat, b: Quat)
    requires IsProduct(a, q, p) && IsProduct(b, q, p2) && IsScaled(p2, k, p)
    ensures b.x == k * a.x
  {
  }

  lemma ScaledLeftX(t: Quat, t2: Quat, c: Quat, k: real, a: Quat, b: Quat)
    requires IsProduct(a, t, c) && IsProduct(b, t2, c) && IsScaled(t2, k, t)
    ensures b.x == k * a.x
  {
  }

  lemma ScaledRightY(q: Quat, p: Quat, p2: Quat, k: real, a: Quat, b: Quat)
    requires IsProduct(a, q, p) && IsProduct(b, q, p2) && IsScaled(p2, k, p)
    ensures b.y == k * a.y
  {
  }

  lemma ScaledLeftY(t: Quat, t2: Quat, c: Quat, k: real, a: Quat, b: Quat)
    requires IsProduct(a, t, c) && IsProduct(b, t2, c) && IsScaled(t2, k, t)
    ensures b.y == k * a.y
  {
  }

  lemma ScaledRightZ(q: Quat, p: Quat, p2: Quat, k: real, a: Quat, b: Quat)
    requires IsProduct(a, q, p) && IsProduct(b, q, p2) && IsScaled(p2, k, p)
    ensures b.z == k * a.z
  {
  }

  lemma ScaledLeftZ(t: Quat, t2: Quat, c: Quat, k: real, a: Quat, b: Quat)
    requires IsProduct(a, t, c) && IsProduct(b, t2, c) && IsScaled(t2, k, t)
    ensures b.z == k * a.z
  {
  }


  /** The conjugate of a product, component by component. */
  lemma ConjOfProduct(p: Quat, q: Quat, cp: Quat, cq: Quat, a: Quat, b: Quat)
    requires IsConj(cp, p) && IsConj(cq, q) && IsProduct(a, p, q) && IsProduct(b, cq, cp)
    ensures IsConj(b, a)
  {
  }

  lemma ProductOfMul(p: Quat, q: Quat)
    ensures IsProduct(Mul(p, q), p, q)
  {
  }

  /** Component w of p q r, multiplied out into sixteen monomials p_i q_j r_k. */
  function TripleW(p: Quat, q: Quat, r: Quat): real {
    p.w * q.w * r.w - p.w * q.x * r.x - p.w * q.y * r.y - p.w * q.z * r.z
       - p.x * q.w * r.x - p.x * q.x * r.w - p.x * q.y * r.z + p.x * q.z * r.y
       - p.y * q.w * r.y + p.y * q.x * r.z - p.y * q.y * r.w - p.y * q.z * r.x
       - p.z * q.w * r.z - p.z * q.x * r.y + p.z * q.y * r.x - p.z * q.z * r.w
  }

  /** Component x of p q r, multiplied out into sixteen monomials p_i q_j r_k. */
  function TripleX(p: Quat, q: Quat, r: Quat): real {
    p.w * q.w * r.x + p.w * q.x * r.w + p.w * q.y * r.z - p.w * q.z * r.y
       + p.x * q.w * r.w - p.x * q.x * r.x - p.x * q.y * r.y - p.x * q.z * r.z
       + p.y * q.w * r.z + p.y * q.x * r.y - p.y * q.y * r.x + p.y * q.z * r.w
       - p.z * q.w * r.y + p.z * q.x * r.z - p.z * q.y * r.w - p.z * q.z * r.x
  }

  /** Component y of p q r, multiplied out into sixteen monomials p_i q_j r_k. */
  function TripleY(p: Quat, q: Quat, r: Quat): real {
    p.w * q.w * r.y - p.w * q.x * r.z + p.w * q.y * r.w + p.w * q.z * r.x
       - p.x * q.w * r.z - p.x * q.x * r.y + p.x * q.y * r.x - p.x * q.z * r.w
       + p.y * q.w * r.w - p.y * q.x * r.x - p.y * q.y * r.y - p.y * q.z * r.z
       + p.z * q.w * r.x + p.z * q.x * r.w + p.z * q.y * r.z - p.z * q.z * r.y
  }

  /** Component z of p q r, multiplied out into sixteen monomials p_i q_j r_k. */
  function TripleZ(p: Quat, q: Quat, r: Quat): real {
    p.w * q.w * r.z + p.w * q.x * r.y - p.w * q.y * r.x + p.w * q.z * r.w
       + p.x * q.w * r.y - p.x * q.x * r.z + p.x * q.y * r.w + p.x * q.z * r.x
       - p.y * q.w * r.x - p.y * q.x * r.w - p.y * q.y * r.z + p.y * q.z * r.y
       + p.z * q.w * r.w - p.z * q.x * r.x - p.z * q.y * r.y - p.z * q.z * r.z
  }

  // The products (p q) r and p (q r), taken one component at a time, each
  // multiplied out into the same sixteen monomials.

  lemma LeftTripleW(p: Quat, q: Quat, r: Quat, a: Quat, c: Quat)
    requires IsProduct(a, p, q) && IsProduct(c, a, r)
    ensures c.w == TripleW(p, q, r)
  {
  }

  lemma RightTripleW(p: Quat, q: Quat, r: Quat, b: Quat, d: Quat)
    requires IsProduct(b, q, r) && IsProduct(d, p, b)
    ensures d.w == TripleW(p, q, r)
  {
  }

  lemma LeftTripleX(p: Quat, q: Quat, r: Quat, a: Quat, c: Quat)
    requires IsProduct(a, p, q) && IsProduct(c, a, r)
    ensures c.x == TripleX(p, q, r)
  {
  }

  lemma RightTripleX(p: Quat, q: Quat, r: Quat, b: Quat, d: Quat)
    requires IsProduct(b, q, r) && IsProduct(d, p, b)
    ensures d.x == TripleX(p, q, r)
  {
  }

  lemma LeftTripleY(p: Quat, q: Quat, r: Quat, a: Quat, c: Quat)
    requires IsProduct(a, p, q) && IsProduct(c, a, r)
    ensures c.y == TripleY(p, q, r)
  {
  }

  lemma RightTripleY(p: Quat, q: Quat, r: Quat, b: Quat, d: Quat)
    requires IsProduct(b, q, r) && IsProduct(d, p, b)
    ensures d.y == TripleY(p, q, r)
  {
  }

  lemma LeftTripleZ(p: Quat, q: Quat, r: Quat, a: Quat, c: Quat)
    requires IsProduct(a, p, q) && IsProduct(c, a, r)
    ensures c.z == TripleZ(p, q, r)
  {
  }

  lemma RightTripleZ(p: Quat, q: Quat, r: Quat, b: Quat, d: Quat)
    requires IsProduct(b, q, r) && IsProduct(d, p, b)
    ensures d.z == TripleZ(p, q, r)
  {
  }

  /** The Hamilton product is associative. */
  lemma MulAssoc(p: Quat, q: Quat, r: Quat)
    ensures Mul(Mul(p, q), r) == Mul(p, Mul(q, r))
  {
    var a, b := Mul(p, q), Mul(q, r);
    var c, d := Mul(a, r), Mul(p, b);
    ProductOfMul(p, q);
    ProductOfMul(q, r);
    ProductOfMul(a, r);
    ProductOfMul(p, b);
    LeftTripleW(p, q, r, a, c);
    LeftTripleX(p, q, r, a, c);
    LeftTripleY(p, q, r, a, c);
    LeftTripleZ(p, q, r, a, c);
    RightTripleW(p, q, r, b, d);
    RightTripleX(p, q, r, b, d);
    RightTripleY(p, q, r, b, d);
    RightTripleZ(p, q, r, b, d);
  }

  /** The conjugate of a product is the product of the conjugates in reverse order. */
  lemma ConjMul(p: Quat, q: Quat)
    ensures Conj(Mul(p, q)) == Mul(Conj(q), Conj(p))
  {
    ProductOfMul(p, q);
    ProductOfMul(Conj(q), Conj(p));
    ConjOfProduct(p, q, Conj(p), Conj(q), Mul(p, q), Mul(Conj(q), Conj(p)));
  }

  /** A quaternion with zero scalar part is the pure quaternion of its vector part. */
  lemma PureOfVecPart(q: Quat)
    requires q.w == 0.0
    ensures Pure(VecPart(q)) == q
  {
  }

  /** Rotating by a product is rotating by the right factor, then by the left one. */
  lemma {:induction false} RotateCompose(c: Quat, q: Quat, v: Vec3)
    ensures Rotate(Mul(c, q), v) == Rotate(c, Rotate(q, v))
  {
    var s := Mul(Mul(q, Pure(v)), Conj(q));
    SandwichIsPure(q, v);
    PureOfVecPart(s);
    ConjMul(c, q);
    calc {
      Mul(Mul(Mul(c, q), Pure(v)), Conj(Mul(c, q)));
      Mul(Mul(Mul(c, q), Pure(v)), Mul(Conj(q), Conj(c)));
      { MulAssoc(c, q, Pure(v)); }
      Mul(Mul(c, Mul(q, Pure(v))), Mul(Conj(q), Conj(c)));
      { MulAssoc(Mul(c, Mul(q, Pure(v))), Conj(q), Conj(c)); }
      Mul(Mul(Mul(c, Mul(q, Pure(v))), Conj(q)), Conj(c));
      { MulAssoc(c, Mul(q, Pure(v)), Conj(q)); }
      Mul(Mul(c, s), Conj(c));
      Mul(Mul(c, Pure(Rotate(q, v))), Conj(c));
    }
  }

  lemma SandwichVecPartFields(q: Quat, p: Quat)
    ensures VecPart(Mul(Mul(q, p), Conj(q))).x == Rotate(q, VecPart(p)).x
    ensures VecPart(Mul(Mul(q, p), Conj(q))).y == Rotate(q, VecPart(p)).y
    ensures VecPart(Mul(Mul(q, p), Conj(q))).z == Rotate(q, VecPart(p)).z
  {
  }

  /** The scalar part of p does not contribute to the vector part of q p q*. */
  lemma SandwichVecPart(q: Quat, p: Quat)
    ensures VecPart(Mul(Mul(q, p), Conj(q))) == Rotate(q, VecPart(p))
  {
    SandwichVecPartFields(q, p);
  }
  // ---- the images of the basis vectors -------------------------------------------

  lemma RotateEZFields(q: Quat)
    ensures Rotate(q, EZ).x == 2.0 * (q.x * q.z + q.w * q.y)
    ensures Rotate(q, EZ).y == 2.0 * (q.y * q.z - q.w * q.x)
    ensures Rotate(q, EZ).z == q.w * q.w - q.x * q.x - q.y * q.y + q.z * q.z
  {
    SandwichFields(q, EZ);
  }

  /** Where a rotation sends the main axis e_z. */
  lemma RotateEZ(q: Quat)
    ensures Rotate(q, EZ) == Vec3(2.0 * (q.x * q.z + q.w * q.y), 2.0 * (q.y * q.z - q.w * q.x),
                                  q.w * q.w - q.x * q.x - q.y * q.y + q.z * q.z)
  {
    RotateEZFields(q);
  }

  lemma RotateEXFields(q: Quat)
    ensures Rotate(q, EX).x == q.w * q.w + q.x * q.x - q.y * q.y - q.z * q.z
    ensures Rotate(q, EX).y == 2.0 * (q.x * q.y + q.w * q.z)
    ensures Rotate(q, EX).z == 2.0 * (q.x * q.z - q.w * q.y)
  {
    SandwichFields(q, EX);
  }

  /** Where a rotation sends the mouth direction e_x. */
  lemma RotateEX(q: Quat)
    ensures Rotate(q, EX) == Vec3(q.w * q.w + q.x * q.x - q.y * q.y - q.z * q.z, 2.0 * (q.x * q.y + q.w * q.z),
                                  2.0 * (q.x * q.z - q.w * q.y))
  {
    RotateEXFields(q);
  }
}
