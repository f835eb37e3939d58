/** The elementary functions numpy evaluates in floating point (sin, cos, sqrt,
    arctan2 and the constant pi), taken here as exact real functions that are
    passed around explicitly. Nothing about them is assumed beyond the laws
    collected in `Lawful`, each of which the true real functions satisfy. */
module Elementary {

  datatype MathLib = MathLib(
    sin: real -> real,
    cos: real -> real,
    sqrt: real -> real,
    atan2: (real, real) -> real,
    pi: real)

  /** Twice an angle, named so that the double angle law applies only where it is asked for. */
  function Double(t: real): real { t + t }

  /** Pythagoras, the double angle formulas and the values at pi/2. */
  ghost predicate TrigLaws(m: MathLib) {
    && 3.14 < m.pi < 3.15
    && (forall t :: m.sin(t) * m.sin(t) + m.cos(t) * m.cos(t) == 1.0)
    && (forall t {:trigger Double(t)} :: m.sin(Double(t)) == 2.0 * m.sin(t) * m.cos(t)
          && m.cos(Double(t)) == m.cos(t) * m.cos(t) - m.sin(t) * m.sin(t))
    && m.sin(m.pi / 2.0) == 1.0
    && m.cos(m.pi / 2.0) == 0.0
  }

  /** The square root of a non-negative number is a non-negative root of it. */
  ghost predicate RootLaws(m: MathLib) {
    forall r :: 0.0 <= r ==> 0.0 <= m.sqrt(r) && m.sqrt(r) * m.sqrt(r) == r
  }

  /** atan2 gives the polar angle of a non-zero point; on the diagonals it is
      plus or minus pi/4, and on the non-negative x axis (origin included, as
      numpy has it) it is 0. */
  ghost predicate Atan2Laws(m: MathLib) {
    && (forall y, x {:trigger m.atan2(y, x)} :: 0.0 < x * x + y * y ==>
          m.sqrt(x * x + y * y) * m.cos(m.atan2(y, x)) == x
          && m.sqrt(x * x + y * y) * m.sin(m.atan2(y, x)) == y)
    && (forall x :: 0.0 <= x ==> m.atan2(0.0, x) == 0.0)
    && (forall y, x {:trigger m.atan2(y, x)} :: 0.0 < x && y == x ==> m.atan2(y, x) == m.pi / 4.0)
    && (forall y, x {:trigger m.atan2(y, x)} :: 0.0 < x && y == -x ==> m.atan2(y, x) == -m.pi / 4.0)
  }

  /** The laws of the real sine, cosine, square root and two-argument arc
      tangent that the model relies on. */
  ghost predicate Lawful(m: MathLib) {
    TrigLaws(m) && RootLaws(m) && Atan2Laws(m)
  }

  /** Two bounds of the real sine, kept apart from `Lawful` because only the
      numeric counterexamples need them: -t <= sin(t) <= t for t >= 0. */
  ghost predicate SineBounds(m: MathLib) {
    forall t :: 0.0 <= t ==> -t <= m.sin(t) <= t
  }

  lemma Pythagoras(m: MathLib, t: real)
    requires TrigLaws(m)
    ensures m.sin(t) * m.sin(t) + m.cos(t) * m.cos(t) == 1.0
  {
  }

  /** The double angle formulas, at u = 2 t. */
  lemma DoubleAngle(m: MathLib, t: real, u: real)
    requires TrigLaws(m) && u == t + t
    ensures m.sin(u) == 2.0 * m.sin(t) * m.cos(t)
    ensures m.cos(u) == m.cos(t) * m.cos(t) - m.sin(t) * m.sin(t)
  {
    assert u == Double(t);
  }

  lemma SqrtLaw(m: MathLib, r: real)
    requires RootLaws(m) && 0.0 <= r
    ensures 0.0 <= m.sqrt(r) && m.sqrt(r) * m.sqrt(r) == r
  {
  }

  /** A product that vanishes with one factor positive has the other factor zero. */
  lemma ProductZero(d: real, e: real)
    requires d * e == 0.0 && 0.0 < e
    ensures d == 0.0
  {
    assert d == (d * e) / e;
  }

  /** Two non-negative numbers with equal squares are equal. */
  lemma NonNegativeRootUnique(a: real, s: real)
    requires 0.0 <= a && 0.0 <= s && a * a == s * s
    ensures a == s
  {
    if 0.0 < s + a {
      assert (s - a) * (s + a) == s * s - a * a;
      ProductZero(s - a, s + a);
    }
  }

  /** The square root is the only non-negative root. */
  lemma SqrtUnique(m: MathLib, r: real, s: real)
    requires RootLaws(m) && 0.0 <= s && s * s == r
    ensures m.sqrt(r) == s
  {
    SqrtLaw(m, r);
    NonNegativeRootUnique(m.sqrt(r), s);
  }

  /** From c² - s² = 0, 2 s c = 1 and s² + c² = 1: s = c and c² = 1/2. */
  lemma EqualHalves(s: real, c: real)
    requires c * c - s * s == 0.0 && 2.0 * s * c == 1.0 && s * s + c * c == 1.0
    ensures s == c && c * c == 0.5
  {
    assert (s - c) * (s - c) == 0.0;
  }

  /** The double angle formulas at pi/4 against the values at pi/2. */
  lemma QuarterDoubled(m: MathLib)
    requires TrigLaws(m)
    ensures 2.0 * m.sin(m.pi / 4.0) * m.cos(m.pi / 4.0) == 1.0
    ensures m.cos(m.pi / 4.0) * m.cos(m.pi / 4.0) - m.sin(m.pi / 4.0) * m.sin(m.pi / 4.0) == 0.0
  {
    DoubleAngle(m, m.pi / 4.0, m.pi / 2.0);
  }

  /** sin(pi/4) = cos(pi/4) and both square to one half. */
  lemma QuarterTurn(m: MathLib)
    requires TrigLaws(m)
    ensures m.sin(m.pi / 4.0) == m.cos(m.pi / 4.0)
    ensures m.cos(m.pi / 4.0) * m.cos(m.pi / 4.0) == 0.5
    ensures 2.0 * m.sin(m.pi / 4.0) * m.cos(m.pi / 4.0) == 1.0
  {
    QuarterDoubled(m);
    Pythagoras(m, m.pi / 4.0);
    EqualHalves(m.sin(m.pi / 4.0), m.cos(m.pi / 4.0));
  }

  /** sin(pi) = 0, from the double angle formula at pi/2. */
  lemma SinPi(m: MathLib)
    requires TrigLaws(m)
    ensures m.sin(m.pi) == 0.0
  {
    DoubleAngle(m, m.pi / 2.0, m.pi);
  }

  /** The polar form of a non-zero vector (x, y): atan2 recovers its direction. */
  lemma Atan2Polar(m: MathLib, y: real, x: real)
    requires Atan2Laws(m) && 0.0 < x * x + y * y
    ensures m.sqrt(x * x + y * y) * m.cos(m.atan2(y, x)) == x
    ensures m.sqrt(x * x + y * y) * m.sin(m.atan2(y, x)) == y
  {
  }
}
