/** The quaternion algebra shared by the filter steps: the gravity
    direction predicted from the current attitude, the first-order
    quaternion increment for a pre-scaled body rate, and the second-order
    variant of `IMUUpdate`. */
module Attitude {
  import opened Vectors

  /** Gravity in the body frame predicted by `q`, as `IMUAccGyr` and
      `IMUUpdate` compute it (`Vx = 2*(q1q3 - q0q2)`, ...): the third
      column of the rotation matrix of `q`. */
  function Gravity(q: Quaternion): Vec3 {
    Vec3(2.0 * (q.q1 * q.q3 - q.q0 * q.q2),
         2.0 * (q.q0 * q.q1 + q.q2 * q.q3),
         q.q0 * q.q0 - q.q1 * q.q1 - q.q2 * q.q2 + q.q3 * q.q3)
  }

  /** The predicted gravity has length |q|^2, so it is a unit vector
      exactly when `q` is a unit quaternion. */
  lemma GravityNormSq(q: Quaternion)
    ensures NormSq(Gravity(q)) == QNormSq(q) * QNormSq(q)
  {
  }

  /** Half the predicted gravity, as `Axis6UpdateQuat` computes it
      (`halfVz = q0*q0 - 0.5 + q3*q3`). */
  function HalfGravity(q: Quaternion): Vec3 {
    Vec3(q.q1 * q.q3 - q.q0 * q.q2,
         q.q0 * q.q1 + q.q2 * q.q3,
         q.q0 * q.q0 - 0.5 + q.q3 * q.q3)
  }

  /** The z component of `HalfGravity` uses |q| = 1, so it agrees with
      half of `Gravity` on unit quaternions, and only there. */
  lemma HalfGravityUnit(q: Quaternion)
    ensures HalfGravity(q) == Scale(Gravity(q), 0.5) <==> QNormSq(q) == 1.0
  {
    var h, g := HalfGravity(q), Scale(Gravity(q), 0.5);
    assert h.x == g.x && h.y == g.y;
    assert h.z - g.z == 0.5 * QNormSq(q) - 0.5;
    if QNormSq(q) == 1.0 {
      assert h.z == g.z;
    } else {
      assert h.z != g.z;
    }
  }

  /** The first-order increment of `q` for the pre-scaled rate `g`
      (the body rate already multiplied by half the time step): the
      quaternion product q * (0, g). */
  function Increment(q: Quaternion, g: Vec3): Quaternion {
    Quaternion(-q.q1 * g.x - q.q2 * g.y - q.q3 * g.z,
               q.q0 * g.x + q.q2 * g.z - q.q3 * g.y,
               q.q0 * g.y - q.q1 * g.z + q.q3 * g.x,
               q.q0 * g.z + q.q1 * g.y - q.q2 * g.x)
  }

  /** The increment is orthogonal to `q`. */
  lemma IncrementOrthogonal(q: Quaternion, g: Vec3)
    ensures QDot(q, Increment(q, g)) == 0.0
  {
  }

  /** The increment has length |q| |g|. */
  lemma IncrementNormSq(q: Quaternion, g: Vec3)
    ensures QNormSq(Increment(q, g)) == QNormSq(q) * NormSq(g)
  {
    var d := Increment(q, g);
    IncrementComponents(q, g);
    NormsExpanded(q, g, d);
    FourSquares(q.q0, q.q1, q.q2, q.q3, g.x, g.y, g.z, d.q0, d.q1, d.q2, d.q3,
                QNormSq(q), NormSq(g));
  }

  /** The four components of the increment, as ground facts for the
      four-square step. */
  lemma IncrementComponents(q: Quaternion, g: Vec3)
    ensures Increment(q, g).q0 == -q.q1 * g.x - q.q2 * g.y - q.q3 * g.z
    ensures Increment(q, g).q1 == q.q0 * g.x + q.q2 * g.z - q.q3 * g.y
    ensures Increment(q, g).q2 == q.q0 * g.y - q.q1 * g.z + q.q3 * g.x
    ensures Increment(q, g).q3 == q.q0 * g.z + q.q1 * g.y - q.q2 * g.x
  {
  }

  /** The squared norms written out as sums of squares. */
  lemma NormsExpanded(q: Quaternion, g: Vec3, d: Quaternion)
    ensures QNormSq(q) == q.q0 * q.q0 + q.q1 * q.q1 + q.q2 * q.q2 + q.q3 * q.q3
    ensures NormSq(g) == g.x * g.x + g.y * g.y + g.z * g.z
    ensures QNormSq(d) == d.q0 * d.q0 + d.q1 * d.q1 + d.q2 * d.q2 + d.q3 * d.q3
  {
  }

  /** Euler's four-square identity, for a second factor whose real part
      is zero: |(a, b, c, d) * (0, x, y, z)|^2 = n m. */
  lemma FourSquares(a: real, b: real, c: real, d: real, x: real, y: real, z: real,
                    p0: real, p1: real, p2: real, p3: real, n: real, m: real)
    requires n == a * a + b * b + c * c + d * d && m == x * x + y * y + z * z
    requires p0 == -b * x - c * y - d * z
    requires p1 == a * x + c * z - d * y
    requires p2 == a * y - b * z + d * x
    requires p3 == a * z + b * y - c * x
    ensures p0 * p0 + p1 * p1 + p2 * p2 + p3 * p3 == n * m
  {
  }

  /** One first-order integration step, before renormalisation, written
      component by component as `Axis6UpdateQuat` computes it from the
      snapshot `Q1` and the pre-scaled rate `g`. */
  function Integrate(q: Quaternion, g: Vec3): Quaternion {
    Quaternion(q.q0 + (-q.q1 * g.x - q.q2 * g.y - q.q3 * g.z),
               q.q1 + (q.q0 * g.x + q.q2 * g.z - q.q3 * g.y),
               q.q2 + (q.q0 * g.y - q.q1 * g.z + q.q3 * g.x),
               q.q3 + (q.q0 * g.z + q.q1 * g.y - q.q2 * g.x))
  }

  /** The step adds the increment q * (0, g) to `q`. */
  lemma IntegrateAddsIncrement(q: Quaternion, g: Vec3)
    ensures Integrate(q, g) == QAdd(q, Increment(q, g))
  {
  }

  /** The increment is orthogonal to `q`, so the squared norm never drops. */
  lemma IntegrateGrows(q: Quaternion, g: Vec3)
    ensures QNormSq(q) <= QNormSq(Integrate(q, g))
  {
    IntegrateAddsIncrement(q, g);
    IncrementOrthogonal(q, g);
    IncrementNormSq(q, g);
    QAddOrthogonal(q, Increment(q, g));
    ProductNonNegative(QNormSq(q), NormSq(g));
  }

  /** The squared norm grows by the factor 1 + |g|^2: never below the
      previous squared norm, and never zero unless `q` was zero. */
  lemma IntegrateNormSq(q: Quaternion, g: Vec3)
    ensures QNormSq(Integrate(q, g)) == QNormSq(q) * (1.0 + NormSq(g))
  {
    IntegrateAddsIncrement(q, g);
    IncrementOrthogonal(q, g);
    IncrementNormSq(q, g);
    QAddOrthogonal(q, Increment(q, g));
  }

  lemma ProductNonNegative(a: real, b: real)
    requires a >= 0.0 && b >= 0.0
    ensures a * b >= 0.0
  {
  }

  /** With zero rate the step changes nothing. */
  lemma IntegrateZeroRate(q: Quaternion)
    ensures Integrate(q, Zero3) == q
  {
    var d := Increment(q, Zero3);
    assert d.q0 == 0.0 && d.q1 == 0.0 && d.q2 == 0.0 && d.q3 == 0.0;
  }

  /** `IMUAccGyr` multiplies the increment for the unscaled rate by `halfT`
      instead of scaling the rate first. */
  function FirstOrderStep(q: Quaternion, w: Vec3, halfT: real): Quaternion {
    Quaternion(q.q0 + (-q.q1 * w.x - q.q2 * w.y - q.q3 * w.z) * halfT,
               q.q1 + (q.q0 * w.x + q.q2 * w.z - q.q3 * w.y) * halfT,
               q.q2 + (q.q0 * w.y - q.q1 * w.z + q.q3 * w.x) * halfT,
               q.q3 + (q.q0 * w.z + q.q1 * w.y - q.q2 * w.x) * halfT)
  }

  /** The step adds the increment q * (0, w), scaled by `halfT`, to `q`. */
  lemma FirstOrderAddsIncrement(q: Quaternion, w: Vec3, halfT: real)
    ensures FirstOrderStep(q, w, halfT) == QAdd(q, QScale(Increment(q, w), halfT))
  {
    FirstOrderComponent0(q, w, halfT);
    FirstOrderComponent1(q, w, halfT);
    FirstOrderComponent2(q, w, halfT);
    FirstOrderComponent3(q, w, halfT);
  }

  lemma FirstOrderComponent0(q: Quaternion, w: Vec3, halfT: real)
    ensures FirstOrderStep(q, w, halfT).q0 == QAdd(q, QScale(Increment(q, w), halfT)).q0
  {
  }

  lemma FirstOrderComponent1(q: Quaternion, w: Vec3, halfT: real)
    ensures FirstOrderStep(q, w, halfT).q1 == QAdd(q, QScale(Increment(q, w), halfT)).q1
  {
  }

  lemma FirstOrderComponent2(q: Quaternion, w: Vec3, halfT: real)
    ensures FirstOrderStep(q, w, halfT).q2 == QAdd(q, QScale(Increment(q, w), halfT)).q2
  {
  }

  lemma FirstOrderComponent3(q: Quaternion, w: Vec3, halfT: real)
    ensures FirstOrderStep(q, w, halfT).q3 == QAdd(q, QScale(Increment(q, w), halfT)).q3
  {
  }

  /** With zero rate the first-order step changes nothing. */
  lemma FirstOrderZeroRate(q: Quaternion, halfT: real)
    ensures FirstOrderStep(q, Zero3, halfT) == q
  {
    var d := Increment(q, Zero3);
    assert d.q0 == 0.0 && d.q1 == 0.0 && d.q2 == 0.0 && d.q3 == 0.0;
  }

  /** The second-order step of `IMUUpdate`: with
      `Theta_2 = |2 halfT w|^2`, the previous quaternion is damped by
      `1 - Theta_2/8` before the increment `(q * (0, w)) halfT` is added. */
  function SecondOrderStep(q: Quaternion, w: Vec3, halfT: real): Quaternion {
    var theta2 := NormSq(Scale(w, 2.0 * halfT));
    QAdd(QScale(q, 1.0 - theta2 / 8.0), QScale(Increment(q, w), halfT))
  }

  /** With `Theta_2 = |2 halfT w|^2`, the first-order step multiplies the
      squared norm by 1 + Theta_2/4, the second-order step by
      1 + Theta_2^2/64. */
  lemma StepNormSq(q: Quaternion, w: Vec3, halfT: real)
    ensures QNormSq(FirstOrderStep(q, w, halfT))
         == QNormSq(q) * (1.0 + NormSq(Scale(w, 2.0 * halfT)) / 4.0)
    ensures QNormSq(SecondOrderStep(q, w, halfT))
         == QNormSq(q) * (1.0 + Square(NormSq(Scale(w, 2.0 * halfT))) / 64.0)
  {
    var theta2 := NormSq(Scale(w, 2.0 * halfT));
    FirstOrderAddsIncrement(q, w, halfT);
    ScaleNormSq(w, 2.0 * halfT);
    var d := Increment(q, w);
    IncrementOrthogonal(q, w);
    IncrementNormSq(q, w);
    var b := QScale(d, halfT);
    QScaleNormSq(d, halfT);
    assert QNormSq(b) == QNormSq(q) * (theta2 / 4.0);
    QDotScale(q, d, 1.0, halfT);
    assert QScale(q, 1.0) == q;
    QAddOrthogonal(q, b);
    var c := 1.0 - theta2 / 8.0;
    var a := QScale(q, c);
    QDotScale(q, d, c, halfT);
    QAddOrthogonal(a, b);
    QScaleNormSq(q, c);
  }

  /** For steps with Theta_2 <= 16 (a rotation of at most 4 radians per
      step) the second-order step never yields a larger squared norm than
      the first-order one. */
  lemma SecondOrderDriftsLess(q: Quaternion, w: Vec3, halfT: real)
    requires NormSq(Scale(w, 2.0 * halfT)) <= 16.0
    ensures QNormSq(SecondOrderStep(q, w, halfT)) <= QNormSq(FirstOrderStep(q, w, halfT))
  {
    StepNormSq(q, w, halfT);
    OrderedByFactors(QNormSq(SecondOrderStep(q, w, halfT)), QNormSq(FirstOrderStep(q, w, halfT)),
                     QNormSq(q), NormSq(Scale(w, 2.0 * halfT)));
  }

  /** From a quaternion of norm at least 1 (a unit one in particular) both
      steps only grow the norm, so for Theta_2 <= 16 the second-order step
      stays at least as close to unit norm as the first-order one. */
  lemma SecondOrderNearerUnit(q: Quaternion, w: Vec3, halfT: real)
    requires 1.0 <= QNormSq(q) && NormSq(Scale(w, 2.0 * halfT)) <= 16.0
    ensures 1.0 <= QNormSq(SecondOrderStep(q, w, halfT)) <= QNormSq(FirstOrderStep(q, w, halfT))
  {
    SecondOrderDriftsLess(q, w, halfT);
    StepNormSq(q, w, halfT);
    var n, t := QNormSq(q), NormSq(Scale(w, 2.0 * halfT));
    SquareSign(t);
    ProductNonNegative(n, Square(t) / 64.0);
    assert n * (1.0 + Square(t) / 64.0) == n + n * (Square(t) / 64.0);
  }

  lemma OrderedByFactors(second: real, first: real, n: real, t: real)
    requires n >= 0.0 && 0.0 <= t <= 16.0
    requires second == n * (1.0 + Square(t) / 64.0)
    requires first == n * (1.0 + t / 4.0)
    ensures second <= first
  {
    DriftFactors(n, t);
  }

  lemma DriftFactors(n: real, t: real)
    requires n >= 0.0 && 0.0 <= t <= 16.0
    ensures n * (1.0 + Square(t) / 64.0) <= n * (1.0 + t / 4.0)
  {
    ProductNonNegative(t, 16.0 - t);
    assert Square(t) / 64.0 <= t / 4.0;
    ProductNonNegative(n, t / 4.0 - Square(t) / 64.0);
  }
}
