/** The two attitude-filter steps of `IMU.c` that fuse accelerometer and
    gyroscope readings, as pure functions of the old state:
    `Axis6UpdateQuat` (proportional-integral feedback, square-root
    renormalisation) and `IMUAccGyr` (proportional feedback only,
    inverse-square-root renormalisation), with the lemmas about them.
    These functions specify the in-place methods of `ImuState`. */
module ImuFilter {
  import opened Vectors
  import opened Attitude
  import opened Ticks

  /** `KP`: the proportional gain of `IMUAccGyr`. */
  const KP: real := 0.8
  /** `KI`: the integral gain of `IMUAccGyr`, zero in the source. */
  const KI: real := 0.0
  /** `GyrP(x) = x * 0.0174`: degrees per second to radians per second. */
  const GyrFactor: real := 0.0174
  /** `TWO_KP_DEF` and `TWO_KI_DEF`, the initial `twoKp` and `twoKi`. */
  const TwoKpDefault: real := 0.8
  const TwoKiDefault: real := 0.0

  /** `arm_sqrt_f32` as an exact square root on the non-negative reals. */
  ghost predicate IsSqrt(sqrt: real -> real) {
    forall x :: 0.0 <= x ==> 0.0 <= sqrt(x) && sqrt(x) * sqrt(x) == x
  }

  /** All that the model assumes of `invSqrt`: a positive factor for a
      positive argument. */
  ghost predicate IsPositiveFactor(invSqrt: real -> real) {
    forall x :: 0.0 < x ==> 0.0 < invSqrt(x)
  }

  lemma SqrtPositive(sqrt: real -> real, x: real)
    requires IsSqrt(sqrt) && 0.0 < x
    ensures 0.0 < sqrt(x)
  {
  }

  /** The square root of 1 is 1. */
  lemma SqrtOne(sqrt: real -> real)
    requires IsSqrt(sqrt)
    ensures sqrt(1.0) == 1.0
  {
    var s := sqrt(1.0);
    assert (s - 1.0) * (s + 1.0) == s * s - 1.0;
    if s != 1.0 {
      ProductPositive(s + 1.0, if s > 1.0 then s - 1.0 else 1.0 - s);
      assert false;
    }
  }

  /** x s^2 = n with s^2 = n > 0 forces x = 1. */
  lemma CancelSquare(x: real, s: real, n: real)
    requires 0.0 < n && s * s == n && x * (s * s) == n
    ensures x == 1.0
  {
    Rewrite(x, s * s, n);
    Cancel(x, s * s);
  }

  lemma Rewrite(x: real, m: real, n: real)
    requires m == n && x * m == n
    ensures x * m == m
  {
  }

  lemma Cancel(x: real, m: real)
    requires 0.0 < m && x * m == m
    ensures x == 1.0
  {
  }

  /** The normalised accelerometer reading (`Acc /= Norm` with
      `Norm = sqrt(|Acc|^2)`): a unit vector. */
  function UnitAcc(acc: Vec3, sqrt: real -> real): (a: Vec3)
    requires IsSqrt(sqrt) && AllNonZero(acc)
    ensures NormSq(a) == 1.0
  {
    NonZeroNormSq(acc);
    SqrtPositive(sqrt, NormSq(acc));
    var a := Divide(acc, sqrt(NormSq(acc)));
    DivideNormSq(acc, sqrt(NormSq(acc)));
    CancelSquare(NormSq(a), sqrt(NormSq(acc)), NormSq(acc));
    a
  }

  /** The quaternion divided by the square root of its squared norm: a
      unit quaternion. */
  function Normalize(p: Quaternion, sqrt: real -> real): (u: Quaternion)
    requires IsSqrt(sqrt) && 0.0 < QNormSq(p)
    ensures QNormSq(u) == 1.0
  {
    SqrtPositive(sqrt, QNormSq(p));
    var u := QDivide(p, sqrt(QNormSq(p)));
    QDivideNormSq(p, sqrt(QNormSq(p)));
    CancelSquare(QNormSq(u), sqrt(QNormSq(p)), QNormSq(p));
    u
  }

  /** A unit quaternion is left unchanged by normalisation. */
  lemma NormalizeUnit(p: Quaternion, sqrt: real -> real)
    requires IsSqrt(sqrt) && QNormSq(p) == 1.0
    ensures Normalize(p, sqrt) == p
  {
    SqrtOne(sqrt);
  }

  /** The gains of `Axis6UpdateQuat`: the globals `twoKp` and `twoKi`. */
  datatype Gains = Gains(twoKp: real, twoKi: real)

  /** The integral accumulators and the corrected rate after the feedback
      block of `Axis6UpdateQuat`. */
  datatype Correction = Correction(integralFB: Vec3, gyr: Vec3)

  /** `integralFB += twoKi * halfE * DealtaT`, component by component. */
  function Accumulate(fb: Vec3, halfE: Vec3, twoKi: real, dt: real): Vec3 {
    Vec3(fb.x + twoKi * halfE.x * dt, fb.y + twoKi * halfE.y * dt, fb.z + twoKi * halfE.z * dt)
  }

  /** `v += k * e`, component by component, as the source applies a
      gain to an error vector. */
  function AddScaled(v: Vec3, k: real, e: Vec3): Vec3 {
    Vec3(v.x + k * e.x, v.y + k * e.y, v.z + k * e.z)
  }

  /** The integral and proportional feedback of `Axis6UpdateQuat` for the
      half error `halfE`: with `twoKi > 0` the accumulators grow and are
      added to the rate, otherwise they are reset; then the proportional
      term `twoKp * halfE` is added. */
  function Feedback(g: Gains, fb: Vec3, gyr: Vec3, halfE: Vec3, dt: real): Correction {
    if g.twoKi > 0.0 then
      var fb' := Accumulate(fb, halfE, g.twoKi, dt);
      Correction(fb', AddScaled(Add(gyr, fb'), g.twoKp, halfE))
    else
      Correction(Zero3, AddScaled(gyr, g.twoKp, halfE))
  }

  /** The guarded block of `Axis6UpdateQuat` for a unit accelerometer
      reading `a`: the half error is the cross product of `a` with the
      half gravity `q` predicts. */
  function Correct(g: Gains, q: Quaternion, fb: Vec3, a: Vec3, gyr: Vec3, dt: real): Correction {
    Feedback(g, fb, gyr, Cross(a, HalfGravity(q)), dt)
  }

  /** What one call of `Axis6UpdateQuat` leaves behind: the new `Q0`, the
      snapshot `Q1`, the accumulators, and the caller's `Acc` and `Gyr`. */
  datatype Axis6Out = Axis6Out(q0: Quaternion, q1: Quaternion, integralFB: Vec3, acc: Vec3, gyr: Vec3)

  /** One step of `Axis6UpdateQuat` from attitude `q`, accumulators `fb`,
      readings `acc` and `gyr` and time step `dt`. The step snapshots `q`
      and always ends on a unit quaternion. */
  function Axis6Step(g: Gains, q: Quaternion, fb: Vec3, acc: Vec3, gyr: Vec3, dt: real,
                     sqrt: real -> real): (r: Axis6Out)
    requires IsSqrt(sqrt) && 0.0 < QNormSq(q)
    ensures r.q1 == q
    ensures 0.0 < QNormSq(Integrate(q, r.gyr)) && r.q0 == Normalize(Integrate(q, r.gyr), sqrt)
    ensures QNormSq(r.q0) == 1.0
  {
    var a := if AllNonZero(acc) then UnitAcc(acc, sqrt) else acc;
    var c := if AllNonZero(acc) then Correct(g, q, fb, a, gyr, dt) else Correction(fb, gyr);
    var w := Scale(c.gyr, 0.5 * dt);
    IntegrateGrows(q, w);
    Axis6Out(Normalize(Integrate(q, w), sqrt), q, c.integralFB, a, w)
  }

  /** With a zero accelerometer component there is no feedback: `Acc` and
      the accumulators are untouched and `Gyr` is only scaled by
      `0.5 * DealtaT`. */
  lemma Axis6Skip(g: Gains, q: Quaternion, fb: Vec3, acc: Vec3, gyr: Vec3, dt: real,
                  sqrt: real -> real)
    requires IsSqrt(sqrt) && 0.0 < QNormSq(q)
    requires !AllNonZero(acc)
    ensures var r := Axis6Step(g, q, fb, acc, gyr, dt, sqrt);
      r.acc == acc && r.integralFB == fb && r.gyr == Scale(gyr, 0.5 * dt)
      && 0.0 < QNormSq(Integrate(q, Scale(gyr, 0.5 * dt)))
      && r.q0 == Normalize(Integrate(q, Scale(gyr, 0.5 * dt)), sqrt)
  {
  }

  /** Anti-windup: with the guard passed and `twoKi <= 0` the
      accumulators are zero afterwards, whatever they held, and only the
      proportional term corrects the rate. */
  lemma Axis6AntiWindup(g: Gains, q: Quaternion, fb: Vec3, acc: Vec3, gyr: Vec3, dt: real,
                        sqrt: real -> real)
    requires IsSqrt(sqrt) && 0.0 < QNormSq(q)
    requires AllNonZero(acc) && g.twoKi <= 0.0
    ensures var r := Axis6Step(g, q, fb, acc, gyr, dt, sqrt);
      r.integralFB == Zero3
      && r.gyr == Scale(Add(gyr, Scale(Cross(r.acc, HalfGravity(q)), g.twoKp)), 0.5 * dt)
  {
  }

  /** With `twoKi > 0` each accumulator grows by `twoKi * halfE * dt` and
      the grown accumulator is added to the rate beside the proportional
      term. */
  lemma Axis6IntegralGrowth(g: Gains, q: Quaternion, fb: Vec3, acc: Vec3, gyr: Vec3, dt: real,
                            sqrt: real -> real)
    requires IsSqrt(sqrt) && 0.0 < QNormSq(q)
    requires AllNonZero(acc) && g.twoKi > 0.0
    ensures var r := Axis6Step(g, q, fb, acc, gyr, dt, sqrt);
      var halfE := Cross(r.acc, HalfGravity(q));
      r.integralFB == Add(fb, Scale(halfE, g.twoKi * dt))
      && r.gyr == Scale(Add(Add(gyr, r.integralFB), Scale(halfE, g.twoKp)), 0.5 * dt)
  {
  }

  /** With the guard passed, `Acc` is a unit vector and the error fed back
      is orthogonal both to it and to the predicted half-gravity. */
  lemma Axis6ErrorOrthogonal(g: Gains, q: Quaternion, fb: Vec3, acc: Vec3, gyr: Vec3, dt: real,
                             sqrt: real -> real)
    requires IsSqrt(sqrt) && 0.0 < QNormSq(q)
    requires AllNonZero(acc)
    ensures var r := Axis6Step(g, q, fb, acc, gyr, dt, sqrt);
      var halfE := Cross(r.acc, HalfGravity(q));
      NormSq(r.acc) == 1.0 && Dot(r.acc, halfE) == 0.0 && Dot(HalfGravity(q), halfE) == 0.0
  {
    CrossOrthogonal(UnitAcc(acc, sqrt), HalfGravity(q));
  }

  /** A vector crossed with another multiple of the same vector is zero. */
  lemma CrossScaled(v: Vec3, j: real, k: real)
    ensures Cross(Scale(v, j), Scale(v, k)) == Zero3
  {
    var a, b := Scale(v, j), Scale(v, k);
    assert a.y * b.z - a.z * b.y == (v.y * v.z) * (j * k) - (v.z * v.y) * (j * k);
    assert a.z * b.x - a.x * b.z == (v.z * v.x) * (j * k) - (v.x * v.z) * (j * k);
    assert a.x * b.y - a.y * b.x == (v.x * v.y) * (j * k) - (v.y * v.x) * (j * k);
  }

  /** Dividing by n is scaling by 1/n. */
  lemma DivideIsScale(v: Vec3, n: real)
    requires n != 0.0
    ensures Divide(v, n) == Scale(v, 1.0 / n)
  {
  }

  /** An accelerometer reading along the predicted gravity, once
      normalised, is still a multiple of that gravity, so its cross
      product with any multiple of the gravity is zero. */
  lemma AlignedNoError(q: Quaternion, acc: Vec3, k: real, c: real, sqrt: real -> real)
    requires IsSqrt(sqrt) && AllNonZero(acc)
    requires acc == Scale(Gravity(q), k)
    ensures Cross(UnitAcc(acc, sqrt), Scale(Gravity(q), c)) == Zero3
  {
    var n, g := sqrt(NormSq(acc)), Gravity(q);
    NonZeroNormSq(acc);
    SqrtPositive(sqrt, NormSq(acc));
    assert UnitAcc(acc, sqrt) == Divide(acc, n);
    DivideIsScale(acc, n);
    ScaleScale(g, k, 1.0 / n);
    assert UnitAcc(acc, sqrt) == Scale(g, k * (1.0 / n));
    CrossScaled(g, k * (1.0 / n), c);
  }

  /** Scaling twice is scaling by the product. */
  lemma ScaleScale(v: Vec3, j: real, k: real)
    ensures Scale(Scale(v, j), k) == Scale(v, j * k)
  {
  }

  lemma ScaleZero(v: Vec3, k: real)
    requires v == Zero3
    ensures Scale(v, k) == Zero3
  {
  }

  /** With no gravity error the feedback block adds nothing to the rate
      but the integral accumulators (when `twoKi > 0`). */
  lemma CorrectNoError(g: Gains, q: Quaternion, fb: Vec3, a: Vec3, gyr: Vec3, dt: real)
    requires Cross(a, HalfGravity(q)) == Zero3
    ensures g.twoKi > 0.0 ==> Correct(g, q, fb, a, gyr, dt).gyr == Add(gyr, fb)
    ensures g.twoKi <= 0.0 ==> Correct(g, q, fb, a, gyr, dt).gyr == gyr
  {
  }

  /** A unit attitude is a fixed point of `Axis6UpdateQuat` when the gyro
      reads zero, the accelerometer reads a multiple of the gravity that
      attitude predicts, and no integral term is carried. */
  lemma Axis6FixedPoint(g: Gains, q: Quaternion, fb: Vec3, acc: Vec3, dt: real,
                        k: real, sqrt: real -> real)
    requires IsSqrt(sqrt) && QNormSq(q) == 1.0
    requires acc == Scale(Gravity(q), k)
    requires g.twoKi <= 0.0 || fb == Zero3
    ensures Axis6Step(g, q, fb, acc, Zero3, dt, sqrt).q0 == q
  {
    var r := Axis6Step(g, q, fb, acc, Zero3, dt, sqrt);
    if AllNonZero(acc) {
      var a := UnitAcc(acc, sqrt);
      AlignedNoError(q, acc, k, 0.5, sqrt);
      HalfGravityUnit(q);
      CorrectNoError(g, q, fb, a, Zero3, dt);
      var c := Correct(g, q, fb, a, Zero3, dt);
      assert c.gyr == Zero3;
      assert r.gyr == Scale(c.gyr, 0.5 * dt);
      ScaleZero(c.gyr, 0.5 * dt);
    } else {
      assert r.gyr == Scale(Zero3, 0.5 * dt);
      ScaleZero(Zero3, 0.5 * dt);
    }
    IntegrateZeroRate(q);
    NormalizeUnit(q, sqrt);
  }

  /** The body rate `IMUAccGyr` integrates: the gyro reading converted by
      `GyrP`, plus, when the guard passes, the proportional feedback
      `KP * E` on the full-size gravity error and the integral term
      `ExInt`, which starts at zero on every call and only grows when
      `KI > 0`. */
  function AccGyrRate(q: Quaternion, acc: Vec3, gyr: Vec3, halfT: real, sqrt: real -> real): Vec3
    requires IsSqrt(sqrt)
  {
    var g := Scale(gyr, GyrFactor);
    if AllNonZero(acc) then
      var e := Cross(UnitAcc(acc, sqrt), Gravity(q));
      var integral := if KI > 0.0 then Vec3(0.0 + e.x * KI * halfT, 0.0 + e.y * KI * halfT, 0.0 + e.z * KI * halfT)
                      else Zero3;
      Add(Add(g, integral), Scale(e, KP))
    else
      g
  }

  /** Because `KI` is zero the integral branch of `IMUAccGyr` is dead: the
      rate is the converted gyro reading plus `KP` times the error, which
      is orthogonal to the unit accelerometer reading and to the predicted
      gravity. */
  lemma AccGyrProportionalOnly(q: Quaternion, acc: Vec3, gyr: Vec3, halfT: real, sqrt: real -> real)
    requires IsSqrt(sqrt)
    ensures !AllNonZero(acc) ==> AccGyrRate(q, acc, gyr, halfT, sqrt) == Scale(gyr, GyrFactor)
    ensures AllNonZero(acc) ==>
      var e := Cross(UnitAcc(acc, sqrt), Gravity(q));
      AccGyrRate(q, acc, gyr, halfT, sqrt) == Add(Scale(gyr, GyrFactor), Scale(e, KP))
      && Dot(UnitAcc(acc, sqrt), e) == 0.0 && Dot(Gravity(q), e) == 0.0
  {
    if AllNonZero(acc) {
      CrossOrthogonal(UnitAcc(acc, sqrt), Gravity(q));
    }
  }

  /** What one call of `IMUAccGyr` leaves behind: the new `Q0`, the
      snapshot `Q1` and the caller's `Acc`. */
  datatype AccGyrOut = AccGyrOut(q0: Quaternion, q1: Quaternion, acc: Vec3)

  /** A positive multiple of a non-zero quaternion is non-zero. */
  lemma ScaledPositive(p: Quaternion, k: real)
    requires 0.0 < QNormSq(p) && 0.0 < k
    ensures 0.0 < QNormSq(QScale(p, k))
  {
    QScaleNormSq(p, k);
    ProductPositive(k, k);
    ProductPositive(Product(k, k), QNormSq(p));
    assert QNormSq(QScale(p, k)) == Product(Product(k, k), QNormSq(p));
  }

  /** One step of `IMUAccGyr`: a first-order step by `halfT` at the rate
      `AccGyrRate`, then a rescaling by the positive factor `invSqrt`
      returns. It snapshots `q`, never reaches the zero quaternion from a
      non-zero one, and leaves a unit `Acc` when it normalised it. */
  function AccGyrStep(q: Quaternion, acc: Vec3, gyr: Vec3, halfT: real,
                      sqrt: real -> real, invSqrt: real -> real): (r: AccGyrOut)
    requires IsSqrt(sqrt) && IsPositiveFactor(invSqrt)
    ensures r.q1 == q
    ensures 0.0 < QNormSq(q) ==> 0.0 < QNormSq(r.q0)
    ensures AllNonZero(acc) ==> NormSq(r.acc) == 1.0
    ensures !AllNonZero(acc) ==> r.acc == acc
  {
    var p := FirstOrderStep(q, AccGyrRate(q, acc, gyr, halfT, sqrt), halfT);
    var q0 := QScale(p, invSqrt(QNormSq(p)));
    if 0.0 < QNormSq(q) then
      StepGrows(q, AccGyrRate(q, acc, gyr, halfT, sqrt), halfT);
      ScaledPositive(p, invSqrt(QNormSq(p)));
      AccGyrOut(q0, q, if AllNonZero(acc) then UnitAcc(acc, sqrt) else acc)
    else
      AccGyrOut(q0, q, if AllNonZero(acc) then UnitAcc(acc, sqrt) else acc)
  }

  /** The first-order step never shrinks the squared norm. */
  lemma StepGrows(q: Quaternion, w: Vec3, halfT: real)
    ensures QNormSq(q) <= QNormSq(FirstOrderStep(q, w, halfT))
  {
    StepNormSq(q, w, halfT);
    var n, t := QNormSq(q), NormSq(Scale(w, 2.0 * halfT));
    ProductNonNegative(n, t / 4.0);
    assert n * (1.0 + t / 4.0) == n + n * (t / 4.0);
  }

  /** With the gyro at rest and the accelerometer along the gravity that
      `q` predicts, `IMUAccGyr` keeps the direction of `q`: the new `Q0`
      is `q` rescaled by the positive factor `invSqrt(|q|^2)`. */
  lemma AccGyrFixedDirection(q: Quaternion, acc: Vec3, halfT: real, k: real,
                             sqrt: real -> real, invSqrt: real -> real)
    requires IsSqrt(sqrt) && IsPositiveFactor(invSqrt)
    requires acc == Scale(Gravity(q), k)
    ensures AccGyrStep(q, acc, Zero3, halfT, sqrt, invSqrt).q0 == QScale(q, invSqrt(QNormSq(q)))
  {
    var w := AccGyrRate(q, acc, Zero3, halfT, sqrt);
    AccGyrProportionalOnly(q, acc, Zero3, halfT, sqrt);
    ScaleZero(Zero3, GyrFactor);
    if AllNonZero(acc) {
      var e := Cross(UnitAcc(acc, sqrt), Gravity(q));
      AlignedNoError(q, acc, k, 1.0, sqrt);
      assert Scale(Gravity(q), 1.0) == Gravity(q);
      assert e == Zero3;
      ScaleZero(e, KP);
      assert w == Add(Zero3, Zero3);
    }
    assert w == Zero3;
    FirstOrderZeroRate(q, halfT);
  }
}
