/** The file-level state of `IMU.c` and the functions that update it in
    place. `Imu` holds the globals `Q0`, `Q1`, `halfT`, `LastUpdate`,
    `Current`, `twoKp`, `twoKi` and `integralFBx/y/z`; `Axis` is the
    caller's accelerometer or gyroscope struct, which the filter writes
    through its pointer. Each method is proved to leave exactly the state
    the matching pure step of `ImuFilter` describes. */
module ImuState {
  import opened Vectors
  import opened Attitude
  import opened Ticks
  import opened ImuFilter

  /** An `Axis` struct passed by pointer. */
  class Axis {
    var X: real
    var Y: real
    var Z: real

    constructor(x: real, y: real, z: real)
      ensures X == x && Y == y && Z == z
    {
      X, Y, Z := x, y, z;
    }

    function Value(): Vec3
      reads this
    {
      Vec3(X, Y, Z)
    }

    /** `arm_sqrt_f32(X*X + Y*Y + Z*Z, &Norm); X /= Norm; ...`: the
        reading divided in place by its length. */
    method Normalize(sqrt: real -> real)
      requires IsSqrt(sqrt) && AllNonZero(Value())
      modifies this
      ensures Value() == UnitAcc(old(Value()), sqrt)
    {
      NonZeroNormSq(Value());
      SqrtPositive(sqrt, NormSq(Value()));
      var norm := sqrt(NormSq(Value()));
      X := X / norm;
      Y := Y / norm;
      Z := Z / norm;
    }

    /** `X += v.x; Y += v.y; Z += v.z`. */
    method Add(v: Vec3)
      modifies this
      ensures Value() == Vectors.Add(old(Value()), v)
    {
      X := X + v.x;
      Y := Y + v.y;
      Z := Z + v.z;
    }

    /** `X += k * e.x; ...`: a gain applied to an error vector. */
    method AddScaled(k: real, e: Vec3)
      modifies this
      ensures Value() == ImuFilter.AddScaled(old(Value()), k, e)
    {
      X := X + k * e.x;
      Y := Y + k * e.y;
      Z := Z + k * e.z;
    }

    /** `X *= k; Y *= k; Z *= k`. */
    method Scale(k: real)
      modifies this
      ensures Value() == Vectors.Scale(old(Value()), k)
    {
      X := X * k;
      Y := Y * k;
      Z := Z * k;
    }
  }

  class Imu {
    var Q0: Quaternion
    var Q1: Quaternion
    var halfT: real
    var LastUpdate: U32
    var Current: U32
    var twoKp: real
    var twoKi: real
    var integralFBx: real
    var integralFBy: real
    var integralFBz: real

    /** The attitude estimate is never the zero quaternion, so every
        renormalisation divides by a non-zero norm. */
    ghost predicate Valid()
      reads this
    {
      0.0 < QNormSq(Q0)
    }

    function Gains(): Gains
      reads this
    {
      ImuFilter.Gains(twoKp, twoKi)
    }

    function IntegralFB(): Vec3
      reads this
    {
      Vec3(integralFBx, integralFBy, integralFBz)
    }

    /** The static initialisers: both quaternions `{1, 0, 0, 0}`, the
        default gains, zero accumulators, and the zero-initialised
        `halfT`, `LastUpdate` and `Current`. */
    constructor()
      ensures Valid()
      ensures Q0 == Identity && Q1 == Identity
      ensures twoKp == TwoKpDefault && twoKi == TwoKiDefault
      ensures IntegralFB() == Zero3
      ensures halfT == 0.0 && LastUpdate == 0 && Current == 0
    {
      Q0, Q1 := Identity, Identity;
      halfT := 0.0;
      LastUpdate, Current := 0, 0;
      twoKp, twoKi := TwoKpDefault, TwoKiDefault;
      integralFBx, integralFBy, integralFBz := 0.0, 0.0, 0.0;
    }

    /** The clock block of `IMUUpdate`: read the microsecond counter
        (`now` stands for `GetMicrosecond()`), turn the ticks since
        `LastUpdate` into `halfT`, and consume them by advancing
        `LastUpdate` to `Current` on both branches. */
    method UpdateClock(now: U32)
      modifies this`Current, this`halfT, this`LastUpdate
      ensures Current == now && LastUpdate == now
      ensures halfT == HalfPeriod(TickCount(now, old(LastUpdate)))
      ensures halfT * 2000000.0 == TickCount(now, old(LastUpdate)) as real
    {
      Current := now;
      if Current >= LastUpdate {
        halfT := Sub32(Current, LastUpdate) as real / 2000000.0;
      } else {
        halfT := Add32(Current, Sub32(U32Max, LastUpdate)) as real / 2000000.0;
      }
      LastUpdate := Current;
    }

    /** The feedback block of `Axis6UpdateQuat` once the half error
        `halfE` is known: integral feedback with anti-windup, then the
        proportional term, written into `Gyr`. */
    method ApplyFeedback(gyr: Axis, halfE: Vec3, deltaT: real)
      modifies this`integralFBx, this`integralFBy, this`integralFBz, gyr
      ensures var c := Feedback(Gains(), old(IntegralFB()), old(gyr.Value()), halfE, deltaT);
        IntegralFB() == c.integralFB && gyr.Value() == c.gyr
    {
      if twoKi > 0.0 {
        integralFBx := integralFBx + twoKi * halfE.x * deltaT;
        integralFBy := integralFBy + twoKi * halfE.y * deltaT;
        integralFBz := integralFBz + twoKi * halfE.z * deltaT;
        gyr.Add(IntegralFB());
      } else {
        integralFBx := 0.0;
        integralFBy := 0.0;
        integralFBz := 0.0;
      }
      gyr.AddScaled(twoKp, halfE);
    }

    /** `arm_sqrt_f32(|Q0|^2, &Norm); Q0.q0 /= Norm; ...`. */
    method NormalizeQuat(sqrt: real -> real)
      requires IsSqrt(sqrt) && 0.0 < QNormSq(Q0)
      modifies this`Q0
      ensures Q0 == Normalize(old(Q0), sqrt)
    {
      SqrtPositive(sqrt, QNormSq(Q0));
      var norm := sqrt(QNormSq(Q0));
      Q0 := Q0.(q0 := Q0.q0 / norm);
      Q0 := Q0.(q1 := Q0.q1 / norm);
      Q0 := Q0.(q2 := Q0.q2 / norm);
      Q0 := Q0.(q3 := Q0.q3 / norm);
    }

    /** `Q0.q0 *= Norm; ...`: every component multiplied by `k`. */
    method RescaleQuat(k: real)
      modifies this`Q0
      ensures Q0 == QScale(old(Q0), k)
    {
      Q0 := Q0.(q0 := Q0.q0 * k);
      Q0 := Q0.(q1 := Q0.q1 * k);
      Q0 := Q0.(q2 := Q0.q2 * k);
      Q0 := Q0.(q3 := Q0.q3 * k);
    }

    /** `Axis6UpdateQuat`: normalise `Acc`, feed the gravity error back
        into `Gyr` (with integral feedback and anti-windup), integrate one
        first-order step from the snapshot `Q1`, and renormalise `Q0`. */
    method Axis6UpdateQuat(acc: Axis, gyr: Axis, deltaT: real, sqrt: real -> real) returns (q: Quaternion)
      requires Valid() && IsSqrt(sqrt) && acc != gyr
      modifies this`Q0, this`Q1, this`integralFBx, this`integralFBy, this`integralFBz, acc, gyr
      ensures Valid() && QNormSq(Q0) == 1.0 && q == Q0
      ensures var r := Axis6Step(old(Gains()), old(Q0), old(IntegralFB()), old(acc.Value()), old(gyr.Value()),
                                 deltaT, sqrt);
        Q0 == r.q0 && Q1 == r.q1 && IntegralFB() == r.integralFB
        && acc.Value() == r.acc && gyr.Value() == r.gyr
    {
      ghost var r := Axis6Step(Gains(), Q0, IntegralFB(), acc.Value(), gyr.Value(), deltaT, sqrt);
      if acc.X != 0.0 && acc.Y != 0.0 && acc.Z != 0.0 {
        acc.Normalize(sqrt);
        // the half gravity error (halfEx, halfEy, halfEz)
        var halfE := Cross(acc.Value(), HalfGravity(Q0));
        ApplyFeedback(gyr, halfE, deltaT);
      }
      assert acc.Value() == r.acc && IntegralFB() == r.integralFB;
      gyr.Scale(0.5 * deltaT);
      assert gyr.Value() == r.gyr;
      IntegrateGrows(Q0, gyr.Value());
      // the snapshot Q1, then the first-order step from it
      Q1 := Q0;
      Q0 := Integrate(Q1, gyr.Value());
      NormalizeQuat(sqrt);
      q := Q0;
    }

    /** `IMUAccGyr`: the gyro reading is converted into local rates, the
        accelerometer is normalised in place and its gravity error fed
        back with gain `KP`; one first-order step by `halfT` from the
        snapshot `Q1` is rescaled by `invSqrt`. The integral globals are
        outside the frame and nothing is written through `Gyr`. `Acc` and
        `Gyr` may be the same struct, since `Gyr` is read before `Acc` is
        written; that struct is then normalised through `Acc`, as in the
        source. */
    method IMUAccGyr(acc: Axis, gyr: Axis, halfT: real, sqrt: real -> real, invSqrt: real -> real)
      returns (q: Quaternion)
      requires Valid() && IsSqrt(sqrt) && IsPositiveFactor(invSqrt)
      modifies this`Q0, this`Q1, acc
      ensures Valid() && q == Q0
      ensures var r := AccGyrStep(old(Q0), old(acc.Value()), old(gyr.Value()), halfT, sqrt, invSqrt);
        Q0 == r.q0 && Q1 == r.q1 && acc.Value() == r.acc
    {
      var exInt, eyInt, ezInt := 0.0, 0.0, 0.0;
      var gx, gy, gz := gyr.X * GyrFactor, gyr.Y * GyrFactor, gyr.Z * GyrFactor;
      if acc.X != 0.0 && acc.Y != 0.0 && acc.Z != 0.0 {
        acc.Normalize(sqrt);

        // the gravity error (Ex, Ey, Ez) against (Vx, Vy, Vz)
        var e := Cross(acc.Value(), Gravity(Q0));

        if KI > 0.0 {
          exInt := exInt + e.x * KI * halfT;
          eyInt := eyInt + e.y * KI * halfT;
          ezInt := ezInt + e.z * KI * halfT;
          gx := gx + exInt;
          gy := gy + eyInt;
          gz := gz + ezInt;
        }
        gx := gx + e.x * KP;
        gy := gy + e.y * KP;
        gz := gz + e.z * KP;
      }

      ghost var w := AccGyrRate(old(Q0), old(acc.Value()), old(gyr.Value()), halfT, sqrt);
      assert Vec3(gx, gy, gz) == w;
      StepGrows(Q0, w, halfT);
      Q1 := Q0;
      Q0 := FirstOrderStep(Q1, Vec3(gx, gy, gz), halfT);
      var norm := invSqrt(QNormSq(Q0));
      ScaledPositive(Q0, norm);
      RescaleQuat(norm);
      q := Q0;
    }
  }
}
