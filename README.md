# IMU attitude filter (`IMU.c`) in Dafny

`RTOS_PID/src/IMU.c` keeps an orientation estimate as a quaternion `Q0`. It corrects the gyroscope-integrated attitude with the direction of gravity the accelerometer measures. This project models the parts of that file that can be stated exactly:

- The wrap-safe microsecond clock of `IMUUpdate`. It turns two readings of a wrapping `uint32_t` counter into `halfT`.
- `Axis6UpdateQuat`. It normalises `Acc` and applies proportional-integral feedback with anti-windup to `Gyr`. It then integrates one first-order step from the snapshot `Q1` and renormalises `Q0` with `arm_sqrt_f32`.
- `IMUAccGyr`. It applies proportional feedback only (`KI` is zero) to local rates, integrates one first-order step by `halfT` and rescales by `invSqrt`.
- The second-order integration formula of `IMUUpdate`, as a pure function.

Arithmetic is over `real`. The `uint32_t` clock arithmetic is written out modulo 2^32. `arm_sqrt_f32` is a function parameter `sqrt` that must be an exact square root (`IsSqrt`). `invSqrt` is a function parameter that is only known to return a positive factor for a positive argument (`IsPositiveFactor`). `GetMicrosecond()` becomes the parameter `now` of `UpdateClock`.

Files:

- `vectors.dfy`, module `Vectors`: 3-vectors, quaternions, dot and cross products, squared norms.
- `ticks.dfy`, module `Ticks`: `uint32_t` arithmetic and the tick count.
- `attitude.dfy`, module `Attitude`: predicted gravity, the quaternion increment, and the first-order and second-order steps.
- `filter.dfy`, module `ImuFilter`: the constants `KP`, `KI`, `GyrP` and the default gains. It also holds the pure specification of one call of `Axis6UpdateQuat` (`Axis6Step`) and of `IMUAccGyr` (`AccGyrStep`), and the lemmas about them.
- `imu.dfy`, module `ImuState`: the file's globals as class `Imu`, and the caller's `Axis` structs as class `Axis`. Their methods update fields in place, block by block as the C code does. Each method is proved to leave exactly the state the pure step describes.

## Model

| member | source | states |
|---|---|---|
| Ticks.TickCount | RTOS_PID/src/IMU.c:264-267 | Neither branch wraps. Without a counter wrap the count is `Current - LastUpdate`. With a wrap it is `Current + 0xFFFFFFFF - LastUpdate`, computed as a plain integer and still below 2^32. |
| Ticks.ElapsedTicks | RTOS_PID/src/IMU.c:263-267 | Reference count: adding it to `LastUpdate` modulo 2^32 gives `Current`. |
| Ticks.ElapsedTicksUnique | RTOS_PID/src/IMU.c:263-267 | The reference count is the only count below 2^32 that carries `LastUpdate` to `Current`. |
| Ticks.TickCountVersusElapsed | RTOS_PID/src/IMU.c:264-267 | The source's count equals the true elapsed ticks when the counter did not wrap. When it wrapped, the count is one tick short: `2^32 + Current - LastUpdate - 1`. |
| Ticks.WrapExample | RTOS_PID/src/IMU.c:267 | From `0xFFFFFFF0` to `0x10`, 32 ticks pass and the source counts 31. |
| Ticks.HalfPeriod | RTOS_PID/src/IMU.c:265-267 | `halfT * 2000000` is exactly the tick count, and `0 <= halfT < 2148` seconds. |
| ImuState.Imu.UpdateClock | RTOS_PID/src/IMU.c:263-268 | `Current` and `LastUpdate` both end at the new reading on both branches. `halfT` is the source's tick count from the old `LastUpdate`, over 2000000. |
| Vectors.NonZeroNormSq | RTOS_PID/src/IMU.c:72-77 | When the guard passes (all three components non-zero), the squared length is positive, so the divide by `Norm` is safe. |
| Vectors.Cross | RTOS_PID/src/IMU.c:85-87 | The error `(a.y b.z - a.z b.y, a.z b.x - a.x b.z, a.x b.y - a.y b.x)` of lines 85-87 and 174-176. It has no contract of its own; `Vectors.CrossOrthogonal` carries its properties. |
| Vectors.CrossOrthogonal | RTOS_PID/src/IMU.c:85-87 | The cross-product error is orthogonal to both of its operands. |
| Attitude.Gravity | RTOS_PID/src/IMU.c:171 | The predicted gravity `V` of `IMUAccGyr`. It has no contract of its own; `Attitude.GravityNormSq` and `Attitude.HalfGravityUnit` carry its properties. |
| Attitude.HalfGravity | RTOS_PID/src/IMU.c:80-82 | The predicted half gravity `halfV` of `Axis6UpdateQuat`. It has no contract of its own; `Attitude.HalfGravityUnit` relates it to `Gravity`. |
| Attitude.GravityNormSq | RTOS_PID/src/IMU.c:171 | The predicted gravity `V` has squared length `norm(q)^4`, so it is a unit vector for a unit `q`. |
| Attitude.HalfGravityUnit | RTOS_PID/src/IMU.c:80-82 | `halfV` (whose z component uses `0.5` in place of `norm(q)^2/2`) equals half of `V` if and only if `q` is a unit quaternion. |
| Attitude.Increment | RTOS_PID/src/IMU.c:116-119 | The increment `Q1 * (0, g)` added to each component. It has no contract of its own; `Attitude.IncrementOrthogonal` and `Attitude.IncrementNormSq` carry its properties. |
| Attitude.IncrementOrthogonal | RTOS_PID/src/IMU.c:116-119 | The quaternion increment `Q1 * (0, g)` is orthogonal to `Q1`. |
| Attitude.IncrementNormSq | RTOS_PID/src/IMU.c:116-119 | The increment has squared length `norm(Q1)^2 norm(g)^2`. |
| Attitude.Integrate | RTOS_PID/src/IMU.c:115-119 | The four component updates of `Q0` from `Q1` and the pre-scaled rate, before renormalisation. It has no contract of its own; `Attitude.IntegrateAddsIncrement`, `Attitude.IntegrateNormSq`, `Attitude.IntegrateGrows` and `Attitude.IntegrateZeroRate` carry its properties. |
| Attitude.IntegrateAddsIncrement | RTOS_PID/src/IMU.c:115-119 | The four component updates of `Q0` add exactly the increment `Q1 * (0, g)` to `Q1`. |
| Attitude.IntegrateNormSq | RTOS_PID/src/IMU.c:115-119 | Before renormalisation, `norm(Q0)^2 = norm(Q1)^2 (1 + norm(g)^2)`. |
| Attitude.IntegrateGrows | RTOS_PID/src/IMU.c:115-119 | The squared norm before renormalisation is never below `norm(Q1)^2`. |
| Attitude.IntegrateZeroRate | RTOS_PID/src/IMU.c:115-119 | A zero scaled rate leaves `Q0` equal to `Q1`. |
| Attitude.FirstOrderStep | RTOS_PID/src/IMU.c:199-204 | The four component updates of `IMUAccGyr`, with the increment multiplied by `halfT`. It has no contract of its own; `Attitude.FirstOrderAddsIncrement`, `Attitude.FirstOrderZeroRate`, `Attitude.StepNormSq` and `ImuFilter.StepGrows` carry its properties. |
| Attitude.FirstOrderAddsIncrement | RTOS_PID/src/IMU.c:199-204 | The updates of `IMUAccGyr` add the increment for the unscaled rate, multiplied by `halfT`. |
| Attitude.FirstOrderZeroRate | RTOS_PID/src/IMU.c:199-204 | A zero rate leaves `Q0` equal to `Q1`. |
| Attitude.SecondOrderStep | RTOS_PID/src/IMU.c:322-328 | The second-order update of `IMUUpdate`: `Q1` damped by `1 - Theta_2/8`, plus the increment times `halfT`. It has no contract of its own; `Attitude.StepNormSq`, `Attitude.SecondOrderDriftsLess` and `Attitude.SecondOrderNearerUnit` carry its properties. |
| Attitude.StepNormSq | RTOS_PID/src/IMU.c:322-328 | With `Theta_2 = norm(2 halfT w)^2`, the first-order step multiplies `norm(q)^2` by `1 + Theta_2/4`. The second-order step multiplies it by `1 + Theta_2^2/64`. |
| Attitude.SecondOrderDriftsLess | RTOS_PID/src/IMU.c:322-328 | For `Theta_2 <= 16`, the second-order step's squared norm is never above the first-order step's. |
| Attitude.SecondOrderNearerUnit | RTOS_PID/src/IMU.c:322-328 | From a quaternion of squared norm at least 1, and with `Theta_2 <= 16`, the second-order result has squared norm between 1 and the first-order result, so it stays nearer unit norm. |
| ImuFilter.UnitAcc | RTOS_PID/src/IMU.c:76-77 | `Acc` divided by the exact root of its squared length is a unit vector. |
| ImuFilter.Normalize | RTOS_PID/src/IMU.c:123-124 | The renormalised `Q0` has squared norm exactly 1. |
| ImuFilter.NormalizeUnit | RTOS_PID/src/IMU.c:123-124 | Renormalisation leaves a unit quaternion unchanged. |
| ImuFilter.Feedback | RTOS_PID/src/IMU.c:90-109 | The feedback block for a given half error: accumulate and add the integral when `twoKi > 0`, otherwise zero the accumulators; then add `twoKp * halfE`. It has no contract of its own; `ImuFilter.Axis6AntiWindup`, `ImuFilter.Axis6IntegralGrowth` and `ImuFilter.CorrectNoError` carry its properties. |
| ImuFilter.Correct | RTOS_PID/src/IMU.c:80-109 | The guarded block after `Acc` is normalised: `halfE` is the cross product of `Acc` with `halfV`, then `Feedback`. It has no contract of its own; `ImuFilter.Axis6ErrorOrthogonal` and `ImuFilter.CorrectNoError` carry its properties. |
| ImuFilter.Axis6Step | RTOS_PID/src/IMU.c:59-127 | One call snapshots `Q1 = Q0`. The pre-normalisation quaternion is non-zero, the new `Q0` is that quaternion renormalised, and the new `Q0` has squared norm exactly 1. |
| ImuFilter.Axis6Skip | RTOS_PID/src/IMU.c:110-114 | When an accelerometer component is zero, `Acc` and the integral accumulators are unchanged and `Gyr` is only scaled by `0.5 * DealtaT`. |
| ImuFilter.Axis6AntiWindup | RTOS_PID/src/IMU.c:99-109 | When the guard passes and `twoKi <= 0`, the accumulators are exactly zero afterwards whatever they held. `Gyr` receives only `twoKp * halfE` before scaling. |
| ImuFilter.Axis6IntegralGrowth | RTOS_PID/src/IMU.c:90-97 | When `twoKi > 0`, each accumulator grows by `twoKi * halfE * DealtaT`, and the grown accumulator is added to `Gyr` beside the proportional term. |
| ImuFilter.Axis6ErrorOrthogonal | RTOS_PID/src/IMU.c:76-87 | When the guard passes, `Acc` becomes a unit vector, and the half error is orthogonal to `Acc` and to the predicted half gravity. |
| ImuFilter.AlignedNoError | RTOS_PID/src/IMU.c:165-176 | An accelerometer reading along the predicted gravity still lies along it after normalisation, so the gravity error is zero. |
| ImuFilter.CorrectNoError | RTOS_PID/src/IMU.c:90-109 | With zero error, feedback adds only the accumulators (when `twoKi > 0`) and otherwise nothing. |
| ImuFilter.Axis6FixedPoint | RTOS_PID/src/IMU.c:59-127 | Take a unit `Q0`, a zero gyro reading, an accelerometer reading along the predicted gravity, and no carried integral term. Then `Q0` is a fixed point of `Axis6UpdateQuat`. |
| ImuFilter.AccGyrRate | RTOS_PID/src/IMU.c:160-193 | The local rates `gx, gy, gz` of `IMUAccGyr`: `GyrP(Gyr)`, plus the integral and `KP` terms when the guard passes. It has no contract of its own; `ImuFilter.AccGyrProportionalOnly` carries its properties. |
| ImuFilter.AccGyrProportionalOnly | RTOS_PID/src/IMU.c:179-193 | Since `KI` is 0, the integral branch is dead. The rate is `GyrP(Gyr)` plus `KP` times an error orthogonal to the unit `Acc` and to `V`; with the guard failing, it is `GyrP(Gyr)` alone. |
| ImuFilter.ScaledPositive | RTOS_PID/src/IMU.c:215-216 | Rescaling by a positive factor keeps a non-zero quaternion non-zero. |
| ImuFilter.StepGrows | RTOS_PID/src/IMU.c:199-204 | The first-order step by `halfT` never shrinks the squared norm. |
| ImuFilter.AccGyrStep | RTOS_PID/src/IMU.c:134-218 | One call snapshots `Q1 = Q0` and never reaches the zero quaternion from a non-zero one. `Acc` becomes a unit vector when the guard passes and is untouched otherwise. |
| ImuFilter.AccGyrFixedDirection | RTOS_PID/src/IMU.c:134-218 | With a zero gyro reading and an accelerometer along the predicted gravity, the new `Q0` is the old one times the positive factor `invSqrt(norm(Q0)^2)`. |
| ImuState.Axis.Normalize | RTOS_PID/src/IMU.c:76-77 | Dividing `Acc` in place by `Norm` leaves the unit vector `UnitAcc` of the old reading. |
| ImuState.Axis.Add | RTOS_PID/src/IMU.c:95-97 | `Gyr += integralFB`, component by component. |
| ImuState.Axis.AddScaled | RTOS_PID/src/IMU.c:107-109 | `Gyr += twoKp * halfE`, component by component. |
| ImuState.Axis.Scale | RTOS_PID/src/IMU.c:112-114 | `Gyr *= 0.5 * DealtaT`, component by component. |
| ImuState.Imu.constructor | RTOS_PID/src/IMU.c:30-38 | Both quaternions start at `{1, 0, 0, 0}`, the gains start at `TWO_KP_DEF`/`TWO_KI_DEF`, and the accumulators, `halfT` and the clock readings start at zero. |
| ImuState.Imu.ApplyFeedback | RTOS_PID/src/IMU.c:90-109 | The in-place feedback block leaves exactly the accumulators and rate that `Feedback` specifies. |
| ImuState.Imu.NormalizeQuat | RTOS_PID/src/IMU.c:123-124 | Dividing `Q0` in place by `Norm` leaves the unit quaternion `Normalize(old Q0)`. |
| ImuState.Imu.RescaleQuat | RTOS_PID/src/IMU.c:216 | `Q0 *= Norm`, component by component. |
| ImuState.Imu.Axis6UpdateQuat | RTOS_PID/src/IMU.c:59-127 | The in-place update keeps `Q0` non-zero and leaves a unit `Q0`. `Q1`, the accumulators, `Acc` and `Gyr` are exactly as `Axis6Step` gives them, and the result is the new `Q0`. |
| ImuState.Imu.IMUAccGyr | RTOS_PID/src/IMU.c:134-218 | The in-place update keeps `Q0` non-zero and returns it. `Q1`, `Q0` and `Acc` are as `AccGyrStep` gives them. The integral accumulators are outside its frame, and nothing is written through `Gyr`. When `Acc` and `Gyr` are the same struct, it is normalised through `Acc`, as in the source. |

## Left out

- Floating point: all arithmetic is over `real`, so rounding, NaN and accuracy or drift bounds after many steps are not modelled.
- `invSqrt` (the `0x5f3759df` bit trick) is not modelled. `IMUAccGyr` receives it as a parameter known only to return a positive factor, so no unit-norm claim is made about its result.
- `arm_sqrt_f32` is an exact square root parameter. Its rounding and its status return are not modelled.
- The `(float)` conversion of the `uint32_t` tick count is exact here. A real `float` loses the low bits of counts above 2^24.
- `QuaternionsToEuler` and the Euler-angle lines of `IMUUpdate` are not modelled; they need `asin` and `atan2`.
- `IMU_Init` is not modelled; it only reads the hardware timer.
- The magnetometer and feedback path of `IMUUpdate` is not modelled. It reads uninitialised `ExInt/EyInt/EzInt` and divides by unguarded norms. Only its clock block (`UpdateClock`) and its second-order formula (`SecondOrderStep`) are modelled.
- The commented-out alternatives (the second-order variant inside `IMUAccGyr`, the alternative delta formulas) are not modelled.
- ImuState.Imu.Axis6UpdateQuat: requires `acc != gyr`. When both pointers name the same struct, normalising `Acc` would also change `Gyr`, and that aliasing is not modelled.
- ImuState.Imu.Axis6UpdateQuat: requires the class invariant `Valid()` (`Q0` non-zero). The C code has no such guard; from a zero `Q0` it would divide by zero. `Valid()` holds after the constructor and is preserved by both filter steps.
- ImuState.Imu.IMUAccGyr: requires `Valid()` for the same reason, although its own arithmetic would not divide by zero.

## Findings

| source | as written | input that shows it | evidently intended | confidence | as-written member | corrected member |
|---|---|---|---|---|---|---|
| RTOS_PID/src/IMU.c:267 | On a wrap, the tick count is `Current + (0xFFFFFFFF - LastUpdate)`. | `LastUpdate = 0xFFFFFFF0`, `Current = 0x10`: 32 ticks elapsed, 31 counted. | `Current - LastUpdate` modulo 2^32, the unique count that carries `LastUpdate` to `Current`. | not executed; one tick (1 µs) per wrap | Ticks.TickCountVersusElapsed | Ticks.ElapsedTicksUnique |

`UpdateClock` keeps the count as written, since it models the function itself. `ElapsedTicks` is the corrected count, and `TickCountVersusElapsed` relates the two on every input.
