/** Exact (real-valued) 3-vectors and quaternions, the value types the
    attitude filter computes with. The source's `Axis` struct and
    `Quaternions` struct hold floats; here every component is a `real`. */
module Vectors {

  /** The product of two reals, kept as a function so that sign facts
      about it can be stated on the call rather than on a bare monomial. */
  function Product(a: real, b: real): real { a * b }

  lemma ProductPositive(a: real, b: real)
    requires a > 0.0 && b > 0.0
    ensures Product(a, b) > 0.0
  {
  }

  function Square(x: real): real { x * x }

  /** A real square is never negative, and is positive for a non-zero real. */
  lemma SquareSign(x: real)
    ensures Square(x) >= 0.0
    ensures x != 0.0 ==> Square(x) > 0.0
  {
    if x > 0.0 {
      ProductPositive(x, x);
      assert Square(x) == Product(x, x);
    } else if x < 0.0 {
      ProductPositive(-x, -x);
      assert Square(x) == Product(-x, -x);
    }
  }

  /** Value of an `Axis` struct: three components X, Y, Z. */
  datatype Vec3 = Vec3(x: real, y: real, z: real)

  const Zero3 := Vec3(0.0, 0.0, 0.0)

  function Add(a: Vec3, b: Vec3): Vec3 {
    Vec3(a.x + b.x, a.y + b.y, a.z + b.z)
  }

  /** Component-wise `v *= k`. */
  function Scale(a: Vec3, k: real): Vec3 {
    Vec3(a.x * k, a.y * k, a.z * k)
  }

  /** Component-wise `v /= n`. */
  function Divide(a: Vec3, n: real): Vec3
    requires n != 0.0
  {
    Vec3(a.x / n, a.y / n, a.z / n)
  }

  function Dot(a: Vec3, b: Vec3): real {
    a.x * b.x + a.y * b.y + a.z * b.z
  }

  /** Squared Euclidean norm, the argument the source hands to its square root. */
  function NormSq(a: Vec3): (r: real)
    ensures r >= 0.0
  {
    SquareSign(a.x); SquareSign(a.y); SquareSign(a.z);
    a.x * a.x + a.y * a.y + a.z * a.z
  }

  /** True when no component is zero: the guard in front of every
      accelerometer normalisation. */
  predicate AllNonZero(a: Vec3) {
    a.x != 0.0 && a.y != 0.0 && a.z != 0.0
  }

  /** The cross product a x b, written the way the source writes its
      gravity error (`Ex = Ay*Vz - Az*Vy`, ...). */
  function Cross(a: Vec3, b: Vec3): Vec3 {
    Vec3(a.y * b.z - a.z * b.y, a.z * b.x - a.x * b.z, a.x * b.y - a.y * b.x)
  }

  /** The cross product is orthogonal to both of its factors. */
  lemma CrossOrthogonal(a: Vec3, b: Vec3)
    ensures Dot(a, Cross(a, b)) == 0.0
    ensures Dot(b, Cross(a, b)) == 0.0
  {
  }

  /** Scaling by k rescales the squared norm by k^2. */
  lemma ScaleNormSq(a: Vec3, k: real)
    ensures NormSq(Scale(a, k)) == k * k * NormSq(a)
  {
  }

  /** Dividing by a norm n rescales the squared norm by 1/n^2. */
  lemma DivideNormSq(a: Vec3, n: real)
    requires n != 0.0
    ensures NormSq(Divide(a, n)) * (n * n) == NormSq(a)
  {
    var d := Divide(a, n);
    assert d.x * n == a.x && d.y * n == a.y && d.z * n == a.z;
    calc {
      NormSq(d) * (n * n);
      (d.x * n) * (d.x * n) + (d.y * n) * (d.y * n) + (d.z * n) * (d.z * n);
      NormSq(a);
    }
  }

  /** A vector with no zero component has a strictly positive squared norm. */
  lemma NonZeroNormSq(a: Vec3)
    requires AllNonZero(a)
    ensures NormSq(a) > 0.0
  {
    SquareSign(a.x); SquareSign(a.y); SquareSign(a.z);
    assert NormSq(a) == Square(a.x) + Square(a.y) + Square(a.z);
  }

  /** Value of a `Quaternions` struct: scalar part q0 and vector part q1, q2, q3. */
  datatype Quaternion = Quaternion(q0: real, q1: real, q2: real, q3: real)

  /** The initial value `{1, 0, 0, 0}` of both global quaternions. */
  const Identity := Quaternion(1.0, 0.0, 0.0, 0.0)

  function QAdd(a: Quaternion, b: Quaternion): Quaternion {
    Quaternion(a.q0 + b.q0, a.q1 + b.q1, a.q2 + b.q2, a.q3 + b.q3)
  }

  /** Component-wise `q *= k`. */
  function QScale(a: Quaternion, k: real): Quaternion {
    Quaternion(a.q0 * k, a.q1 * k, a.q2 * k, a.q3 * k)
  }

  /** Component-wise `q /= n`. */
  function QDivide(a: Quaternion, n: real): Quaternion
    requires n != 0.0
  {
    Quaternion(a.q0 / n, a.q1 / n, a.q2 / n, a.q3 / n)
  }

  function QDot(a: Quaternion, b: Quaternion): real {
    a.q0 * b.q0 + a.q1 * b.q1 + a.q2 * b.q2 + a.q3 * b.q3
  }

  function QNormSq(a: Quaternion): (r: real)
    ensures r >= 0.0
  {
    SquareSign(a.q0); SquareSign(a.q1); SquareSign(a.q2); SquareSign(a.q3);
    a.q0 * a.q0 + a.q1 * a.q1 + a.q2 * a.q2 + a.q3 * a.q3
  }

  /** Pythagoras: adding an orthogonal quaternion adds the squared norms. */
  lemma QAddOrthogonal(a: Quaternion, b: Quaternion)
    requires QDot(a, b) == 0.0
    ensures QNormSq(QAdd(a, b)) == QNormSq(a) + QNormSq(b)
  {
  }

  /** Scaling by k rescales the squared norm by k^2. */
  lemma QScaleNormSq(a: Quaternion, k: real)
    ensures QNormSq(QScale(a, k)) == k * k * QNormSq(a)
  {
  }

  /** Scaling either factor scales the inner product. */
  lemma QDotScale(a: Quaternion, b: Quaternion, j: real, k: real)
    ensures QDot(QScale(a, j), QScale(b, k)) == j * k * QDot(a, b)
  {
  }

  /** Dividing by a norm n rescales the squared norm by 1/n^2. */
  lemma QDivideNormSq(a: Quaternion, n: real)
    requires n != 0.0
    ensures QNormSq(QDivide(a, n)) * (n * n) == QNormSq(a)
  {
    var d := QDivide(a, n);
    assert d.q0 * n == a.q0 && d.q1 * n == a.q1 && d.q2 * n == a.q2 && d.q3 * n == a.q3;
    calc {
      QNormSq(d) * (n * n);
      (d.q0 * n) * (d.q0 * n) + (d.q1 * n) * (d.q1 * n) + (d.q2 * n) * (d.q2 * n) + (d.q3 * n) * (d.q3 * n);
      QNormSq(a);
    }
  }
}
