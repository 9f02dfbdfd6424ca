/**
 * QVector3D and QQuaternion arithmetic over exact reals, and the platform
 * numerics (square root, arc cosine, quaternion to Euler angles) that
 * the metrics use. The numerics are not computable over reals, so they are
 * supplied as a `Math` value and only the facts in `Sound` are relied on.
 */
module Geometry {

  datatype Vec3 = Vec3(x: real, y: real, z: real)

  /** QQuaternion(scalar, x, y, z): the scalar part comes first. */
  datatype Quat = Quat(w: real, x: real, y: real, z: real)

  const Origin: Vec3 := Vec3(0.0, 0.0, 0.0)

  /** A default-constructed QQuaternion is the identity rotation. */
  const Identity: Quat := Quat(1.0, 0.0, 0.0, 0.0)

  function Sub(a: Vec3, b: Vec3): Vec3 {
    Vec3(a.x - b.x, a.y - b.y, a.z - b.z)
  }

  function Add(a: Vec3, b: Vec3): Vec3 {
    Vec3(a.x + b.x, a.y + b.y, a.z + b.z)
  }

  function SumOfSquares(a: real, b: real): real {
    a * a + b * b
  }

  function LengthSquared(v: Vec3): real {
    v.x * v.x + v.y * v.y + v.z * v.z
  }

  /** QQuaternion::conjugated() */
  function Conjugated(q: Quat): Quat {
    Quat(q.w, -q.x, -q.y, -q.z)
  }

  /** QQuaternion operator* (Hamilton product). */
  function Mul(p: Quat, q: Quat): Quat {
    Quat(
      p.w * q.w - p.x * q.x - p.y * q.y - p.z * q.z,
      p.w * q.x + p.x * q.w + p.y * q.z - p.z * q.y,
      p.w * q.y - p.x * q.z + p.y * q.w + p.z * q.x,
      p.w * q.z + p.x * q.y - p.y * q.x + p.z * q.w)
  }

  function NormSquared(q: Quat): real {
    q.w * q.w + q.x * q.x + q.y * q.y + q.z * q.z
  }

  /** The platform's floating-point primitives: std::sqrt, qAcos and
    * QQuaternion::toEulerAngles (pitch, yaw, roll in degrees). */
  datatype Math = Math(sqrt: real -> real, acos: real -> real, eulerAngles: Quat -> Vec3)

  /** The only facts about the primitives the model relies on. */
  ghost predicate Sound(m: Math) {
    && (forall r: real :: 0.0 <= r ==> 0.0 <= m.sqrt(r) && m.sqrt(r) * m.sqrt(r) == r)
    && m.acos(1.0) == 0.0
  }

  lemma PositiveProduct(x: real, y: real)
    requires 0.0 < x && 0.0 < y
    ensures 0.0 < x * y
  {
  }

  lemma SquareLess(a: real, b: real)
    requires 0.0 <= a < b
    ensures a * a < b * b
  {
    assert b * b - a * a == (b - a) * (b + a);
    PositiveProduct(b - a, b + a);
  }

  /** Two non-negative reals with the same square are equal. */
  lemma SquareRootUnique(r: real, a: real)
    requires 0.0 <= r && 0.0 <= a && r * r == a * a
    ensures r == a
  {
    if r < a {
      SquareLess(r, a);
    } else if a < r {
      SquareLess(a, r);
    }
  }

  /** The square root of a perfect square is its non-negative root. */
  lemma SqrtOfSquare(m: Math, a: real)
    requires Sound(m) && 0.0 <= a
    ensures m.sqrt(a * a) == a
  {
    assert 0.0 <= a * a;
    SquareRootUnique(m.sqrt(a * a), a);
  }

  lemma SqrtNonNegative(m: Math, a: real)
    requires Sound(m) && 0.0 <= a
    ensures 0.0 <= m.sqrt(a)
  {
  }

  lemma SqrtZero(m: Math)
    requires Sound(m)
    ensures m.sqrt(0.0) == 0.0
  {
    SqrtOfSquare(m, 0.0);
  }

  lemma SquareNonNegative(a: real)
    ensures 0.0 <= a * a
  {
    if a < 0.0 {
      PositiveProduct(-a, -a);
    }
  }

  lemma LengthSquaredNonNegative(v: Vec3)
    ensures 0.0 <= LengthSquared(v)
  {
    SquareNonNegative(v.x);
    SquareNonNegative(v.y);
    SquareNonNegative(v.z);
  }

  /** QVector3D::length() */
  function Length(m: Math, v: Vec3): real {
    m.sqrt(LengthSquared(v))
  }

  /** QQuaternion::normalize(): a quaternion of length zero is left as it
    * is, otherwise every component is divided by the length. */
  function Normalized(m: Math, q: Quat): Quat {
    var len := m.sqrt(NormSquared(q));
    if len == 0.0 then q
    else Quat(q.w / len, q.x / len, q.y / len, q.z / len)
  }

  /** M_PI, the double nearest to pi. */
  const Pi: real := 3.141592653589793

  /** qRadiansToDegrees */
  function Degrees(radians: real): (d: real)
    ensures radians == 0.0 ==> d == 0.0
    ensures 0.0 < radians ==> 0.0 < d
  {
    radians * (180.0 / Pi)
  }
}
