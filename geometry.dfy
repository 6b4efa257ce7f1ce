/**
 * The small part of linear algebra the optical-bar camera does itself (vector
 * arithmetic, 3x3 matrix products), and the library operations it only calls
 * (trigonometry, normalisation, quaternion and axis-angle conversions), which
 * are carried as uninterpreted functions.
 */
module Geometry {

  datatype Vec2 = Vec2(x: real, y: real)

  datatype Vec2i = Vec2i(x: int, y: int)

  datatype Vec3 = Vec3(x: real, y: real, z: real)

  /** A 3x3 matrix, entries listed row by row. */
  datatype Matrix3 = Matrix3(
    m00: real, m01: real, m02: real,
    m10: real, m11: real, m12: real,
    m20: real, m21: real, m22: real)

  function Sub2(a: Vec2, b: Vec2): Vec2 { Vec2(a.x - b.x, a.y - b.y) }

  function Scale2(k: real, a: Vec2): Vec2 { Vec2(k * a.x, k * a.y) }

  function Zero3(): Vec3 { Vec3(0.0, 0.0, 0.0) }

  function Add3(a: Vec3, b: Vec3): Vec3 { Vec3(a.x + b.x, a.y + b.y, a.z + b.z) }

  function Scale3(k: real, a: Vec3): Vec3 { Vec3(k * a.x, k * a.y, k * a.z) }

  function Identity(): Matrix3 { Matrix3(1.0, 0.0, 0.0, 0.0, 1.0, 0.0, 0.0, 0.0, 1.0) }

  function MatVec(m: Matrix3, v: Vec3): Vec3 {
    Vec3(m.m00 * v.x + m.m01 * v.y + m.m02 * v.z,
         m.m10 * v.x + m.m11 * v.y + m.m12 * v.z,
         m.m20 * v.x + m.m21 * v.y + m.m22 * v.z)
  }

  function MatMul(a: Matrix3, b: Matrix3): Matrix3 {
    Matrix3(
      a.m00 * b.m00 + a.m01 * b.m10 + a.m02 * b.m20,
      a.m00 * b.m01 + a.m01 * b.m11 + a.m02 * b.m21,
      a.m00 * b.m02 + a.m01 * b.m12 + a.m02 * b.m22,
      a.m10 * b.m00 + a.m11 * b.m10 + a.m12 * b.m20,
      a.m10 * b.m01 + a.m11 * b.m11 + a.m12 * b.m21,
      a.m10 * b.m02 + a.m11 * b.m12 + a.m12 * b.m22,
      a.m20 * b.m00 + a.m21 * b.m10 + a.m22 * b.m20,
      a.m20 * b.m01 + a.m21 * b.m11 + a.m22 * b.m21,
      a.m20 * b.m02 + a.m21 * b.m12 + a.m22 * b.m22)
  }

  /** The nine entries of a matrix in row-major order, as the `iR` line lists them. */
  function Entries(m: Matrix3): (r: seq<real>)
    ensures |r| == 9
  {
    [m.m00, m.m01, m.m02, m.m10, m.m11, m.m12, m.m20, m.m21, m.m22]
  }

  function FromEntries(e: seq<real>): (m: Matrix3)
    requires |e| == 9
    ensures Entries(m) == e
  {
    Matrix3(e[0], e[1], e[2], e[3], e[4], e[5], e[6], e[7], e[8])
  }

  lemma EntriesRoundTrip(m: Matrix3)
    ensures FromEntries(Entries(m)) == m
  {
  }

  /** A matrix acts linearly: M(k a + b) = k M a + M b. */
  lemma MatVecLinear(m: Matrix3, k: real, a: Vec3, b: Vec3)
    ensures MatVec(m, Add3(Scale3(k, a), b)) == Add3(Scale3(k, MatVec(m, a)), MatVec(m, b))
  {
  }

  /** Applying a product is applying its factors in turn: (A B) v = A (B v). */
  lemma MatMulApply(a: Matrix3, b: Matrix3, v: Vec3)
    ensures MatVec(MatMul(a, b), v) == MatVec(a, MatVec(b, v))
  {
    MatMulApplyX(a, b, v);
    MatMulApplyY(a, b, v);
    MatMulApplyZ(a, b, v);
  }

  lemma MatMulApplyX(a: Matrix3, b: Matrix3, v: Vec3)
    ensures MatVec(MatMul(a, b), v).x == MatVec(a, MatVec(b, v)).x
  {
    var ab := MatMul(a, b);
    RowTimesProduct(a.m00, a.m01, a.m02, b, v, MatVec(b, v), ab.m00, ab.m01, ab.m02);
  }

  lemma MatMulApplyY(a: Matrix3, b: Matrix3, v: Vec3)
    ensures MatVec(MatMul(a, b), v).y == MatVec(a, MatVec(b, v)).y
  {
    var ab := MatMul(a, b);
    RowTimesProduct(a.m10, a.m11, a.m12, b, v, MatVec(b, v), ab.m10, ab.m11, ab.m12);
  }

  lemma MatMulApplyZ(a: Matrix3, b: Matrix3, v: Vec3)
    ensures MatVec(MatMul(a, b), v).z == MatVec(a, MatVec(b, v)).z
  {
    var ab := MatMul(a, b);
    RowTimesProduct(a.m20, a.m21, a.m22, b, v, MatVec(b, v), ab.m20, ab.m21, ab.m22);
  }

  /** One row of MatMulApply: if (c0 c1 c2) = (r0 r1 r2) B and w = B v then (c0 c1 c2) v = (r0 r1 r2) w. */
  lemma RowTimesProduct(r0: real, r1: real, r2: real, b: Matrix3, v: Vec3, w: Vec3, c0: real, c1: real, c2: real)
    requires c0 == r0 * b.m00 + r1 * b.m10 + r2 * b.m20
    requires c1 == r0 * b.m01 + r1 * b.m11 + r2 * b.m21
    requires c2 == r0 * b.m02 + r1 * b.m12 + r2 * b.m22
    requires w == MatVec(b, v)
    ensures c0 * v.x + c1 * v.y + c2 * v.z == r0 * w.x + r1 * w.y + r2 * w.z
  {
    assert c0 * v.x == (r0 * b.m00 + r1 * b.m10 + r2 * b.m20) * v.x;
    assert c1 * v.y == (r0 * b.m01 + r1 * b.m11 + r2 * b.m21) * v.y;
    assert c2 * v.z == (r0 * b.m02 + r1 * b.m12 + r2 * b.m22) * v.z;
    assert r0 * w.x == r0 * (b.m00 * v.x + b.m01 * v.y + b.m02 * v.z);
    assert r1 * w.y == r1 * (b.m10 * v.x + b.m11 * v.y + b.m12 * v.z);
    assert r2 * w.z == r2 * (b.m20 * v.x + b.m21 * v.y + b.m22 * v.z);
  }

  /**
   * The rotation algebra of the geometry library, which this model does not
   * define: conversions between axis-angle vectors, quaternions and matrices,
   * quaternion composition and rotation about the x axis.
   *   matrixOf(v)       rotation matrix of the axis-angle vector v
   *   axisAngleOf(m)    axis-angle vector of the rotation matrix m
   *   compose(m, v)     axis angle of (quaternion of m) * (quaternion of v)
   *   xRotation(a)      rotation by angle a about the x axis
   *   rotate(v, r)      r rotated by the quaternion of the axis-angle vector v
   */
  datatype RotationAlgebra = RotationAlgebra(
    matrixOf: Vec3 -> Matrix3,
    axisAngleOf: Matrix3 -> Vec3,
    compose: (Matrix3, Vec3) -> Vec3,
    xRotation: real -> Matrix3,
    rotate: (Vec3, Vec3) -> Vec3)

  /** Floating-point library functions: sine, cosine, Euclidean norm, normalisation. */
  datatype Trig = Trig(
    sin: real -> real,
    cos: real -> real,
    norm: Vec3 -> real,
    normalize: Vec3 -> Vec3)
}
