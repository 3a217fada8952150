/**
 * The 3x3 matrix of CSharpCSG/Matrix3d.cs: nine entries, a product with a scalar
 * and with a vector, and the maximum of three values. The class never changes its
 * fields after construction, so a matrix is a value here.
 */
module Matrices {
  import opened Vectors
  import opened Wrappers

  datatype Matrix3 = Matrix3(m11: real, m12: real, m13: real,
                             m21: real, m22: real, m23: real,
                             m31: real, m32: real, m33: real)

  const ZeroMatrix := Matrix3(0.0, 0.0, 0.0, 0.0, 0.0, 0.0, 0.0, 0.0, 0.0)
  const Unity := Matrix3(1.0, 0.0, 0.0, 0.0, 1.0, 0.0, 0.0, 0.0, 1.0)

  /** times(a): a new matrix with every entry multiplied by a. */
  function Scaled(m: Matrix3, a: real): Matrix3
  {
    Matrix3(m.m11 * a, m.m12 * a, m.m13 * a,
            m.m21 * a, m.m22 * a, m.m23 * a,
            m.m31 * a, m.m32 * a, m.m33 * a)
  }

  /** times(v): row i of the matrix dotted with v. */
  function Apply(m: Matrix3, v: Vec3): Vec3
  {
    Vec3(Row(m.m11, m.m12, m.m13, v), Row(m.m21, m.m22, m.m23, v), Row(m.m31, m.m32, m.m33, v))
  }

  /** The row (a, b, c) dotted with v. */
  function Row(a: real, b: real, c: real, v: Vec3): real
  {
    a * v.x + b * v.y + c * v.z
  }

  /** The unit matrix maps every vector to itself and the zero matrix to the zero vector. */
  lemma UnityAndZero(v: Vec3)
    ensures Apply(Unity, v) == v
    ensures Apply(ZeroMatrix, v) == Zero
  {
  }

  /** Scaling by one keeps the matrix, and scaling by zero gives the zero matrix. */
  lemma ScaledByOneAndZero(m: Matrix3)
    ensures Scaled(m, 1.0) == m
    ensures Scaled(m, 0.0) == ZeroMatrix
  {
  }

  /** The product with a vector is linear: it maps a sum to the sum of the images. */
  lemma ApplyAdditive(m: Matrix3, u: Vec3, w: Vec3)
    ensures Apply(m, Plus(u, w)) == Plus(Apply(m, u), Apply(m, w))
  {
    RowAdditive(m.m11, m.m12, m.m13, u, w);
    RowAdditive(m.m21, m.m22, m.m23, u, w);
    RowAdditive(m.m31, m.m32, m.m33, u, w);
  }

  /** One row of ApplyAdditive. */
  lemma RowAdditive(a: real, b: real, c: real, u: Vec3, w: Vec3)
    ensures Row(a, b, c, Plus(u, w)) == Row(a, b, c, u) + Row(a, b, c, w)
  {
  }

  /** maxOf3Values(values): the nested comparisons read values[0], values[1] and
      values[2], so an array of fewer than three throws. */
  function MaxOf3(values: seq<real>): (r: Result<real>)
    ensures r.Failure? <==> |values| < 3
    ensures r.Failure? ==> r.error == IndexOutOfRange
    ensures r.Success? ==> r.value in values[..3] && forall k :: 0 <= k < 3 ==> values[k] <= r.value
  {
    if |values| < 3 then Failure(IndexOutOfRange)
    else if values[0] > values[1] then
      if values[0] > values[2] then Success(values[0]) else Success(values[2])
    else
      if values[1] > values[2] then Success(values[1]) else Success(values[2])
  }
}
