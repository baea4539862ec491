/**
 * The 4x4 matrix library of transformations.js.
 *
 * A matrix is 16 numbers in column-major order: the entry in row i and
 * column j is entry number j * 4 + i, field `m<j * 4 + i>` below.  Every
 * operation returns a new matrix and leaves its arguments alone, so matrices
 * are values.  Entries are exact reals (no Float32 rounding), and the
 * trigonometric values the source computes with Math.cos, Math.sin and
 * Math.tan are passed in as parameters.
 *
 * Entry j * 4 + i of a product, and each coordinate of a transformed point,
 * is a `Dot4` of a row against a column; the lemmas about `Dot4` below carry
 * the arithmetic so that the matrix-level proofs only rearrange it.
 */
module Transformations {
  import opened Vectors

  datatype Mat4 = Mat4(m0: real, m1: real, m2: real, m3: real,
                       m4: real, m5: real, m6: real, m7: real,
                       m8: real, m9: real, m10: real, m11: real,
                       m12: real, m13: real, m14: real, m15: real)

  /** A homogeneous point or direction (x, y, z, w). */
  datatype Vec4 = Vec4(x: real, y: real, z: real, w: real)

  /** Entry number `n` (0 to 15) in column-major order, as the source indexes its arrays. */
  function Get(m: Mat4, n: int): real
    requires 0 <= n < 16
  {
    match n
    case 0 => m.m0   case 1 => m.m1   case 2 => m.m2   case 3 => m.m3
    case 4 => m.m4   case 5 => m.m5   case 6 => m.m6   case 7 => m.m7
    case 8 => m.m8   case 9 => m.m9   case 10 => m.m10 case 11 => m.m11
    case 12 => m.m12 case 13 => m.m13 case 14 => m.m14 case _ => m.m15
  }

  /** A row (a0, a1, a2, a3) against a column (b0, b1, b2, b3). */
  function Dot4(a0: real, a1: real, a2: real, a3: real, b0: real, b1: real, b2: real, b3: real): real
  {
    a0 * b0 + a1 * b1 + a2 * b2 + a3 * b3
  }

  /** The column vector m * v: the point v transformed by m. */
  function Apply(m: Mat4, v: Vec4): Vec4
  {
    Vec4(Dot4(m.m0, m.m4, m.m8, m.m12, v.x, v.y, v.z, v.w),
         Dot4(m.m1, m.m5, m.m9, m.m13, v.x, v.y, v.z, v.w),
         Dot4(m.m2, m.m6, m.m10, m.m14, v.x, v.y, v.z, v.w),
         Dot4(m.m3, m.m7, m.m11, m.m15, v.x, v.y, v.z, v.w))
  }

  function Abs(v: real): real
  {
    if v < 0.0 then -v else v
  }

  // ---------------------------------------------------------------------
  // Rows against columns with known zero and one entries
  // ---------------------------------------------------------------------

  /** A unit column picks one entry of the row. */
  lemma DotUnitColumn(a0: real, a1: real, a2: real, a3: real, b0: real, b1: real, b2: real, b3: real)
    ensures b0 == 1.0 && b1 == 0.0 && b2 == 0.0 && b3 == 0.0 ==> Dot4(a0, a1, a2, a3, b0, b1, b2, b3) == a0
    ensures b0 == 0.0 && b1 == 1.0 && b2 == 0.0 && b3 == 0.0 ==> Dot4(a0, a1, a2, a3, b0, b1, b2, b3) == a1
    ensures b0 == 0.0 && b1 == 0.0 && b2 == 1.0 && b3 == 0.0 ==> Dot4(a0, a1, a2, a3, b0, b1, b2, b3) == a2
    ensures b0 == 0.0 && b1 == 0.0 && b2 == 0.0 && b3 == 1.0 ==> Dot4(a0, a1, a2, a3, b0, b1, b2, b3) == a3
  {
  }

  /** A unit row picks one entry of the column. */
  lemma DotUnitRow(a0: real, a1: real, a2: real, a3: real, b0: real, b1: real, b2: real, b3: real)
    ensures a0 == 1.0 && a1 == 0.0 && a2 == 0.0 && a3 == 0.0 ==> Dot4(a0, a1, a2, a3, b0, b1, b2, b3) == b0
    ensures a0 == 0.0 && a1 == 1.0 && a2 == 0.0 && a3 == 0.0 ==> Dot4(a0, a1, a2, a3, b0, b1, b2, b3) == b1
    ensures a0 == 0.0 && a1 == 0.0 && a2 == 1.0 && a3 == 0.0 ==> Dot4(a0, a1, a2, a3, b0, b1, b2, b3) == b2
    ensures a0 == 0.0 && a1 == 0.0 && a2 == 0.0 && a3 == 1.0 ==> Dot4(a0, a1, a2, a3, b0, b1, b2, b3) == b3
  {
  }

  /** Every product has a zero factor. */
  lemma DotZero(a0: real, a1: real, a2: real, a3: real, b0: real, b1: real, b2: real, b3: real)
    requires a0 == 0.0 || b0 == 0.0
    requires a1 == 0.0 || b1 == 0.0
    requires a2 == 0.0 || b2 == 0.0
    requires a3 == 0.0 || b3 == 0.0
    ensures Dot4(a0, a1, a2, a3, b0, b1, b2, b3) == 0.0
  {
  }

  /** A row with a single non-zero entry keeps one product. */
  lemma DotSingleRow(a0: real, a1: real, a2: real, a3: real, b0: real, b1: real, b2: real, b3: real)
    ensures a1 == 0.0 && a2 == 0.0 && a3 == 0.0 ==> Dot4(a0, a1, a2, a3, b0, b1, b2, b3) == a0 * b0
    ensures a0 == 0.0 && a2 == 0.0 && a3 == 0.0 ==> Dot4(a0, a1, a2, a3, b0, b1, b2, b3) == a1 * b1
    ensures a0 == 0.0 && a1 == 0.0 && a2 == -1.0 && a3 == 0.0 ==> Dot4(a0, a1, a2, a3, b0, b1, b2, b3) == -b2
  {
  }

  /** A column with a single non-zero entry keeps one product. */
  lemma DotSingleColumn(a0: real, a1: real, a2: real, a3: real, b0: real, b1: real, b2: real, b3: real)
    ensures b1 == 0.0 && b2 == 0.0 && b3 == 0.0 ==> Dot4(a0, a1, a2, a3, b0, b1, b2, b3) == a0 * b0
    ensures b0 == 0.0 && b2 == 0.0 && b3 == 0.0 ==> Dot4(a0, a1, a2, a3, b0, b1, b2, b3) == a1 * b1
    ensures b0 == 0.0 && b1 == 0.0 && b3 == 0.0 ==> Dot4(a0, a1, a2, a3, b0, b1, b2, b3) == a2 * b2
  {
  }

  /** A row with one non-zero entry among the first three, against a point (x, y, z, 1). */
  lemma DotAxisPoint(a0: real, a1: real, a2: real, a3: real, b0: real, b1: real, b2: real, b3: real)
    requires b3 == 1.0
    ensures a1 == 0.0 && a2 == 0.0 ==> Dot4(a0, a1, a2, a3, b0, b1, b2, b3) == a0 * b0 + a3
    ensures a0 == 0.0 && a2 == 0.0 ==> Dot4(a0, a1, a2, a3, b0, b1, b2, b3) == a1 * b1 + a3
    ensures a0 == 0.0 && a1 == 0.0 ==> Dot4(a0, a1, a2, a3, b0, b1, b2, b3) == a2 * b2 + a3
  {
  }

  /** A column (b0, b1, b2, 1), such as a translation column: the row's last entry is added as is. */
  lemma DotLastOne(a0: real, a1: real, a2: real, a3: real, b0: real, b1: real, b2: real, b3: real)
    requires b3 == 1.0
    ensures Dot4(a0, a1, a2, a3, b0, b1, b2, b3) == a0 * b0 + a1 * b1 + a2 * b2 + a3
  {
  }

  /** The columns of the x and y rotation matrices that mix two axes. */
  lemma DotRotation(a0: real, a1: real, a2: real, a3: real, b0: real, b1: real, b2: real, b3: real, c: real, s: real)
    ensures b0 == 0.0 && b1 == c && b2 == s && b3 == 0.0 ==> Dot4(a0, a1, a2, a3, b0, b1, b2, b3) == a1 * c + a2 * s
    ensures b0 == 0.0 && b1 == -s && b2 == c && b3 == 0.0 ==> Dot4(a0, a1, a2, a3, b0, b1, b2, b3) == a2 * c - a1 * s
    ensures b0 == c && b1 == 0.0 && b2 == -s && b3 == 0.0 ==> Dot4(a0, a1, a2, a3, b0, b1, b2, b3) == a0 * c - a2 * s
    ensures b0 == s && b1 == 0.0 && b2 == c && b3 == 0.0 ==> Dot4(a0, a1, a2, a3, b0, b1, b2, b3) == a0 * s + a2 * c
  {
  }

  // ---------------------------------------------------------------------
  // Projections
  // ---------------------------------------------------------------------

  /**
   * perspective(fov, aspect, near, far), with `f` = 1 / tan(fov / 2) passed in.
   * The source divides by `aspect` and by `near - far` unguarded; the model
   * requires both to be non-zero.
   */
  function Perspective(f: real, aspect: real, near: real, far: real): Mat4
    requires aspect != 0.0 && near != far
  {
    var nf := 1.0 / (near - far);
    Mat4(f / aspect, 0.0, 0.0, 0.0,
         0.0, f, 0.0, 0.0,
         0.0, 0.0, (far + near) * nf, -1.0,
         0.0, 0.0, 2.0 * far * near * nf, 0.0)
  }

  /**
   * The clip-space w of a view-space point is its distance in front of the
   * camera (-z), which the later perspective divide uses, and x and y are
   * scaled by the focal length (x also by 1 / aspect).
   */
  lemma PerspectiveDivide(f: real, aspect: real, near: real, far: real, v: Vec4)
    requires aspect != 0.0 && near != far
    ensures Apply(Perspective(f, aspect, near, far), v).x == f / aspect * v.x
    ensures Apply(Perspective(f, aspect, near, far), v).y == f * v.y
    ensures Apply(Perspective(f, aspect, near, far), v).w == -v.z
  {
    var p := Perspective(f, aspect, near, far);
    DotSingleRow(p.m0, p.m4, p.m8, p.m12, v.x, v.y, v.z, v.w);
    DotSingleRow(p.m1, p.m5, p.m9, p.m13, v.x, v.y, v.z, v.w);
    DotSingleRow(p.m3, p.m7, p.m11, p.m15, v.x, v.y, v.z, v.w);
  }

  /** The depth row of the perspective matrix at the two clip depths. */
  lemma DepthRow(near: real, far: real)
    requires near != far
    ensures (far + near) * (1.0 / (near - far)) * -near + 2.0 * far * near * (1.0 / (near - far)) == -near
    ensures (far + near) * (1.0 / (near - far)) * -far + 2.0 * far * near * (1.0 / (near - far)) == far
  {
    var nf := 1.0 / (near - far);
    assert (near - far) * nf == 1.0;
    calc {
      (far + near) * nf * -near + 2.0 * far * near * nf;
      -near * ((near - far) * nf);
      -near;
    }
    calc {
      (far + near) * nf * -far + 2.0 * far * near * nf;
      far * ((near - far) * nf);
      far;
    }
  }

  /**
   * Every point at depth -near lands on the near clip plane (clip z = -w)
   * and every point at depth -far on the far clip plane (clip z = w).
   */
  lemma PerspectiveClipPlanes(f: real, aspect: real, near: real, far: real, x: real, y: real)
    requires aspect != 0.0 && near != far
    ensures var c := Apply(Perspective(f, aspect, near, far), Vec4(x, y, -near, 1.0)); c.z == -near && c.w == near
    ensures var c := Apply(Perspective(f, aspect, near, far), Vec4(x, y, -far, 1.0)); c.z == far && c.w == far
  {
    var p := Perspective(f, aspect, near, far);
    DepthRow(near, far);
    DotAxisPoint(p.m2, p.m6, p.m10, p.m14, x, y, -near, 1.0);
    DotSingleRow(p.m3, p.m7, p.m11, p.m15, x, y, -near, 1.0);
    DotAxisPoint(p.m2, p.m6, p.m10, p.m14, x, y, -far, 1.0);
    DotSingleRow(p.m3, p.m7, p.m11, p.m15, x, y, -far, 1.0);
  }

  /** After the perspective divide the near plane is at depth -1 and the far plane at depth 1. */
  lemma PerspectiveDepthRange(f: real, aspect: real, near: real, far: real, x: real, y: real)
    requires aspect != 0.0 && near != far && near != 0.0 && far != 0.0
    ensures var c := Apply(Perspective(f, aspect, near, far), Vec4(x, y, -near, 1.0)); c.z / c.w == -1.0
    ensures var c := Apply(Perspective(f, aspect, near, far), Vec4(x, y, -far, 1.0)); c.z / c.w == 1.0
  {
    PerspectiveClipPlanes(f, aspect, near, far, x, y);
    SelfRatio(near);
    SelfRatio(far);
  }

  lemma SelfRatio(w: real)
    requires w != 0.0
    ensures -w / w == -1.0 && w / w == 1.0
  {
  }

  /** ortho(left, right, bottom, top, near, far); the source divides by the three differences unguarded. */
  function Ortho(left: real, right: real, bottom: real, top: real, near: real, far: real): Mat4
    requires left != right && bottom != top && near != far
  {
    var lr := 1.0 / (left - right);
    var bt := 1.0 / (bottom - top);
    var nf := 1.0 / (near - far);
    Mat4(-2.0 * lr, 0.0, 0.0, 0.0,
         0.0, -2.0 * bt, 0.0, 0.0,
         0.0, 0.0, 2.0 * nf, 0.0,
         (left + right) * lr, (top + bottom) * bt, (far + near) * nf, 1.0)
  }

  /** With u = 1 / (lo - hi), the map p |-> -2 u p + (lo + hi) u sends lo to -1 and hi to 1. */
  lemma UnitInterval(lo: real, hi: real, mid: real)
    requires lo != hi && mid == lo + hi
    ensures -2.0 * (1.0 / (lo - hi)) * lo + mid * (1.0 / (lo - hi)) == -1.0
    ensures -2.0 * (1.0 / (lo - hi)) * hi + mid * (1.0 / (lo - hi)) == 1.0
  {
    var u := 1.0 / (lo - hi);
    assert (lo - hi) * u == 1.0;
    calc {
      -2.0 * u * lo + mid * u;
      -((lo - hi) * u);
      -1.0;
    }
    calc {
      -2.0 * u * hi + mid * u;
      (lo - hi) * u;
      1.0;
    }
  }

  /** With u = 1 / (near - far), the map z |-> 2 u z + (far + near) u sends -near to -1 and -far to 1. */
  lemma DepthInterval(near: real, far: real)
    requires near != far
    ensures 2.0 * (1.0 / (near - far)) * -near + (far + near) * (1.0 / (near - far)) == -1.0
    ensures 2.0 * (1.0 / (near - far)) * -far + (far + near) * (1.0 / (near - far)) == 1.0
  {
    var u := 1.0 / (near - far);
    assert (near - far) * u == 1.0;
    calc {
      2.0 * u * -near + (far + near) * u;
      -((near - far) * u);
      -1.0;
    }
    calc {
      2.0 * u * -far + (far + near) * u;
      (near - far) * u;
      1.0;
    }
  }

  /** x = left maps to -1 and x = right to 1, whatever y and z are. */
  lemma OrthoX(left: real, right: real, bottom: real, top: real, near: real, far: real, y: real, z: real)
    requires left != right && bottom != top && near != far
    ensures Apply(Ortho(left, right, bottom, top, near, far), Vec4(left, y, z, 1.0)).x == -1.0
    ensures Apply(Ortho(left, right, bottom, top, near, far), Vec4(right, y, z, 1.0)).x == 1.0
  {
    var o := Ortho(left, right, bottom, top, near, far);
    UnitInterval(left, right, left + right);
    DotAxisPoint(o.m0, o.m4, o.m8, o.m12, left, y, z, 1.0);
    DotAxisPoint(o.m0, o.m4, o.m8, o.m12, right, y, z, 1.0);
  }

  /** y = bottom maps to -1 and y = top to 1, whatever x and z are. */
  lemma OrthoY(left: real, right: real, bottom: real, top: real, near: real, far: real, x: real, z: real)
    requires left != right && bottom != top && near != far
    ensures Apply(Ortho(left, right, bottom, top, near, far), Vec4(x, bottom, z, 1.0)).y == -1.0
    ensures Apply(Ortho(left, right, bottom, top, near, far), Vec4(x, top, z, 1.0)).y == 1.0
  {
    var o := Ortho(left, right, bottom, top, near, far);
    UnitInterval(bottom, top, top + bottom);
    DotAxisPoint(o.m1, o.m5, o.m9, o.m13, x, bottom, z, 1.0);
    DotAxisPoint(o.m1, o.m5, o.m9, o.m13, x, top, z, 1.0);
  }

  /** z = -near maps to -1 and z = -far to 1, whatever x and y are. */
  lemma OrthoZ(left: real, right: real, bottom: real, top: real, near: real, far: real, x: real, y: real)
    requires left != right && bottom != top && near != far
    ensures Apply(Ortho(left, right, bottom, top, near, far), Vec4(x, y, -near, 1.0)).z == -1.0
    ensures Apply(Ortho(left, right, bottom, top, near, far), Vec4(x, y, -far, 1.0)).z == 1.0
  {
    var o := Ortho(left, right, bottom, top, near, far);
    DepthInterval(near, far);
    DotAxisPoint(o.m2, o.m6, o.m10, o.m14, x, y, -near, 1.0);
    DotAxisPoint(o.m2, o.m6, o.m10, o.m14, x, y, -far, 1.0);
  }

  /** An orthographic projection keeps w, so no perspective divide happens. */
  lemma OrthoKeepsW(left: real, right: real, bottom: real, top: real, near: real, far: real, v: Vec4)
    requires left != right && bottom != top && near != far
    ensures Apply(Ortho(left, right, bottom, top, near, far), v).w == v.w
  {
    var o := Ortho(left, right, bottom, top, near, far);
    DotUnitRow(o.m3, o.m7, o.m11, o.m15, v.x, v.y, v.z, v.w);
  }

  // ---------------------------------------------------------------------
  // Identity and product
  // ---------------------------------------------------------------------

  /** mat4Identity() */
  function Identity(): Mat4
  {
    Mat4(1.0, 0.0, 0.0, 0.0, 0.0, 1.0, 0.0, 0.0, 0.0, 0.0, 1.0, 0.0, 0.0, 0.0, 0.0, 1.0)
  }

  /** The identity leaves every point where it is. */
  lemma IdentityApply(v: Vec4)
    ensures Apply(Identity(), v) == v
  {
    var e := Identity();
    DotUnitRow(e.m0, e.m4, e.m8, e.m12, v.x, v.y, v.z, v.w);
    DotUnitRow(e.m1, e.m5, e.m9, e.m13, v.x, v.y, v.z, v.w);
    DotUnitRow(e.m2, e.m6, e.m10, e.m14, v.x, v.y, v.z, v.w);
    DotUnitRow(e.m3, e.m7, e.m11, e.m15, v.x, v.y, v.z, v.w);
  }

  /** The 16 entries in column-major order, as the source's Float32Array holds them. */
  function Entries(m: Mat4): (e: seq<real>)
    ensures |e| == 16 && forall n | 0 <= n < 16 :: e[n] == Get(m, n)
  {
    [m.m0, m.m1, m.m2, m.m3, m.m4, m.m5, m.m6, m.m7,
     m.m8, m.m9, m.m10, m.m11, m.m12, m.m13, m.m14, m.m15]
  }

  /**
   * The running `sum` of the innermost loop of multiplyMat4 after `n` steps:
   * the sum over k < n of x[k * 4 + i] * y[j * 4 + k], that is of
   * x(row i, column k) * y(row k, column j).
   */
  function RowColSum(x: seq<real>, y: seq<real>, i: int, j: int, n: int): real
    requires |x| == 16 && |y| == 16 && 0 <= i < 4 && 0 <= j < 4 && 0 <= n <= 4
  {
    if n == 0 then 0.0 else RowColSum(x, y, i, j, n - 1) + x[(n - 1) * 4 + i] * y[j * 4 + n - 1]
  }

  /** The matrix product a * b: entry j * 4 + i is row i of a against column j of b. */
  function Mul(a: Mat4, b: Mat4): Mat4
  {
    Mat4(Dot4(a.m0, a.m4, a.m8, a.m12, b.m0, b.m1, b.m2, b.m3),
         Dot4(a.m1, a.m5, a.m9, a.m13, b.m0, b.m1, b.m2, b.m3),
         Dot4(a.m2, a.m6, a.m10, a.m14, b.m0, b.m1, b.m2, b.m3),
         Dot4(a.m3, a.m7, a.m11, a.m15, b.m0, b.m1, b.m2, b.m3),
         Dot4(a.m0, a.m4, a.m8, a.m12, b.m4, b.m5, b.m6, b.m7),
         Dot4(a.m1, a.m5, a.m9, a.m13, b.m4, b.m5, b.m6, b.m7),
         Dot4(a.m2, a.m6, a.m10, a.m14, b.m4, b.m5, b.m6, b.m7),
         Dot4(a.m3, a.m7, a.m11, a.m15, b.m4, b.m5, b.m6, b.m7),
         Dot4(a.m0, a.m4, a.m8, a.m12, b.m8, b.m9, b.m10, b.m11),
         Dot4(a.m1, a.m5, a.m9, a.m13, b.m8, b.m9, b.m10, b.m11),
         Dot4(a.m2, a.m6, a.m10, a.m14, b.m8, b.m9, b.m10, b.m11),
         Dot4(a.m3, a.m7, a.m11, a.m15, b.m8, b.m9, b.m10, b.m11),
         Dot4(a.m0, a.m4, a.m8, a.m12, b.m12, b.m13, b.m14, b.m15),
         Dot4(a.m1, a.m5, a.m9, a.m13, b.m12, b.m13, b.m14, b.m15),
         Dot4(a.m2, a.m6, a.m10, a.m14, b.m12, b.m13, b.m14, b.m15),
         Dot4(a.m3, a.m7, a.m11, a.m15, b.m12, b.m13, b.m14, b.m15))
  }

  /** Entry r[j * 4 + i] of a * b is the sum over k of a[k * 4 + i] * b[j * 4 + k]. */
  lemma MulEntry(a: Mat4, b: Mat4, i: int, j: int)
    requires 0 <= i < 4 && 0 <= j < 4
    ensures Entry(Entries(Mul(a, b)), i, j) == RowColSum(Entries(a), Entries(b), i, j, 4)
  {
    var x, y := Entries(a), Entries(b);
    var x0, x1, x2, x3 := x[i], x[4 + i], x[8 + i], x[12 + i];
    var y0, y1, y2, y3 := y[j * 4], y[j * 4 + 1], y[j * 4 + 2], y[j * 4 + 3];
    assert RowColSum(x, y, i, j, 1) == x0 * y0;
    assert RowColSum(x, y, i, j, 2) == x0 * y0 + x1 * y1;
    assert RowColSum(x, y, i, j, 3) == x0 * y0 + x1 * y1 + x2 * y2;
    assert RowColSum(x, y, i, j, 4) == Dot4(x0, x1, x2, x3, y0, y1, y2, y3);
    assert i == 0 || i == 1 || i == 2 || i == 3;
    assert j == 0 || j == 1 || j == 2 || j == 3;
  }

  /** The entry in row i and column j of 16 column-major entries. */
  function Entry(e: seq<real>, i: int, j: int): real
    requires |e| == 16 && 0 <= i < 4 && 0 <= j < 4
  {
    e[j * 4 + i]
  }

  /** Sixteen entries that agree with those of m, row by row and column by column, make up m. */
  lemma FromEntries(m: Mat4, e: seq<real>)
    requires |e| == 16
    requires forall i, j | 0 <= i < 4 && 0 <= j < 4 :: e[j * 4 + i] == Entry(Entries(m), i, j)
    ensures Mat4(e[0], e[1], e[2], e[3], e[4], e[5], e[6], e[7],
                 e[8], e[9], e[10], e[11], e[12], e[13], e[14], e[15]) == m
  {
    forall n | 0 <= n < 16
      ensures e[n] == Entries(m)[n]
    {
      assert e[(n / 4) * 4 + n % 4] == Entry(Entries(m), n % 4, n / 4);
    }
    assert e == Entries(m);
  }

  /**
   * multiplyMat4(a, b): three nested loops fill a fresh 16-entry array, the
   * innermost accumulating a running sum for entry r[j * 4 + i].
   */
  method MultiplyMat4(a: Mat4, b: Mat4) returns (product: Mat4)
    ensures product == Mul(a, b)
  {
    var x, y := Entries(a), Entries(b);
    ghost var want := Entries(Mul(a, b));
    var r := new real[16];
    var i := 0;
    while i < 4
      invariant 0 <= i <= 4
      invariant forall i', j' | 0 <= i' < i && 0 <= j' < 4 :: r[j' * 4 + i'] == Entry(want, i', j')
    {
      var j := 0;
      while j < 4
        invariant 0 <= j <= 4
        invariant forall i', j' | 0 <= i' < 4 && 0 <= j' < 4 && (i' < i || (i' == i && j' < j)) ::
                    r[j' * 4 + i'] == Entry(want, i', j')
      {
        var sum := 0.0;
        var k := 0;
        while k < 4
          invariant 0 <= k <= 4
          invariant sum == RowColSum(x, y, i, j, k)
        {
          sum := sum + x[k * 4 + i] * y[j * 4 + k];
          k := k + 1;
        }
        MulEntry(a, b, i, j);
        r[j * 4 + i] := sum;
        j := j + 1;
      }
      i := i + 1;
    }
    product := Mat4(r[0], r[1], r[2], r[3], r[4], r[5], r[6], r[7],
                    r[8], r[9], r[10], r[11], r[12], r[13], r[14], r[15]);
    FromEntries(Mul(a, b), r[..]);
  }

  /** m * identity == m */
  lemma MulIdentityRight(m: Mat4)
    ensures Mul(m, Identity()) == m
  {
    var e := Identity();
    DotUnitColumn(m.m0, m.m4, m.m8, m.m12, e.m0, e.m1, e.m2, e.m3);
    DotUnitColumn(m.m1, m.m5, m.m9, m.m13, e.m0, e.m1, e.m2, e.m3);
    DotUnitColumn(m.m2, m.m6, m.m10, m.m14, e.m0, e.m1, e.m2, e.m3);
    DotUnitColumn(m.m3, m.m7, m.m11, m.m15, e.m0, e.m1, e.m2, e.m3);
    DotUnitColumn(m.m0, m.m4, m.m8, m.m12, e.m4, e.m5, e.m6, e.m7);
    DotUnitColumn(m.m1, m.m5, m.m9, m.m13, e.m4, e.m5, e.m6, e.m7);
    DotUnitColumn(m.m2, m.m6, m.m10, m.m14, e.m4, e.m5, e.m6, e.m7);
    DotUnitColumn(m.m3, m.m7, m.m11, m.m15, e.m4, e.m5, e.m6, e.m7);
    DotUnitColumn(m.m0, m.m4, m.m8, m.m12, e.m8, e.m9, e.m10, e.m11);
    DotUnitColumn(m.m1, m.m5, m.m9, m.m13, e.m8, e.m9, e.m10, e.m11);
    DotUnitColumn(m.m2, m.m6, m.m10, m.m14, e.m8, e.m9, e.m10, e.m11);
    DotUnitColumn(m.m3, m.m7, m.m11, m.m15, e.m8, e.m9, e.m10, e.m11);
    DotUnitColumn(m.m0, m.m4, m.m8, m.m12, e.m12, e.m13, e.m14, e.m15);
    DotUnitColumn(m.m1, m.m5, m.m9, m.m13, e.m12, e.m13, e.m14, e.m15);
    DotUnitColumn(m.m2, m.m6, m.m10, m.m14, e.m12, e.m13, e.m14, e.m15);
    DotUnitColumn(m.m3, m.m7, m.m11, m.m15, e.m12, e.m13, e.m14, e.m15);
    var p := Mul(m, e);
    var r := m;
    assert p.m0 == r.m0 && p.m1 == r.m1 && p.m2 == r.m2 && p.m3 == r.m3;
    assert p.m4 == r.m4 && p.m5 == r.m5 && p.m6 == r.m6 && p.m7 == r.m7;
    assert p.m8 == r.m8 && p.m9 == r.m9 && p.m10 == r.m10 && p.m11 == r.m11;
    assert p.m12 == r.m12 && p.m13 == r.m13 && p.m14 == r.m14 && p.m15 == r.m15;
  }

  /** identity * m == m */
  lemma MulIdentityLeft(m: Mat4)
    ensures Mul(Identity(), m) == m
  {
    var e := Identity();
    DotUnitRow(e.m0, e.m4, e.m8, e.m12, m.m0, m.m1, m.m2, m.m3);
    DotUnitRow(e.m1, e.m5, e.m9, e.m13, m.m0, m.m1, m.m2, m.m3);
    DotUnitRow(e.m2, e.m6, e.m10, e.m14, m.m0, m.m1, m.m2, m.m3);
    DotUnitRow(e.m3, e.m7, e.m11, e.m15, m.m0, m.m1, m.m2, m.m3);
    DotUnitRow(e.m0, e.m4, e.m8, e.m12, m.m4, m.m5, m.m6, m.m7);
    DotUnitRow(e.m1, e.m5, e.m9, e.m13, m.m4, m.m5, m.m6, m.m7);
    DotUnitRow(e.m2, e.m6, e.m10, e.m14, m.m4, m.m5, m.m6, m.m7);
    DotUnitRow(e.m3, e.m7, e.m11, e.m15, m.m4, m.m5, m.m6, m.m7);
    DotUnitRow(e.m0, e.m4, e.m8, e.m12, m.m8, m.m9, m.m10, m.m11);
    DotUnitRow(e.m1, e.m5, e.m9, e.m13, m.m8, m.m9, m.m10, m.m11);
    DotUnitRow(e.m2, e.m6, e.m10, e.m14, m.m8, m.m9, m.m10, m.m11);
    DotUnitRow(e.m3, e.m7, e.m11, e.m15, m.m8, m.m9, m.m10, m.m11);
    DotUnitRow(e.m0, e.m4, e.m8, e.m12, m.m12, m.m13, m.m14, m.m15);
    DotUnitRow(e.m1, e.m5, e.m9, e.m13, m.m12, m.m13, m.m14, m.m15);
    DotUnitRow(e.m2, e.m6, e.m10, e.m14, m.m12, m.m13, m.m14, m.m15);
    DotUnitRow(e.m3, e.m7, e.m11, e.m15, m.m12, m.m13, m.m14, m.m15);
    var p := Mul(e, m);
    var r := m;
    assert p.m0 == r.m0 && p.m1 == r.m1 && p.m2 == r.m2 && p.m3 == r.m3;
    assert p.m4 == r.m4 && p.m5 == r.m5 && p.m6 == r.m6 && p.m7 == r.m7;
    assert p.m8 == r.m8 && p.m9 == r.m9 && p.m10 == r.m10 && p.m11 == r.m11;
    assert p.m12 == r.m12 && p.m13 == r.m13 && p.m14 == r.m14 && p.m15 == r.m15;
  }

  /** Column j (0 to 3) of m. */
  function Column(m: Mat4, j: int): Vec4
    requires 0 <= j < 4
  {
    if j == 0 then Vec4(m.m0, m.m1, m.m2, m.m3)
    else if j == 1 then Vec4(m.m4, m.m5, m.m6, m.m7)
    else if j == 2 then Vec4(m.m8, m.m9, m.m10, m.m11)
    else Vec4(m.m12, m.m13, m.m14, m.m15)
  }

  /** The matrix whose columns are c0, c1, c2, c3. */
  function FromColumns(c0: Vec4, c1: Vec4, c2: Vec4, c3: Vec4): Mat4
  {
    Mat4(c0.x, c0.y, c0.z, c0.w, c1.x, c1.y, c1.z, c1.w,
         c2.x, c2.y, c2.z, c2.w, c3.x, c3.y, c3.z, c3.w)
  }

  /** Column j of a * b is a applied to column j of b. */
  lemma MulByColumns(a: Mat4, b: Mat4)
    ensures Mul(a, b) == FromColumns(Apply(a, Column(b, 0)), Apply(a, Column(b, 1)),
                                     Apply(a, Column(b, 2)), Apply(a, Column(b, 3)))
  {
  }

  /**
   * One row of a against the column b * v equals that row of a * b against v;
   * b is given by its 16 entries in column-major order.
   */
  lemma DotRowApply(a0: real, a1: real, a2: real, a3: real,
                    b0: real, b1: real, b2: real, b3: real, b4: real, b5: real, b6: real, b7: real,
                    b8: real, b9: real, b10: real, b11: real, b12: real, b13: real, b14: real, b15: real,
                    v0: real, v1: real, v2: real, v3: real)
    ensures Dot4(a0, a1, a2, a3,
                 Dot4(b0, b4, b8, b12, v0, v1, v2, v3), Dot4(b1, b5, b9, b13, v0, v1, v2, v3),
                 Dot4(b2, b6, b10, b14, v0, v1, v2, v3), Dot4(b3, b7, b11, b15, v0, v1, v2, v3))
         == Dot4(Dot4(a0, a1, a2, a3, b0, b1, b2, b3), Dot4(a0, a1, a2, a3, b4, b5, b6, b7),
                 Dot4(a0, a1, a2, a3, b8, b9, b10, b11), Dot4(a0, a1, a2, a3, b12, b13, b14, b15),
                 v0, v1, v2, v3)
  {
    DotScaleRow(a0, b0, b4, b8, b12, v0, v1, v2, v3);
    DotScaleRow(a1, b1, b5, b9, b13, v0, v1, v2, v3);
    DotScaleRow(a2, b2, b6, b10, b14, v0, v1, v2, v3);
    DotScaleRow(a3, b3, b7, b11, b15, v0, v1, v2, v3);
    DotAddRows(a0 * b0, a0 * b4, a0 * b8, a0 * b12, a1 * b1, a1 * b5, a1 * b9, a1 * b13,
               a2 * b2, a2 * b6, a2 * b10, a2 * b14, a3 * b3, a3 * b7, a3 * b11, a3 * b15,
               v0, v1, v2, v3);
  }

  /** A factor distributes over a row: k * (x . v) == (k x) . v. */
  lemma DotScaleRow(k: real, x0: real, x1: real, x2: real, x3: real, v0: real, v1: real, v2: real, v3: real)
    ensures k * Dot4(x0, x1, x2, x3, v0, v1, v2, v3) == Dot4(k * x0, k * x1, k * x2, k * x3, v0, v1, v2, v3)
  {
  }

  /** Four rows against the same column add up row by row. */
  lemma DotAddRows(x0: real, x1: real, x2: real, x3: real, y0: real, y1: real, y2: real, y3: real,
                   z0: real, z1: real, z2: real, z3: real, u0: real, u1: real, u2: real, u3: real,
                   v0: real, v1: real, v2: real, v3: real)
    ensures Dot4(x0, x1, x2, x3, v0, v1, v2, v3) + Dot4(y0, y1, y2, y3, v0, v1, v2, v3)
          + Dot4(z0, z1, z2, z3, v0, v1, v2, v3) + Dot4(u0, u1, u2, u3, v0, v1, v2, v3)
         == Dot4(x0 + y0 + z0 + u0, x1 + y1 + z1 + u1, x2 + y2 + z2 + u2, x3 + y3 + z3 + u3, v0, v1, v2, v3)
  {
  }

  /**
   * The column-major convention: the product a * b transforms a point as b
   * first and a after it.
   */
  lemma MulApply(a: Mat4, b: Mat4, v: Vec4)
    ensures Apply(Mul(a, b), v) == Apply(a, Apply(b, v))
  {
    DotRowApply(a.m0, a.m4, a.m8, a.m12, b.m0, b.m1, b.m2, b.m3, b.m4, b.m5, b.m6, b.m7,
                b.m8, b.m9, b.m10, b.m11, b.m12, b.m13, b.m14, b.m15, v.x, v.y, v.z, v.w);
    DotRowApply(a.m1, a.m5, a.m9, a.m13, b.m0, b.m1, b.m2, b.m3, b.m4, b.m5, b.m6, b.m7,
                b.m8, b.m9, b.m10, b.m11, b.m12, b.m13, b.m14, b.m15, v.x, v.y, v.z, v.w);
    DotRowApply(a.m2, a.m6, a.m10, a.m14, b.m0, b.m1, b.m2, b.m3, b.m4, b.m5, b.m6, b.m7,
                b.m8, b.m9, b.m10, b.m11, b.m12, b.m13, b.m14, b.m15, v.x, v.y, v.z, v.w);
    DotRowApply(a.m3, a.m7, a.m11, a.m15, b.m0, b.m1, b.m2, b.m3, b.m4, b.m5, b.m6, b.m7,
                b.m8, b.m9, b.m10, b.m11, b.m12, b.m13, b.m14, b.m15, v.x, v.y, v.z, v.w);
  }

  // ---------------------------------------------------------------------
  // Translation, rotation, scale
  // ---------------------------------------------------------------------

  /** The identity with column 3 replaced by (t.x, t.y, t.z, 1). */
  function TranslationMatrix(t: Vec3): Mat4
  {
    Mat4(1.0, 0.0, 0.0, 0.0, 0.0, 1.0, 0.0, 0.0, 0.0, 0.0, 1.0, 0.0, t.x, t.y, t.z, 1.0)
  }

  /**
   * mat4Translate(matrix, translation): a copy of m whose column 3 becomes
   * m's first three columns combined by t, plus the old column 3.  Entries
   * 0 to 11 are those of m.
   */
  function Translate(m: Mat4, t: Vec3): (r: Mat4)
    ensures forall n | 0 <= n < 12 :: Get(r, n) == Get(m, n)
  {
    m.(m12 := m.m0 * t.x + m.m4 * t.y + m.m8 * t.z + m.m12,
       m13 := m.m1 * t.x + m.m5 * t.y + m.m9 * t.z + m.m13,
       m14 := m.m2 * t.x + m.m6 * t.y + m.m10 * t.z + m.m14,
       m15 := m.m3 * t.x + m.m7 * t.y + m.m11 * t.z + m.m15)
  }

  /** Translating is right-multiplying by the translation matrix. */
  lemma TranslateIsMul(m: Mat4, t: Vec3)
    ensures Translate(m, t) == Mul(m, TranslationMatrix(t))
  {
    var tm := TranslationMatrix(t);
    DotUnitColumn(m.m0, m.m4, m.m8, m.m12, tm.m0, tm.m1, tm.m2, tm.m3);
    DotUnitColumn(m.m1, m.m5, m.m9, m.m13, tm.m0, tm.m1, tm.m2, tm.m3);
    DotUnitColumn(m.m2, m.m6, m.m10, m.m14, tm.m0, tm.m1, tm.m2, tm.m3);
    DotUnitColumn(m.m3, m.m7, m.m11, m.m15, tm.m0, tm.m1, tm.m2, tm.m3);
    DotUnitColumn(m.m0, m.m4, m.m8, m.m12, tm.m4, tm.m5, tm.m6, tm.m7);
    DotUnitColumn(m.m1, m.m5, m.m9, m.m13, tm.m4, tm.m5, tm.m6, tm.m7);
    DotUnitColumn(m.m2, m.m6, m.m10, m.m14, tm.m4, tm.m5, tm.m6, tm.m7);
    DotUnitColumn(m.m3, m.m7, m.m11, m.m15, tm.m4, tm.m5, tm.m6, tm.m7);
    DotUnitColumn(m.m0, m.m4, m.m8, m.m12, tm.m8, tm.m9, tm.m10, tm.m11);
    DotUnitColumn(m.m1, m.m5, m.m9, m.m13, tm.m8, tm.m9, tm.m10, tm.m11);
    DotUnitColumn(m.m2, m.m6, m.m10, m.m14, tm.m8, tm.m9, tm.m10, tm.m11);
    DotUnitColumn(m.m3, m.m7, m.m11, m.m15, tm.m8, tm.m9, tm.m10, tm.m11);
    DotLastOne(m.m0, m.m4, m.m8, m.m12, tm.m12, tm.m13, tm.m14, tm.m15);
    DotLastOne(m.m1, m.m5, m.m9, m.m13, tm.m12, tm.m13, tm.m14, tm.m15);
    DotLastOne(m.m2, m.m6, m.m10, m.m14, tm.m12, tm.m13, tm.m14, tm.m15);
    DotLastOne(m.m3, m.m7, m.m11, m.m15, tm.m12, tm.m13, tm.m14, tm.m15);
    var p := Mul(m, tm);
    var r := Translate(m, t);
    assert p.m0 == r.m0 && p.m1 == r.m1 && p.m2 == r.m2 && p.m3 == r.m3;
    assert p.m4 == r.m4 && p.m5 == r.m5 && p.m6 == r.m6 && p.m7 == r.m7;
    assert p.m8 == r.m8 && p.m9 == r.m9 && p.m10 == r.m10 && p.m11 == r.m11;
    assert p.m12 == r.m12 && p.m13 == r.m13 && p.m14 == r.m14 && p.m15 == r.m15;
  }

  /** Two translations compose into one by the sum of their offsets. */
  lemma TranslateTwice(m: Mat4, s: Vec3, t: Vec3)
    ensures Translate(Translate(m, s), t) == Translate(m, Vec3(s.x + t.x, s.y + t.y, s.z + t.z))
  {
    var u := Vec3(s.x + t.x, s.y + t.y, s.z + t.z);
    var ms := Translate(m, s);
    assert ms.m0 == m.m0 && ms.m1 == m.m1 && ms.m2 == m.m2 && ms.m3 == m.m3;
    assert ms.m4 == m.m4 && ms.m5 == m.m5 && ms.m6 == m.m6 && ms.m7 == m.m7;
    assert ms.m8 == m.m8 && ms.m9 == m.m9 && ms.m10 == m.m10 && ms.m11 == m.m11;
    OffsetsAdd(m.m0, m.m4, m.m8, m.m12, s, t, u);
    OffsetsAdd(m.m1, m.m5, m.m9, m.m13, s, t, u);
    OffsetsAdd(m.m2, m.m6, m.m10, m.m14, s, t, u);
    OffsetsAdd(m.m3, m.m7, m.m11, m.m15, s, t, u);
  }

  /** One row of TranslateTwice: offsetting by s, then by t, is offsetting by u = s + t. */
  lemma OffsetsAdd(a: real, b: real, c: real, d: real, s: Vec3, t: Vec3, u: Vec3)
    requires u == Vec3(s.x + t.x, s.y + t.y, s.z + t.z)
    ensures a * t.x + b * t.y + c * t.z + (a * s.x + b * s.y + c * s.z + d)
         == a * u.x + b * u.y + c * u.z + d
  {
    calc {
      a * u.x + b * u.y + c * u.z + d;
      a * (s.x + t.x) + b * (s.y + t.y) + c * (s.z + t.z) + d;
    }
  }

  /** Translating by -t undoes translating by t. */
  lemma TranslateUndo(m: Mat4, t: Vec3)
    ensures Translate(Translate(m, t), Vec3(-t.x, -t.y, -t.z)) == m
  {
    TranslateTwice(m, t, Vec3(-t.x, -t.y, -t.z));
    assert Vec3(t.x + -t.x, t.y + -t.y, t.z + -t.z) == Vec3(0.0, 0.0, 0.0);
  }

  /** Rotation by an angle with cosine c and sine s about the x axis. */
  function RotationX(c: real, s: real): Mat4
  {
    Mat4(1.0, 0.0, 0.0, 0.0, 0.0, c, s, 0.0, 0.0, -s, c, 0.0, 0.0, 0.0, 0.0, 1.0)
  }

  /** Rotation by an angle with cosine c and sine s about the y axis. */
  function RotationY(c: real, s: real): Mat4
  {
    Mat4(c, 0.0, -s, 0.0, 0.0, 1.0, 0.0, 0.0, s, 0.0, c, 0.0, 0.0, 0.0, 0.0, 1.0)
  }

  /**
   * mat4RotateX(matrix, angle) with c = cos(angle), s = sin(angle): columns 1
   * and 2 are replaced by their rotated combinations; entries 0 to 3 and 12
   * to 15 are those of m.
   */
  function RotateX(m: Mat4, c: real, s: real): (r: Mat4)
    ensures forall n | 0 <= n < 4 || 12 <= n < 16 :: Get(r, n) == Get(m, n)
  {
    m.(m4 := m.m4 * c + m.m8 * s, m5 := m.m5 * c + m.m9 * s,
       m6 := m.m6 * c + m.m10 * s, m7 := m.m7 * c + m.m11 * s,
       m8 := m.m8 * c - m.m4 * s, m9 := m.m9 * c - m.m5 * s,
       m10 := m.m10 * c - m.m6 * s, m11 := m.m11 * c - m.m7 * s)
  }

  /**
   * mat4RotateY(matrix, angle) with c = cos(angle), s = sin(angle): columns 0
   * and 2 are replaced by their rotated combinations; entries 4 to 7 and 12
   * to 15 are those of m.
   */
  function RotateY(m: Mat4, c: real, s: real): (r: Mat4)
    ensures forall n | 4 <= n < 8 || 12 <= n < 16 :: Get(r, n) == Get(m, n)
  {
    m.(m0 := m.m0 * c - m.m8 * s, m1 := m.m1 * c - m.m9 * s,
       m2 := m.m2 * c - m.m10 * s, m3 := m.m3 * c - m.m11 * s,
       m8 := m.m0 * s + m.m8 * c, m9 := m.m1 * s + m.m9 * c,
       m10 := m.m2 * s + m.m10 * c, m11 := m.m3 * s + m.m11 * c)
  }

  /** Rotating about x is right-multiplying by the x rotation matrix. */
  lemma RotateXIsMul(m: Mat4, c: real, s: real)
    ensures RotateX(m, c, s) == Mul(m, RotationX(c, s))
  {
    var q := RotationX(c, s);
    DotUnitColumn(m.m0, m.m4, m.m8, m.m12, q.m0, q.m1, q.m2, q.m3);
    DotUnitColumn(m.m1, m.m5, m.m9, m.m13, q.m0, q.m1, q.m2, q.m3);
    DotUnitColumn(m.m2, m.m6, m.m10, m.m14, q.m0, q.m1, q.m2, q.m3);
    DotUnitColumn(m.m3, m.m7, m.m11, m.m15, q.m0, q.m1, q.m2, q.m3);
    DotRotation(m.m0, m.m4, m.m8, m.m12, q.m4, q.m5, q.m6, q.m7, c, s);
    DotRotation(m.m1, m.m5, m.m9, m.m13, q.m4, q.m5, q.m6, q.m7, c, s);
    DotRotation(m.m2, m.m6, m.m10, m.m14, q.m4, q.m5, q.m6, q.m7, c, s);
    DotRotation(m.m3, m.m7, m.m11, m.m15, q.m4, q.m5, q.m6, q.m7, c, s);
    DotRotation(m.m0, m.m4, m.m8, m.m12, q.m8, q.m9, q.m10, q.m11, c, s);
    DotRotation(m.m1, m.m5, m.m9, m.m13, q.m8, q.m9, q.m10, q.m11, c, s);
    DotRotation(m.m2, m.m6, m.m10, m.m14, q.m8, q.m9, q.m10, q.m11, c, s);
    DotRotation(m.m3, m.m7, m.m11, m.m15, q.m8, q.m9, q.m10, q.m11, c, s);
    DotUnitColumn(m.m0, m.m4, m.m8, m.m12, q.m12, q.m13, q.m14, q.m15);
    DotUnitColumn(m.m1, m.m5, m.m9, m.m13, q.m12, q.m13, q.m14, q.m15);
    DotUnitColumn(m.m2, m.m6, m.m10, m.m14, q.m12, q.m13, q.m14, q.m15);
    DotUnitColumn(m.m3, m.m7, m.m11, m.m15, q.m12, q.m13, q.m14, q.m15);
    var p := Mul(m, q);
    var r := RotateX(m, c, s);
    assert p.m0 == r.m0 && p.m1 == r.m1 && p.m2 == r.m2 && p.m3 == r.m3;
    assert p.m4 == r.m4 && p.m5 == r.m5 && p.m6 == r.m6 && p.m7 == r.m7;
    assert p.m8 == r.m8 && p.m9 == r.m9 && p.m10 == r.m10 && p.m11 == r.m11;
    assert p.m12 == r.m12 && p.m13 == r.m13 && p.m14 == r.m14 && p.m15 == r.m15;
  }

  /** Rotating about y is right-multiplying by the y rotation matrix. */
  lemma RotateYIsMul(m: Mat4, c: real, s: real)
    ensures RotateY(m, c, s) == Mul(m, RotationY(c, s))
  {
    var q := RotationY(c, s);
    DotRotation(m.m0, m.m4, m.m8, m.m12, q.m0, q.m1, q.m2, q.m3, c, s);
    DotRotation(m.m1, m.m5, m.m9, m.m13, q.m0, q.m1, q.m2, q.m3, c, s);
    DotRotation(m.m2, m.m6, m.m10, m.m14, q.m0, q.m1, q.m2, q.m3, c, s);
    DotRotation(m.m3, m.m7, m.m11, m.m15, q.m0, q.m1, q.m2, q.m3, c, s);
    DotUnitColumn(m.m0, m.m4, m.m8, m.m12, q.m4, q.m5, q.m6, q.m7);
    DotUnitColumn(m.m1, m.m5, m.m9, m.m13, q.m4, q.m5, q.m6, q.m7);
    DotUnitColumn(m.m2, m.m6, m.m10, m.m14, q.m4, q.m5, q.m6, q.m7);
    DotUnitColumn(m.m3, m.m7, m.m11, m.m15, q.m4, q.m5, q.m6, q.m7);
    DotRotation(m.m0, m.m4, m.m8, m.m12, q.m8, q.m9, q.m10, q.m11, c, s);
    DotRotation(m.m1, m.m5, m.m9, m.m13, q.m8, q.m9, q.m10, q.m11, c, s);
    DotRotation(m.m2, m.m6, m.m10, m.m14, q.m8, q.m9, q.m10, q.m11, c, s);
    DotRotation(m.m3, m.m7, m.m11, m.m15, q.m8, q.m9, q.m10, q.m11, c, s);
    DotUnitColumn(m.m0, m.m4, m.m8, m.m12, q.m12, q.m13, q.m14, q.m15);
    DotUnitColumn(m.m1, m.m5, m.m9, m.m13, q.m12, q.m13, q.m14, q.m15);
    DotUnitColumn(m.m2, m.m6, m.m10, m.m14, q.m12, q.m13, q.m14, q.m15);
    DotUnitColumn(m.m3, m.m7, m.m11, m.m15, q.m12, q.m13, q.m14, q.m15);
    var p := Mul(m, q);
    var r := RotateY(m, c, s);
    assert p.m0 == r.m0 && p.m1 == r.m1 && p.m2 == r.m2 && p.m3 == r.m3;
    assert p.m4 == r.m4 && p.m5 == r.m5 && p.m6 == r.m6 && p.m7 == r.m7;
    assert p.m8 == r.m8 && p.m9 == r.m9 && p.m10 == r.m10 && p.m11 == r.m11;
    assert p.m12 == r.m12 && p.m13 == r.m13 && p.m14 == r.m14 && p.m15 == r.m15;
  }

  /**
   * One pair of entries of RotateXUndo: (p, q) is (u, v) rotated by the
   * angle, and rotating it by the opposite angle gives (u, v) back.
   */
  lemma RotationUndoX(u: real, v: real, c: real, s: real, p: real, q: real)
    requires c * c + s * s == 1.0
    requires p == u * c + v * s && q == v * c - u * s
    ensures p * c + q * -s == u
    ensures q * c - p * -s == v
  {
    calc {
      p * c + q * -s;
      (u * c + v * s) * c + (v * c - u * s) * -s;
      u * (c * c + s * s);
      u;
    }
    calc {
      q * c - p * -s;
      (v * c - u * s) * c - (u * c + v * s) * -s;
      v * (c * c + s * s);
      v;
    }
  }

  /**
   * One pair of entries of RotateYUndo: (p, q) is (u, v) rotated by the
   * angle, and rotating it by the opposite angle gives (u, v) back.
   */
  lemma RotationUndoY(u: real, v: real, c: real, s: real, p: real, q: real)
    requires c * c + s * s == 1.0
    requires p == u * c - v * s && q == u * s + v * c
    ensures p * c - q * -s == u
    ensures p * -s + q * c == v
  {
    calc {
      p * c - q * -s;
      (u * c - v * s) * c - (u * s + v * c) * -s;
      u * (c * c + s * s);
      u;
    }
    calc {
      p * -s + q * c;
      (u * c - v * s) * -s + (u * s + v * c) * c;
      v * (c * c + s * s);
      v;
    }
  }

  /** For a genuine angle (c^2 + s^2 == 1), rotating about x by -angle undoes rotating by angle. */
  lemma RotateXUndo(m: Mat4, c: real, s: real)
    requires c * c + s * s == 1.0
    ensures RotateX(RotateX(m, c, s), c, -s) == m
  {
    var r := RotateX(m, c, s);
    RotationUndoX(m.m4, m.m8, c, s, r.m4, r.m8);
    RotationUndoX(m.m5, m.m9, c, s, r.m5, r.m9);
    RotationUndoX(m.m6, m.m10, c, s, r.m6, r.m10);
    RotationUndoX(m.m7, m.m11, c, s, r.m7, r.m11);
  }

  /** For a genuine angle (c^2 + s^2 == 1), rotating about y by -angle undoes rotating by angle. */
  lemma RotateYUndo(m: Mat4, c: real, s: real)
    requires c * c + s * s == 1.0
    ensures RotateY(RotateY(m, c, s), c, -s) == m
  {
    var r := RotateY(m, c, s);
    RotationUndoY(m.m0, m.m8, c, s, r.m0, r.m8);
    RotationUndoY(m.m1, m.m9, c, s, r.m1, r.m9);
    RotationUndoY(m.m2, m.m10, c, s, r.m2, r.m10);
    RotationUndoY(m.m3, m.m11, c, s, r.m3, r.m11);
  }

  /**
   * mat4Scale(m, s): a copy of m whose entries 0, 5 and 10 (the diagonal of
   * the upper-left 3x3 block) are multiplied by s.x, s.y and s.z; the other
   * thirteen entries are those of m.
   */
  function Scale(m: Mat4, s: Vec3): (r: Mat4)
    ensures forall n | 0 <= n < 16 && n != 0 && n != 5 && n != 10 :: Get(r, n) == Get(m, n)
  {
    m.(m0 := m.m0 * s.x, m5 := m.m5 * s.y, m10 := m.m10 * s.z)
  }

  /** The diagonal scale matrix diag(s.x, s.y, s.z, 1). */
  function ScaleMatrix(s: Vec3): Mat4
  {
    Mat4(s.x, 0.0, 0.0, 0.0, 0.0, s.y, 0.0, 0.0, 0.0, 0.0, s.z, 0.0, 0.0, 0.0, 0.0, 1.0)
  }

  /** Columns 0 to 2 hold nothing off the diagonal (identity, pure scale, pure translation, ...). */
  predicate DiagonalBasis(m: Mat4)
  {
    m.m1 == 0.0 && m.m2 == 0.0 && m.m3 == 0.0 &&
    m.m4 == 0.0 && m.m6 == 0.0 && m.m7 == 0.0 &&
    m.m8 == 0.0 && m.m9 == 0.0 && m.m11 == 0.0
  }

  /** On such a matrix, scaling the diagonal is right-multiplication by diag(s). */
  lemma ScaleIsMulOnDiagonalBasis(m: Mat4, s: Vec3)
    requires DiagonalBasis(m)
    ensures Scale(m, s) == Mul(m, ScaleMatrix(s))
  {
    var d := ScaleMatrix(s);
    DotSingleColumn(m.m0, m.m4, m.m8, m.m12, d.m0, d.m1, d.m2, d.m3);
    DotZero(m.m1, m.m5, m.m9, m.m13, d.m0, d.m1, d.m2, d.m3);
    DotZero(m.m2, m.m6, m.m10, m.m14, d.m0, d.m1, d.m2, d.m3);
    DotZero(m.m3, m.m7, m.m11, m.m15, d.m0, d.m1, d.m2, d.m3);
    DotZero(m.m0, m.m4, m.m8, m.m12, d.m4, d.m5, d.m6, d.m7);
    DotSingleColumn(m.m1, m.m5, m.m9, m.m13, d.m4, d.m5, d.m6, d.m7);
    DotZero(m.m2, m.m6, m.m10, m.m14, d.m4, d.m5, d.m6, d.m7);
    DotZero(m.m3, m.m7, m.m11, m.m15, d.m4, d.m5, d.m6, d.m7);
    DotZero(m.m0, m.m4, m.m8, m.m12, d.m8, d.m9, d.m10, d.m11);
    DotZero(m.m1, m.m5, m.m9, m.m13, d.m8, d.m9, d.m10, d.m11);
    DotSingleColumn(m.m2, m.m6, m.m10, m.m14, d.m8, d.m9, d.m10, d.m11);
    DotZero(m.m3, m.m7, m.m11, m.m15, d.m8, d.m9, d.m10, d.m11);
    DotUnitColumn(m.m0, m.m4, m.m8, m.m12, d.m12, d.m13, d.m14, d.m15);
    DotUnitColumn(m.m1, m.m5, m.m9, m.m13, d.m12, d.m13, d.m14, d.m15);
    DotUnitColumn(m.m2, m.m6, m.m10, m.m14, d.m12, d.m13, d.m14, d.m15);
    DotUnitColumn(m.m3, m.m7, m.m11, m.m15, d.m12, d.m13, d.m14, d.m15);
    var p := Mul(m, d);
    var r := Scale(m, s);
    assert p.m0 == r.m0 && p.m1 == r.m1 && p.m2 == r.m2 && p.m3 == r.m3;
    assert p.m4 == r.m4 && p.m5 == r.m5 && p.m6 == r.m6 && p.m7 == r.m7;
    assert p.m8 == r.m8 && p.m9 == r.m9 && p.m10 == r.m10 && p.m11 == r.m11;
    assert p.m12 == r.m12 && p.m13 == r.m13 && p.m14 == r.m14 && p.m15 == r.m15;
  }

  /**
   * On a rotated basis it is not: scaling a quarter turn about y by
   * (2, 1, 1) leaves entry 2 at -1, where the product with diag(2, 1, 1)
   * has -2.
   */
  lemma ScaleIsNotMulOnRotation()
    ensures Scale(RotationY(0.0, 1.0), Vec3(2.0, 1.0, 1.0)).m2 == -1.0
    ensures Mul(RotationY(0.0, 1.0), ScaleMatrix(Vec3(2.0, 1.0, 1.0))).m2 == -2.0
  {
    var q := RotationY(0.0, 1.0);
    var d := ScaleMatrix(Vec3(2.0, 1.0, 1.0));
    DotSingleColumn(q.m2, q.m6, q.m10, q.m14, d.m0, d.m1, d.m2, d.m3);
  }

  /** x * k * (1 / k) == x for non-zero k. */
  lemma CancelFactor(x: real, k: real)
    requires k != 0.0
    ensures x * k * (1.0 / k) == x
  {
    assert k * (1.0 / k) == 1.0;
    calc {
      x * k * (1.0 / k);
      x * (k * (1.0 / k));
    }
  }

  /** Scaling by the reciprocal factors undoes a scale by non-zero factors. */
  lemma ScaleUndo(m: Mat4, s: Vec3)
    requires s.x != 0.0 && s.y != 0.0 && s.z != 0.0
    ensures Scale(Scale(m, s), Vec3(1.0 / s.x, 1.0 / s.y, 1.0 / s.z)) == m
  {
    CancelFactor(m.m0, s.x);
    CancelFactor(m.m5, s.y);
    CancelFactor(m.m10, s.z);
  }

  // ---------------------------------------------------------------------
  // Affine inverse
  // ---------------------------------------------------------------------

  /** Below this absolute determinant the source declares the matrix singular. */
  const SingularThreshold: real := 0.00000001

  /**
   * Determinant of a 3x3 matrix given row by row (aRC is row R, column C),
   * expanded along column 0.
   */
  function Det3x3(a00: real, a01: real, a02: real, a10: real, a11: real, a12: real,
                  a20: real, a21: real, a22: real): real
  {
    a00 * (a11 * a22 - a21 * a12) - a10 * (a01 * a22 - a21 * a02) + a20 * (a01 * a12 - a11 * a02)
  }

  /** Determinant of the upper-left 3x3 block of m, the expansion mat4Inverse computes. */
  function Det3(m: Mat4): real
  {
    Det3x3(m.m0, m.m4, m.m8, m.m1, m.m5, m.m9, m.m2, m.m6, m.m10)
  }

  /** Bottom row (0, 0, 0, 1): a rotation/scale block plus a translation, nothing projective. */
  predicate Affine(m: Mat4)
  {
    m.m3 == 0.0 && m.m7 == 0.0 && m.m11 == 0.0 && m.m15 == 1.0
  }
  /**
   * b's translation column is a's translation carried back through b's
   * 3x3 block and negated.
   */
  predicate UndoesTranslation(a: Mat4, b: Mat4)
  {
    && b.m12 == -(b.m0 * a.m12 + b.m4 * a.m13 + b.m8 * a.m14)
    && b.m13 == -(b.m1 * a.m12 + b.m5 * a.m13 + b.m9 * a.m14)
    && b.m14 == -(b.m2 * a.m12 + b.m6 * a.m13 + b.m10 * a.m14)
  }


  /**
   * mat4Inverse(m): the identity when the 3x3 block is (near) singular, and
   * otherwise the affine inverse built with invDet = 1/det.  The result is
   * affine either way.
   */
  function Inverse(m: Mat4): (r: Mat4)
    ensures Abs(Det3(m)) < SingularThreshold ==> r == Identity()
    ensures Abs(Det3(m)) >= SingularThreshold ==> r == AffineInverse(m, 1.0 / Det3(m))
    ensures Affine(r)
  {
    var det := Det3(m);
    if Abs(det) < SingularThreshold then Identity()
    else AffineInverse(m, 1.0 / det)
  }

  /**
   * The entries mat4Inverse writes once it has invDet: the 3x3 block
   * inverted by cofactors, then the translation mapped back through it.
   */
  function AffineInverse(m: Mat4, invDet: real): (r: Mat4)
    ensures Affine(r) && Cofactors(m, invDet, r) && UndoesTranslation(m, r)
  {
    var b := InverseBlock(m, invDet);
    b.(m12 := -(b.m0 * m.m12 + b.m4 * m.m13 + b.m8 * m.m14),
       m13 := -(b.m1 * m.m12 + b.m5 * m.m13 + b.m9 * m.m14),
       m14 := -(b.m2 * m.m12 + b.m6 * m.m13 + b.m10 * m.m14))
  }

  /**
   * v's 3x3 block is the transposed cofactor matrix of m's block (the
   * adjugate) scaled by d.
   */
  predicate Cofactors(m: Mat4, d: real, v: Mat4)
  {
    && v.m0 == (m.m5 * m.m10 - m.m6 * m.m9) * d
    && v.m1 == (m.m2 * m.m9 - m.m1 * m.m10) * d
    && v.m2 == (m.m1 * m.m6 - m.m2 * m.m5) * d
    && v.m4 == (m.m6 * m.m8 - m.m4 * m.m10) * d
    && v.m5 == (m.m0 * m.m10 - m.m2 * m.m8) * d
    && v.m6 == (m.m2 * m.m4 - m.m0 * m.m6) * d
    && v.m8 == (m.m4 * m.m9 - m.m5 * m.m8) * d
    && v.m9 == (m.m1 * m.m8 - m.m0 * m.m9) * d
    && v.m10 == (m.m0 * m.m5 - m.m1 * m.m4) * d
  }

  /**
   * The 3x3 block of the inverse: the cofactors of m's block, transposed and
   * scaled by invDet, with bottom row (0, 0, 0, 1) and no translation yet.
   */
  function InverseBlock(m: Mat4, invDet: real): (r: Mat4)
    ensures Affine(r)
  {
    Mat4((m.m5 * m.m10 - m.m6 * m.m9) * invDet,
         (m.m2 * m.m9 - m.m1 * m.m10) * invDet,
         (m.m1 * m.m6 - m.m2 * m.m5) * invDet,
         0.0,
         (m.m6 * m.m8 - m.m4 * m.m10) * invDet,
         (m.m0 * m.m10 - m.m2 * m.m8) * invDet,
         (m.m2 * m.m4 - m.m0 * m.m6) * invDet,
         0.0,
         (m.m4 * m.m9 - m.m5 * m.m8) * invDet,
         (m.m1 * m.m8 - m.m0 * m.m9) * invDet,
         (m.m0 * m.m5 - m.m1 * m.m4) * invDet,
         0.0,
         0.0, 0.0, 0.0, 1.0)
  }


  /** A non-zero determinant times its reciprocal is one. */
  lemma Reciprocal(det: real)
    requires det != 0.0
    ensures det * (1.0 / det) == 1.0
  {
  }

  /** Cycling the rows of a 3x3 matrix (an even permutation) keeps its determinant. */
  lemma DetCycleRows(a00: real, a01: real, a02: real, a10: real, a11: real, a12: real,
                     a20: real, a21: real, a22: real)
    ensures Det3x3(a10, a11, a12, a20, a21, a22, a00, a01, a02) == Det3x3(a00, a01, a02, a10, a11, a12, a20, a21, a22)
  {
  }

  /** Cycling the columns of a 3x3 matrix keeps its determinant. */
  lemma DetCycleColumns(a00: real, a01: real, a02: real, a10: real, a11: real, a12: real,
                        a20: real, a21: real, a22: real)
    ensures Det3x3(a01, a02, a00, a11, a12, a10, a21, a22, a20) == Det3x3(a00, a01, a02, a10, a11, a12, a20, a21, a22)
  {
  }

  /**
   * Column 0 of the inverse of a 3x3 matrix: the cofactors of its first
   * row, scaled by d = 1/det.  Each row of the matrix meets it in the
   * matching entry of column 0 of the identity.
   */
  lemma CofactorColumn(a00: real, a01: real, a02: real, a10: real, a11: real, a12: real,
                       a20: real, a21: real, a22: real, d: real, y0: real, y1: real, y2: real)
    requires Det3x3(a00, a01, a02, a10, a11, a12, a20, a21, a22) * d == 1.0
    requires y0 == (a11 * a22 - a21 * a12) * d
    requires y1 == (a20 * a12 - a10 * a22) * d
    requires y2 == (a10 * a21 - a20 * a11) * d
    ensures a00 * y0 + a01 * y1 + a02 * y2 == 1.0
    ensures a10 * y0 + a11 * y1 + a12 * y2 == 0.0
    ensures a20 * y0 + a21 * y1 + a22 * y2 == 0.0
  {
    calc {
      a00 * y0 + a01 * y1 + a02 * y2;
      (a00 * (a11 * a22 - a21 * a12) + a01 * (a20 * a12 - a10 * a22) + a02 * (a10 * a21 - a20 * a11)) * d;
      Det3x3(a00, a01, a02, a10, a11, a12, a20, a21, a22) * d;
    }
    calc {
      a10 * y0 + a11 * y1 + a12 * y2;
      (a10 * (a11 * a22 - a21 * a12) + a11 * (a20 * a12 - a10 * a22) + a12 * (a10 * a21 - a20 * a11)) * d;
      0.0 * d;
    }
    calc {
      a20 * y0 + a21 * y1 + a22 * y2;
      (a20 * (a11 * a22 - a21 * a12) + a21 * (a20 * a12 - a10 * a22) + a22 * (a10 * a21 - a20 * a11)) * d;
      0.0 * d;
    }
  }

  /**
   * Row 0 of the inverse of a 3x3 matrix: the cofactors of its first
   * column, scaled by d = 1/det.  It meets each column of the matrix in the
   * matching entry of row 0 of the identity.
   */
  lemma CofactorRow(a00: real, a01: real, a02: real, a10: real, a11: real, a12: real,
                    a20: real, a21: real, a22: real, d: real, y0: real, y1: real, y2: real)
    requires Det3x3(a00, a01, a02, a10, a11, a12, a20, a21, a22) * d == 1.0
    requires y0 == (a11 * a22 - a21 * a12) * d
    requires y1 == (a21 * a02 - a01 * a22) * d
    requires y2 == (a01 * a12 - a11 * a02) * d
    ensures y0 * a00 + y1 * a10 + y2 * a20 == 1.0
    ensures y0 * a01 + y1 * a11 + y2 * a21 == 0.0
    ensures y0 * a02 + y1 * a12 + y2 * a22 == 0.0
  {
    calc {
      y0 * a00 + y1 * a10 + y2 * a20;
      ((a11 * a22 - a21 * a12) * a00 + (a21 * a02 - a01 * a22) * a10 + (a01 * a12 - a11 * a02) * a20) * d;
      Det3x3(a00, a01, a02, a10, a11, a12, a20, a21, a22) * d;
    }
    calc {
      y0 * a01 + y1 * a11 + y2 * a21;
      ((a11 * a22 - a21 * a12) * a01 + (a21 * a02 - a01 * a22) * a11 + (a01 * a12 - a11 * a02) * a21) * d;
      0.0 * d;
    }
    calc {
      y0 * a02 + y1 * a12 + y2 * a22;
      ((a11 * a22 - a21 * a12) * a02 + (a21 * a02 - a01 * a22) * a12 + (a01 * a12 - a11 * a02) * a22) * d;
      0.0 * d;
    }
  }

  /**
   * Row x of m against the translation column of the inverse,
   * y = -(block inverse * t), where x meets the block inverse's columns in
   * p0, p1, p2 (a row of the identity) and x3 = t0 p0 + t1 p1 + t2 p2: the
   * translations cancel.
   */
  lemma TranslationCancels(x0: real, x1: real, x2: real, x3: real, y0: real, y1: real, y2: real, y3: real,
                           i0: real, i1: real, i2: real, i4: real, i5: real, i6: real, i8: real, i9: real, i10: real,
                           t0: real, t1: real, t2: real, p0: real, p1: real, p2: real)
    requires y0 == -(i0 * t0 + i4 * t1 + i8 * t2)
    requires y1 == -(i1 * t0 + i5 * t1 + i9 * t2)
    requires y2 == -(i2 * t0 + i6 * t1 + i10 * t2)
    requires y3 == 1.0
    requires x0 * i0 + x1 * i1 + x2 * i2 == p0
    requires x0 * i4 + x1 * i5 + x2 * i6 == p1
    requires x0 * i8 + x1 * i9 + x2 * i10 == p2
    requires x3 == t0 * p0 + t1 * p1 + t2 * p2
    ensures Dot4(x0, x1, x2, x3, y0, y1, y2, y3) == 0.0
  {
    calc {
      Dot4(x0, x1, x2, x3, y0, y1, y2, y3);
      x0 * -(i0 * t0 + i4 * t1 + i8 * t2) + x1 * -(i1 * t0 + i5 * t1 + i9 * t2)
        + x2 * -(i2 * t0 + i6 * t1 + i10 * t2) + x3;
      -(t0 * (x0 * i0 + x1 * i1 + x2 * i2) + t1 * (x0 * i4 + x1 * i5 + x2 * i6)
        + t2 * (x0 * i8 + x1 * i9 + x2 * i10)) + x3;
      -(t0 * p0 + t1 * p1 + t2 * p2) + x3;
    }
  }

  /**
   * Rows 0-2 of a's 3x3 block against the column (y0, y1, y2) give
   * (e0, e1, e2).
   */
  predicate BlockColumn(a: Mat4, y0: real, y1: real, y2: real, e0: real, e1: real, e2: real)
  {
    && a.m0 * y0 + a.m4 * y1 + a.m8 * y2 == e0
    && a.m1 * y0 + a.m5 * y1 + a.m9 * y2 == e1
    && a.m2 * y0 + a.m6 * y1 + a.m10 * y2 == e2
  }

  /**
   * The row (y0, y1, y2) against columns 0-2 of b's 3x3 block gives
   * (e0, e1, e2).
   */
  predicate BlockRow(y0: real, y1: real, y2: real, b: Mat4, e0: real, e1: real, e2: real)
  {
    && y0 * b.m0 + y1 * b.m1 + y2 * b.m2 == e0
    && y0 * b.m4 + y1 * b.m5 + y2 * b.m6 == e1
    && y0 * b.m8 + y1 * b.m9 + y2 * b.m10 == e2
  }

  /** The 3x3 block of a times that of b is the 3x3 identity, column by column. */
  predicate BlockInverse(a: Mat4, b: Mat4)
  {
    && BlockColumn(a, b.m0, b.m1, b.m2, 1.0, 0.0, 0.0)
    && BlockColumn(a, b.m4, b.m5, b.m6, 0.0, 1.0, 0.0)
    && BlockColumn(a, b.m8, b.m9, b.m10, 0.0, 0.0, 1.0)
  }

  /** The same nine equations, grouped by the rows of a. */
  predicate BlockInverseByRows(a: Mat4, b: Mat4)
  {
    && BlockRow(a.m0, a.m4, a.m8, b, 1.0, 0.0, 0.0)
    && BlockRow(a.m1, a.m5, a.m9, b, 0.0, 1.0, 0.0)
    && BlockRow(a.m2, a.m6, a.m10, b, 0.0, 0.0, 1.0)
  }

  /** The nine equations of a block inverse, regrouped by the rows of a. */
  lemma BlockInverseRows(a: Mat4, b: Mat4)
    requires BlockColumn(a, b.m0, b.m1, b.m2, 1.0, 0.0, 0.0)
    requires BlockColumn(a, b.m4, b.m5, b.m6, 0.0, 1.0, 0.0)
    requires BlockColumn(a, b.m8, b.m9, b.m10, 0.0, 0.0, 1.0)
    ensures BlockInverseByRows(a, b)
  {
  }

  /** ... and back to the columns of b. */
  lemma BlockInverseColumns(a: Mat4, b: Mat4)
    requires BlockRow(a.m0, a.m4, a.m8, b, 1.0, 0.0, 0.0)
    requires BlockRow(a.m1, a.m5, a.m9, b, 0.0, 1.0, 0.0)
    requires BlockRow(a.m2, a.m6, a.m10, b, 0.0, 0.0, 1.0)
    ensures BlockInverse(a, b)
  {
  }

  /** m's block times column 0 of the cofactor block scaled by 1/det. */
  lemma InverseRightColumn0(m: Mat4, d: real, y0: real, y1: real, y2: real)
    requires Det3(m) * d == 1.0
    requires y0 == (m.m5 * m.m10 - m.m6 * m.m9) * d
    requires y1 == (m.m2 * m.m9 - m.m1 * m.m10) * d
    requires y2 == (m.m1 * m.m6 - m.m2 * m.m5) * d
    ensures BlockColumn(m, y0, y1, y2, 1.0, 0.0, 0.0)
  {
    CofactorColumn(m.m0, m.m4, m.m8, m.m1, m.m5, m.m9, m.m2, m.m6, m.m10, d, y0, y1, y2);
  }

  /** Column 1: column 0 once the rows of m are cycled. */
  lemma InverseRightColumn1(m: Mat4, d: real, y0: real, y1: real, y2: real)
    requires Det3(m) * d == 1.0
    requires y0 == (m.m6 * m.m8 - m.m4 * m.m10) * d
    requires y1 == (m.m0 * m.m10 - m.m2 * m.m8) * d
    requires y2 == (m.m2 * m.m4 - m.m0 * m.m6) * d
    ensures BlockColumn(m, y0, y1, y2, 0.0, 1.0, 0.0)
  {
    DetCycleRows(m.m0, m.m4, m.m8, m.m1, m.m5, m.m9, m.m2, m.m6, m.m10);
    CofactorColumn(m.m1, m.m5, m.m9, m.m2, m.m6, m.m10, m.m0, m.m4, m.m8, d, y0, y1, y2);
  }

  /** Column 2: column 0 once the rows of m are cycled twice. */
  lemma InverseRightColumn2(m: Mat4, d: real, y0: real, y1: real, y2: real)
    requires Det3(m) * d == 1.0
    requires y0 == (m.m4 * m.m9 - m.m5 * m.m8) * d
    requires y1 == (m.m1 * m.m8 - m.m0 * m.m9) * d
    requires y2 == (m.m0 * m.m5 - m.m1 * m.m4) * d
    ensures BlockColumn(m, y0, y1, y2, 0.0, 0.0, 1.0)
  {
    DetCycleRows(m.m0, m.m4, m.m8, m.m1, m.m5, m.m9, m.m2, m.m6, m.m10);
    DetCycleRows(m.m1, m.m5, m.m9, m.m2, m.m6, m.m10, m.m0, m.m4, m.m8);
    CofactorColumn(m.m2, m.m6, m.m10, m.m0, m.m4, m.m8, m.m1, m.m5, m.m9, d, y0, y1, y2);
  }

  /** Not singular: m's block times the scaled adjugate is the 3x3 identity. */
  lemma CofactorsRightInverse(m: Mat4, d: real, v: Mat4)
    requires Det3(m) * d == 1.0
    requires Cofactors(m, d, v)
    ensures BlockInverse(m, v)
  {
    InverseRightColumn0(m, d, v.m0, v.m1, v.m2);
    InverseRightColumn1(m, d, v.m4, v.m5, v.m6);
    InverseRightColumn2(m, d, v.m8, v.m9, v.m10);
  }

  /** Row 0 of the cofactor block scaled by 1/det times m's block. */
  lemma InverseLeftRow0(m: Mat4, d: real, y0: real, y1: real, y2: real)
    requires Det3(m) * d == 1.0
    requires y0 == (m.m5 * m.m10 - m.m6 * m.m9) * d
    requires y1 == (m.m6 * m.m8 - m.m4 * m.m10) * d
    requires y2 == (m.m4 * m.m9 - m.m5 * m.m8) * d
    ensures BlockRow(y0, y1, y2, m, 1.0, 0.0, 0.0)
  {
    CofactorRow(m.m0, m.m4, m.m8, m.m1, m.m5, m.m9, m.m2, m.m6, m.m10, d, y0, y1, y2);
  }

  /** Row 1: row 0 once the columns of m are cycled. */
  lemma InverseLeftRow1(m: Mat4, d: real, y0: real, y1: real, y2: real)
    requires Det3(m) * d == 1.0
    requires y0 == (m.m2 * m.m9 - m.m1 * m.m10) * d
    requires y1 == (m.m0 * m.m10 - m.m2 * m.m8) * d
    requires y2 == (m.m1 * m.m8 - m.m0 * m.m9) * d
    ensures BlockRow(y0, y1, y2, m, 0.0, 1.0, 0.0)
  {
    DetCycleColumns(m.m0, m.m4, m.m8, m.m1, m.m5, m.m9, m.m2, m.m6, m.m10);
    CofactorRow(m.m4, m.m8, m.m0, m.m5, m.m9, m.m1, m.m6, m.m10, m.m2, d, y0, y1, y2);
  }

  /** Row 2: row 0 once the columns of m are cycled twice. */
  lemma InverseLeftRow2(m: Mat4, d: real, y0: real, y1: real, y2: real)
    requires Det3(m) * d == 1.0
    requires y0 == (m.m1 * m.m6 - m.m2 * m.m5) * d
    requires y1 == (m.m2 * m.m4 - m.m0 * m.m6) * d
    requires y2 == (m.m0 * m.m5 - m.m1 * m.m4) * d
    ensures BlockRow(y0, y1, y2, m, 0.0, 0.0, 1.0)
  {
    DetCycleColumns(m.m0, m.m4, m.m8, m.m1, m.m5, m.m9, m.m2, m.m6, m.m10);
    DetCycleColumns(m.m4, m.m8, m.m0, m.m5, m.m9, m.m1, m.m6, m.m10, m.m2);
    CofactorRow(m.m8, m.m0, m.m4, m.m9, m.m1, m.m5, m.m10, m.m2, m.m6, d, y0, y1, y2);
  }

  /** Not singular: the scaled adjugate times m's block is the 3x3 identity. */
  lemma CofactorsLeftInverse(m: Mat4, d: real, v: Mat4)
    requires Det3(m) * d == 1.0
    requires Cofactors(m, d, v)
    ensures BlockInverse(v, m)
  {
    InverseLeftRow0(m, d, v.m0, v.m4, v.m8);
    InverseLeftRow1(m, d, v.m1, v.m5, v.m9);
    InverseLeftRow2(m, d, v.m2, v.m6, v.m10);
    BlockInverseColumns(v, m);
  }

  /** An affine matrix maps a direction (w = 0) through its 3x3 block only. */
  lemma AffineDirection(a: Mat4, y0: real, y1: real, y2: real, e0: real, e1: real, e2: real)
    requires Affine(a)
    requires BlockColumn(a, y0, y1, y2, e0, e1, e2)
    ensures Apply(a, Vec4(y0, y1, y2, 0.0)) == Vec4(e0, e1, e2, 0.0)
  {
  }

  /**
   * A row (x0, x1, x2, x3) of a against b's translation column is 0 when
   * b undoes a's translation and the row meets b's block in (p0, p1, p2),
   * a row of the identity whose translation entry x3 picks out.
   */
  lemma RowCancelsTranslation(x0: real, x1: real, x2: real, x3: real, a: Mat4, b: Mat4,
                              p0: real, p1: real, p2: real)
    requires b.m15 == 1.0 && UndoesTranslation(a, b)
    requires BlockRow(x0, x1, x2, b, p0, p1, p2)
    requires x3 == a.m12 * p0 + a.m13 * p1 + a.m14 * p2
    ensures Dot4(x0, x1, x2, x3, b.m12, b.m13, b.m14, b.m15) == 0.0
  {
    TranslationCancels(x0, x1, x2, x3, b.m12, b.m13, b.m14, b.m15,
                       b.m0, b.m1, b.m2, b.m4, b.m5, b.m6, b.m8, b.m9, b.m10,
                       a.m12, a.m13, a.m14, p0, p1, p2);
  }

  /** a applied to b's translation column gives (0, 0, 0, 1) when b undoes a. */
  lemma RightTranslationColumn(a: Mat4, b: Mat4)
    requires Affine(a) && Affine(b) && UndoesTranslation(a, b)
    requires BlockInverseByRows(a, b)
    ensures Apply(a, Column(b, 3)) == Vec4(0.0, 0.0, 0.0, 1.0)
  {
    RowCancelsTranslation(a.m0, a.m4, a.m8, a.m12, a, b, 1.0, 0.0, 0.0);
    RowCancelsTranslation(a.m1, a.m5, a.m9, a.m13, a, b, 0.0, 1.0, 0.0);
    RowCancelsTranslation(a.m2, a.m6, a.m10, a.m14, a, b, 0.0, 0.0, 1.0);
  }

  /** b applied to a's translation column gives (0, 0, 0, 1) when b undoes a. */
  lemma LeftTranslationColumn(a: Mat4, b: Mat4)
    requires Affine(a) && Affine(b)
    requires UndoesTranslation(a, b)
    ensures Apply(b, Column(a, 3)) == Vec4(0.0, 0.0, 0.0, 1.0)
  {
    DotLastOne(b.m0, b.m4, b.m8, b.m12, a.m12, a.m13, a.m14, a.m15);
    DotLastOne(b.m1, b.m5, b.m9, b.m13, a.m12, a.m13, a.m14, a.m15);
    DotLastOne(b.m2, b.m6, b.m10, b.m14, a.m12, a.m13, a.m14, a.m15);
  }

  /**
   * Affine b whose block inverts a's block and which undoes a's
   * translation is a right inverse of a.
   */
  lemma AffineRightInverse(a: Mat4, b: Mat4)
    requires Affine(a) && Affine(b)
    requires BlockInverse(a, b) && UndoesTranslation(a, b)
    ensures Mul(a, b) == Identity()
  {
    MulByColumns(a, b);
    AffineDirection(a, b.m0, b.m1, b.m2, 1.0, 0.0, 0.0);
    AffineDirection(a, b.m4, b.m5, b.m6, 0.0, 1.0, 0.0);
    AffineDirection(a, b.m8, b.m9, b.m10, 0.0, 0.0, 1.0);
    BlockInverseRows(a, b);
    RightTranslationColumn(a, b);
  }

  /** With the block inverse on the other side, b is a left inverse of a. */
  lemma AffineLeftInverse(a: Mat4, b: Mat4)
    requires Affine(a) && Affine(b)
    requires BlockInverse(b, a) && UndoesTranslation(a, b)
    ensures Mul(b, a) == Identity()
  {
    MulByColumns(b, a);
    AffineDirection(b, a.m0, a.m1, a.m2, 1.0, 0.0, 0.0);
    AffineDirection(b, a.m4, a.m5, a.m6, 0.0, 1.0, 0.0);
    AffineDirection(b, a.m8, a.m9, a.m10, 0.0, 0.0, 1.0);
    LeftTranslationColumn(a, b);
  }

  /**
   * The entries mat4Inverse writes, with invDet = 1 / det, form a two-sided
   * inverse of every affine m whose 3x3 block has a non-zero determinant.
   */
  lemma AffineInverseTwoSided(m: Mat4)
    requires Affine(m) && Det3(m) != 0.0
    ensures Mul(m, AffineInverse(m, 1.0 / Det3(m))) == Identity()
    ensures Mul(AffineInverse(m, 1.0 / Det3(m)), m) == Identity()
  {
    var v := AffineInverse(m, 1.0 / Det3(m));
    Reciprocal(Det3(m));
    CofactorsRightInverse(m, 1.0 / Det3(m), v);
    AffineRightInverse(m, v);
    CofactorsLeftInverse(m, 1.0 / Det3(m), v);
    AffineLeftInverse(m, v);
  }

  /** mat4Inverse undoes an affine, non-singular m on the right: m * inverse(m) == I. */
  lemma InverseRight(m: Mat4)
    requires Affine(m) && Abs(Det3(m)) >= SingularThreshold
    ensures Mul(m, Inverse(m)) == Identity()
  {
    var d := 1.0 / Det3(m);
    Reciprocal(Det3(m));
    CofactorsRightInverse(m, d, Inverse(m));
    AffineRightInverse(m, Inverse(m));
  }

  /** ... and on the left: inverse(m) * m == I. */
  lemma InverseLeft(m: Mat4)
    requires Affine(m) && Abs(Det3(m)) >= SingularThreshold
    ensures Mul(Inverse(m), m) == Identity()
  {
    var d := 1.0 / Det3(m);
    Reciprocal(Det3(m));
    CofactorsLeftInverse(m, d, Inverse(m));
    AffineLeftInverse(m, Inverse(m));
  }
}
