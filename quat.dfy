/**
 * Quaternions [x, y, z, w] (src/quat.ts). The operations quat shares with vec4 (add, scale,
 * dot, lerp, squaredLength, normalize, exactEquals) are those of Vector4. Value functions
 * first, then the buffer operations, each specified by the value function applied to its
 * inputs as they were on entry.
 */
module Quaternion {
  import opened Builtin
  import opened Common
  import opened Types
  import Vector3
  import Vector4

  /** The quaternion `create` and `identity` produce. */
  const Identity: Quat := [0.0, 0.0, 0.0, 1.0]

  // ----- products, conjugate, inverse -----

  /** The Hamilton product a b that `multiply` writes, in [x, y, z, w] order. */
  function Product(a: Quat, b: Quat): Quat {
    [a[0] * b[3] + a[3] * b[0] + a[1] * b[2] - a[2] * b[1],
     a[1] * b[3] + a[3] * b[1] + a[2] * b[0] - a[0] * b[2],
     a[2] * b[3] + a[3] * b[2] + a[0] * b[1] - a[1] * b[0],
     a[3] * b[3] - a[0] * b[0] - a[1] * b[1] - a[2] * b[2]]
  }

  /** The identity is a two-sided unit for multiply. */
  lemma ProductIdentity(a: Quat)
    ensures Product(Identity, a) == a && Product(a, Identity) == a
  {
    Ext4(Product(Identity, a), a);
    Ext4(Product(a, Identity), a);
  }

  /** The quaternion `conjugate` writes: x, y, z negated, w kept. */
  function Conjugated(a: Quat): Quat {
    [-a[0], -a[1], -a[2], a[3]]
  }

  /** conjugate is an involution that reverses products, and a quaternion times its
      conjugate, on either side, is its squared length on the w axis. */
  lemma ConjugateProperties(a: Quat, b: Quat)
    ensures Conjugated(Conjugated(a)) == a
    ensures Conjugated(Product(a, b)) == Product(Conjugated(b), Conjugated(a))
    ensures Product(a, Conjugated(a)) == [0.0, 0.0, 0.0, Vector4.SquaredLength(a)]
    ensures Product(Conjugated(a), a) == [0.0, 0.0, 0.0, Vector4.SquaredLength(a)]
  {
    var c := Conjugated(a);
    Ext4(Conjugated(c), a);
    ConjugateReverses(a, b);
    ConjugateNorm(a);
    ConjugateNorm(c);
    assert Vector4.SquaredLength(c) == Vector4.SquaredLength(a);
  }

  lemma ConjugateReverses(a: Quat, b: Quat)
    ensures Conjugated(Product(a, b)) == Product(Conjugated(b), Conjugated(a))
  {
    var l, r := Conjugated(Product(a, b)), Product(Conjugated(b), Conjugated(a));
    ConjugateReversesX(a, b);
    ConjugateReversesY(a, b);
    ConjugateReversesZ(a, b);
    ConjugateReversesScalar(a, b);
    Ext4(l, r);
  }

  /** The x entry of the previous lemma. */
  lemma ConjugateReversesX(a: Quat, b: Quat)
    ensures Conjugated(Product(a, b))[0] == Product(Conjugated(b), Conjugated(a))[0]
  {
  }

  /** The y entry of the previous lemma. */
  lemma ConjugateReversesY(a: Quat, b: Quat)
    ensures Conjugated(Product(a, b))[1] == Product(Conjugated(b), Conjugated(a))[1]
  {
  }

  /** The z entry of the previous lemma. */
  lemma ConjugateReversesZ(a: Quat, b: Quat)
    ensures Conjugated(Product(a, b))[2] == Product(Conjugated(b), Conjugated(a))[2]
  {
  }

  /** The w entry of the previous lemma. */
  lemma ConjugateReversesScalar(a: Quat, b: Quat)
    ensures Conjugated(Product(a, b))[3] == Product(Conjugated(b), Conjugated(a))[3]
  {
  }

  /** A quaternion times its conjugate is its squared length on the w axis. */
  lemma ConjugateNorm(a: Quat)
    ensures Product(a, Conjugated(a)) == [0.0, 0.0, 0.0, Vector4.SquaredLength(a)]
  {
    var x, y, z, w := a[0], a[1], a[2], a[3];
    var p := Product(a, Conjugated(a));
    assert p[0] == x * w + w * -x + y * -z - z * -y;
    assert p[1] == y * w + w * -y + z * -x - x * -z;
    assert p[2] == z * w + w * -z + x * -y - y * -x;
    assert p[3] == w * w - x * -x - y * -y - z * -z;
    Ext4(p, [0.0, 0.0, 0.0, Vector4.SquaredLength(a)]);
  }

  /** Scaling the right factor scales the product. */
  lemma ProductScaledRight(a: Quat, b: Quat, k: real)
    ensures Product(a, Vector4.Scaled(b, k)) == Vector4.Scaled(Product(a, b), k)
  {
    ProductScaledRightX(a, b, k);
    ProductScaledRightY(a, b, k);
    ProductScaledRightZ(a, b, k);
    ProductScaledRightW(a, b, k);
    Ext4(Product(a, Vector4.Scaled(b, k)), Vector4.Scaled(Product(a, b), k));
  }

  lemma ProductScaledRightX(a: Quat, b: Quat, k: real)
    ensures Product(a, Vector4.Scaled(b, k))[0] == Product(a, b)[0] * k
  {
    var a0, a1, a2, a3 := a[0], a[1], a[2], a[3];
    var b0, b1, b2, b3 := b[0], b[1], b[2], b[3];
    var p := Product(a, b);
    var q := Product(a, Vector4.Scaled(b, k));
    assert q[0] == a0 * (b3 * k) + a3 * (b0 * k) + a1 * (b2 * k) - a2 * (b1 * k);
    ScaleSum4(p[0], a0 * b3, a3 * b0, a1 * b2, -(a2 * b1), k);
  }

  lemma ProductScaledRightY(a: Quat, b: Quat, k: real)
    ensures Product(a, Vector4.Scaled(b, k))[1] == Product(a, b)[1] * k
  {
    var a0, a1, a2, a3 := a[0], a[1], a[2], a[3];
    var b0, b1, b2, b3 := b[0], b[1], b[2], b[3];
    var p := Product(a, b);
    var q := Product(a, Vector4.Scaled(b, k));
    assert q[1] == a1 * (b3 * k) + a3 * (b1 * k) + a2 * (b0 * k) - a0 * (b2 * k);
    ScaleSum4(p[1], a1 * b3, a3 * b1, a2 * b0, -(a0 * b2), k);
  }

  lemma ProductScaledRightZ(a: Quat, b: Quat, k: real)
    ensures Product(a, Vector4.Scaled(b, k))[2] == Product(a, b)[2] * k
  {
    var a0, a1, a2, a3 := a[0], a[1], a[2], a[3];
    var b0, b1, b2, b3 := b[0], b[1], b[2], b[3];
    var p := Product(a, b);
    var q := Product(a, Vector4.Scaled(b, k));
    assert q[2] == a2 * (b3 * k) + a3 * (b2 * k) + a0 * (b1 * k) - a1 * (b0 * k);
    ScaleSum4(p[2], a2 * b3, a3 * b2, a0 * b1, -(a1 * b0), k);
  }

  lemma ProductScaledRightW(a: Quat, b: Quat, k: real)
    ensures Product(a, Vector4.Scaled(b, k))[3] == Product(a, b)[3] * k
  {
    var a0, a1, a2, a3 := a[0], a[1], a[2], a[3];
    var b0, b1, b2, b3 := b[0], b[1], b[2], b[3];
    var p := Product(a, b);
    var q := Product(a, Vector4.Scaled(b, k));
    assert q[3] == a3 * (b3 * k) - a0 * (b0 * k) - a1 * (b1 * k) - a2 * (b2 * k);
    ScaleSum4(p[3], a3 * b3, -(a0 * b0), -(a1 * b1), -(a2 * b2), k);
  }
  /** Scaling the left factor scales the product. */
  lemma ProductScaledLeft(a: Quat, b: Quat, k: real)
    ensures Product(Vector4.Scaled(a, k), b) == Vector4.Scaled(Product(a, b), k)
  {
    ProductScaledLeftX(a, b, k);
    ProductScaledLeftY(a, b, k);
    ProductScaledLeftZ(a, b, k);
    ProductScaledLeftW(a, b, k);
    Ext4(Product(Vector4.Scaled(a, k), b), Vector4.Scaled(Product(a, b), k));
  }

  lemma ProductScaledLeftX(a: Quat, b: Quat, k: real)
    ensures Product(Vector4.Scaled(a, k), b)[0] == Product(a, b)[0] * k
  {
    var a0, a1, a2, a3 := a[0], a[1], a[2], a[3];
    var b0, b1, b2, b3 := b[0], b[1], b[2], b[3];
    var p := Product(a, b);
    var q := Product(Vector4.Scaled(a, k), b);
    assert q[0] == (a0 * k) * b3 + (a3 * k) * b0 + (a1 * k) * b2 - (a2 * k) * b1;
    ScaleSum4(p[0], a0 * b3, a3 * b0, a1 * b2, -(a2 * b1), k);
  }

  lemma ProductScaledLeftY(a: Quat, b: Quat, k: real)
    ensures Product(Vector4.Scaled(a, k), b)[1] == Product(a, b)[1] * k
  {
    var a0, a1, a2, a3 := a[0], a[1], a[2], a[3];
    var b0, b1, b2, b3 := b[0], b[1], b[2], b[3];
    var p := Product(a, b);
    var q := Product(Vector4.Scaled(a, k), b);
    assert q[1] == (a1 * k) * b3 + (a3 * k) * b1 + (a2 * k) * b0 - (a0 * k) * b2;
    ScaleSum4(p[1], a1 * b3, a3 * b1, a2 * b0, -(a0 * b2), k);
  }

  lemma ProductScaledLeftZ(a: Quat, b: Quat, k: real)
    ensures Product(Vector4.Scaled(a, k), b)[2] == Product(a, b)[2] * k
  {
    var a0, a1, a2, a3 := a[0], a[1], a[2], a[3];
    var b0, b1, b2, b3 := b[0], b[1], b[2], b[3];
    var p := Product(a, b);
    var q := Product(Vector4.Scaled(a, k), b);
    assert q[2] == (a2 * k) * b3 + (a3 * k) * b2 + (a0 * k) * b1 - (a1 * k) * b0;
    ScaleSum4(p[2], a2 * b3, a3 * b2, a0 * b1, -(a1 * b0), k);
  }

  lemma ProductScaledLeftW(a: Quat, b: Quat, k: real)
    ensures Product(Vector4.Scaled(a, k), b)[3] == Product(a, b)[3] * k
  {
    var a0, a1, a2, a3 := a[0], a[1], a[2], a[3];
    var b0, b1, b2, b3 := b[0], b[1], b[2], b[3];
    var p := Product(a, b);
    var q := Product(Vector4.Scaled(a, k), b);
    assert q[3] == (a3 * k) * b3 - (a0 * k) * b0 - (a1 * k) * b1 - (a2 * k) * b2;
    ScaleSum4(p[3], a3 * b3, -(a0 * b0), -(a1 * b1), -(a2 * b2), k);
  }

  /** The quaternion `invert` writes: the conjugate divided by the squared length, all zeros
      when the squared length is 0, and the conjugate itself for a unit quaternion. */
  function Inverse(a: Quat): (r: Quat)
    ensures Vector4.SquaredLength(a) == 0.0 ==> r == Vector4.Zero
    ensures Vector4.SquaredLength(a) == 1.0 ==> r == Conjugated(a)
  {
    var dot := a[0] * a[0] + a[1] * a[1] + a[2] * a[2] + a[3] * a[3];
    var invDot := if dot != 0.0 then 1.0 / dot else 0.0;
    var r: Quat := [-a[0] * invDot, -a[1] * invDot, -a[2] * invDot, a[3] * invDot];
    if dot == 0.0 then Ext4(r, Vector4.Zero); r
    else if dot == 1.0 then Ext4(r, Conjugated(a)); r
    else r
  }

  /** A quaternion of nonzero length times what invert writes for it is the identity, on
      either side. */
  lemma InverseTwoSided(a: Quat)
    requires Vector4.SquaredLength(a) != 0.0
    ensures Product(a, Inverse(a)) == Identity && Product(Inverse(a), a) == Identity
  {
    var n := Vector4.SquaredLength(a);
    var k := 1.0 / n;
    Ext4(Inverse(a), Vector4.Scaled(Conjugated(a), k));
    ProductScaledRight(a, Conjugated(a), k);
    ProductScaledLeft(Conjugated(a), a, k);
    ConjugateProperties(a, a);
    assert n * k == 1.0;
    Ext4(Vector4.Scaled([0.0, 0.0, 0.0, n], k), Identity);
  }

  /** The worked products and inverses of the library's tests. */
  lemma Examples()
    ensures Product([1.0, 2.0, 3.0, 4.0], [5.0, 6.0, 7.0, 8.0]) == [24.0, 48.0, 48.0, -6.0]
    ensures Inverse([1.0, 2.0, 3.0, 4.0]) == [-1.0 / 30.0, -2.0 / 30.0, -3.0 / 30.0, 4.0 / 30.0]
    ensures Conjugated([1.0, 2.0, 3.0, 4.0]) == [-1.0, -2.0, -3.0, 4.0]
  {
    Ext4(Product([1.0, 2.0, 3.0, 4.0], [5.0, 6.0, 7.0, 8.0]), [24.0, 48.0, 48.0, -6.0]);
    Ext4(Inverse([1.0, 2.0, 3.0, 4.0]), [-1.0 / 30.0, -2.0 / 30.0, -3.0 / 30.0, 4.0 / 30.0]);
    Ext4(Conjugated([1.0, 2.0, 3.0, 4.0]), [-1.0, -2.0, -3.0, 4.0]);
  }

  // ----- axis and angle -----

  /** The quaternion `setAxisAngle` writes: sin(rad/2) times the axis, and cos(rad/2). */
  function AxisAngle(axis: Vec3, rad: real, m: Libm): Quat {
    var half := rad * 0.5;
    var s := m.sin(half);
    [s * axis[0], s * axis[1], s * axis[2], m.cos(half)]
  }

  /** A zero angle gives the identity, and a unit axis gives a unit quaternion whenever
      sin^2 + cos^2 = 1 at the half angle. */
  lemma AxisAngleProperties(axis: Vec3, rad: real, m: Libm)
    requires Sound(m)
    ensures AxisAngle(axis, 0.0, m) == Identity
    ensures Vector3.SquaredLength(axis) == 1.0
            && m.sin(rad * 0.5) * m.sin(rad * 0.5) + m.cos(rad * 0.5) * m.cos(rad * 0.5) == 1.0
            ==> Vector4.SquaredLength(AxisAngle(axis, rad, m)) == 1.0
  {
    Ext4(AxisAngle(axis, 0.0, m), Identity);
    var s, c := m.sin(rad * 0.5), m.cos(rad * 0.5);
    var n := Vector3.SquaredLength(axis);
    var q := AxisAngle(axis, rad, m);
    assert q[0] * q[0] + q[1] * q[1] + q[2] * q[2] == (s * s) * n;
  }

  /** What `getAxisAngle` computes: the angle 2 acos(w) and the axis. When sin of half that
      angle exceeds EPSILON the axis times that sine is the vector part of q; otherwise the
      axis is [1, 0, 0]. */
  function AxisAngleOf(q: Quat, m: Libm): (r: (Vec3, real))
    ensures m.sin(r.1 / 2.0) <= EPSILON ==> r.0 == [1.0, 0.0, 0.0]
    ensures m.sin(r.1 / 2.0) > EPSILON ==>
              r.0[0] * m.sin(r.1 / 2.0) == q[0] && r.0[1] * m.sin(r.1 / 2.0) == q[1]
              && r.0[2] * m.sin(r.1 / 2.0) == q[2]
  {
    var rad := m.acos(q[3]) * 2.0;
    var s := m.sin(rad / 2.0);
    if s > EPSILON then ([q[0] / s, q[1] / s, q[2] / s], rad)
    else ([1.0, 0.0, 0.0], rad)
  }

  /** The quaternion `rotateX` writes. */
  function RotatedX(a: Quat, rad: real, m: Libm): Quat {
    var half := rad * 0.5;
    var bx, bw := m.sin(half), m.cos(half);
    [a[0] * bw + a[3] * bx, a[1] * bw + a[2] * bx, a[2] * bw - a[1] * bx, a[3] * bw - a[0] * bx]
  }

  /** The quaternion `rotateY` writes. */
  function RotatedY(a: Quat, rad: real, m: Libm): Quat {
    var half := rad * 0.5;
    var sy, bw := m.sin(half), m.cos(half);
    [a[0] * bw - a[2] * sy, a[1] * bw + a[3] * sy, a[2] * bw + a[0] * sy, a[3] * bw - a[1] * sy]
  }

  /** The quaternion `rotateZ` writes. */
  function RotatedZ(a: Quat, rad: real, m: Libm): Quat {
    var half := rad * 0.5;
    var bz, bw := m.sin(half), m.cos(half);
    [a[0] * bw + a[1] * bz, a[1] * bw - a[0] * bz, a[2] * bw + a[3] * bz, a[3] * bw - a[2] * bz]
  }

  /** rotateX is multiply by the axis-angle quaternion of the x axis. */
  lemma RotatedXIsProduct(a: Quat, rad: real, m: Libm)
    ensures RotatedX(a, rad, m) == Product(a, AxisAngle([1.0, 0.0, 0.0], rad, m))
  {
    var s, c := m.sin(rad * 0.5), m.cos(rad * 0.5);
    var b := AxisAngle([1.0, 0.0, 0.0], rad, m);
    Ext4(b, [s, 0.0, 0.0, c]);
    Ext4(RotatedX(a, rad, m), Product(a, b));
  }

  /** rotateY is multiply by the axis-angle quaternion of the y axis. */
  lemma RotatedYIsProduct(a: Quat, rad: real, m: Libm)
    ensures RotatedY(a, rad, m) == Product(a, AxisAngle([0.0, 1.0, 0.0], rad, m))
  {
    var s, c := m.sin(rad * 0.5), m.cos(rad * 0.5);
    var b := AxisAngle([0.0, 1.0, 0.0], rad, m);
    Ext4(b, [0.0, s, 0.0, c]);
    Ext4(RotatedY(a, rad, m), Product(a, b));
  }

  /** rotateZ is multiply by the axis-angle quaternion of the z axis. */
  lemma RotatedZIsProduct(a: Quat, rad: real, m: Libm)
    ensures RotatedZ(a, rad, m) == Product(a, AxisAngle([0.0, 0.0, 1.0], rad, m))
  {
    var s, c := m.sin(rad * 0.5), m.cos(rad * 0.5);
    var b := AxisAngle([0.0, 0.0, 1.0], rad, m);
    Ext4(b, [0.0, 0.0, s, c]);
    Ext4(RotatedZ(a, rad, m), Product(a, b));
  }

  /** The vector part of the sandwich product q (v, 0) q*, the rotation of v by q. */
  function Sandwich(v: Vec3, q: Quat): Vec3 {
    var p := Product(Product(q, [v[0], v[1], v[2], 0.0]), Conjugated(q));
    [p[0], p[1], p[2]]
  }

  /** The entries of vec3 transformQuat written out over the entries of v and q. */
  lemma AppliedQuatEntries(v: Vec3, q: Quat)
    ensures var qx, qy, qz, qw := q[0], q[1], q[2], q[3];
            var vx, vy, vz := v[0], v[1], v[2];
            var tx, ty, tz := (qy * vz - qz * vy) + (qy * vz - qz * vy), (qz * vx - qx * vz) + (qz * vx - qx * vz),
                              (qx * vy - qy * vx) + (qx * vy - qy * vx);
            var a := Vector3.AppliedQuat(v, q);
            a[0] == vx + qw * tx + qy * tz - qz * ty && a[1] == vy + qw * ty + qz * tx - qx * tz
            && a[2] == vz + qw * tz + qx * ty - qy * tx
  {
  }

  /** The sandwich q (v, 0) q* written out over the entries of v and q, term for term as
      multiply and conjugate build it. */
  lemma SandwichEntries(v: Vec3, q: Quat)
    ensures Sandwich(v, q)[0] == (q[0] * 0.0 + q[3] * v[0] + q[1] * v[2] - q[2] * v[1]) * q[3] + (q[3] * 0.0 - q[0] * v[0] - q[1] * v[1] - q[2] * v[2]) * -q[0] + (q[1] * 0.0 + q[3] * v[1] + q[2] * v[0] - q[0] * v[2]) * -q[2] - (q[2] * 0.0 + q[3] * v[2] + q[0] * v[1] - q[1] * v[0]) * -q[1]
    ensures Sandwich(v, q)[1] == (q[1] * 0.0 + q[3] * v[1] + q[2] * v[0] - q[0] * v[2]) * q[3] + (q[3] * 0.0 - q[0] * v[0] - q[1] * v[1] - q[2] * v[2]) * -q[1] + (q[2] * 0.0 + q[3] * v[2] + q[0] * v[1] - q[1] * v[0]) * -q[0] - (q[0] * 0.0 + q[3] * v[0] + q[1] * v[2] - q[2] * v[1]) * -q[2]
    ensures Sandwich(v, q)[2] == (q[2] * 0.0 + q[3] * v[2] + q[0] * v[1] - q[1] * v[0]) * q[3] + (q[3] * 0.0 - q[0] * v[0] - q[1] * v[1] - q[2] * v[2]) * -q[2] + (q[0] * 0.0 + q[3] * v[0] + q[1] * v[2] - q[2] * v[1]) * -q[1] - (q[1] * 0.0 + q[3] * v[1] + q[2] * v[0] - q[0] * v[2]) * -q[0]
  {
  }

  /** The first entries of the sandwich and of vec3 transformQuat agree as polynomials once
      the squared length of q is 1. */
  lemma SandwichPolyX(v: Vec3, q: Quat)
    requires q[0] * q[0] + q[1] * q[1] + q[2] * q[2] + q[3] * q[3] == 1.0
    ensures (q[0] * 0.0 + q[3] * v[0] + q[1] * v[2] - q[2] * v[1]) * q[3] + (q[3] * 0.0 - q[0] * v[0] - q[1] * v[1] - q[2] * v[2]) * -q[0] + (q[1] * 0.0 + q[3] * v[1] + q[2] * v[0] - q[0] * v[2]) * -q[2] - (q[2] * 0.0 + q[3] * v[2] + q[0] * v[1] - q[1] * v[0]) * -q[1]
            == v[0] + q[3] * ((q[1] * v[2] - q[2] * v[1]) + (q[1] * v[2] - q[2] * v[1])) + q[1] * ((q[0] * v[1] - q[1] * v[0]) + (q[0] * v[1] - q[1] * v[0])) - q[2] * ((q[2] * v[0] - q[0] * v[2]) + (q[2] * v[0] - q[0] * v[2]))
  {
    assert v[0] * (q[0] * q[0] + q[1] * q[1] + q[2] * q[2] + q[3] * q[3]) == v[0];
  }

  /** The first entry of vec3 transformQuat by a unit quaternion against the sandwich. */
  lemma SandwichX(v: Vec3, q: Quat)
    requires Vector4.Dot(q, q) == 1.0
    ensures Vector3.AppliedQuat(v, q)[0] == Sandwich(v, q)[0]
  {
    assert Sandwich(v, q)[0] == (q[0] * 0.0 + q[3] * v[0] + q[1] * v[2] - q[2] * v[1]) * q[3] + (q[3] * 0.0 - q[0] * v[0] - q[1] * v[1] - q[2] * v[2]) * -q[0] + (q[1] * 0.0 + q[3] * v[1] + q[2] * v[0] - q[0] * v[2]) * -q[2] - (q[2] * 0.0 + q[3] * v[2] + q[0] * v[1] - q[1] * v[0]) * -q[1] by {
      SandwichEntries(v, q);
    }
    assert Vector3.AppliedQuat(v, q)[0] == v[0] + q[3] * ((q[1] * v[2] - q[2] * v[1]) + (q[1] * v[2] - q[2] * v[1])) + q[1] * ((q[0] * v[1] - q[1] * v[0]) + (q[0] * v[1] - q[1] * v[0])) - q[2] * ((q[2] * v[0] - q[0] * v[2]) + (q[2] * v[0] - q[0] * v[2])) by {
      AppliedQuatEntries(v, q);
    }
    SandwichPolyX(v, q);
  }

  /** The second entries of the sandwich and of vec3 transformQuat agree as polynomials once
      the squared length of q is 1. */
  lemma SandwichPolyY(v: Vec3, q: Quat)
    requires q[0] * q[0] + q[1] * q[1] + q[2] * q[2] + q[3] * q[3] == 1.0
    ensures (q[1] * 0.0 + q[3] * v[1] + q[2] * v[0] - q[0] * v[2]) * q[3] + (q[3] * 0.0 - q[0] * v[0] - q[1] * v[1] - q[2] * v[2]) * -q[1] + (q[2] * 0.0 + q[3] * v[2] + q[0] * v[1] - q[1] * v[0]) * -q[0] - (q[0] * 0.0 + q[3] * v[0] + q[1] * v[2] - q[2] * v[1]) * -q[2]
            == v[1] + q[3] * ((q[2] * v[0] - q[0] * v[2]) + (q[2] * v[0] - q[0] * v[2])) + q[2] * ((q[1] * v[2] - q[2] * v[1]) + (q[1] * v[2] - q[2] * v[1])) - q[0] * ((q[0] * v[1] - q[1] * v[0]) + (q[0] * v[1] - q[1] * v[0]))
  {
    assert v[1] * (q[0] * q[0] + q[1] * q[1] + q[2] * q[2] + q[3] * q[3]) == v[1];
  }

  /** The second entry of vec3 transformQuat by a unit quaternion against the sandwich. */
  lemma SandwichY(v: Vec3, q: Quat)
    requires Vector4.Dot(q, q) == 1.0
    ensures Vector3.AppliedQuat(v, q)[1] == Sandwich(v, q)[1]
  {
    assert Sandwich(v, q)[1] == (q[1] * 0.0 + q[3] * v[1] + q[2] * v[0] - q[0] * v[2]) * q[3] + (q[3] * 0.0 - q[0] * v[0] - q[1] * v[1] - q[2] * v[2]) * -q[1] + (q[2] * 0.0 + q[3] * v[2] + q[0] * v[1] - q[1] * v[0]) * -q[0] - (q[0] * 0.0 + q[3] * v[0] + q[1] * v[2] - q[2] * v[1]) * -q[2] by {
      SandwichEntries(v, q);
    }
    assert Vector3.AppliedQuat(v, q)[1] == v[1] + q[3] * ((q[2] * v[0] - q[0] * v[2]) + (q[2] * v[0] - q[0] * v[2])) + q[2] * ((q[1] * v[2] - q[2] * v[1]) + (q[1] * v[2] - q[2] * v[1])) - q[0] * ((q[0] * v[1] - q[1] * v[0]) + (q[0] * v[1] - q[1] * v[0])) by {
      AppliedQuatEntries(v, q);
    }
    SandwichPolyY(v, q);
  }

  /** The third entries of the sandwich and of vec3 transformQuat agree as polynomials once
      the squared length of q is 1. */
  lemma SandwichPolyZ(v: Vec3, q: Quat)
    requires q[0] * q[0] + q[1] * q[1] + q[2] * q[2] + q[3] * q[3] == 1.0
    ensures (q[2] * 0.0 + q[3] * v[2] + q[0] * v[1] - q[1] * v[0]) * q[3] + (q[3] * 0.0 - q[0] * v[0] - q[1] * v[1] - q[2] * v[2]) * -q[2] + (q[0] * 0.0 + q[3] * v[0] + q[1] * v[2] - q[2] * v[1]) * -q[1] - (q[1] * 0.0 + q[3] * v[1] + q[2] * v[0] - q[0] * v[2]) * -q[0]
            == v[2] + q[3] * ((q[0] * v[1] - q[1] * v[0]) + (q[0] * v[1] - q[1] * v[0])) + q[0] * ((q[2] * v[0] - q[0] * v[2]) + (q[2] * v[0] - q[0] * v[2])) - q[1] * ((q[1] * v[2] - q[2] * v[1]) + (q[1] * v[2] - q[2] * v[1]))
  {
    assert v[2] * (q[0] * q[0] + q[1] * q[1] + q[2] * q[2] + q[3] * q[3]) == v[2];
  }

  /** The third entry of vec3 transformQuat by a unit quaternion against the sandwich. */
  lemma SandwichZ(v: Vec3, q: Quat)
    requires Vector4.Dot(q, q) == 1.0
    ensures Vector3.AppliedQuat(v, q)[2] == Sandwich(v, q)[2]
  {
    assert Sandwich(v, q)[2] == (q[2] * 0.0 + q[3] * v[2] + q[0] * v[1] - q[1] * v[0]) * q[3] + (q[3] * 0.0 - q[0] * v[0] - q[1] * v[1] - q[2] * v[2]) * -q[2] + (q[0] * 0.0 + q[3] * v[0] + q[1] * v[2] - q[2] * v[1]) * -q[1] - (q[1] * 0.0 + q[3] * v[1] + q[2] * v[0] - q[0] * v[2]) * -q[0] by {
      SandwichEntries(v, q);
    }
    assert Vector3.AppliedQuat(v, q)[2] == v[2] + q[3] * ((q[0] * v[1] - q[1] * v[0]) + (q[0] * v[1] - q[1] * v[0])) + q[0] * ((q[2] * v[0] - q[0] * v[2]) + (q[2] * v[0] - q[0] * v[2])) - q[1] * ((q[1] * v[2] - q[2] * v[1]) + (q[1] * v[2] - q[2] * v[1])) by {
      AppliedQuatEntries(v, q);
    }
    SandwichPolyZ(v, q);
  }

  /** vec3 transformQuat by a unit quaternion q is the rotation q (v, 0) q*. */
  lemma AppliedQuatIsSandwich(v: Vec3, q: Quat)
    requires Vector4.SquaredLength(q) == 1.0
    ensures Vector3.AppliedQuat(v, q) == Sandwich(v, q)
  {
    assert Vector4.Dot(q, q) == 1.0;
    SandwichX(v, q);
    SandwichY(v, q);
    SandwichZ(v, q);
    Ext3(Vector3.AppliedQuat(v, q), Sandwich(v, q));
  }

  // ----- interpolation -----

  /** The weights `slerp` gives a and the sign-adjusted b, for the non-negative cosine
      `cosom`: the spherical weights, or the linear ones 1 - t and t when 1 - cosom is
      at most EPSILON. Either way t = 0 gives (1, 0) and t = 1 gives (0, 1). */
  function SlerpWeights(cosom: real, t: real, m: Libm): (w: (real, real))
    requires Sound(m) && 0.0 <= cosom
    ensures 1.0 - cosom <= EPSILON ==> w == (1.0 - t, t)
    ensures t == 0.0 ==> w == (1.0, 0.0)
    ensures t == 1.0 ==> w == (0.0, 1.0)
  {
    if 1.0 - cosom > EPSILON then
      SphericalWeightsAtEnds(cosom, t, m);
      var omega := m.acos(cosom);
      var sinom := m.sin(omega);
      (m.sin((1.0 - t) * omega) / sinom, m.sin(t * omega) / sinom)
    else
      (1.0 - t, t)
  }

  /** sin omega is positive for the angle omega of a cosine below 1 - EPSILON, and the
      spherical weights are (1, 0) at t = 0 and (0, 1) at t = 1. */
  lemma SphericalWeightsAtEnds(cosom: real, t: real, m: Libm)
    requires Sound(m) && 0.0 <= cosom && 1.0 - cosom > EPSILON
    ensures var omega := m.acos(cosom);
            var sinom := m.sin(omega);
            && 0.0 < sinom
            && (t == 0.0 ==> m.sin((1.0 - t) * omega) / sinom == 1.0 && m.sin(t * omega) / sinom == 0.0)
            && (t == 1.0 ==> m.sin((1.0 - t) * omega) / sinom == 0.0 && m.sin(t * omega) / sinom == 1.0)
  {
    var c := m.acos(cosom);
    assert 0.0 < m.sin(c);
    if t == 0.0 {
      assert (1.0 - t) * m.acos(cosom) == c && t * m.acos(cosom) == 0.0;
    } else if t == 1.0 {
      assert (1.0 - t) * m.acos(cosom) == 0.0 && t * m.acos(cosom) == c;
    }
  }

  /** b as `slerp` uses it: negated when its dot product with a is negative, so that the
      interpolation takes the shorter arc. */
  function ShortArc(a: Quat, b: Quat): (r: Quat)
    ensures 0.0 <= Vector4.Dot(a, r)
  {
    if Vector4.Dot(a, b) < 0.0 then Vector4.Negated(b) else b
  }

  /** The weighted sum `slerp` writes for a and a target c on a's side (the weights of
      cosom = a . c). */
  function Towards(a: Quat, c: Quat, t: real, m: Libm): Quat
    requires Sound(m) && 0.0 <= Vector4.Dot(a, c)
  {
    var w := SlerpWeights(Vector4.Dot(a, c), t, m);
    [w.0 * a[0] + w.1 * c[0], w.0 * a[1] + w.1 * c[1], w.0 * a[2] + w.1 * c[2], w.0 * a[3] + w.1 * c[3]]
  }

  /** Towards a target c, written with the weights as atoms. */
  lemma TowardsEntries(a: Quat, c: Quat, t: real, m: Libm, s0: real, s1: real)
    requires Sound(m) && 0.0 <= Vector4.Dot(a, c) && (s0, s1) == SlerpWeights(Vector4.Dot(a, c), t, m)
    ensures Towards(a, c, t, m) == [s0 * a[0] + s1 * c[0], s0 * a[1] + s1 * c[1],
                                    s0 * a[2] + s1 * c[2], s0 * a[3] + s1 * c[3]]
  {
    var w := SlerpWeights(Vector4.Dot(a, c), t, m);
    assert w.0 == s0 && w.1 == s1;
    Ext4(Towards(a, c, t, m), [s0 * a[0] + s1 * c[0], s0 * a[1] + s1 * c[1],
                               s0 * a[2] + s1 * c[2], s0 * a[3] + s1 * c[3]]);
  }

  /** The quaternion `slerp` writes. */
  function Slerped(a: Quat, b: Quat, t: real, m: Libm): Quat
    requires Sound(m)
  {
    Towards(a, ShortArc(a, b), t, m)
  }

  /** slerp towards b and towards -b agree whenever b lies on the far side of a. */
  lemma SlerpShortestArc(a: Quat, b: Quat, t: real, m: Libm)
    requires Sound(m) && Vector4.Dot(a, b) < 0.0
    ensures Slerped(a, b, t, m) == Slerped(a, Vector4.Negated(b), t, m)
  {
    Vector4.DotProperties(a, b, b, -1.0);
    Ext4(Vector4.Negated(Vector4.Negated(b)), b);
    assert ShortArc(a, Vector4.Negated(b)) == ShortArc(a, b);
  }

  /** Weights 1 - t and t are interpolation by t. */
  lemma LinearWeights(x: real, y: real, t: real)
    ensures (1.0 - t) * x + t * y == x + t * (y - x)
  {
  }

  /** When a and b are within EPSILON of parallel, slerp is lerp towards the sign-adjusted
      b. */
  lemma SlerpLinearWhenClose(a: Quat, b: Quat, t: real, m: Libm)
    requires Sound(m) && 1.0 - Abs(Vector4.Dot(a, b)) <= EPSILON
    ensures Slerped(a, b, t, m) == Vector4.Interpolated(a, ShortArc(a, b), t)
  {
    var c := ShortArc(a, b);
    assert SlerpWeights(Vector4.Dot(a, c), t, m) == (1.0 - t, t) by {
      Vector4.DotProperties(a, b, b, -1.0);
      assert Vector4.Dot(a, c) == Abs(Vector4.Dot(a, b));
    }
    TowardsEntries(a, c, t, m, 1.0 - t, t);
    LinearWeights(a[0], c[0], t);
    LinearWeights(a[1], c[1], t);
    LinearWeights(a[2], c[2], t);
    LinearWeights(a[3], c[3], t);
    Ext4(Slerped(a, b, t, m), Vector4.Interpolated(a, ShortArc(a, b), t));
  }

  /** slerp starts at a and ends at the sign-adjusted b. */
  lemma SlerpEndpoints(a: Quat, b: Quat, m: Libm)
    requires Sound(m)
    ensures Slerped(a, b, 0.0, m) == a
    ensures Slerped(a, b, 1.0, m) == ShortArc(a, b)
  {
    Ext4(Slerped(a, b, 0.0, m), a);
    Ext4(Slerped(a, b, 1.0, m), ShortArc(a, b));
  }

  /** For a unit a, slerp from a to a, and from a to -a, stays at a. */
  lemma SlerpToItself(a: Quat, t: real, m: Libm)
    requires Sound(m) && Vector4.SquaredLength(a) == 1.0
    ensures Slerped(a, a, t, m) == a
    ensures Slerped(a, Vector4.Negated(a), t, m) == a
  {
    SlerpLinearWhenClose(a, a, t, m);
    Vector4.DotProperties(a, a, a, -1.0);
    Ext4(Vector4.Negated(Vector4.Negated(a)), a);
    SlerpLinearWhenClose(a, Vector4.Negated(a), t, m);
    assert ShortArc(a, a) == a && ShortArc(a, Vector4.Negated(a)) == a;
    Ext4(Vector4.Interpolated(a, a, t), a);
  }

  /** The worked example: halfway between [1,2,3,4] and [5,6,7,8] is [3,4,5,6]. */
  lemma SlerpExample(m: Libm)
    requires Sound(m)
    ensures Slerped([1.0, 2.0, 3.0, 4.0], [5.0, 6.0, 7.0, 8.0], 0.5, m) == [3.0, 4.0, 5.0, 6.0]
  {
    SlerpLinearWhenClose([1.0, 2.0, 3.0, 4.0], [5.0, 6.0, 7.0, 8.0], 0.5, m);
    Vector4.Examples();
  }

  /** The quaternion `sqlerp` writes: slerp between slerp(a, d, t) and slerp(b, c, t) at
      2 t (1 - t). */
  function SqLerped(a: Quat, b: Quat, c: Quat, d: Quat, t: real, m: Libm): Quat
    requires Sound(m)
  {
    Slerped(Slerped(a, d, t, m), Slerped(b, c, t, m), 2.0 * t * (1.0 - t), m)
  }

  /** sqlerp starts at a and ends at the sign-adjusted d. */
  lemma SqLerpEndpoints(a: Quat, b: Quat, c: Quat, d: Quat, m: Libm)
    requires Sound(m)
    ensures SqLerped(a, b, c, d, 0.0, m) == a
    ensures SqLerped(a, b, c, d, 1.0, m) == ShortArc(a, d)
  {
    assert 2.0 * 0.0 * (1.0 - 0.0) == 0.0 && 2.0 * 1.0 * (1.0 - 1.0) == 0.0;
    SlerpEndpoints(a, d, m);
    SlerpEndpoints(Slerped(a, d, 0.0, m), Slerped(b, c, 0.0, m), m);
    SlerpEndpoints(Slerped(a, d, 1.0, m), Slerped(b, c, 1.0, m), m);
  }

  // ----- equality -----

  /** equals: the unit quaternions point the same way up to sign, |dot| >= 1 - EPSILON. */
  function Equals(a: Quat, b: Quat): (r: bool)
    ensures r <==> Abs(Vector4.Dot(b, a)) >= 1.0 - EPSILON
    ensures r <==> Abs(Vector4.Dot(a, Vector4.Negated(b))) >= 1.0 - EPSILON
    ensures Vector4.SquaredLength(a) == 1.0 && b == a ==> r
  {
    assert Vector4.Dot(a, Vector4.Negated(b)) == -Vector4.Dot(a, b);
    Abs(Vector4.Dot(a, b)) >= 1.0 - EPSILON
  }

  /** equals is symmetric, ignores the sign of either argument, and holds between a unit
      quaternion and itself; [0,1,0,0] equals [0,-1,0,0]. */
  lemma EqualsProperties(a: Quat, b: Quat)
    ensures Equals(a, b) <==> Equals(b, a)
    ensures Equals(a, b) <==> Equals(a, Vector4.Negated(b))
    ensures Equals(a, b) <==> Equals(Vector4.Negated(a), b)
    ensures Vector4.SquaredLength(a) == 1.0 ==> Equals(a, a)
    ensures Equals([0.0, 1.0, 0.0, 0.0], [0.0, -1.0, 0.0, 0.0])
  {
    Vector4.DotProperties(a, b, b, -1.0);
    Vector4.DotProperties(b, a, a, -1.0);
  }

  // ----- from a rotation matrix -----

  /** The index `fromMat3` picks when the trace is not positive: the first position of the
      largest diagonal entry. */
  function LargestDiagonal(mat: Mat3): (i: nat)
    ensures i < 3
    ensures forall k :: 0 <= k < 3 ==> mat[k * 3 + k] <= mat[i * 3 + i]
    ensures forall k :: 0 <= k < i ==> mat[k * 3 + k] < mat[i * 3 + i]
  {
    var i := if mat[4] > mat[0] then 1 else 0;
    if mat[8] > mat[i * 3 + i] then 2 else i
  }

  /** i, (i + 1) % 3 and (i + 2) % 3 are 0, 1 and 2 in some order, so that the three writes
      of the vector part each hit a different entry. */
  lemma CyclicIndices(i: nat)
    requires i < 3
    ensures {i, (i + 1) % 3, (i + 2) % 3} == {0, 1, 2}
    ensures i != (i + 1) % 3 && i != (i + 2) % 3 && (i + 1) % 3 != (i + 2) % 3
  {
  }

  /** The radicand of fromMat3's second branch for pivot i. */
  function Radicand(mat: Mat3, i: nat): real
    requires i < 3
  {
    var j, k := (i + 1) % 3, (i + 2) % 3;
    mat[i * 3 + i] - mat[j * 3 + j] - mat[k * 3 + k] + 1.0
  }

  /** With i the largest diagonal entry and a trace that is not positive, the radicand of
      the second branch is at least 1: its square root is never taken of a negative number
      and is never 0. */
  lemma RadicandAtLeastOne(mat: Mat3)
    requires mat[0] + mat[4] + mat[8] <= 0.0
    ensures 1.0 <= Radicand(mat, LargestDiagonal(mat))
  {
    CyclicIndices(LargestDiagonal(mat));
  }

  /** The quaternion `fromMat3` writes (Shoemake's method), for any 3x3 matrix: with a
      positive trace w is the pivot, otherwise the largest diagonal entry is. */
  function FromMatrix(mat: Mat3, m: Libm): (r: Quat)
    requires Sound(m)
    ensures mat[0] + mat[4] + mat[8] > 0.0 ==> 0.0 < r[3]
    ensures mat[0] + mat[4] + mat[8] <= 0.0 ==> 0.0 < r[LargestDiagonal(mat)]
  {
    var trace := mat[0] + mat[4] + mat[8];
    if trace > 0.0 then
      SqrtPositive(m, trace + 1.0);
      var root := m.sqrt(trace + 1.0);
      var f := 0.5 / root;
      [(mat[5] - mat[7]) * f, (mat[6] - mat[2]) * f, (mat[1] - mat[3]) * f, 0.5 * root]
    else
      RadicandAtLeastOne(mat);
      FromPivot(mat, LargestDiagonal(mat), m)
  }

  /** fromMat3's second branch with pivot i: r[i] is half the root of the radicand. */
  function FromPivot(mat: Mat3, i: nat, m: Libm): (r: Quat)
    requires Sound(m) && i < 3 && 0.0 < Radicand(mat, i)
    ensures 0.0 < r[i]
  {
    SqrtPositive(m, Radicand(mat, i));
    Pivoted(mat, i, m.sqrt(Radicand(mat, i)))
  }

  /** The entries fromMat3's second branch writes for pivot i and fRoot = root: r[i] is
      root / 2, and w, r[j], r[k] the antisymmetric and symmetric parts over 2 root. */
  function Pivoted(mat: Mat3, i: nat, root: real): (r: Quat)
    requires i < 3 && 0.0 < root
    ensures 0.0 < r[i]
  {
    var j, k := (i + 1) % 3, (i + 2) % 3;
    var f := 0.5 / root;
    Vector4.Zero[i := 0.5 * root][3 := (mat[j * 3 + k] - mat[k * 3 + j]) * f]
                [j := (mat[j * 3 + i] + mat[i * 3 + j]) * f][k := (mat[k * 3 + i] + mat[i * 3 + k]) * f]
  }

  /** Shoemake's relations for pivot i: 4 r[i]^2 is the radicand, 4 r[i] w the
      antisymmetric part and 4 r[i] r[j], 4 r[i] r[k] the symmetric parts. */
  lemma FromPivotRelations(mat: Mat3, i: nat, m: Libm)
    requires Sound(m) && i < 3 && 0.0 < Radicand(mat, i)
    ensures var r := FromPivot(mat, i, m);
            var j, k := (i + 1) % 3, (i + 2) % 3;
            && 4.0 * r[i] * r[i] == Radicand(mat, i)
            && 4.0 * r[i] * r[3] == mat[j * 3 + k] - mat[k * 3 + j]
            && 4.0 * r[i] * r[j] == mat[j * 3 + i] + mat[i * 3 + j]
            && 4.0 * r[i] * r[k] == mat[k * 3 + i] + mat[i * 3 + k]
  {
    var t := Radicand(mat, i);
    var root := m.sqrt(t);
    assert 0.0 < root && root * root == t by {
      SqrtPositive(m, t);
    }
    PivotedRelations(mat, i, root, t, FromPivot(mat, i, m));
  }

  /** The relations for the quaternion Pivoted builds from root, whose square is t. */
  lemma PivotedRelations(mat: Mat3, i: nat, root: real, t: real, r: Quat)
    requires i < 3 && 0.0 < root && root * root == t && r == Pivoted(mat, i, root)
    ensures var j, k := (i + 1) % 3, (i + 2) % 3;
            && 4.0 * r[i] * r[i] == t
            && 4.0 * r[i] * r[3] == mat[j * 3 + k] - mat[k * 3 + j]
            && 4.0 * r[i] * r[j] == mat[j * 3 + i] + mat[i * 3 + j]
            && 4.0 * r[i] * r[k] == mat[k * 3 + i] + mat[i * 3 + k]
  {
    var j, k := (i + 1) % 3, (i + 2) % 3;
    CyclicIndices(i);
    var f := 0.5 / root;
    var dw, dj, dk := mat[j * 3 + k] - mat[k * 3 + j], mat[j * 3 + i] + mat[i * 3 + j], mat[k * 3 + i] + mat[i * 3 + k];
    PivotEntries(i, j, k, 0.5 * root, dw * f, dj * f, dk * f);
    PivotProduct(root, dw);
    PivotProduct(root, dj);
    PivotProduct(root, dk);
  }

  /** The four writes of fromMat3's second branch, to distinct places, all survive. */
  lemma PivotEntries(i: nat, j: nat, k: nat, a: real, b: real, c: real, d: real)
    requires i < 3 && j < 3 && k < 3 && i != j && j != k && i != k
    ensures var r := Vector4.Zero[i := a][3 := b][j := c][k := d];
            r[i] == a && r[3] == b && r[j] == c && r[k] == d
  {
  }

  /** The pivot 0.5 root times an entry d (0.5 / root), four times over, gives d back; the
      pivot squared, four times over, gives root squared. */
  lemma PivotProduct(root: real, d: real)
    requires 0.0 < root
    ensures 4.0 * (0.5 * root) * (d * (0.5 / root)) == d
    ensures 4.0 * (0.5 * root) * (0.5 * root) == root * root
  {
    assert (0.5 * root) * (0.5 / root) == 0.25;
  }

  /** When the trace is positive, fromMat3 solves Shoemake's relations with w as pivot:
      4 w^2 is the trace plus 1 and 4 w x, 4 w y, 4 w z are the antisymmetric parts. */
  lemma FromMat3PositiveTrace(mat: Mat3, m: Libm)
    requires Sound(m) && mat[0] + mat[4] + mat[8] > 0.0
    ensures var r := FromMatrix(mat, m);
            && 4.0 * r[3] * r[3] == mat[0] + mat[4] + mat[8] + 1.0
            && 4.0 * r[3] * r[0] == mat[5] - mat[7]
            && 4.0 * r[3] * r[1] == mat[6] - mat[2]
            && 4.0 * r[3] * r[2] == mat[1] - mat[3]
  {
    var t := mat[0] + mat[4] + mat[8] + 1.0;
    SqrtPositive(m, t);
    var root := m.sqrt(t);
    assert root * root == t;
    PivotProduct(root, mat[5] - mat[7]);
    PivotProduct(root, mat[6] - mat[2]);
    PivotProduct(root, mat[1] - mat[3]);
  }

  /** `setAxes`' matrix: right, up and -view as its rows. */
  function AxesMatrix(view: Vec3, right: Vec3, up: Vec3): Mat3 {
    [right[0], up[0], -view[0], right[1], up[1], -view[1], right[2], up[2], -view[2]]
  }

  /** The quaternion `setAxes` writes: fromMat3 of the axes matrix, normalized; it always
      has unit length, because fromMat3 never returns the zero quaternion. */
  function AxesRotation(view: Vec3, right: Vec3, up: Vec3, m: Libm): (r: Quat)
    requires Sound(m)
    ensures Vector4.SquaredLength(r) == 1.0
  {
    var mat := AxesMatrix(view, right, up);
    var q := FromMatrix(mat, m);
    NonZeroHasLength(q, if mat[0] + mat[4] + mat[8] > 0.0 then 3 else LargestDiagonal(mat));
    Vector4.Normalized(q, m)
  }

  /** A quaternion with a positive entry has positive squared length. */
  lemma NonZeroHasLength(q: Quat, i: nat)
    requires i < 4 && 0.0 < q[i]
    ensures 0.0 < Vector4.SquaredLength(q)
  {
    var x, y, z, w := q[0], q[1], q[2], q[3];
    var n := Vector4.SquaredLength(q);
    if i == 0 { SquaresPositive(n, x, y, z, w); }
    else if i == 1 { SquaresPositive(n, y, x, z, w); }
    else if i == 2 { SquaresPositive(n, z, x, y, w); }
    else { SquaresPositive(n, w, x, y, z); }
  }

  // ----- shortest rotation between two vectors -----

  /** The quaternion `rotationTo` writes for unit vectors a and b:
      - the identity when they are nearly equal (dot > 0.999999);
      - a half turn (angle PI) about an axis orthogonal to a when they are nearly opposite;
      - otherwise the normalization of (a x b, 1 + dot), a unit quaternion with positive w. */
  function ShortestRotation(a: Vec3, b: Vec3, m: Libm): (r: Quat)
    requires Sound(m)
    ensures Vector3.Dot(a, b) > 0.999999 ==> r == Identity
    ensures Vector3.Dot(a, b) < -0.999999 ==>
              r[3] == m.cos(PI * 0.5) && Vector3.Dot([r[0], r[1], r[2]], a) == 0.0
    ensures -0.999999 <= Vector3.Dot(a, b) <= 0.999999 ==>
              Vector4.SquaredLength(r) == 1.0 && 0.0 < r[3]
  {
    var dot := Vector3.Dot(a, b);
    if dot < -0.999999 then
      var t := Vector3.CrossProduct([1.0, 0.0, 0.0], a);
      var t := if Vector3.Length(t, m) < 0.000001 then Vector3.CrossProduct([0.0, 1.0, 0.0], a) else t;
      var axis := Vector3.Normalized(t, m);
      AxisOrthogonal(t, a, m);
      var r := AxisAngle(axis, PI, m);
      HalfTurnOrthogonal(axis, a, m);
      r
    else if dot > 0.999999 then
      Identity
    else
      var c := Vector3.CrossProduct(a, b);
      var q: Quat := [c[0], c[1], c[2], 1.0 + dot];
      NonZeroHasLength(q, 3);
      var r := Vector4.Normalized(q, m);
      PositiveProduct(q[3], Vector4.NormFactor(q, m));
      r
  }

  /** Normalizing keeps a vector orthogonal to a when it was. */
  lemma AxisOrthogonal(t: Vec3, a: Vec3, m: Libm)
    requires Sound(m) && Vector3.Dot(t, a) == 0.0
    ensures Vector3.Dot(Vector3.Normalized(t, m), a) == 0.0
  {
    var k := Vector3.NormFactor(t, m);
    var n := Vector3.Scaled(t, k);
    ScaleSum(Vector3.Dot(t, a), t[0] * a[0], t[1] * a[1] + t[2] * a[2], k);
    ScaleSum(t[1] * a[1] + t[2] * a[2], t[1] * a[1], t[2] * a[2], k);
    assert Vector3.Dot(n, a) == Vector3.Dot(t, a) * k;
  }

  /** The vector part of an axis-angle quaternion is orthogonal to whatever the axis is
      orthogonal to. */
  lemma HalfTurnOrthogonal(axis: Vec3, a: Vec3, m: Libm)
    requires Vector3.Dot(axis, a) == 0.0
    ensures var r := AxisAngle(axis, PI, m); Vector3.Dot([r[0], r[1], r[2]], a) == 0.0
  {
    var r := AxisAngle(axis, PI, m);
    var s := m.sin(PI * 0.5);
    ScaleSum(Vector3.Dot(axis, a), axis[0] * a[0], axis[1] * a[1] + axis[2] * a[2], s);
    ScaleSum(axis[1] * a[1] + axis[2] * a[2], axis[1] * a[1], axis[2] * a[2], s);
    assert Vector3.Dot([r[0], r[1], r[2]], a) == Vector3.Dot(axis, a) * s;
  }

  /** In the general branch, for unit vectors a and b, the quaternion rotationTo writes turns
      a onto b: transformQuat(a, rotationTo(a, b)) == b. */
  lemma RotationToTurnsAOntoB(a: Vec3, b: Vec3, m: Libm)
    requires Sound(m)
    requires Vector3.SquaredLength(a) == 1.0 && Vector3.SquaredLength(b) == 1.0
    requires -0.999999 <= Vector3.Dot(a, b) <= 0.999999
    ensures Vector3.AppliedQuat(a, ShortestRotation(a, b, m)) == b
  {
    var k := ShortestRotationScaled(a, b, m);
    TurnedByScaled(a, b, k);
  }

  /** Turning a unit vector a by k (a x b, 1 + a . b), with k^2 2 (1 + a . b) == 1, gives b. */
  lemma TurnedByScaled(a: Vec3, b: Vec3, k: real)
    requires Vector3.SquaredLength(a) == 1.0 && Vector3.SquaredLength(b) == 1.0
    requires (k * k) * (2.0 * (1.0 + Vector3.Dot(a, b))) == 1.0
    ensures Vector3.AppliedQuat(a, [Vector3.CrossProduct(a, b)[0] * k, Vector3.CrossProduct(a, b)[1] * k, Vector3.CrossProduct(a, b)[2] * k, (1.0 + Vector3.Dot(a, b)) * k]) == b
  {
    var t := Vector3.AppliedQuat(a, [Vector3.CrossProduct(a, b)[0] * k, Vector3.CrossProduct(a, b)[1] * k, Vector3.CrossProduct(a, b)[2] * k, (1.0 + Vector3.Dot(a, b)) * k]);
    TurnedEntry(a, b, 1.0 + Vector3.Dot(a, b), k, 0);
    TurnedEntry(a, b, 1.0 + Vector3.Dot(a, b), k, 1);
    TurnedEntry(a, b, 1.0 + Vector3.Dot(a, b), k, 2);
    Ext3(t, b);
  }

  /** In the general branch rotationTo writes k (a x b, 1 + a . b), where for unit vectors
      the factor k of normalize satisfies k^2 2 (1 + a . b) == 1. */
  lemma ShortestRotationScaled(a: Vec3, b: Vec3, m: Libm) returns (k: real)
    requires Sound(m)
    requires Vector3.SquaredLength(a) == 1.0 && Vector3.SquaredLength(b) == 1.0
    requires -0.999999 <= Vector3.Dot(a, b) <= 0.999999
    ensures ShortestRotation(a, b, m)
            == [Vector3.CrossProduct(a, b)[0] * k, Vector3.CrossProduct(a, b)[1] * k, Vector3.CrossProduct(a, b)[2] * k, (1.0 + Vector3.Dot(a, b)) * k]
    ensures (k * k) * (2.0 * (1.0 + Vector3.Dot(a, b))) == 1.0
  {
    var q: Quat := [Vector3.CrossProduct(a, b)[0], Vector3.CrossProduct(a, b)[1], Vector3.CrossProduct(a, b)[2], 1.0 + Vector3.Dot(a, b)];
    k := Vector4.NormFactor(q, m);
    GeneralRotation(a, b, m);
    Ext4(Vector4.Scaled(q, k), [Vector3.CrossProduct(a, b)[0] * k, Vector3.CrossProduct(a, b)[1] * k, Vector3.CrossProduct(a, b)[2] * k, (1.0 + Vector3.Dot(a, b)) * k]);
    RotationVectorLength(a, b);
    ScaleEqual(Vector4.SquaredLength(q), 2.0 * (1.0 + Vector3.Dot(a, b)), k * k);
  }

  /** The general branch of rotationTo normalizes (a x b, 1 + a . b). */
  lemma GeneralRotation(a: Vec3, b: Vec3, m: Libm)
    requires Sound(m)
    requires -0.999999 <= Vector3.Dot(a, b) <= 0.999999
    ensures ShortestRotation(a, b, m) == Vector4.Scaled([Vector3.CrossProduct(a, b)[0], Vector3.CrossProduct(a, b)[1], Vector3.CrossProduct(a, b)[2], 1.0 + Vector3.Dot(a, b)], Vector4.NormFactor([Vector3.CrossProduct(a, b)[0], Vector3.CrossProduct(a, b)[1], Vector3.CrossProduct(a, b)[2], 1.0 + Vector3.Dot(a, b)], m))
  {
  }

  /** For unit a and b, (a x b, 1 + a . b) has squared length 2 (1 + a . b). */
  lemma RotationVectorLength(a: Vec3, b: Vec3)
    requires Vector3.SquaredLength(a) == 1.0 && Vector3.SquaredLength(b) == 1.0
    ensures Vector4.SquaredLength([Vector3.CrossProduct(a, b)[0], Vector3.CrossProduct(a, b)[1], Vector3.CrossProduct(a, b)[2], 1.0 + Vector3.Dot(a, b)]) == 2.0 * (1.0 + Vector3.Dot(a, b))
  {
    CrossLength(a, b);
    AppendedUnitLength(Vector3.CrossProduct(a, b), Vector3.Dot(a, b), Vector3.SquaredLength(a), Vector3.SquaredLength(b));
  }

  /** If |c|^2 == A B - d^2 with A == B == 1, then (c, 1 + d) has squared length 2 (1 + d). */
  lemma AppendedUnitLength(c: Vec3, d: real, A: real, B: real)
    requires Vector3.SquaredLength(c) == A * B - d * d && A == 1.0 && B == 1.0
    ensures Vector4.SquaredLength([c[0], c[1], c[2], 1.0 + d]) == 2.0 * (1.0 + d)
  {
    AppendedLength(c, 1.0 + d);
    UnitRotationLength(Vector4.SquaredLength([c[0], c[1], c[2], 1.0 + d]), Vector3.SquaredLength(c), d, A, B);
  }

  /** Appending w to c adds w^2 to the squared length. */
  lemma AppendedLength(c: Vec3, w: real)
    ensures Vector4.SquaredLength([c[0], c[1], c[2], w]) == Vector3.SquaredLength(c) + w * w
  {
  }

  /** Entry i of a turned by k (a x b, w) is entry i of b, for unit vectors with
      w == 1 + a . b and k^2 2 w == 1. */
  lemma TurnedEntry(a: Vec3, b: Vec3, w: real, k: real, i: nat)
    requires Vector3.SquaredLength(a) == 1.0 && Vector3.SquaredLength(b) == 1.0
    requires w == 1.0 + Vector3.Dot(a, b) && (k * k) * (2.0 * w) == 1.0
    requires i < 3
    ensures Vector3.AppliedQuat(a, [Vector3.CrossProduct(a, b)[0] * k, Vector3.CrossProduct(a, b)[1] * k, Vector3.CrossProduct(a, b)[2] * k, w * k])[i] == b[i]
  {
    TurnedDisplaced(a, b, w, k, i);
    TurnUnit(a[i], b[i], a[0] * b[0] + a[1] * b[1] + a[2] * b[2], w, k * k,
             a[0] * a[0] + a[1] * a[1] + a[2] * a[2], b[0] * b[0] + b[1] * b[1] + b[2] * b[2]);
  }

  /** Entry i of a turned by k (a x b, w), for any a, b, w and k. */
  lemma TurnedDisplaced(a: Vec3, b: Vec3, w: real, k: real, i: nat)
    requires i < 3
    ensures Vector3.AppliedQuat(a, [Vector3.CrossProduct(a, b)[0] * k, Vector3.CrossProduct(a, b)[1] * k, Vector3.CrossProduct(a, b)[2] * k, w * k])[i]
            == Displaced(a[i], b[i], a[0] * b[0] + a[1] * b[1] + a[2] * b[2], w, k * k,
                         a[0] * a[0] + a[1] * a[1] + a[2] * a[2], b[0] * b[0] + b[1] * b[1] + b[2] * b[2])
  {
    if i == 0 {
      TurnEntryX(a, b, w, k);
    } else if i == 1 {
      TurnEntryY(a, b, w, k);
    } else {
      TurnEntryZ(a, b, w, k);
    }
  }

  /** k (a x b, w) written out entry by entry. */
  lemma CrossScaled(a: Vec3, b: Vec3, w: real, k: real)
    ensures [Vector3.CrossProduct(a, b)[0] * k, Vector3.CrossProduct(a, b)[1] * k, Vector3.CrossProduct(a, b)[2] * k, w * k]
            == [(a[1] * b[2] - a[2] * b[1]) * k, (a[2] * b[0] - a[0] * b[2]) * k, (a[0] * b[1] - a[1] * b[0]) * k, w * k]
  {
    Ext3(Vector3.CrossProduct(a, b), [a[1] * b[2] - a[2] * b[1], a[2] * b[0] - a[0] * b[2], a[0] * b[1] - a[1] * b[0]]);
    Ext4([Vector3.CrossProduct(a, b)[0] * k, Vector3.CrossProduct(a, b)[1] * k, Vector3.CrossProduct(a, b)[2] * k, w * k],
         [(a[1] * b[2] - a[2] * b[1]) * k, (a[2] * b[0] - a[0] * b[2]) * k, (a[0] * b[1] - a[1] * b[0]) * k, w * k]);
  }

  /** The arithmetic of the above: |a x b|^2 + (1 + a . b)^2 is 2 (1 + a . b) when
      |a x b|^2 == |a|^2 |b|^2 - (a . b)^2 and a and b are unit vectors. */
  lemma UnitRotationLength(s: real, c: real, d: real, A: real, B: real)
    requires c == A * B - d * d && A == 1.0 && B == 1.0 && s == c + (1.0 + d) * (1.0 + d)
    ensures s == 2.0 * (1.0 + d)
  {
  }

  /** Lagrange's identity: |a x b|^2 == |a|^2 |b|^2 - (a . b)^2. */
  lemma CrossLength(a: Vec3, b: Vec3)
    ensures Vector3.SquaredLength(Vector3.CrossProduct(a, b))
            == Vector3.SquaredLength(a) * Vector3.SquaredLength(b) - Vector3.Dot(a, b) * Vector3.Dot(a, b)
  {
    var c := Vector3.CrossProduct(a, b);
    calc {
      Vector3.SquaredLength(c);
      c[0] * c[0] + c[1] * c[1] + c[2] * c[2];
      (a[1] * b[2] - a[2] * b[1]) * (a[1] * b[2] - a[2] * b[1])
      + (a[2] * b[0] - a[0] * b[2]) * (a[2] * b[0] - a[0] * b[2])
      + (a[0] * b[1] - a[1] * b[0]) * (a[0] * b[1] - a[1] * b[0]);
      { LagrangeEntries(a, b); }
      (a[0] * a[0] + a[1] * a[1] + a[2] * a[2]) * (b[0] * b[0] + b[1] * b[1] + b[2] * b[2])
      - (a[0] * b[0] + a[1] * b[1] + a[2] * b[2]) * (a[0] * b[0] + a[1] * b[1] + a[2] * b[2]);
    }
    assert c[0] * c[0] == (a[1] * b[2] - a[2] * b[1]) * (a[1] * b[2] - a[2] * b[1]);
  }

  /** Lagrange's identity with every term written out. */
  lemma LagrangeEntries(a: Vec3, b: Vec3)
    ensures (a[1] * b[2] - a[2] * b[1]) * (a[1] * b[2] - a[2] * b[1])
            + (a[2] * b[0] - a[0] * b[2]) * (a[2] * b[0] - a[0] * b[2])
            + (a[0] * b[1] - a[1] * b[0]) * (a[0] * b[1] - a[1] * b[0])
            == (a[0] * a[0] + a[1] * a[1] + a[2] * a[2]) * (b[0] * b[0] + b[1] * b[1] + b[2] * b[2])
               - (a[0] * b[0] + a[1] * b[1] + a[2] * b[2]) * (a[0] * b[0] + a[1] * b[1] + a[2] * b[2])
  {
  }

  /** transformQuat by k (a x b, w), entry 0: a moves by k^2 times
      2 w (b |a|^2 - a (a . b)) - 2 a |a x b|^2, an identity of polynomials. */
  lemma TurnEntryX(a: Vec3, b: Vec3, w: real, k: real)
    ensures Vector3.AppliedQuat(a, [Vector3.CrossProduct(a, b)[0] * k, Vector3.CrossProduct(a, b)[1] * k, Vector3.CrossProduct(a, b)[2] * k, w * k])[0]
            == Displaced(a[0], b[0], a[0] * b[0] + a[1] * b[1] + a[2] * b[2], w, k * k,
                         a[0] * a[0] + a[1] * a[1] + a[2] * a[2], b[0] * b[0] + b[1] * b[1] + b[2] * b[2])
  {
    TurnPolyX(a, b, w, k);
    CrossScaled(a, b, w, k);
  }

  /** The entry 0 identity with the displacement written out. */
  lemma TurnPolyX(a: Vec3, b: Vec3, w: real, k: real)
    ensures Vector3.AppliedQuat(a, [(a[1] * b[2] - a[2] * b[1]) * k, (a[2] * b[0] - a[0] * b[2]) * k, (a[0] * b[1] - a[1] * b[0]) * k, w * k])[0]
            == Displaced(a[0], b[0], a[0] * b[0] + a[1] * b[1] + a[2] * b[2], w, k * k,
                         a[0] * a[0] + a[1] * a[1] + a[2] * a[2], b[0] * b[0] + b[1] * b[1] + b[2] * b[2])
  {
  }

  /** The same, entry 1. */
  lemma TurnEntryY(a: Vec3, b: Vec3, w: real, k: real)
    ensures Vector3.AppliedQuat(a, [Vector3.CrossProduct(a, b)[0] * k, Vector3.CrossProduct(a, b)[1] * k, Vector3.CrossProduct(a, b)[2] * k, w * k])[1]
            == Displaced(a[1], b[1], a[0] * b[0] + a[1] * b[1] + a[2] * b[2], w, k * k,
                         a[0] * a[0] + a[1] * a[1] + a[2] * a[2], b[0] * b[0] + b[1] * b[1] + b[2] * b[2])
  {
    TurnPolyY(a, b, w, k);
    CrossScaled(a, b, w, k);
  }

  /** The entry 1 identity with the displacement written out. */
  lemma TurnPolyY(a: Vec3, b: Vec3, w: real, k: real)
    ensures Vector3.AppliedQuat(a, [(a[1] * b[2] - a[2] * b[1]) * k, (a[2] * b[0] - a[0] * b[2]) * k, (a[0] * b[1] - a[1] * b[0]) * k, w * k])[1]
            == Displaced(a[1], b[1], a[0] * b[0] + a[1] * b[1] + a[2] * b[2], w, k * k,
                         a[0] * a[0] + a[1] * a[1] + a[2] * a[2], b[0] * b[0] + b[1] * b[1] + b[2] * b[2])
  {
  }

  /** The same, entry 2. */
  lemma TurnEntryZ(a: Vec3, b: Vec3, w: real, k: real)
    ensures Vector3.AppliedQuat(a, [Vector3.CrossProduct(a, b)[0] * k, Vector3.CrossProduct(a, b)[1] * k, Vector3.CrossProduct(a, b)[2] * k, w * k])[2]
            == Displaced(a[2], b[2], a[0] * b[0] + a[1] * b[1] + a[2] * b[2], w, k * k,
                         a[0] * a[0] + a[1] * a[1] + a[2] * a[2], b[0] * b[0] + b[1] * b[1] + b[2] * b[2])
  {
    TurnPolyZ(a, b, w, k);
    CrossScaled(a, b, w, k);
  }

  /** The entry 2 identity with the displacement written out. */
  lemma TurnPolyZ(a: Vec3, b: Vec3, w: real, k: real)
    ensures Vector3.AppliedQuat(a, [(a[1] * b[2] - a[2] * b[1]) * k, (a[2] * b[0] - a[0] * b[2]) * k, (a[0] * b[1] - a[1] * b[0]) * k, w * k])[2]
            == Displaced(a[2], b[2], a[0] * b[0] + a[1] * b[1] + a[2] * b[2], w, k * k,
                         a[0] * a[0] + a[1] * a[1] + a[2] * a[2], b[0] * b[0] + b[1] * b[1] + b[2] * b[2])
  {
  }

  /** Entry i of a after the turn, written with A == |a|^2, B == |b|^2, d == a . b and
      kk == k^2. */
  function Displaced(ai: real, bi: real, d: real, w: real, kk: real, A: real, B: real): real {
    ai + kk * (2.0 * w * (bi * A - ai * d) - 2.0 * ai * (A * B - d * d))
  }

  /** One entry of the final step: with unit lengths and k^2 2 (1 + d) == 1 the displacement
      brings a exactly to b. */
  lemma TurnUnit(ai: real, bi: real, d: real, w: real, kk: real, A: real, B: real)
    requires A == 1.0 && B == 1.0 && w == 1.0 + d && kk * (2.0 * w) == 1.0
    ensures Displaced(ai, bi, d, w, kk, A, B) == bi
  {
    var e := 2.0 * w * (bi * A - ai * d) - 2.0 * ai * (A * B - d * d);
    assert e == 2.0 * w * (bi - ai);
    assert kk * e == (kk * (2.0 * w)) * (bi - ai);
  }

  // ----- exponential, logarithm, power -----

  /** The quaternion `exp` writes; without a vector part it is (0, 0, 0, e^w). */
  function Exponential(a: Quat, m: Libm): (r: Quat)
    requires Sound(m)
    ensures a[0] == 0.0 && a[1] == 0.0 && a[2] == 0.0 ==> r == [0.0, 0.0, 0.0, m.exp(a[3])]
  {
    var x, y, z, w := a[0], a[1], a[2], a[3];
    var r := m.sqrt(x * x + y * y + z * z);
    var et := m.exp(w);
    var s := if r > 0.0 then (et * m.sin(r)) / r else 0.0;
    var q: Quat := [x * s, y * s, z * s, et * m.cos(r)];
    if x == 0.0 && y == 0.0 && z == 0.0 then Ext4(q, [0.0, 0.0, 0.0, m.exp(a[3])]); q
    else q
  }

  /** The quaternion `ln` writes: its w is half the log of the squared length, and without a
      vector part its vector part stays zero. */
  function Logarithm(a: Quat, m: Libm): (r: Quat)
    requires Sound(m)
    ensures r[3] == 0.5 * m.log(Vector4.SquaredLength(a))
    ensures a[0] == 0.0 && a[1] == 0.0 && a[2] == 0.0 ==> r[0] == 0.0 && r[1] == 0.0 && r[2] == 0.0
  {
    var x, y, z, w := a[0], a[1], a[2], a[3];
    var r := m.sqrt(x * x + y * y + z * z);
    var t := if r > 0.0 then m.atan2(r, w) / r else 0.0;
    var len := x * x + y * y + z * z + w * w;
    assert len == Vector4.SquaredLength(a);
    [x * t, y * t, z * t, 0.5 * m.log(len)]
  }

  /** The quaternion `pow` writes: exp of ln scaled by b. */
  function Power(a: Quat, b: real, m: Libm): Quat
    requires Sound(m)
  {
    Exponential(Vector4.Scaled(Logarithm(a, m), b), m)
  }

  /** pow keeps a quaternion without vector part on the w axis: (0, 0, 0, e^(b log|a|)). */
  lemma PowScalar(a: Quat, b: real, m: Libm)
    requires Sound(m) && a[0] == 0.0 && a[1] == 0.0 && a[2] == 0.0
    ensures Power(a, b, m) == [0.0, 0.0, 0.0, m.exp(0.5 * m.log(Vector4.SquaredLength(a)) * b)]
  {
    var l := Logarithm(a, m);
    Ext4(Vector4.Scaled(l, b), [0.0, 0.0, 0.0, 0.5 * m.log(Vector4.SquaredLength(a)) * b]);
  }

  // ----- buffer operations -----

  /** The four entries of a, cached in locals before out is written. */
  method Read(a: array<real>) returns (r: Quat)
    requires a.Length == 4
    ensures r == a[..]
  {
    r := [a[0], a[1], a[2], a[3]];
    Ext4(r, a[..]);
  }

  /** Writes the four entries of r into out. */
  method Write(out: array<real>, r: Quat)
    requires out.Length == 4
    modifies out
    ensures out[..] == r
  {
    out[0], out[1], out[2], out[3] := r[0], r[1], r[2], r[3];
    Ext4(out[..], r);
  }

  /** create: a new identity quaternion (a zero array with w set to 1). */
  method Create() returns (out: array<real>)
    ensures fresh(out) && out[..] == Identity
  {
    out := new real[4](_ => 0.0);
    out[3] := 1.0;
    Ext4(out[..], Identity);
  }

  /** identity: out becomes the identity quaternion. */
  method SetIdentity(out: array<real>)
    requires out.Length == 4
    modifies out
    ensures out[..] == Identity
  {
    out[0] := 0.0;
    out[1] := 0.0;
    out[2] := 0.0;
    out[3] := 1.0;
    Ext4(out[..], Identity);
  }

  /** setAxisAngle: axis (three entries) and out (four) are never the same buffer. */
  method SetAxisAngle(out: array<real>, axis: array<real>, rad: real, m: Libm)
    requires out.Length == 4 && axis.Length == 3
    modifies out
    ensures out[..] == AxisAngle(old(axis[..]), rad, m)
  {
    ghost var axis0 := axis[..];
    var half := rad * 0.5;
    var s := m.sin(half);
    out[0] := s * axis[0];
    out[1] := s * axis[1];
    out[2] := s * axis[2];
    out[3] := m.cos(half);
    Ext4(out[..], AxisAngle(axis0, rad, m));
  }

  /** getAxisAngle: writes the axis into outAxis and returns the angle. */
  method GetAxisAngle(outAxis: array<real>, q: array<real>, m: Libm) returns (rad: real)
    requires outAxis.Length == 3 && q.Length == 4
    modifies outAxis
    ensures (outAxis[..], rad) == AxisAngleOf(old(q[..]), m)
  {
    ghost var q0 := q[..];
    rad := m.acos(q[3]) * 2.0;
    var s := m.sin(rad / 2.0);
    if s > EPSILON {
      outAxis[0] := q[0] / s;
      outAxis[1] := q[1] / s;
      outAxis[2] := q[2] / s;
      Ext3(outAxis[..], [q0[0] / s, q0[1] / s, q0[2] / s]);
    } else {
      outAxis[0] := 1.0;
      outAxis[1] := 0.0;
      outAxis[2] := 0.0;
      Ext3(outAxis[..], [1.0, 0.0, 0.0]);
    }
  }

  /** multiply: both operands are cached before the first write, so out may be either. */
  method Multiply(out: array<real>, a: array<real>, b: array<real>)
    requires out.Length == 4 && a.Length == 4 && b.Length == 4
    modifies out
    ensures out[..] == Product(old(a[..]), old(b[..]))
  {
    var av := Read(a);
    var bv := Read(b);
    Write(out, Product(av, bv));
  }

  method RotateX(out: array<real>, a: array<real>, rad: real, m: Libm)
    requires out.Length == 4 && a.Length == 4
    modifies out
    ensures out[..] == RotatedX(old(a[..]), rad, m)
  {
    var av := Read(a);
    Write(out, RotatedX(av, rad, m));
  }

  method RotateY(out: array<real>, a: array<real>, rad: real, m: Libm)
    requires out.Length == 4 && a.Length == 4
    modifies out
    ensures out[..] == RotatedY(old(a[..]), rad, m)
  {
    var av := Read(a);
    Write(out, RotatedY(av, rad, m));
  }

  method RotateZ(out: array<real>, a: array<real>, rad: real, m: Libm)
    requires out.Length == 4 && a.Length == 4
    modifies out
    ensures out[..] == RotatedZ(old(a[..]), rad, m)
  {
    var av := Read(a);
    Write(out, RotatedZ(av, rad, m));
  }

  /** invert: invDot is 1 / dot, or 0 when dot is 0. */
  method Invert(out: array<real>, a: array<real>)
    requires out.Length == 4 && a.Length == 4
    modifies out
    ensures out[..] == Inverse(old(a[..]))
  {
    var av := Read(a);
    Write(out, Inverse(av));
  }

  /** conjugate: each entry is read just before it is written, so out may be a. */
  method Conjugate(out: array<real>, a: array<real>)
    requires out.Length == 4 && a.Length == 4
    modifies out
    ensures out[..] == Conjugated(old(a[..]))
  {
    ghost var a0 := a[..];
    out[0] := -a[0];
    out[1] := -a[1];
    out[2] := -a[2];
    out[3] := a[3];
    Ext4(out[..], Conjugated(a0));
  }

  /** slerp: b is negated in the locals (never in its buffer) when cosom is negative; the
      weights are those of SlerpWeights. */
  method Slerp(out: array<real>, a: array<real>, b: array<real>, t: real, m: Libm)
    requires Sound(m)
    requires out.Length == 4 && a.Length == 4 && b.Length == 4
    modifies out
    ensures out[..] == Slerped(old(a[..]), old(b[..]), t, m)
  {
    var av := Read(a);
    var bv := Read(b);
    ghost var b0 := bv;
    var cosom := av[0] * bv[0] + av[1] * bv[1] + av[2] * bv[2] + av[3] * bv[3];
    if cosom < 0.0 {
      Vector4.DotProperties(av, bv, bv, 1.0);
      cosom := -cosom;
      bv := Vector4.Negated(bv);
    }
    assert bv == ShortArc(av, b0) && cosom == Vector4.Dot(av, bv);
    var w := SlerpWeights(cosom, t, m);
    var scale0, scale1 := w.0, w.1;
    TowardsEntries(av, bv, t, m, scale0, scale1);
    Write(out, [scale0 * av[0] + scale1 * bv[0], scale0 * av[1] + scale1 * bv[1],
                scale0 * av[2] + scale1 * bv[2], scale0 * av[3] + scale1 * bv[3]]);
  }

  /** sqlerp: the two inner slerps go to fresh scratch quaternions, so out may be any of the
      four operands. */
  method SqLerp(out: array<real>, a: array<real>, b: array<real>, c: array<real>, d: array<real>,
                t: real, m: Libm)
    requires Sound(m)
    requires out.Length == 4 && a.Length == 4 && b.Length == 4 && c.Length == 4 && d.Length == 4
    modifies out
    ensures out[..] == SqLerped(old(a[..]), old(b[..]), old(c[..]), old(d[..]), t, m)
  {
    ghost var a0, b0, c0, d0 := a[..], b[..], c[..], d[..];
    var temp1 := new real[4];
    var temp2 := new real[4];
    Slerp(temp1, a, d, t, m);
    ghost var p := temp1[..];
    Slerp(temp2, b, c, t, m);
    ghost var q := temp2[..];
    assert p == Slerped(a0, d0, t, m) && q == Slerped(b0, c0, t, m);
    assert SqLerped(a0, b0, c0, d0, t, m) == Slerped(p, q, 2.0 * t * (1.0 - t), m);
    Slerp(out, temp1, temp2, 2.0 * t * (1.0 - t), m);
  }

  method Exp(out: array<real>, a: array<real>, m: Libm)
    requires Sound(m)
    requires out.Length == 4 && a.Length == 4
    modifies out
    ensures out[..] == Exponential(old(a[..]), m)
  {
    var av := Read(a);
    Write(out, Exponential(av, m));
  }

  method Ln(out: array<real>, a: array<real>, m: Libm)
    requires Sound(m)
    requires out.Length == 4 && a.Length == 4
    modifies out
    ensures out[..] == Logarithm(old(a[..]), m)
  {
    var av := Read(a);
    Write(out, Logarithm(av, m));
  }

  /** pow: ln, scale and exp, each in place on out. */
  method Pow(out: array<real>, a: array<real>, b: real, m: Libm)
    requires Sound(m)
    requires out.Length == 4 && a.Length == 4
    modifies out
    ensures out[..] == Power(old(a[..]), b, m)
  {
    Ln(out, a, m);
    Vector4.Scale(out, out, b);
    Exp(out, out, m);
  }

  /** A quaternion whose entries i, 3, j and k, at four distinct places, were all written
      is the zero quaternion with those four writes applied. */
  lemma Covered(r: Quat, i: nat, j: nat, k: nat)
    requires i < 3 && j < 3 && k < 3 && i != j && j != k && i != k
    ensures r == Vector4.Zero[i := r[i]][3 := r[3]][j := r[j]][k := r[k]]
  {
    var s := Vector4.Zero[i := r[i]][3 := r[3]][j := r[j]][k := r[k]];
    PivotEntries(i, j, k, r[i], r[3], r[j], r[k]);
    Ext4(r, s);
  }

  /** A quaternion holding at i, 3, j and k the four values of the second branch is the
      quaternion Pivoted builds. */
  lemma PivotedCovered(mat: Mat3, i: nat, root: real, f: real, r: Quat)
    requires i < 3 && 0.0 < root && f == 0.5 / root
    requires var j, k := (i + 1) % 3, (i + 2) % 3;
             && r[i] == 0.5 * root
             && r[3] == (mat[j * 3 + k] - mat[k * 3 + j]) * f
             && r[j] == (mat[j * 3 + i] + mat[i * 3 + j]) * f
             && r[k] == (mat[k * 3 + i] + mat[i * 3 + k]) * f
    ensures r == Pivoted(mat, i, root)
  {
    var j, k := (i + 1) % 3, (i + 2) % 3;
    CyclicIndices(i);
    var p := Pivoted(mat, i, root);
    PivotEntries(i, j, k, 0.5 * root, (mat[j * 3 + k] - mat[k * 3 + j]) * (0.5 / root),
                 (mat[j * 3 + i] + mat[i * 3 + j]) * (0.5 / root), (mat[k * 3 + i] + mat[i * 3 + k]) * (0.5 / root));
    assert p[i] == r[i] && p[3] == r[3] && p[j] == r[j] && p[k] == r[k];
    Covered(r, i, j, k);
    Covered(p, i, j, k);
  }

  /** fromMat3's first branch written with 1 / (4w) and w as atoms. */
  lemma PositiveTraceEntries(mat: Mat3, m: Libm, f: real, w: real)
    requires Sound(m) && mat[0] + mat[4] + mat[8] > 0.0
    requires w == 0.5 * m.sqrt(mat[0] + mat[4] + mat[8] + 1.0)
    requires f == 0.5 / m.sqrt(mat[0] + mat[4] + mat[8] + 1.0)
    ensures FromMatrix(mat, m) == [(mat[5] - mat[7]) * f, (mat[6] - mat[2]) * f, (mat[1] - mat[3]) * f, w]
  {
    Ext4(FromMatrix(mat, m), [(mat[5] - mat[7]) * f, (mat[6] - mat[2]) * f, (mat[1] - mat[3]) * f, w]);
  }

  /** fromMat3: the pivot i starts at 0 and is moved twice, as in the source; each branch
      writes all four entries of out. */
  method FromMat3(out: array<real>, mat: array<real>, m: Libm)
    requires Sound(m)
    requires out.Length == 4 && mat.Length == 9
    modifies out
    ensures out[..] == FromMatrix(old(mat[..]), m)
  {
    var mv: Mat3 := mat[..];
    var trace := mv[0] + mv[4] + mv[8];
    if trace > 0.0 {
      SqrtPositive(m, trace + 1.0);
      var root := m.sqrt(trace + 1.0);
      var w := 0.5 * root;
      root := 0.5 / root;
      PositiveTraceEntries(mv, m, root, w);
      Write(out, [(mv[5] - mv[7]) * root, (mv[6] - mv[2]) * root, (mv[1] - mv[3]) * root, w]);
    } else {
      var i := 0;
      if mv[4] > mv[0] {
        i := 1;
      }
      if mv[8] > mv[i * 3 + i] {
        i := 2;
      }
      assert i == LargestDiagonal(mv);
      RadicandAtLeastOne(mv);
      WritePivoted(out, mv, i, m);
    }
  }

  /** fromMat3's second branch for pivot i: out[i] first, then fRoot becomes 1 / (2 fRoot)
      and w, out[j] and out[k] follow. */
  method WritePivoted(out: array<real>, mat: Mat3, i: nat, m: Libm)
    requires Sound(m) && i < 3 && 0.0 < Radicand(mat, i)
    requires out.Length == 4
    modifies out
    ensures out[..] == FromPivot(mat, i, m)
  {
    var j, k := (i + 1) % 3, (i + 2) % 3;
    CyclicIndices(i);
    SqrtPositive(m, Radicand(mat, i));
    var root := m.sqrt(Radicand(mat, i));
    ghost var r0 := root;
    var ri := 0.5 * root;
    out[i] := ri;
    root := 0.5 / root;
    var rw, rj, rk := (mat[j * 3 + k] - mat[k * 3 + j]) * root, (mat[j * 3 + i] + mat[i * 3 + j]) * root,
                      (mat[k * 3 + i] + mat[i * 3 + k]) * root;
    out[3] := rw;
    out[j] := rj;
    out[k] := rk;
    assert out[i] == ri && out[3] == rw && out[j] == rj && out[k] == rk;
    PivotedCovered(mat, i, r0, root, out[..]);
  }

  /** rotationTo: the scratch vector and the two unit vectors of the source are local
      buffers here. */
  method RotationTo(out: array<real>, a: array<real>, b: array<real>, m: Libm)
    requires Sound(m)
    requires out.Length == 4 && a.Length == 3 && b.Length == 3
    modifies out
    ensures out[..] == ShortestRotation(old(a[..]), old(b[..]), m)
  {
    ghost var a0, b0 := a[..], b[..];
    var dot := Vector3.Dot(a[..], b[..]);
    var tmp := new real[3];
    if dot < -0.999999 {
      var xUnit := new real[3];
      xUnit[0], xUnit[1], xUnit[2] := 1.0, 0.0, 0.0;
      Ext3(xUnit[..], [1.0, 0.0, 0.0]);
      Vector3.Cross(tmp, xUnit, a);
      if Vector3.Length(tmp[..], m) < 0.000001 {
        var yUnit := new real[3];
        yUnit[0], yUnit[1], yUnit[2] := 0.0, 1.0, 0.0;
        Ext3(yUnit[..], [0.0, 1.0, 0.0]);
        Vector3.Cross(tmp, yUnit, a);
      }
      Vector3.Normalize(tmp, tmp, m);
      SetAxisAngle(out, tmp, PI, m);
    } else if dot > 0.999999 {
      out[0] := 0.0;
      out[1] := 0.0;
      out[2] := 0.0;
      out[3] := 1.0;
      Ext4(out[..], Identity);
    } else {
      Vector3.Cross(tmp, a, b);
      ghost var c := tmp[..];
      out[0] := tmp[0];
      out[1] := tmp[1];
      out[2] := tmp[2];
      out[3] := 1.0 + dot;
      Ext4(out[..], [c[0], c[1], c[2], 1.0 + dot]);
      Vector4.Normalize(out, out, m);
    }
  }

  /** setAxes: fills the scratch matrix (a local buffer here) with right, up and -view as
      rows, converts it with fromMat3 and normalizes the result. */
  method SetAxes(out: array<real>, view: array<real>, right: array<real>, up: array<real>, m: Libm)
    requires Sound(m)
    requires out.Length == 4 && view.Length == 3 && right.Length == 3 && up.Length == 3
    modifies out
    ensures out[..] == AxesRotation(old(view[..]), old(right[..]), old(up[..]), m)
  {
    var matr := new real[9];
    matr[0] := right[0];
    matr[3] := right[1];
    matr[6] := right[2];
    matr[1] := up[0];
    matr[4] := up[1];
    matr[7] := up[2];
    matr[2] := -view[0];
    matr[5] := -view[1];
    matr[8] := -view[2];
    Ext9(matr[..], AxesMatrix(view[..], right[..], up[..]));
    FromMat3(out, matr, m);
    Vector4.Normalize(out, out, m);
  }
}
