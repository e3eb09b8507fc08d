/**
 * 3D vectors (src/vec3.ts). Value functions first, then the buffer operations: each writes
 * its result into `out` and is specified by the value function applied to the inputs as they
 * were on entry, so the contract also covers `out` being one of the inputs.
 */
module Vector3 {
  import opened Builtin
  import opened Common
  import opened Types
  import Strided

  const Zero: Vec3 := [0.0, 0.0, 0.0]

  // ----- values -----

  function Sum(a: Vec3, b: Vec3): Vec3 {
    [a[0] + b[0], a[1] + b[1], a[2] + b[2]]
  }

  function Difference(a: Vec3, b: Vec3): Vec3 {
    [a[0] - b[0], a[1] - b[1], a[2] - b[2]]
  }

  function Scaled(a: Vec3, s: real): Vec3 {
    [a[0] * s, a[1] * s, a[2] * s]
  }

  function Negated(a: Vec3): Vec3 {
    [-a[0], -a[1], -a[2]]
  }

  /** dot: never negative for a vector with itself, and 0 against the zero vector. */
  function Dot(a: Vec3, b: Vec3): (r: real)
    ensures a == b ==> 0.0 <= r
    ensures a == Zero || b == Zero ==> r == 0.0
  {
    SquareNonNegative(a[0]);
    SquareNonNegative(a[1]);
    SquareNonNegative(a[2]);
    a[0] * b[0] + a[1] * b[1] + a[2] * b[2]
  }

  /** squaredLength: never negative, and zero for the zero vector. */
  function SquaredLength(a: Vec3): (r: real)
    ensures r == Dot(a, a) && 0.0 <= r
    ensures a == Zero ==> r == 0.0
  {
    SquareNonNegative(a[0]);
    SquareNonNegative(a[1]);
    SquareNonNegative(a[2]);
    a[0] * a[0] + a[1] * a[1] + a[2] * a[2]
  }

  /** length: the square root of the squared length. */
  function Length(a: Vec3, m: Libm): (r: real)
    requires Sound(m)
    ensures 0.0 <= r && r * r == SquaredLength(a)
  {
    var x, y, z := a[0], a[1], a[2];
    m.sqrt(x * x + y * y + z * z)
  }

  /** The vector `cross` writes: orthogonal to both operands. */
  function CrossProduct(a: Vec3, b: Vec3): (r: Vec3)
    ensures Dot(r, a) == 0.0 && Dot(r, b) == 0.0
  {
    [a[1] * b[2] - a[2] * b[1],
     a[2] * b[0] - a[0] * b[2],
     a[0] * b[1] - a[1] * b[0]]
  }

  /** The scale factor `normalize` applies: invSqrt of the squared length, and 0 (the squared
      length itself) when that is not positive. */
  function NormFactor(a: Vec3, m: Libm): (k: real)
    requires Sound(m)
    ensures SquaredLength(a) == 0.0 ==> k == 0.0
    ensures 0.0 < SquaredLength(a) ==> 0.0 < k && k * k * SquaredLength(a) == 1.0
  {
    var len := a[0] * a[0] + a[1] * a[1] + a[2] * a[2];
    if len > 0.0 then InvSqrt(m, len) else len
  }

  /** The vector `normalize` writes: the zero vector stays zero; a vector of positive length
      becomes the unit vector pointing the same way (unit length, and Cauchy-Schwarz holds
      with equality against the input). */
  function Normalized(a: Vec3, m: Libm): (r: Vec3)
    requires Sound(m)
    ensures a == Zero ==> r == Zero
    ensures 0.0 < SquaredLength(a) ==> SquaredLength(r) == 1.0 && 0.0 < Dot(r, a)
                                       && Dot(r, a) * Dot(r, a) == SquaredLength(a)
  {
    var k := NormFactor(a, m);
    ScaledSquares(a, k);
    Scaled(a, k)
  }

  lemma ScaledSquares(a: Vec3, k: real)
    ensures SquaredLength(Scaled(a, k)) == k * k * SquaredLength(a)
    ensures Dot(Scaled(a, k), a) == k * SquaredLength(a)
  {
  }

  /** The vector `lerp` writes: a at t = 0 and b at t = 1. */
  function Interpolated(a: Vec3, b: Vec3, t: real): (r: Vec3)
    ensures t == 0.0 ==> r == a
    ensures t == 1.0 ==> r == b
  {
    var r: Vec3 := [a[0] + t * (b[0] - a[0]), a[1] + t * (b[1] - a[1]), a[2] + t * (b[2] - a[2])];
    if t == 0.0 then Ext3(r, a); r
    else if t == 1.0 then Ext3(r, b); r
    else r
  }

  /** a * f1 + b * f2 + c * f3 + d * f4, componentwise: it picks out a or d for the unit
      weights, and is the common point when all four agree and the weights sum to one. */
  function Blend(a: Vec3, f1: real, b: Vec3, f2: real, c: Vec3, f3: real, d: Vec3, f4: real): (r: Vec3)
    ensures f1 == 1.0 && f2 == 0.0 && f3 == 0.0 && f4 == 0.0 ==> r == a
    ensures f1 == 0.0 && f2 == 0.0 && f3 == 0.0 && f4 == 1.0 ==> r == d
    ensures a == b == c == d && f1 + f2 + f3 + f4 == 1.0 ==> r == a
  {
    var r: Vec3 := [a[0] * f1 + b[0] * f2 + c[0] * f3 + d[0] * f4,
                    a[1] * f1 + b[1] * f2 + c[1] * f3 + d[1] * f4,
                    a[2] * f1 + b[2] * f2 + c[2] * f3 + d[2] * f4];
    if f1 == 1.0 && f2 == 0.0 && f3 == 0.0 && f4 == 0.0 then Ext3(r, a); r
    else if f1 == 0.0 && f2 == 0.0 && f3 == 0.0 && f4 == 1.0 then Ext3(r, d); r
    else if a == b == c == d && f1 + f2 + f3 + f4 == 1.0 then
      assert r[0] == a[0] * (f1 + f2 + f3 + f4);
      assert r[1] == a[1] * (f1 + f2 + f3 + f4);
      assert r[2] == a[2] * (f1 + f2 + f3 + f4);
      Ext3(r, a);
      r
    else r
  }

  /** The cubic Hermite basis weights `hermite` uses: (1, 0, 0, 0) at t = 0, (0, 0, 0, 1) at
      t = 1, and the two point weights always sum to one. */
  function HermiteWeights(t: real): (w: (real, real, real, real))
    ensures t == 0.0 ==> w == (1.0, 0.0, 0.0, 0.0)
    ensures t == 1.0 ==> w == (0.0, 0.0, 0.0, 1.0)
    ensures w.0 + w.3 == 1.0
  {
    var factorTimes2 := t * t;
    (factorTimes2 * (2.0 * t - 3.0) + 1.0,
     factorTimes2 * (t - 2.0) + t,
     factorTimes2 * (t - 1.0),
     factorTimes2 * (3.0 - 2.0 * t))
  }

  /** The vector `hermite` writes: it starts at a and ends at d. */
  function HermiteCurve(a: Vec3, b: Vec3, c: Vec3, d: Vec3, t: real): (r: Vec3)
    ensures t == 0.0 ==> r == a
    ensures t == 1.0 ==> r == d
  {
    var w := HermiteWeights(t);
    Blend(a, w.0, b, w.1, c, w.2, d, w.3)
  }

  /** The cubic Bernstein weights `bezier` uses: (1, 0, 0, 0) at t = 0, (0, 0, 0, 1) at t = 1,
      and they always sum to one. */
  function BezierWeights(t: real): (w: (real, real, real, real))
    ensures t == 0.0 ==> w == (1.0, 0.0, 0.0, 0.0)
    ensures t == 1.0 ==> w == (0.0, 0.0, 0.0, 1.0)
    ensures w.0 + w.1 + w.2 + w.3 == 1.0
  {
    var inverseFactor := 1.0 - t;
    var inverseFactorTimesTwo := inverseFactor * inverseFactor;
    var factorTimes2 := t * t;
    (inverseFactorTimesTwo * inverseFactor,
     3.0 * t * inverseFactorTimesTwo,
     3.0 * factorTimes2 * inverseFactor,
     factorTimes2 * t)
  }

  /** The vector `bezier` writes: it starts at a, ends at d, and stays put when all four
      control points coincide. */
  function BezierCurve(a: Vec3, b: Vec3, c: Vec3, d: Vec3, t: real): (r: Vec3)
    ensures t == 0.0 ==> r == a
    ensures t == 1.0 ==> r == d
    ensures a == b == c == d ==> r == a
  {
    var w := BezierWeights(t);
    Blend(a, w.0, b, w.1, c, w.2, d, w.3)
  }

  /** The vector `transformMat3` writes: the column-major product m * a. */
  function AppliedMat3(a: Vec3, m: Mat3): Vec3 {
    [a[0] * m[0] + a[1] * m[3] + a[2] * m[6],
     a[0] * m[1] + a[1] * m[4] + a[2] * m[7],
     a[0] * m[2] + a[1] * m[5] + a[2] * m[8]]
  }

  const Mat3Identity: Mat3 := [1.0, 0.0, 0.0, 0.0, 1.0, 0.0, 0.0, 0.0, 1.0]
  const Mat4Identity: Mat4 := [1.0, 0.0, 0.0, 0.0, 0.0, 1.0, 0.0, 0.0,
                               0.0, 0.0, 1.0, 0.0, 0.0, 0.0, 0.0, 1.0]

  /** transformMat3 by the identity leaves the vector unchanged. */
  lemma AppliedMat3Identity(a: Vec3)
    ensures AppliedMat3(a, Mat3Identity) == a
  {
    Ext3(AppliedMat3(a, Mat3Identity), a);
  }

  /** The homogeneous coordinate transformMat4 divides by: m's last row against (a, 1),
      replaced by 1 when it is 0 (`w || 1.0`). */
  function Mat4Divisor(a: Vec3, m: Mat4): (w: real)
    ensures w != 0.0
    ensures m[3] * a[0] + m[7] * a[1] + m[11] * a[2] + m[15] != 0.0 ==>
              w == m[3] * a[0] + m[7] * a[1] + m[11] * a[2] + m[15]
    ensures m[3] * a[0] + m[7] * a[1] + m[11] * a[2] + m[15] == 0.0 ==> w == 1.0
  {
    var w := m[3] * a[0] + m[7] * a[1] + m[11] * a[2] + m[15];
    if w == 0.0 then 1.0 else w
  }

  /** m applied to (a, 1) before the division: the 3x3 part applied to a plus the
      translation column. */
  function Homogeneous(a: Vec3, m: Mat4): Vec3 {
    Sum(AppliedMat3(a, [m[0], m[1], m[2], m[4], m[5], m[6], m[8], m[9], m[10]]),
        [m[12], m[13], m[14]])
  }

  /** The vector `transformMat4` writes: each coordinate of m applied to (a, 1), divided by
      the homogeneous coordinate, so that multiplying back by it gives the undivided point. */
  function AppliedMat4(a: Vec3, m: Mat4): (r: Vec3)
    ensures var h, w := Homogeneous(a, m), Mat4Divisor(a, m);
            r[0] * w == h[0] && r[1] * w == h[1] && r[2] * w == h[2]
  {
    var x, y, z := a[0], a[1], a[2];
    var w := Mat4Divisor(a, m);
    [(m[0] * x + m[4] * y + m[8] * z + m[12]) / w,
     (m[1] * x + m[5] * y + m[9] * z + m[13]) / w,
     (m[2] * x + m[6] * y + m[10] * z + m[14]) / w]
  }

  /** When the computed w is 0, transformMat4 uses 1 instead and does not divide; in
      particular an affine m (last row 0, 0, 0, 1) never divides. */
  lemma AppliedMat4NoDivision(a: Vec3, m: Mat4)
    ensures m[3] * a[0] + m[7] * a[1] + m[11] * a[2] + m[15] == 0.0 ==>
              AppliedMat4(a, m) == Homogeneous(a, m)
    ensures m[3] == 0.0 && m[7] == 0.0 && m[11] == 0.0 && m[15] == 1.0 ==>
              AppliedMat4(a, m) == Homogeneous(a, m)
  {
    var w := Mat4Divisor(a, m);
    if w == 1.0 {
      Ext3(AppliedMat4(a, m), Homogeneous(a, m));
    }
  }

  /** transformMat4 by the identity leaves the vector unchanged. */
  lemma AppliedMat4Identity(a: Vec3)
    ensures AppliedMat4(a, Mat4Identity) == a
  {
    AppliedMat4NoDivision(a, Mat4Identity);
    Ext3(Homogeneous(a, Mat4Identity), a);
  }

  /** The vector `transformQuat` writes (Eisele's form): with t = 2 (q x v) for the vector
      part q, the result is v + w t + q x t. A quaternion without vector part, the identity
      among them, leaves the vector unchanged; for a unit quaternion it is the rotation
      q (v, 0) q* (see Quaternion). */
  function AppliedQuat(a: Vec3, q: Quat): Vec3 {
    var qx, qy, qz, qw := q[0], q[1], q[2], q[3];
    var vx, vy, vz := a[0], a[1], a[2];
    var tx, ty, tz := qy * vz - qz * vy, qz * vx - qx * vz, qx * vy - qy * vx;
    var tx, ty, tz := tx + tx, ty + ty, tz + tz;
    [vx + qw * tx + qy * tz - qz * ty,
     vy + qw * ty + qz * tx - qx * tz,
     vz + qw * tz + qx * ty - qy * tx]
  }

  /** A quaternion without vector part, the identity among them, leaves the vector
      unchanged. */
  lemma AppliedQuatPureScalar(a: Vec3, q: Quat)
    requires q[0] == 0.0 && q[1] == 0.0 && q[2] == 0.0
    ensures AppliedQuat(a, q) == a
  {
    Ext3(AppliedQuat(a, q), a);
  }

  /** transformQuat is the double cross product v + 2 w (q x v) + q x (2 (q x v)). */
  lemma AppliedQuatDoubleCross(a: Vec3, q: Quat)
    ensures var qv: Vec3 := [q[0], q[1], q[2]];
            var t := Scaled(CrossProduct(qv, a), 2.0);
            AppliedQuat(a, q) == Sum(Sum(a, Scaled(t, q[3])), CrossProduct(qv, t))
  {
    var qv: Vec3 := [q[0], q[1], q[2]];
    var c := CrossProduct(qv, a);
    Ext3(c, [q[1] * a[2] - q[2] * a[1], q[2] * a[0] - q[0] * a[2], q[0] * a[1] - q[1] * a[0]]);
    var t := Scaled(c, 2.0);
    Ext3(t, [c[0] + c[0], c[1] + c[1], c[2] + c[2]]);
    var u := CrossProduct(qv, t);
    var r := Sum(Sum(a, Scaled(t, q[3])), u);
    assert r[0] == a[0] + q[3] * t[0] + q[1] * t[2] - q[2] * t[1];
    assert r[1] == a[1] + q[3] * t[1] + q[2] * t[0] - q[0] * t[2];
    assert r[2] == a[2] + q[3] * t[2] + q[0] * t[1] - q[1] * t[0];
    Ext3(AppliedQuat(a, q), r);
  }

  /** The point `rotateX` writes: a turned by rad about the x-parallel axis through b. */
  function RotatedX(a: Vec3, b: Vec3, rad: real, m: Libm): Vec3 {
    var p := Difference(a, b);
    Sum([p[0], p[1] * m.cos(rad) - p[2] * m.sin(rad), p[1] * m.sin(rad) + p[2] * m.cos(rad)], b)
  }

  /** The point `rotateY` writes: a turned by rad about the y-parallel axis through b. */
  function RotatedY(a: Vec3, b: Vec3, rad: real, m: Libm): Vec3 {
    var p := Difference(a, b);
    Sum([p[2] * m.sin(rad) + p[0] * m.cos(rad), p[1], p[2] * m.cos(rad) - p[0] * m.sin(rad)], b)
  }

  /** The point `rotateZ` writes: a turned by rad about the z-parallel axis through b. */
  function RotatedZ(a: Vec3, b: Vec3, rad: real, m: Libm): Vec3 {
    var p := Difference(a, b);
    Sum([p[0] * m.cos(rad) - p[1] * m.sin(rad), p[0] * m.sin(rad) + p[1] * m.cos(rad), p[2]], b)
  }

  /** The origin of each axis rotation is a fixed point, and the coordinate along the axis
      never changes. */
  lemma RotationFixesOriginAndAxis(a: Vec3, b: Vec3, rad: real, m: Libm)
    ensures RotatedX(b, b, rad, m) == b && RotatedY(b, b, rad, m) == b && RotatedZ(b, b, rad, m) == b
    ensures RotatedX(a, b, rad, m)[0] == a[0]
    ensures RotatedY(a, b, rad, m)[1] == a[1]
    ensures RotatedZ(a, b, rad, m)[2] == a[2]
  {
    Ext3(RotatedX(b, b, rad, m), b);
    Ext3(RotatedY(b, b, rad, m), b);
    Ext3(RotatedZ(b, b, rad, m), b);
  }

  /** When sin and cos of the angle satisfy sin^2 + cos^2 = 1, rotateZ keeps the distance
      to the origin of the rotation. */
  lemma RotationZKeepsDistance(a: Vec3, b: Vec3, rad: real, m: Libm)
    requires m.sin(rad) * m.sin(rad) + m.cos(rad) * m.cos(rad) == 1.0
    ensures SquaredLength(Difference(RotatedZ(a, b, rad, m), b)) == SquaredLength(Difference(a, b))
  {
    var s, c := m.sin(rad), m.cos(rad);
    var p := Difference(a, b);
    var r := Difference(RotatedZ(a, b, rad, m), b);
    assert r[0] == p[0] * c - p[1] * s && r[1] == p[0] * s + p[1] * c && r[2] == p[2];
    calc {
      r[0] * r[0] + r[1] * r[1];
      (p[0] * p[0] + p[1] * p[1]) * (s * s + c * c);
      p[0] * p[0] + p[1] * p[1];
    }
  }

  /** exactEquals */
  predicate ExactEquals(a: Vec3, b: Vec3) {
    a[0] == b[0] && a[1] == b[1] && a[2] == b[2]
  }

  /** equals: every component within EPSILON, relative above magnitude 1. */
  predicate Equals(a: Vec3, b: Vec3) {
    Common.Equals(a[0], b[0], EPSILON) && Common.Equals(a[1], b[1], EPSILON)
    && Common.Equals(a[2], b[2], EPSILON)
  }

  /** exactEquals is equality of the vectors, and it implies equals; equals is symmetric. */
  lemma EqualsProperties(a: Vec3, b: Vec3)
    ensures ExactEquals(a, b) <==> a == b
    ensures ExactEquals(a, b) ==> Equals(a, b)
    ensures Equals(a, b) <==> Equals(b, a)
  {
    if ExactEquals(a, b) {
      Ext3(a, b);
      EqualsReflexive(a[0], EPSILON);
      EqualsReflexive(a[1], EPSILON);
      EqualsReflexive(a[2], EPSILON);
    }
    EqualsSymmetric(a[0], b[0], EPSILON);
    EqualsSymmetric(a[1], b[1], EPSILON);
    EqualsSymmetric(a[2], b[2], EPSILON);
  }

  /** dot is symmetric and the cross product anti-commutes. */
  lemma DotCrossSymmetry(a: Vec3, b: Vec3)
    ensures Dot(a, b) == Dot(b, a)
    ensures CrossProduct(a, b) == Negated(CrossProduct(b, a))
  {
    Ext3(CrossProduct(a, b), Negated(CrossProduct(b, a)));
  }

  // ----- buffer operations -----

  /** create: a new zero vector. */
  method Create() returns (out: array<real>)
    ensures fresh(out) && out[..] == Zero
  {
    out := new real[3](_ => 0.0);
  }

  method Add(out: array<real>, a: array<real>, b: array<real>)
    requires out.Length == 3 && a.Length == 3 && b.Length == 3
    modifies out
    ensures out[..] == Sum(old(a[..]), old(b[..]))
  {
    ghost var a0, b0 := a[..], b[..];
    out[0] := a[0] + b[0];
    out[1] := a[1] + b[1];
    out[2] := a[2] + b[2];
    Ext3(out[..], Sum(a0, b0));
  }

  method Subtract(out: array<real>, a: array<real>, b: array<real>)
    requires out.Length == 3 && a.Length == 3 && b.Length == 3
    modifies out
    ensures out[..] == Difference(old(a[..]), old(b[..]))
  {
    ghost var a0, b0 := a[..], b[..];
    out[0] := a[0] - b[0];
    out[1] := a[1] - b[1];
    out[2] := a[2] - b[2];
    Ext3(out[..], Difference(a0, b0));
  }

  method Scale(out: array<real>, a: array<real>, b: real)
    requires out.Length == 3 && a.Length == 3
    modifies out
    ensures out[..] == Scaled(old(a[..]), b)
  {
    ghost var a0 := a[..];
    out[0] := a[0] * b;
    out[1] := a[1] * b;
    out[2] := a[2] * b;
    Ext3(out[..], Scaled(a0, b));
  }

  method ScaleAndAdd(out: array<real>, a: array<real>, b: array<real>, scale: real)
    requires out.Length == 3 && a.Length == 3 && b.Length == 3
    modifies out
    ensures out[..] == Sum(old(a[..]), Scaled(old(b[..]), scale))
  {
    ghost var a0, b0 := a[..], b[..];
    out[0] := a[0] + b[0] * scale;
    out[1] := a[1] + b[1] * scale;
    out[2] := a[2] + b[2] * scale;
    Ext3(out[..], Sum(a0, Scaled(b0, scale)));
  }

  method Negate(out: array<real>, a: array<real>)
    requires out.Length == 3 && a.Length == 3
    modifies out
    ensures out[..] == Negated(old(a[..]))
  {
    ghost var a0 := a[..];
    out[0] := -a[0];
    out[1] := -a[1];
    out[2] := -a[2];
    Ext3(out[..], Negated(a0));
  }

  /** normalize, with the zero guard on the squared length. */
  method Normalize(out: array<real>, a: array<real>, m: Libm)
    requires Sound(m)
    requires out.Length == 3 && a.Length == 3
    modifies out
    ensures out[..] == Normalized(old(a[..]), m)
  {
    var x, y, z := a[0], a[1], a[2];
    ghost var av: Vec3 := [x, y, z];
    Ext3(av, a[..]);
    var len := NormFactor([x, y, z], m);
    var r := Scaled([x, y, z], len);
    out[0], out[1], out[2] := r[0], r[1], r[2];
    Ext3(out[..], r);
  }

  /** cross: both operands are cached before the first write. */
  method Cross(out: array<real>, a: array<real>, b: array<real>)
    requires out.Length == 3 && a.Length == 3 && b.Length == 3
    modifies out
    ensures out[..] == CrossProduct(old(a[..]), old(b[..]))
  {
    ghost var a0, b0 := a[..], b[..];
    var x1, y1, z1 := a[0], a[1], a[2];
    var x2, y2, z2 := b[0], b[1], b[2];
    out[0] := y1 * z2 - z1 * y2;
    out[1] := z1 * x2 - x1 * z2;
    out[2] := x1 * y2 - y1 * x2;
    Ext3(out[..], CrossProduct(a0, b0));
  }

  method Lerp(out: array<real>, a: array<real>, b: array<real>, t: real)
    requires out.Length == 3 && a.Length == 3 && b.Length == 3
    modifies out
    ensures out[..] == Interpolated(old(a[..]), old(b[..]), t)
  {
    ghost var a0, b0 := a[..], b[..];
    var ax, ay, az := a[0], a[1], a[2];
    out[0] := ax + t * (b[0] - ax);
    out[1] := ay + t * (b[1] - ay);
    out[2] := az + t * (b[2] - az);
    Ext3(out[..], Interpolated(a0, b0, t));
  }

  method Hermite(out: array<real>, a: array<real>, b: array<real>, c: array<real>, d: array<real>,
                 t: real)
    requires out.Length == 3 && a.Length == 3 && b.Length == 3 && c.Length == 3 && d.Length == 3
    modifies out
    ensures out[..] == HermiteCurve(old(a[..]), old(b[..]), old(c[..]), old(d[..]), t)
  {
    var av, bv, cv, dv := [a[0], a[1], a[2]], [b[0], b[1], b[2]], [c[0], c[1], c[2]], [d[0], d[1], d[2]];
    Ext3(av, a[..]);
    Ext3(bv, b[..]);
    Ext3(cv, c[..]);
    Ext3(dv, d[..]);
    var r := HermiteCurve(av, bv, cv, dv, t);
    out[0], out[1], out[2] := r[0], r[1], r[2];
    assert out[..] == r;
  }

  method Bezier(out: array<real>, a: array<real>, b: array<real>, c: array<real>, d: array<real>,
                t: real)
    requires out.Length == 3 && a.Length == 3 && b.Length == 3 && c.Length == 3 && d.Length == 3
    modifies out
    ensures out[..] == BezierCurve(old(a[..]), old(b[..]), old(c[..]), old(d[..]), t)
  {
    var av, bv, cv, dv := [a[0], a[1], a[2]], [b[0], b[1], b[2]], [c[0], c[1], c[2]], [d[0], d[1], d[2]];
    Ext3(av, a[..]);
    Ext3(bv, b[..]);
    Ext3(cv, c[..]);
    Ext3(dv, d[..]);
    var r := BezierCurve(av, bv, cv, dv, t);
    out[0], out[1], out[2] := r[0], r[1], r[2];
    assert out[..] == r;
  }

  method TransformMat3(out: array<real>, a: array<real>, m: array<real>)
    requires out.Length == 3 && a.Length == 3 && m.Length == 9
    modifies out
    ensures out[..] == AppliedMat3(old(a[..]), old(m[..]))
  {
    ghost var a0, m0 := a[..], m[..];
    var x, y, z := a[0], a[1], a[2];
    out[0] := x * m[0] + y * m[3] + z * m[6];
    out[1] := x * m[1] + y * m[4] + z * m[7];
    out[2] := x * m[2] + y * m[5] + z * m[8];
    Ext3(out[..], AppliedMat3(a0, m0));
  }

  method TransformMat4(out: array<real>, a: array<real>, m: array<real>)
    requires out.Length == 3 && a.Length == 3 && m.Length == 16
    modifies out
    ensures out[..] == AppliedMat4(old(a[..]), old(m[..]))
  {
    var av := [a[0], a[1], a[2]];
    Ext3(av, a[..]);
    var r := AppliedMat4(av, m[..]);
    out[0], out[1], out[2] := r[0], r[1], r[2];
    assert out[..] == r;
  }

  /** transformQuat: the vector and the quaternion are cached before the first write. */
  method TransformQuat(out: array<real>, a: array<real>, q: array<real>)
    requires out.Length == 3 && a.Length == 3 && q.Length == 4
    modifies out
    ensures out[..] == AppliedQuat(old(a[..]), old(q[..]))
  {
    var qx, qy, qz, qw := q[0], q[1], q[2], q[3];
    var vx, vy, vz := a[0], a[1], a[2];
    ghost var av: Vec3, qv: Quat := [vx, vy, vz], [qx, qy, qz, qw];
    Ext3(av, a[..]);
    Ext4(qv, q[..]);
    var r := AppliedQuat([vx, vy, vz], [qx, qy, qz, qw]);
    out[0], out[1], out[2] := r[0], r[1], r[2];
    assert out[..] == r;
  }

  method RotateX(out: array<real>, a: array<real>, b: array<real>, rad: real, m: Libm)
    requires out.Length == 3 && a.Length == 3 && b.Length == 3
    modifies out
    ensures out[..] == RotatedX(old(a[..]), old(b[..]), rad, m)
  {
    var ax, ay, az := a[0], a[1], a[2];
    var ox, oy, oz := b[0], b[1], b[2];
    ghost var av: Vec3, bv: Vec3 := [ax, ay, az], [ox, oy, oz];
    Ext3(av, a[..]);
    Ext3(bv, b[..]);
    var cos, sin := m.cos(rad), m.sin(rad);
    var p0, p1, p2 := ax - ox, ay - oy, az - oz;
    var r0, r1, r2 := p0, p1 * cos - p2 * sin, p1 * sin + p2 * cos;
    ghost var t := RotatedX(av, bv, rad, m);
    Ext3(t, [r0 + ox, r1 + oy, r2 + oz]);
    out[0] := r0 + ox;
    out[1] := r1 + oy;
    out[2] := r2 + oz;
    Ext3(out[..], [r0 + ox, r1 + oy, r2 + oz]);
  }

  method RotateY(out: array<real>, a: array<real>, b: array<real>, rad: real, m: Libm)
    requires out.Length == 3 && a.Length == 3 && b.Length == 3
    modifies out
    ensures out[..] == RotatedY(old(a[..]), old(b[..]), rad, m)
  {
    var ax, ay, az := a[0], a[1], a[2];
    var ox, oy, oz := b[0], b[1], b[2];
    ghost var av: Vec3, bv: Vec3 := [ax, ay, az], [ox, oy, oz];
    Ext3(av, a[..]);
    Ext3(bv, b[..]);
    var cos, sin := m.cos(rad), m.sin(rad);
    var p0, p1, p2 := ax - ox, ay - oy, az - oz;
    var r0, r1, r2 := p2 * sin + p0 * cos, p1, p2 * cos - p0 * sin;
    ghost var t := RotatedY(av, bv, rad, m);
    Ext3(t, [r0 + ox, r1 + oy, r2 + oz]);
    out[0] := r0 + ox;
    out[1] := r1 + oy;
    out[2] := r2 + oz;
    Ext3(out[..], [r0 + ox, r1 + oy, r2 + oz]);
  }

  method RotateZ(out: array<real>, a: array<real>, b: array<real>, rad: real, m: Libm)
    requires out.Length == 3 && a.Length == 3 && b.Length == 3
    modifies out
    ensures out[..] == RotatedZ(old(a[..]), old(b[..]), rad, m)
  {
    var ax, ay, az := a[0], a[1], a[2];
    var ox, oy, oz := b[0], b[1], b[2];
    ghost var av: Vec3, bv: Vec3 := [ax, ay, az], [ox, oy, oz];
    Ext3(av, a[..]);
    Ext3(bv, b[..]);
    var cos, sin := m.cos(rad), m.sin(rad);
    var p0, p1, p2 := ax - ox, ay - oy, az - oz;
    var r0, r1, r2 := p0 * cos - p1 * sin, p0 * sin + p1 * cos, p2;
    ghost var t := RotatedZ(av, bv, rad, m);
    Ext3(t, [r0 + ox, r1 + oy, r2 + oz]);
    out[0] := r0 + ox;
    out[1] := r1 + oy;
    out[2] := r2 + oz;
    Ext3(out[..], [r0 + ox, r1 + oy, r2 + oz]);
  }

  /** forEach over vec3s: stride 0 means 3; the callback `fn` (with its extra argument
      already bound) maps each window of three entries to the three it writes back. */
  method ForEach(a: array<real>, stride: nat, offset: nat, count: nat, fn: seq<real> -> seq<real>)
    requires Strided.KeepsDim(fn, 3)
    requires Strided.InBounds(a.Length, 3, Strided.Stride(stride, 3), offset,
                              Strided.End(a.Length, Strided.Stride(stride, 3), offset, count))
    modifies a
    ensures a[..] == Strided.Apply(old(a[..]), 3, Strided.Stride(stride, 3), offset,
                                   Strided.End(a.Length, Strided.Stride(stride, 3), offset, count), fn)
  {
    var step := stride;
    if step == 0 {
      step := 3;
    }
    var end := if count != 0 then Strided.Min(count * step + offset, a.Length) else a.Length;
    Strided.ForEachWindow(a, 3, step, offset, end, fn);
  }
}
