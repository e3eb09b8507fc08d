/**
 * 4D vectors (src/vec4.ts); quat takes its add, scale, dot, lerp, squaredLength, normalize
 * and exactEquals from here. Value functions first, then the buffer operations: each writes
 * its result into `out` and is specified by the value function applied to the inputs as they
 * were on entry, so the contract also covers `out` being one of the inputs.
 */
module Vector4 {
  import opened Builtin
  import opened Common
  import opened Types
  import Vector3
  import Strided

  const Zero: Vec4 := [0.0, 0.0, 0.0, 0.0]

  // ----- values -----

  function Sum(a: Vec4, b: Vec4): Vec4 {
    [a[0] + b[0], a[1] + b[1], a[2] + b[2], a[3] + b[3]]
  }

  function Difference(a: Vec4, b: Vec4): Vec4 {
    [a[0] - b[0], a[1] - b[1], a[2] - b[2], a[3] - b[3]]
  }

  function Scaled(a: Vec4, s: real): Vec4 {
    [a[0] * s, a[1] * s, a[2] * s, a[3] * s]
  }

  function Negated(a: Vec4): Vec4 {
    [-a[0], -a[1], -a[2], -a[3]]
  }

  /** dot: never negative for a vector with itself, and 0 against the zero vector. */
  function Dot(a: Vec4, b: Vec4): (r: real)
    ensures a == b ==> 0.0 <= r
    ensures a == Zero || b == Zero ==> r == 0.0
  {
    SquareNonNegative(a[0]);
    SquareNonNegative(a[1]);
    SquareNonNegative(a[2]);
    SquareNonNegative(a[3]);
    a[0] * b[0] + a[1] * b[1] + a[2] * b[2] + a[3] * b[3]
  }

  /** squaredLength: the dot product of a with itself, never negative, zero for the zero
      vector. */
  function SquaredLength(a: Vec4): (r: real)
    ensures r == Dot(a, a) && 0.0 <= r
    ensures a == Zero ==> r == 0.0
  {
    SquareNonNegative(a[0]);
    SquareNonNegative(a[1]);
    SquareNonNegative(a[2]);
    SquareNonNegative(a[3]);
    var x, y, z, w := a[0], a[1], a[2], a[3];
    x * x + y * y + z * z + w * w
  }

  /** dot is symmetric and bilinear in its second argument for scaling and sums. */
  lemma DotProperties(a: Vec4, b: Vec4, c: Vec4, k: real)
    ensures Dot(a, b) == Dot(b, a)
    ensures Dot(a, Sum(b, c)) == Dot(a, b) + Dot(a, c)
    ensures Dot(a, Scaled(b, k)) == Dot(a, b) * k
    ensures Dot(a, Negated(b)) == -Dot(a, b)
  {
  }

  /** r . v regrouped by the entries of u, for the entries r0..r3 of the 4D cross product
      over the minors A..F. */
  lemma Regroup(u0: real, u1: real, u2: real, u3: real,
                v0: real, v1: real, v2: real, v3: real,
                A: real, B: real, C: real, D: real, E: real, F: real,
                r0: real, r1: real, r2: real, r3: real)
    requires r0 == u1 * F - u2 * E + u3 * D && r1 == -(u0 * F) + u2 * C - u3 * B
    requires r2 == u0 * E - u1 * C + u3 * A && r3 == -(u0 * D) + u1 * B - u2 * A
    ensures r0 * v0 + r1 * v1 + r2 * v2 + r3 * v3
         == -u0 * (v1 * F - v2 * E + v3 * D) + u1 * (v0 * F - v2 * C + v3 * B)
            - u2 * (v0 * E - v1 * C + v3 * A) + u3 * (v0 * D - v1 * B + v2 * A)
  {
  }

  /** A determinant with a repeated row vanishes: v against the 2x2 minors A..F of v and w
      (the groups of Regroup are zero). */
  lemma Minors(v0: real, v1: real, v2: real, v3: real,
               w0: real, w1: real, w2: real, w3: real,
               A: real, B: real, C: real, D: real, E: real, F: real)
    requires A == v0 * w1 - v1 * w0 && B == v0 * w2 - v2 * w0 && C == v0 * w3 - v3 * w0
    requires D == v1 * w2 - v2 * w1 && E == v1 * w3 - v3 * w1 && F == v2 * w3 - v3 * w2
    ensures v1 * F - v2 * E + v3 * D == 0.0
    ensures v0 * F - v2 * C + v3 * B == 0.0
    ensures v0 * E - v1 * C + v3 * A == 0.0
    ensures v0 * D - v1 * B + v2 * A == 0.0
  {
  }

  /** The same for w against the minors of v and w. */
  lemma MinorsSecond(v0: real, v1: real, v2: real, v3: real,
                     w0: real, w1: real, w2: real, w3: real,
                     A: real, B: real, C: real, D: real, E: real, F: real)
    requires A == v0 * w1 - v1 * w0 && B == v0 * w2 - v2 * w0 && C == v0 * w3 - v3 * w0
    requires D == v1 * w2 - v2 * w1 && E == v1 * w3 - v3 * w1 && F == v2 * w3 - v3 * w2
    ensures w1 * F - w2 * E + w3 * D == 0.0
    ensures w0 * F - w2 * C + w3 * B == 0.0
    ensures w0 * E - w1 * C + w3 * A == 0.0
    ensures w0 * D - w1 * B + w2 * A == 0.0
  {
  }

  /** The 4D cross product is orthogonal to u, v and w, written over the six 2x2 minors A..F
      of v and w as the source names them and the four entries r0..r3 it writes. */
  lemma CrossRows(u0: real, u1: real, u2: real, u3: real,
                  v0: real, v1: real, v2: real, v3: real,
                  w0: real, w1: real, w2: real, w3: real,
                  A: real, B: real, C: real, D: real, E: real, F: real,
                  r0: real, r1: real, r2: real, r3: real)
    requires A == v0 * w1 - v1 * w0 && B == v0 * w2 - v2 * w0 && C == v0 * w3 - v3 * w0
    requires D == v1 * w2 - v2 * w1 && E == v1 * w3 - v3 * w1 && F == v2 * w3 - v3 * w2
    requires r0 == u1 * F - u2 * E + u3 * D && r1 == -(u0 * F) + u2 * C - u3 * B
    requires r2 == u0 * E - u1 * C + u3 * A && r3 == -(u0 * D) + u1 * B - u2 * A
    ensures r0 * u0 + r1 * u1 + r2 * u2 + r3 * u3 == 0.0
    ensures r0 * v0 + r1 * v1 + r2 * v2 + r3 * v3 == 0.0
    ensures r0 * w0 + r1 * w1 + r2 * w2 + r3 * w3 == 0.0
  {
    Regroup(u0, u1, u2, u3, v0, v1, v2, v3, A, B, C, D, E, F, r0, r1, r2, r3);
    Minors(v0, v1, v2, v3, w0, w1, w2, w3, A, B, C, D, E, F);
    Regroup(u0, u1, u2, u3, w0, w1, w2, w3, A, B, C, D, E, F, r0, r1, r2, r3);
    MinorsSecond(v0, v1, v2, v3, w0, w1, w2, w3, A, B, C, D, E, F);
  }

  /** The vector `cross` writes: the 4D cross product of three vectors, orthogonal to each
      of them. */
  function CrossProduct(u: Vec4, v: Vec4, w: Vec4): (r: Vec4)
    ensures Dot(r, u) == 0.0 && Dot(r, v) == 0.0 && Dot(r, w) == 0.0
  {
    var A := v[0] * w[1] - v[1] * w[0];
    var B := v[0] * w[2] - v[2] * w[0];
    var C := v[0] * w[3] - v[3] * w[0];
    var D := v[1] * w[2] - v[2] * w[1];
    var E := v[1] * w[3] - v[3] * w[1];
    var F := v[2] * w[3] - v[3] * w[2];
    var G, H, I, J := u[0], u[1], u[2], u[3];
    var r: Vec4 := [H * F - I * E + J * D, -(G * F) + I * C - J * B,
                    G * E - H * C + J * A, -(G * D) + H * B - I * A];
    CrossRows(G, H, I, J, v[0], v[1], v[2], v[3], w[0], w[1], w[2], w[3], A, B, C, D, E, F,
              r[0], r[1], r[2], r[3]);
    r
  }

  /** The scale factor `normalize` applies: invSqrt of the squared length, and 0 (the squared
      length itself) when that is not positive. */
  function NormFactor(a: Vec4, m: Libm): (k: real)
    requires Sound(m)
    ensures SquaredLength(a) == 0.0 ==> k == 0.0
    ensures 0.0 < SquaredLength(a) ==> 0.0 < k && k * k * SquaredLength(a) == 1.0
  {
    var x, y, z, w := a[0], a[1], a[2], a[3];
    var len := x * x + y * y + z * z + w * w;
    if len > 0.0 then InvSqrt(m, len) else len
  }

  lemma ScaledSquares(a: Vec4, k: real)
    ensures SquaredLength(Scaled(a, k)) == k * k * SquaredLength(a)
    ensures Dot(Scaled(a, k), a) == k * SquaredLength(a)
  {
  }

  /** The vector `normalize` writes: the zero vector stays zero; a vector of positive length
      becomes the unit vector pointing the same way. */
  function Normalized(a: Vec4, m: Libm): (r: Vec4)
    requires Sound(m)
    ensures a == Zero ==> r == Zero
    ensures 0.0 < SquaredLength(a) ==> SquaredLength(r) == 1.0 && 0.0 < Dot(r, a)
                                       && Dot(r, a) * Dot(r, a) == SquaredLength(a)
  {
    var k := NormFactor(a, m);
    ScaledSquares(a, k);
    Scaled(a, k)
  }

  /** The vector `lerp` writes: a at t = 0 and b at t = 1. */
  function Interpolated(a: Vec4, b: Vec4, t: real): (r: Vec4)
    ensures t == 0.0 ==> r == a
    ensures t == 1.0 ==> r == b
  {
    var r: Vec4 := [a[0] + t * (b[0] - a[0]), a[1] + t * (b[1] - a[1]),
                    a[2] + t * (b[2] - a[2]), a[3] + t * (b[3] - a[3])];
    if t == 0.0 then Ext4(r, a); r
    else if t == 1.0 then Ext4(r, b); r
    else r
  }

  /** lerp is a + t (b - a), the partner form scaleAndAdd computes. */
  lemma InterpolatedIsScaleAndAdd(a: Vec4, b: Vec4, t: real)
    ensures Interpolated(a, b, t) == Sum(a, Scaled(Difference(b, a), t))
  {
    Ext4(Interpolated(a, b, t), Sum(a, Scaled(Difference(b, a), t)));
  }

  /** The vector `transformQuat` writes: Eisele's form on x, y, z, and w copied from a. */
  function AppliedQuat(a: Vec4, q: Quat): Vec4 {
    var qx, qy, qz, qw := q[0], q[1], q[2], q[3];
    var vx, vy, vz := a[0], a[1], a[2];
    var tx, ty, tz := qy * vz - qz * vy, qz * vx - qx * vz, qx * vy - qy * vx;
    var tx, ty, tz := tx + tx, ty + ty, tz + tz;
    [vx + qw * tx + qy * tz - qz * ty,
     vy + qw * ty + qz * tx - qx * tz,
     vz + qw * tz + qx * ty - qy * tx,
     a[3]]
  }

  /** transformQuat rotates x, y, z exactly as vec3 transformQuat does and copies w. */
  lemma AppliedQuatAgrees(a: Vec4, q: Quat)
    ensures AppliedQuat(a, q)[..3] == Vector3.AppliedQuat(a[..3], q)
    ensures AppliedQuat(a, q)[3] == a[3]
  {
    var r := AppliedQuat(a, q);
    var t := Vector3.AppliedQuat(a[..3], q);
    AppliedQuatEntries(a, q, a[..3]);
    Ext3(r[..3], t);
  }

  lemma AppliedQuatEntries(a: Vec4, q: Quat, v: Vec3)
    requires v[0] == a[0] && v[1] == a[1] && v[2] == a[2]
    ensures var r, t := AppliedQuat(a, q), Vector3.AppliedQuat(v, q);
            r[0] == t[0] && r[1] == t[1] && r[2] == t[2]
  {
  }

  /** exactEquals */
  predicate ExactEquals(a: Vec4, b: Vec4) {
    a[0] == b[0] && a[1] == b[1] && a[2] == b[2] && a[3] == b[3]
  }

  /** equals: every component within EPSILON, relative above magnitude 1. */
  predicate Equals(a: Vec4, b: Vec4) {
    Common.Equals(a[0], b[0], EPSILON) && Common.Equals(a[1], b[1], EPSILON)
    && Common.Equals(a[2], b[2], EPSILON) && Common.Equals(a[3], b[3], EPSILON)
  }

  /** exactEquals is equality of the vectors, and it implies equals; equals is symmetric. */
  lemma EqualsProperties(a: Vec4, b: Vec4)
    ensures ExactEquals(a, b) <==> a == b
    ensures ExactEquals(a, b) ==> Equals(a, b)
    ensures Equals(a, b) <==> Equals(b, a)
  {
    if ExactEquals(a, b) {
      Ext4(a, b);
      EqualsReflexive(a[0], EPSILON);
      EqualsReflexive(a[1], EPSILON);
      EqualsReflexive(a[2], EPSILON);
      EqualsReflexive(a[3], EPSILON);
    }
    EqualsSymmetric(a[0], b[0], EPSILON);
    EqualsSymmetric(a[1], b[1], EPSILON);
    EqualsSymmetric(a[2], b[2], EPSILON);
    EqualsSymmetric(a[3], b[3], EPSILON);
  }

  /** The worked examples: squaredLength [1,2,3,4] = 30, [1,2,3,4] scaled by 2, and the
      midpoint of [1,2,3,4] and [5,6,7,8]. */
  lemma Examples()
    ensures SquaredLength([1.0, 2.0, 3.0, 4.0]) == 30.0
    ensures Dot([1.0, 2.0, 3.0, 4.0], [5.0, 6.0, 7.0, 8.0]) == 70.0
    ensures Scaled([1.0, 2.0, 3.0, 4.0], 2.0) == [2.0, 4.0, 6.0, 8.0]
    ensures Interpolated([1.0, 2.0, 3.0, 4.0], [5.0, 6.0, 7.0, 8.0], 0.5) == [3.0, 4.0, 5.0, 6.0]
  {
    Ext4(Scaled([1.0, 2.0, 3.0, 4.0], 2.0), [2.0, 4.0, 6.0, 8.0]);
    Ext4(Interpolated([1.0, 2.0, 3.0, 4.0], [5.0, 6.0, 7.0, 8.0], 0.5), [3.0, 4.0, 5.0, 6.0]);
  }

  // ----- buffer operations -----

  /** create: a new zero vector. */
  method Create() returns (out: array<real>)
    ensures fresh(out) && out[..] == Zero
  {
    out := new real[4](_ => 0.0);
  }

  method Add(out: array<real>, a: array<real>, b: array<real>)
    requires out.Length == 4 && a.Length == 4 && b.Length == 4
    modifies out
    ensures out[..] == Sum(old(a[..]), old(b[..]))
  {
    ghost var a0, b0 := a[..], b[..];
    out[0] := a[0] + b[0];
    out[1] := a[1] + b[1];
    out[2] := a[2] + b[2];
    out[3] := a[3] + b[3];
    Ext4(out[..], Sum(a0, b0));
  }

  method Subtract(out: array<real>, a: array<real>, b: array<real>)
    requires out.Length == 4 && a.Length == 4 && b.Length == 4
    modifies out
    ensures out[..] == Difference(old(a[..]), old(b[..]))
  {
    ghost var a0, b0 := a[..], b[..];
    out[0] := a[0] - b[0];
    out[1] := a[1] - b[1];
    out[2] := a[2] - b[2];
    out[3] := a[3] - b[3];
    Ext4(out[..], Difference(a0, b0));
  }

  method Scale(out: array<real>, a: array<real>, b: real)
    requires out.Length == 4 && a.Length == 4
    modifies out
    ensures out[..] == Scaled(old(a[..]), b)
  {
    ghost var a0 := a[..];
    out[0] := a[0] * b;
    out[1] := a[1] * b;
    out[2] := a[2] * b;
    out[3] := a[3] * b;
    Ext4(out[..], Scaled(a0, b));
  }

  method ScaleAndAdd(out: array<real>, a: array<real>, b: array<real>, scale: real)
    requires out.Length == 4 && a.Length == 4 && b.Length == 4
    modifies out
    ensures out[..] == Sum(old(a[..]), Scaled(old(b[..]), scale))
  {
    ghost var a0, b0 := a[..], b[..];
    out[0] := a[0] + b[0] * scale;
    out[1] := a[1] + b[1] * scale;
    out[2] := a[2] + b[2] * scale;
    out[3] := a[3] + b[3] * scale;
    Ext4(out[..], Sum(a0, Scaled(b0, scale)));
  }

  method Negate(out: array<real>, a: array<real>)
    requires out.Length == 4 && a.Length == 4
    modifies out
    ensures out[..] == Negated(old(a[..]))
  {
    ghost var a0 := a[..];
    out[0] := -a[0];
    out[1] := -a[1];
    out[2] := -a[2];
    out[3] := -a[3];
    Ext4(out[..], Negated(a0));
  }

  /** normalize, with the zero guard on the squared length. */
  method Normalize(out: array<real>, a: array<real>, m: Libm)
    requires Sound(m)
    requires out.Length == 4 && a.Length == 4
    modifies out
    ensures out[..] == Normalized(old(a[..]), m)
  {
    var x, y, z, w := a[0], a[1], a[2], a[3];
    ghost var av: Vec4 := [x, y, z, w];
    Ext4(av, a[..]);
    var len := NormFactor([x, y, z, w], m);
    var r := Scaled([x, y, z, w], len);
    out[0], out[1], out[2], out[3] := r[0], r[1], r[2], r[3];
    assert out[..] == r;
  }

  /** cross: the six minors of v and w and the entries of u are cached before the first
      write. */
  method Cross(out: array<real>, u: array<real>, v: array<real>, w: array<real>)
    requires out.Length == 4 && u.Length == 4 && v.Length == 4 && w.Length == 4
    modifies out
    ensures out[..] == CrossProduct(old(u[..]), old(v[..]), old(w[..]))
  {
    var uv, vv, wv := [u[0], u[1], u[2], u[3]], [v[0], v[1], v[2], v[3]], [w[0], w[1], w[2], w[3]];
    Ext4(uv, u[..]);
    Ext4(vv, v[..]);
    Ext4(wv, w[..]);
    var r := CrossProduct(uv, vv, wv);
    out[0], out[1], out[2], out[3] := r[0], r[1], r[2], r[3];
    assert out[..] == r;
  }

  method Lerp(out: array<real>, a: array<real>, b: array<real>, t: real)
    requires out.Length == 4 && a.Length == 4 && b.Length == 4
    modifies out
    ensures out[..] == Interpolated(old(a[..]), old(b[..]), t)
  {
    ghost var a0, b0 := a[..], b[..];
    var ax, ay, az, aw := a[0], a[1], a[2], a[3];
    out[0] := ax + t * (b[0] - ax);
    out[1] := ay + t * (b[1] - ay);
    out[2] := az + t * (b[2] - az);
    out[3] := aw + t * (b[3] - aw);
    Ext4(out[..], Interpolated(a0, b0, t));
  }

  /** transformQuat: w is read from a after x, y, z are written, which is harmless because
      those writes never reach a[3]. */
  method TransformQuat(out: array<real>, a: array<real>, q: array<real>)
    requires out.Length == 4 && a.Length == 4 && q.Length == 4
    modifies out
    ensures out[..] == AppliedQuat(old(a[..]), old(q[..]))
  {
    var qx, qy, qz, qw := q[0], q[1], q[2], q[3];
    var vx, vy, vz, vw := a[0], a[1], a[2], a[3];
    ghost var av: Vec4, qv: Quat := [vx, vy, vz, vw], [qx, qy, qz, qw];
    Ext4(av, a[..]);
    Ext4(qv, q[..]);
    var r := AppliedQuat([vx, vy, vz, vw], [qx, qy, qz, qw]);
    out[0], out[1], out[2] := r[0], r[1], r[2];
    out[3] := a[3];
    assert out[..] == r;
  }

  /** forEach over vec4s: stride 0 means 4; the callback `fn` (with its extra argument
      already bound) maps each window of four entries to the four it writes back. */
  method ForEach(a: array<real>, stride: nat, offset: nat, count: nat, fn: seq<real> -> seq<real>)
    requires Strided.KeepsDim(fn, 4)
    requires Strided.InBounds(a.Length, 4, Strided.Stride(stride, 4), offset,
                              Strided.End(a.Length, Strided.Stride(stride, 4), offset, count))
    modifies a
    ensures a[..] == Strided.Apply(old(a[..]), 4, Strided.Stride(stride, 4), offset,
                                   Strided.End(a.Length, Strided.Stride(stride, 4), offset, count), fn)
  {
    var step := stride;
    if step == 0 {
      step := 4;
    }
    var end := if count != 0 then Strided.Min(count * step + offset, a.Length) else a.Length;
    Strided.ForEachWindow(a, 4, step, offset, end, fn);
  }
}
