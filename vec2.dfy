/**
 * 2D vectors (src/vec2.ts). Value functions first, then the buffer operations: each writes
 * its result into `out` and is specified by the value function applied to the inputs as they
 * were on entry, so the contract also covers `out` being one of the inputs.
 */
module Vector2 {
  import opened Builtin
  import opened Common
  import opened Types
  import Matrix2
  import Vector3
  import Strided

  const Zero: Vec2 := [0.0, 0.0]

  // ----- values -----

  function Sum(a: Vec2, b: Vec2): Vec2 {
    [a[0] + b[0], a[1] + b[1]]
  }

  function Difference(a: Vec2, b: Vec2): Vec2 {
    [a[0] - b[0], a[1] - b[1]]
  }

  function Scaled(a: Vec2, s: real): Vec2 {
    [a[0] * s, a[1] * s]
  }

  /** dot */
  function Dot(a: Vec2, b: Vec2): real {
    a[0] * b[0] + a[1] * b[1]
  }

  /** squaredLength: never negative, and zero for the zero vector. */
  function SquaredLength(a: Vec2): (r: real)
    ensures r == Dot(a, a) && 0.0 <= r
    ensures a == Zero ==> r == 0.0
  {
    SquareNonNegative(a[0]);
    SquareNonNegative(a[1]);
    a[0] * a[0] + a[1] * a[1]
  }

  /** The 3-element vector `cross` writes: the z-component a0 b1 - a1 b0 with x and y zero. */
  function CrossZ(a: Vec2, b: Vec2): Vec3 {
    [0.0, 0.0, a[0] * b[1] - a[1] * b[0]]
  }

  /** cross is the 3D cross product of the operands lifted to the plane z = 0; its
      z-component changes sign when the operands swap and vanishes for parallel ones. */
  lemma CrossZLifted(a: Vec2, b: Vec2, k: real)
    ensures CrossZ(a, b) == Vector3.CrossProduct([a[0], a[1], 0.0], [b[0], b[1], 0.0])
    ensures CrossZ(a, b)[2] == -CrossZ(b, a)[2]
    ensures CrossZ(a, Scaled(a, k))[2] == 0.0
  {
    Ext3(CrossZ(a, b), Vector3.CrossProduct([a[0], a[1], 0.0], [b[0], b[1], 0.0]));
  }

  /** The scale factor `normalize` applies: 1 / sqrt of the squared length, and 0 (the
      squared length itself) when that is not positive. */
  function NormFactor(a: Vec2, m: Libm): (k: real)
    requires Sound(m)
    ensures SquaredLength(a) == 0.0 ==> k == 0.0
    ensures 0.0 < SquaredLength(a) ==> 0.0 < k && k * k * SquaredLength(a) == 1.0
  {
    var len := a[0] * a[0] + a[1] * a[1];
    if len > 0.0 then InvSqrt(m, len) else len
  }

  lemma ScaledSquares(a: Vec2, k: real)
    ensures SquaredLength(Scaled(a, k)) == k * k * SquaredLength(a)
    ensures Dot(Scaled(a, k), a) == k * SquaredLength(a)
  {
  }

  /** The vector `normalize` writes: the zero vector stays zero; a vector of positive length
      becomes the unit vector pointing the same way. */
  function Normalized(a: Vec2, m: Libm): (r: Vec2)
    requires Sound(m)
    ensures a == Zero ==> r == Zero
    ensures 0.0 < SquaredLength(a) ==> SquaredLength(r) == 1.0 && 0.0 < Dot(r, a)
                                       && Dot(r, a) * Dot(r, a) == SquaredLength(a)
  {
    var k := NormFactor(a, m);
    ScaledSquares(a, k);
    Scaled(a, k)
  }

  /** The vector `lerp` writes: a at t = 0 and b at t = 1. */
  function Interpolated(a: Vec2, b: Vec2, t: real): (r: Vec2)
    ensures t == 0.0 ==> r == a
    ensures t == 1.0 ==> r == b
  {
    var r: Vec2 := [a[0] + t * (b[0] - a[0]), a[1] + t * (b[1] - a[1])];
    if t == 0.0 then Ext2(r, a); r
    else if t == 1.0 then Ext2(r, b); r
    else r
  }

  /** The vector `transformMat2` writes: the column-major product m * a. */
  function AppliedMat2(a: Vec2, m: Mat2): Vec2 {
    [m[0] * a[0] + m[2] * a[1], m[1] * a[0] + m[3] * a[1]]
  }

  /** The vector `transformMat2d` writes: the linear part applied to a, plus the
      translation. */
  function AppliedMat2d(a: Vec2, m: Mat2d): Vec2 {
    [m[0] * a[0] + m[2] * a[1] + m[4], m[1] * a[0] + m[3] * a[1] + m[5]]
  }

  /** transformMat2d is transformMat2 by the first four entries followed by the translation
      (m[4], m[5]). */
  lemma AppliedMat2dSplits(a: Vec2, m: Mat2d)
    ensures AppliedMat2d(a, m) == Sum(AppliedMat2(a, m[..4]), [m[4], m[5]])
  {
    Ext2(AppliedMat2d(a, m), Sum(AppliedMat2(a, m[..4]), [m[4], m[5]]));
  }

  /** transformMat2 by the identity leaves the vector unchanged. */
  lemma AppliedMat2Identity(a: Vec2)
    ensures AppliedMat2(a, Matrix2.Identity) == a
  {
    Ext2(AppliedMat2(a, Matrix2.Identity), a);
  }

  /** One row of the composition: a row (r0, r1) of m against n a is the row of m n against
      a. Every sum is a named value, so the solver works on a polynomial identity. */
  lemma ComposeRow(r0: real, r1: real, n0: real, n1: real, n2: real, n3: real, x: real, y: real,
                   b0: real, b1: real, p0: real, p2: real)
    requires b0 == n0 * x + n2 * y && b1 == n1 * x + n3 * y
    requires p0 == r0 * n0 + r1 * n1 && p2 == r0 * n2 + r1 * n3
    ensures r0 * b0 + r1 * b1 == p0 * x + p2 * y
  {
  }

  /** Transforming by n and then by m is transforming by the product m * n that mat2
      `multiply` computes. */
  lemma AppliedMat2Composes(a: Vec2, m: Mat2, n: Mat2)
    ensures AppliedMat2(AppliedMat2(a, n), m) == AppliedMat2(a, Matrix2.Product(m, n))
  {
    var b := AppliedMat2(a, n);
    var p := Matrix2.Product(m, n);
    ComposeRow(m[0], m[2], n[0], n[1], n[2], n[3], a[0], a[1], b[0], b[1], p[0], p[2]);
    ComposeRow(m[1], m[3], n[0], n[1], n[2], n[3], a[0], a[1], b[0], b[1], p[1], p[3]);
    Ext2(AppliedMat2(b, m), AppliedMat2(a, p));
  }

  /** Transforming by an invertible matrix and then by what mat2 `invert` returns for it
      gives the vector back. */
  lemma AppliedMat2Inverse(a: Vec2, m: Mat2)
    requires Matrix2.Inverse(m).Some?
    ensures AppliedMat2(AppliedMat2(a, m), Matrix2.Inverse(m).value) == a
  {
    AppliedMat2Composes(a, Matrix2.Inverse(m).value, m);
    AppliedMat2Identity(a);
  }

  /** The point `rotate` writes: a turned by rad about the origin b. */
  function Rotated(a: Vec2, b: Vec2, rad: real, m: Libm): Vec2 {
    var p0, p1 := a[0] - b[0], a[1] - b[1];
    var s, c := m.sin(rad), m.cos(rad);
    [p0 * c - p1 * s + b[0], p0 * s + p1 * c + b[1]]
  }

  /** rotate is mat2 `fromRotation` applied to the offset from b, then moved back to b; so
      the origin of the rotation is a fixed point. */
  lemma RotatedByMatrix(a: Vec2, b: Vec2, rad: real, m: Libm)
    ensures Rotated(a, b, rad, m) == Sum(AppliedMat2(Difference(a, b), Matrix2.RotationMatrix(rad, m)), b)
    ensures Rotated(b, b, rad, m) == b
  {
    Ext2(Rotated(a, b, rad, m), Sum(AppliedMat2(Difference(a, b), Matrix2.RotationMatrix(rad, m)), b));
    Ext2(Rotated(b, b, rad, m), b);
  }

  /** When sin and cos of the angle satisfy sin^2 + cos^2 = 1, rotate keeps the distance to
      the origin of the rotation. */
  lemma RotationKeepsDistance(a: Vec2, b: Vec2, rad: real, m: Libm)
    requires m.sin(rad) * m.sin(rad) + m.cos(rad) * m.cos(rad) == 1.0
    ensures SquaredLength(Difference(Rotated(a, b, rad, m), b)) == SquaredLength(Difference(a, b))
  {
    var s, c := m.sin(rad), m.cos(rad);
    var p := Difference(a, b);
    var r := Difference(Rotated(a, b, rad, m), b);
    assert r[0] == p[0] * c - p[1] * s && r[1] == p[0] * s + p[1] * c;
    calc {
      r[0] * r[0] + r[1] * r[1];
      (p[0] * p[0] + p[1] * p[1]) * (s * s + c * c);
      p[0] * p[0] + p[1] * p[1];
    }
  }

  /** exactEquals */
  predicate ExactEquals(a: Vec2, b: Vec2) {
    a[0] == b[0] && a[1] == b[1]
  }

  /** equals: both components within EPSILON, relative above magnitude 1. */
  predicate Equals(a: Vec2, b: Vec2) {
    Common.Equals(a[0], b[0], EPSILON) && Common.Equals(a[1], b[1], EPSILON)
  }

  /** exactEquals is equality of the vectors, and it implies equals; equals is symmetric. */
  lemma EqualsProperties(a: Vec2, b: Vec2)
    ensures ExactEquals(a, b) <==> a == b
    ensures ExactEquals(a, b) ==> Equals(a, b)
    ensures Equals(a, b) <==> Equals(b, a)
  {
    if ExactEquals(a, b) {
      Ext2(a, b);
      EqualsReflexive(a[0], EPSILON);
      EqualsReflexive(a[1], EPSILON);
    }
    EqualsSymmetric(a[0], b[0], EPSILON);
    EqualsSymmetric(a[1], b[1], EPSILON);
  }

  // ----- buffer operations -----

  /** cross: only the first two entries of each operand are read, and z is computed before
      out[0] and out[1] are cleared, so `out` may be an operand's own storage. */
  method Cross(out: array<real>, a: array<real>, b: array<real>)
    requires out.Length == 3 && a.Length >= 2 && b.Length >= 2
    modifies out
    ensures out[..] == CrossZ(old(a[..2]), old(b[..2]))
  {
    ghost var a0, b0 := a[..2], b[..2];
    var z := a[0] * b[1] - a[1] * b[0];
    out[0] := 0.0;
    out[1] := 0.0;
    out[2] := z;
    Ext3(out[..], CrossZ(a0, b0));
  }

  /** normalize, with the zero guard on the squared length. */
  method Normalize(out: array<real>, a: array<real>, m: Libm)
    requires Sound(m)
    requires out.Length == 2 && a.Length == 2
    modifies out
    ensures out[..] == Normalized(old(a[..]), m)
  {
    var x, y := a[0], a[1];
    ghost var av: Vec2 := [x, y];
    Ext2(av, a[..]);
    var len := NormFactor([x, y], m);
    out[0] := x * len;
    out[1] := y * len;
    Ext2(out[..], Normalized(av, m));
  }

  method Lerp(out: array<real>, a: array<real>, b: array<real>, t: real)
    requires out.Length == 2 && a.Length == 2 && b.Length == 2
    modifies out
    ensures out[..] == Interpolated(old(a[..]), old(b[..]), t)
  {
    ghost var a0, b0 := a[..], b[..];
    var ax, ay := a[0], a[1];
    out[0] := ax + t * (b[0] - ax);
    out[1] := ay + t * (b[1] - ay);
    Ext2(out[..], Interpolated(a0, b0, t));
  }

  method TransformMat2(out: array<real>, a: array<real>, m: array<real>)
    requires out.Length == 2 && a.Length == 2 && m.Length == 4
    modifies out
    ensures out[..] == AppliedMat2(old(a[..]), old(m[..]))
  {
    ghost var a0, m0 := a[..], m[..];
    var x, y := a[0], a[1];
    out[0] := m[0] * x + m[2] * y;
    out[1] := m[1] * x + m[3] * y;
    Ext2(out[..], AppliedMat2(a0, m0));
  }

  method TransformMat2d(out: array<real>, a: array<real>, m: array<real>)
    requires out.Length == 2 && a.Length == 2 && m.Length == 6
    modifies out
    ensures out[..] == AppliedMat2d(old(a[..]), old(m[..]))
  {
    ghost var a0, m0 := a[..], m[..];
    var x, y := a[0], a[1];
    out[0] := m[0] * x + m[2] * y + m[4];
    out[1] := m[1] * x + m[3] * y + m[5];
    Ext2(out[..], AppliedMat2d(a0, m0));
  }

  /** rotate: the offset from the origin b is computed before the first write. */
  method Rotate(out: array<real>, a: array<real>, b: array<real>, rad: real, m: Libm)
    requires out.Length == 2 && a.Length == 2 && b.Length == 2
    modifies out
    ensures out[..] == Rotated(old(a[..]), old(b[..]), rad, m)
  {
    ghost var av, bv := a[..], b[..];
    var p0 := a[0] - b[0];
    var p1 := a[1] - b[1];
    var sinC := m.sin(rad);
    var cosC := m.cos(rad);
    var b0, b1 := b[0], b[1];
    out[0] := p0 * cosC - p1 * sinC + b0;
    out[1] := p0 * sinC + p1 * cosC + b1;
    Ext2(out[..], Rotated(av, bv, rad, m));
  }

  /** forEach over vec2s: stride 0 means 2; the callback `fn` (with its extra argument
      already bound) maps each window of two entries to the two it writes back. */
  method ForEach(a: array<real>, stride: nat, offset: nat, count: nat, fn: seq<real> -> seq<real>)
    requires Strided.KeepsDim(fn, 2)
    requires Strided.InBounds(a.Length, 2, Strided.Stride(stride, 2), offset,
                              Strided.End(a.Length, Strided.Stride(stride, 2), offset, count))
    modifies a
    ensures a[..] == Strided.Apply(old(a[..]), 2, Strided.Stride(stride, 2), offset,
                                   Strided.End(a.Length, Strided.Stride(stride, 2), offset, count), fn)
  {
    var step := stride;
    if step == 0 {
      step := 2;
    }
    var end := if count != 0 then Strided.Min(count * step + offset, a.Length) else a.Length;
    Strided.ForEachWindow(a, 2, step, offset, end, fn);
  }
}
