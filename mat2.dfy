/**
 * 2x2 matrices (src/mat2.ts), stored column-major as [m00, m01, m10, m11]. Value functions
 * first, then the buffer operations, each specified by the value function applied to its
 * inputs as they were on entry.
 */
module Matrix2 {
  import opened Builtin
  import opened Common
  import opened Types

  // ----- values -----

  /** The matrix `create` and `identity` produce. */
  const Identity: Mat2 := [1.0, 0.0, 0.0, 1.0]

  /** determinant: the number a times its adjugate is a multiple of the identity by, on
      either side. */
  function Determinant(a: Mat2): (r: real)
    ensures Product(a, Adjugate(a)) == [r, 0.0, 0.0, r]
    ensures Product(Adjugate(a), a) == [r, 0.0, 0.0, r]
  {
    var r := a[0] * a[3] - a[2] * a[1];
    Ext4(Product(a, Adjugate(a)), [r, 0.0, 0.0, r]);
    Ext4(Product(Adjugate(a), a), [r, 0.0, 0.0, r]);
    r
  }

  /** The matrix `transpose` writes: entries 1 and 2 swapped. */
  function Transposed(a: Mat2): Mat2 {
    [a[0], a[2], a[1], a[3]]
  }

  /** The matrix `adjoint` writes: the adjugate (classical adjoint). */
  function Adjugate(a: Mat2): Mat2 {
    [a[3], -a[1], -a[2], a[0]]
  }

  /** The column-major product a * b that `multiply` writes. */
  function Product(a: Mat2, b: Mat2): Mat2 {
    [a[0] * b[0] + a[2] * b[1],
     a[1] * b[0] + a[3] * b[1],
     a[0] * b[2] + a[2] * b[3],
     a[1] * b[2] + a[3] * b[3]]
  }

  function Sum(a: Mat2, b: Mat2): Mat2 {
    [a[0] + b[0], a[1] + b[1], a[2] + b[2], a[3] + b[3]]
  }

  function Difference(a: Mat2, b: Mat2): Mat2 {
    [a[0] - b[0], a[1] - b[1], a[2] - b[2], a[3] - b[3]]
  }

  /** The matrix `multiplyScalar` writes. */
  function ScalarMultiple(a: Mat2, b: real): Mat2 {
    [a[0] * b, a[1] * b, a[2] * b, a[3] * b]
  }

  /** The matrix `multiplyScalarAndAdd` writes: a + b * scale. */
  function ScaledSum(a: Mat2, b: Mat2, scale: real): Mat2 {
    [a[0] + b[0] * scale, a[1] + b[1] * scale, a[2] + b[2] * scale, a[3] + b[3] * scale]
  }

  /** The result of `invert`: None (the source's null) exactly when the determinant is 0;
      otherwise the adjugate scaled by the reciprocal of the determinant, which is a
      two-sided inverse. */
  function Inverse(a: Mat2): (r: Option<Mat2>)
    ensures r.None? <==> Determinant(a) == 0.0
    ensures r.Some? ==> r.value == ScalarMultiple(Adjugate(a), 1.0 / Determinant(a))
    ensures r.Some? ==> Product(a, r.value) == Identity && Product(r.value, a) == Identity
  {
    var det := a[0] * a[3] - a[2] * a[1];
    if det == 0.0 then None
    else
      var k := 1.0 / det;
      var inv: Mat2 := [a[3] * k, -a[1] * k, -a[2] * k, a[0] * k];
      Ext4(inv, ScalarMultiple(Adjugate(a), k));
      assert Determinant(a) == det;
      ProductScalarRight(a, Adjugate(a), k);
      ProductScalarLeft(Adjugate(a), a, k);
      assert det * k == 1.0;
      Ext4(ScalarMultiple([det, 0.0, 0.0, det], k), Identity);
      Some(inv)
  }

  /** Scaling either factor scales the product. */
  lemma ProductScalarRight(a: Mat2, b: Mat2, k: real)
    ensures Product(a, ScalarMultiple(b, k)) == ScalarMultiple(Product(a, b), k)
  {
    var d: Mat2 := [k, 0.0, 0.0, k];
    ScalarMatrix(k, a);
    ScalarMatrix(k, b);
    ScalarMatrix(k, Product(a, b));
    ProductAssociative(a, d, b);
    ProductAssociative(d, a, b);
  }

  lemma ProductScalarLeft(a: Mat2, b: Mat2, k: real)
    ensures Product(ScalarMultiple(a, k), b) == ScalarMultiple(Product(a, b), k)
  {
    var d: Mat2 := [k, 0.0, 0.0, k];
    ScalarMatrix(k, a);
    ScalarMatrix(k, Product(a, b));
    ProductAssociative(d, a, b);
  }

  /** Multiplying by the scalar matrix k I, on either side, scales by k. */
  lemma ScalarMatrix(k: real, a: Mat2)
    ensures Product([k, 0.0, 0.0, k], a) == ScalarMultiple(a, k)
    ensures Product(a, [k, 0.0, 0.0, k]) == ScalarMultiple(a, k)
  {
    Ext4(Product([k, 0.0, 0.0, k], a), ScalarMultiple(a, k));
    Ext4(Product(a, [k, 0.0, 0.0, k]), ScalarMultiple(a, k));
  }

  /** The matrix `rotate` writes: a followed by the rotation by rad (sine and cosine from
      the math library). */
  function Rotated(a: Mat2, rad: real, m: Libm): Mat2 {
    var s, c := m.sin(rad), m.cos(rad);
    [a[0] * c + a[2] * s, a[1] * c + a[3] * s, a[0] * -s + a[2] * c, a[1] * -s + a[3] * c]
  }

  /** The matrix `fromRotation` writes. */
  function RotationMatrix(rad: real, m: Libm): Mat2 {
    var s, c := m.sin(rad), m.cos(rad);
    [c, s, -s, c]
  }

  /** The matrix `scale` writes: column 0 scaled by v[0], column 1 by v[1]. */
  function Scaled(a: Mat2, v: Vec2): Mat2 {
    [a[0] * v[0], a[1] * v[0], a[2] * v[1], a[3] * v[1]]
  }

  /** The matrix `fromScaling` writes. */
  function ScalingMatrix(v: Vec2): Mat2 {
    [v[0], 0.0, 0.0, v[1]]
  }

  /** The entries `LDU` writes, for a[0] != 0: L[2] = a[2] / a[0] below the diagonal of L,
      and the first row and last entry of U; every other entry keeps the value in `l0`/`u0`. */
  function LduFactors(l0: Mat2, u0: Mat2, a: Mat2): (f: (Mat2, Mat2))
    requires a[0] != 0.0
    ensures f.0[0] == l0[0] && f.0[1] == l0[1] && f.0[3] == l0[3] && f.1[2] == u0[2]
    ensures f.0[2] * a[0] == a[2]
    ensures f.1[0] == a[0] && f.1[1] == a[1] && f.1[3] == a[3] - f.0[2] * a[1]
  {
    var l2 := a[2] / a[0];
    (l0[2 := l2], u0[0 := a[0]][1 := a[1]][3 := a[3] - l2 * a[1]])
  }

  /** equals: every entry within EPSILON, relative above magnitude 1. */
  predicate Equals(a: Mat2, b: Mat2) {
    Common.Equals(a[0], b[0], EPSILON) && Common.Equals(a[1], b[1], EPSILON)
    && Common.Equals(a[2], b[2], EPSILON) && Common.Equals(a[3], b[3], EPSILON)
  }

  /** exactEquals */
  predicate ExactEquals(a: Mat2, b: Mat2) {
    a[0] == b[0] && a[1] == b[1] && a[2] == b[2] && a[3] == b[3]
  }

  // ----- properties -----

  /** The identity is neutral for multiply on both sides. */
  lemma IdentityNeutral(a: Mat2)
    ensures Product(Identity, a) == a && Product(a, Identity) == a
  {
    Ext4(Product(Identity, a), a);
    Ext4(Product(a, Identity), a);
  }

  /** multiply is associative. */
  lemma ProductAssociative(a: Mat2, b: Mat2, c: Mat2)
    ensures Product(Product(a, b), c) == Product(a, Product(b, c))
  {
    ExpandedLeft(a, b, c);
    ExpandedRight(a, b, c);
    RegroupEntries(a, b, c);
  }

  /** (a b) c written out entry by entry. */
  lemma ExpandedLeft(a: Mat2, b: Mat2, c: Mat2)
    ensures Product(Product(a, b), c) ==
      [(a[0] * b[0] + a[2] * b[1]) * c[0] + (a[0] * b[2] + a[2] * b[3]) * c[1],
       (a[1] * b[0] + a[3] * b[1]) * c[0] + (a[1] * b[2] + a[3] * b[3]) * c[1],
       (a[0] * b[0] + a[2] * b[1]) * c[2] + (a[0] * b[2] + a[2] * b[3]) * c[3],
       (a[1] * b[0] + a[3] * b[1]) * c[2] + (a[1] * b[2] + a[3] * b[3]) * c[3]]
  {
    var d: Mat2 := [a[0] * b[0] + a[2] * b[1], a[1] * b[0] + a[3] * b[1],
                    a[0] * b[2] + a[2] * b[3], a[1] * b[2] + a[3] * b[3]];
    Ext4(Product(a, b), d);
    Ext4(Product(d, c),
      [(a[0] * b[0] + a[2] * b[1]) * c[0] + (a[0] * b[2] + a[2] * b[3]) * c[1],
       (a[1] * b[0] + a[3] * b[1]) * c[0] + (a[1] * b[2] + a[3] * b[3]) * c[1],
       (a[0] * b[0] + a[2] * b[1]) * c[2] + (a[0] * b[2] + a[2] * b[3]) * c[3],
       (a[1] * b[0] + a[3] * b[1]) * c[2] + (a[1] * b[2] + a[3] * b[3]) * c[3]]);
  }

  /** a (b c) written out entry by entry. */
  lemma ExpandedRight(a: Mat2, b: Mat2, c: Mat2)
    ensures Product(a, Product(b, c)) ==
      [a[0] * (b[0] * c[0] + b[2] * c[1]) + a[2] * (b[1] * c[0] + b[3] * c[1]),
       a[1] * (b[0] * c[0] + b[2] * c[1]) + a[3] * (b[1] * c[0] + b[3] * c[1]),
       a[0] * (b[0] * c[2] + b[2] * c[3]) + a[2] * (b[1] * c[2] + b[3] * c[3]),
       a[1] * (b[0] * c[2] + b[2] * c[3]) + a[3] * (b[1] * c[2] + b[3] * c[3])]
  {
    var d: Mat2 := [b[0] * c[0] + b[2] * c[1], b[1] * c[0] + b[3] * c[1],
                    b[0] * c[2] + b[2] * c[3], b[1] * c[2] + b[3] * c[3]];
    Ext4(Product(b, c), d);
    Ext4(Product(a, d),
      [a[0] * (b[0] * c[0] + b[2] * c[1]) + a[2] * (b[1] * c[0] + b[3] * c[1]),
       a[1] * (b[0] * c[0] + b[2] * c[1]) + a[3] * (b[1] * c[0] + b[3] * c[1]),
       a[0] * (b[0] * c[2] + b[2] * c[3]) + a[2] * (b[1] * c[2] + b[3] * c[3]),
       a[1] * (b[0] * c[2] + b[2] * c[3]) + a[3] * (b[1] * c[2] + b[3] * c[3])]);
  }

  /** The entries of ProductAssociative as polynomial identities. */
  lemma RegroupEntries(a: Mat2, b: Mat2, c: Mat2)
    ensures (a[0] * b[0] + a[2] * b[1]) * c[0] + (a[0] * b[2] + a[2] * b[3]) * c[1]
         == a[0] * (b[0] * c[0] + b[2] * c[1]) + a[2] * (b[1] * c[0] + b[3] * c[1])
    ensures (a[1] * b[0] + a[3] * b[1]) * c[0] + (a[1] * b[2] + a[3] * b[3]) * c[1]
         == a[1] * (b[0] * c[0] + b[2] * c[1]) + a[3] * (b[1] * c[0] + b[3] * c[1])
    ensures (a[0] * b[0] + a[2] * b[1]) * c[2] + (a[0] * b[2] + a[2] * b[3]) * c[3]
         == a[0] * (b[0] * c[2] + b[2] * c[3]) + a[2] * (b[1] * c[2] + b[3] * c[3])
    ensures (a[1] * b[0] + a[3] * b[1]) * c[2] + (a[1] * b[2] + a[3] * b[3]) * c[3]
         == a[1] * (b[0] * c[2] + b[2] * c[3]) + a[3] * (b[1] * c[2] + b[3] * c[3])
  {
  }

  /** The determinant of a product is the product of the determinants. */
  lemma DeterminantMultiplicative(a: Mat2, b: Mat2)
    ensures Determinant(Product(a, b)) == Determinant(a) * Determinant(b)
  {
  }

  /** Transposing twice restores the matrix; the determinant is transpose-invariant. */
  lemma TransposeInvolution(a: Mat2)
    ensures Transposed(Transposed(a)) == a
    ensures Determinant(Transposed(a)) == Determinant(a)
  {
    Ext4(Transposed(Transposed(a)), a);
  }

  /** invert followed by invert gives the matrix back. */
  lemma InverseInvolution(a: Mat2)
    requires Inverse(a).Some?
    ensures Inverse(Inverse(a).value).Some? && Inverse(Inverse(a).value).value == a
  {
    var b := Inverse(a).value;
    DeterminantMultiplicative(a, b);
    assert Determinant(Identity) == 1.0;
    var c := Inverse(b).value;
    // c = c (b a) = (c b) a = a
    ProductAssociative(c, b, a);
    IdentityNeutral(a);
    IdentityNeutral(c);
  }

  /** rotate and scale are multiplications by the matrices fromRotation and fromScaling
      build, and those equal rotate and scale applied to the identity, as their
      documentation says. */
  lemma FromRotationAndScaling(a: Mat2, rad: real, v: Vec2, m: Libm)
    ensures Rotated(a, rad, m) == Product(a, RotationMatrix(rad, m))
    ensures Scaled(a, v) == Product(a, ScalingMatrix(v))
    ensures RotationMatrix(rad, m) == Rotated(Identity, rad, m)
    ensures ScalingMatrix(v) == Scaled(Identity, v)
  {
    Ext4(Rotated(a, rad, m), Product(a, RotationMatrix(rad, m)));
    Ext4(Scaled(a, v), Product(a, ScalingMatrix(v)));
    Ext4(RotationMatrix(rad, m), Rotated(Identity, rad, m));
    Ext4(ScalingMatrix(v), Scaled(Identity, v));
  }

  /** With L and U starting as the identity, the factors LDU writes multiply back to a:
      multiply(U, L) == a. */
  lemma LduReconstructs(a: Mat2)
    requires a[0] != 0.0
    ensures Product(LduFactors(Identity, Identity, a).1, LduFactors(Identity, Identity, a).0) == a
  {
    var f := LduFactors(Identity, Identity, a);
    var p := Product(f.1, f.0);
    assert p[2] == a[0] * f.0[2];
    assert p[3] == a[1] * f.0[2] + (a[3] - f.0[2] * a[1]);
    Ext4(p, a);
  }

  /** subtract undoes add, and multiplyScalarAndAdd is add after multiplyScalar. */
  lemma SumDifference(a: Mat2, b: Mat2, scale: real)
    ensures Difference(Sum(a, b), b) == a
    ensures ScaledSum(a, b, scale) == Sum(a, ScalarMultiple(b, scale))
  {
    Ext4(Difference(Sum(a, b), b), a);
    Ext4(ScaledSum(a, b, scale), Sum(a, ScalarMultiple(b, scale)));
  }

  /** exactEquals is equality and implies equals; equals is symmetric. */
  lemma EqualsProperties(a: Mat2, b: Mat2)
    ensures ExactEquals(a, b) <==> a == b
    ensures ExactEquals(a, b) ==> Equals(a, b)
    ensures Equals(a, b) <==> Equals(b, a)
  {
    if ExactEquals(a, b) {
      Ext4(a, b);
      EqualsReflexive(a[0], EPSILON);
      EqualsReflexive(a[1], EPSILON);
      EqualsReflexive(a[2], EPSILON);
      EqualsReflexive(a[3], EPSILON);
    }
    EqualsSymmetric(a[0], b[0], EPSILON);
    EqualsSymmetric(a[1], b[1], EPSILON);
    EqualsSymmetric(a[2], b[2], EPSILON);
    EqualsSymmetric(a[3], b[3], EPSILON);
  }

  /** The worked examples: det [1,2,3,4] = -2, its inverse and adjugate, the product with
      [5,6,7,8], the singular [1,0,1,0], and the LDU factors of [4,3,6,3]. */
  lemma Examples()
    ensures Determinant([1.0, 2.0, 3.0, 4.0]) == -2.0
    ensures Inverse([1.0, 2.0, 3.0, 4.0]) == Some([-2.0, 1.0, 1.5, -0.5])
    ensures Adjugate([1.0, 2.0, 3.0, 4.0]) == [4.0, -2.0, -3.0, 1.0]
    ensures Product([1.0, 2.0, 3.0, 4.0], [5.0, 6.0, 7.0, 8.0]) == [23.0, 34.0, 31.0, 46.0]
    ensures Inverse([1.0, 0.0, 1.0, 0.0]) == None
    ensures LduFactors(Identity, Identity, [4.0, 3.0, 6.0, 3.0])
            == ([1.0, 0.0, 1.5, 1.0], [4.0, 3.0, 0.0, -1.5])
  {
    var inv := Inverse([1.0, 2.0, 3.0, 4.0]).value;
    Ext4(inv, [-2.0, 1.0, 1.5, -0.5]);
    Ext4(Adjugate([1.0, 2.0, 3.0, 4.0]), [4.0, -2.0, -3.0, 1.0]);
    Ext4(Product([1.0, 2.0, 3.0, 4.0], [5.0, 6.0, 7.0, 8.0]), [23.0, 34.0, 31.0, 46.0]);
    var f := LduFactors(Identity, Identity, [4.0, 3.0, 6.0, 3.0]);
    Ext4(f.0, [1.0, 0.0, 1.5, 1.0]);
    Ext4(f.1, [4.0, 3.0, 0.0, -1.5]);
  }

  // ----- buffer operations -----

  /** create: a new identity matrix (a zero-filled buffer with the diagonal set). */
  method Create() returns (out: array<real>)
    ensures fresh(out) && out[..] == Identity
  {
    out := new real[4](_ => 0.0);
    out[0] := 1.0;
    out[3] := 1.0;
    assert out[..] == [out[0], out[1], out[2], out[3]];
  }

  method SetIdentity(out: array<real>)
    requires out.Length == 4
    modifies out
    ensures out[..] == Identity
  {
    out[0] := 1.0;
    out[1] := 0.0;
    out[2] := 0.0;
    out[3] := 1.0;
    Ext4(out[..], Identity);
  }

  /** transpose: when `out` is `a` only entries 1 and 2 are swapped, through a cached copy. */
  method Transpose(out: array<real>, a: array<real>)
    requires out.Length == 4 && a.Length == 4
    modifies out
    ensures out[..] == Transposed(old(a[..]))
  {
    ghost var a0 := a[..];
    if out == a {
      var a1 := a[1];
      out[1] := a[2];
      out[2] := a1;
    } else {
      out[0] := a[0];
      out[1] := a[2];
      out[2] := a[1];
      out[3] := a[3];
    }
    Ext4(out[..], Transposed(a0));
  }

  /** invert: returns null and leaves `out` alone when the determinant is 0; otherwise writes
      the inverse and returns `out`. */
  method Invert(out: array<real>, a: array<real>) returns (r: array?<real>)
    requires out.Length == 4 && a.Length == 4
    modifies out
    ensures Inverse(old(a[..])).None? ==> r == null && out[..] == old(out[..])
    ensures Inverse(old(a[..])).Some? ==> r == out && out[..] == Inverse(old(a[..])).value
  {
    var a0, a1, a2, a3 := a[0], a[1], a[2], a[3];
    Ext4([a0, a1, a2, a3], a[..]);
    match Inverse([a0, a1, a2, a3]) {
      case None =>
        return null;
      case Some(inv) =>
        out[0], out[1], out[2], out[3] := inv[0], inv[1], inv[2], inv[3];
        assert out[..] == inv;
        return out;
    }
  }

  /** adjoint: a[0] is cached because `out` may be `a`. */
  method Adjoint(out: array<real>, a: array<real>)
    requires out.Length == 4 && a.Length == 4
    modifies out
    ensures out[..] == Adjugate(old(a[..]))
  {
    ghost var av := a[..];
    var a0 := a[0];
    out[0] := a[3];
    out[1] := -a[1];
    out[2] := -a[2];
    out[3] := a0;
    Ext4(out[..], Adjugate(av));
  }

  method Multiply(out: array<real>, a: array<real>, b: array<real>)
    requires out.Length == 4 && a.Length == 4 && b.Length == 4
    modifies out
    ensures out[..] == Product(old(a[..]), old(b[..]))
  {
    var a0, a1, a2, a3 := a[0], a[1], a[2], a[3];
    var b0, b1, b2, b3 := b[0], b[1], b[2], b[3];
    Ext4([a0, a1, a2, a3], a[..]);
    Ext4([b0, b1, b2, b3], b[..]);
    var p := Product([a0, a1, a2, a3], [b0, b1, b2, b3]);
    out[0], out[1], out[2], out[3] := p[0], p[1], p[2], p[3];
    assert out[..] == p;
  }

  method Rotate(out: array<real>, a: array<real>, rad: real, m: Libm)
    requires out.Length == 4 && a.Length == 4
    modifies out
    ensures out[..] == Rotated(old(a[..]), rad, m)
  {
    var a0, a1, a2, a3 := a[0], a[1], a[2], a[3];
    Ext4([a0, a1, a2, a3], a[..]);
    var p := Rotated([a0, a1, a2, a3], rad, m);
    out[0], out[1], out[2], out[3] := p[0], p[1], p[2], p[3];
    assert out[..] == p;
  }

  /** scale: only v[0] and v[1] are read. */
  method Scale(out: array<real>, a: array<real>, v: array<real>)
    requires out.Length == 4 && a.Length == 4 && v.Length >= 2
    modifies out
    ensures out[..] == Scaled(old(a[..]), old(v[..2]))
  {
    var a0, a1, a2, a3 := a[0], a[1], a[2], a[3];
    var v0, v1 := v[0], v[1];
    ghost var av: Mat2, vv: Vec2 := [a0, a1, a2, a3], [v0, v1];
    Ext4(av, a[..]);
    Ext2(vv, v[..2]);
    out[0] := a0 * v0;
    out[1] := a1 * v0;
    out[2] := a2 * v1;
    out[3] := a3 * v1;
    Ext4(out[..], Scaled(av, vv));
  }

  method FromRotation(out: array<real>, rad: real, m: Libm)
    requires out.Length == 4
    modifies out
    ensures out[..] == RotationMatrix(rad, m)
  {
    var s := m.sin(rad);
    var c := m.cos(rad);
    out[0] := c;
    out[1] := s;
    out[2] := -s;
    out[3] := c;
    Ext4(out[..], RotationMatrix(rad, m));
  }

  method FromScaling(out: array<real>, v: array<real>)
    requires out.Length == 4 && v.Length == 2
    modifies out
    ensures out[..] == ScalingMatrix(old(v[..]))
  {
    ghost var vv := v[..];
    out[0] := v[0];
    out[1] := 0.0;
    out[2] := 0.0;
    out[3] := v[1];
    Ext4(out[..], ScalingMatrix(vv));
  }

  /** LDU: writes L[2], U[0], U[1] and U[3] (each read back from the buffers as the source
      does), never touches D, and hands back the same three buffers. */
  method LDU(L: array<real>, D: array<real>, U: array<real>, a: array<real>)
    returns (rl: array<real>, rd: array<real>, ru: array<real>)
    requires L.Length == 4 && D.Length == 4 && U.Length == 4 && a.Length == 4
    requires L != U
    requires a[0] != 0.0
    modifies L, U
    ensures rl == L && rd == D && ru == U
    ensures (L[..], U[..]) == LduFactors(old(L[..]), old(U[..]), old(a[..]))
  {
    ghost var l0, u0, av := L[..], U[..], a[..];
    L[2] := a[2] / a[0];
    U[0] := a[0];
    U[1] := a[1];
    U[3] := a[3] - L[2] * U[1];
    var f := LduFactors(l0, u0, av);
    Ext4(L[..], f.0);
    Ext4(U[..], f.1);
    rl, rd, ru := L, D, U;
  }

  method Add(out: array<real>, a: array<real>, b: array<real>)
    requires out.Length == 4 && a.Length == 4 && b.Length == 4
    modifies out
    ensures out[..] == Sum(old(a[..]), old(b[..]))
  {
    ghost var av, bv := a[..], b[..];
    out[0] := a[0] + b[0];
    out[1] := a[1] + b[1];
    out[2] := a[2] + b[2];
    out[3] := a[3] + b[3];
    Ext4(out[..], Sum(av, bv));
  }

  method Subtract(out: array<real>, a: array<real>, b: array<real>)
    requires out.Length == 4 && a.Length == 4 && b.Length == 4
    modifies out
    ensures out[..] == Difference(old(a[..]), old(b[..]))
  {
    ghost var av, bv := a[..], b[..];
    out[0] := a[0] - b[0];
    out[1] := a[1] - b[1];
    out[2] := a[2] - b[2];
    out[3] := a[3] - b[3];
    Ext4(out[..], Difference(av, bv));
  }

  method MultiplyScalar(out: array<real>, a: array<real>, b: real)
    requires out.Length == 4 && a.Length == 4
    modifies out
    ensures out[..] == ScalarMultiple(old(a[..]), b)
  {
    ghost var av := a[..];
    out[0] := a[0] * b;
    out[1] := a[1] * b;
    out[2] := a[2] * b;
    out[3] := a[3] * b;
    Ext4(out[..], ScalarMultiple(av, b));
  }

  method MultiplyScalarAndAdd(out: array<real>, a: array<real>, b: array<real>, scale: real)
    requires out.Length == 4 && a.Length == 4 && b.Length == 4
    modifies out
    ensures out[..] == ScaledSum(old(a[..]), old(b[..]), scale)
  {
    ghost var av, bv := a[..], b[..];
    out[0] := a[0] + b[0] * scale;
    out[1] := a[1] + b[1] * scale;
    out[2] := a[2] + b[2] * scale;
    out[3] := a[3] + b[3] * scale;
    Ext4(out[..], ScaledSum(av, bv, scale));
  }
}
