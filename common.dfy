/**
 * Scalar utilities of src/common.ts: the combined absolute/relative tolerance test, the
 * symmetric rounding that vec3 and vec4 import as `symround`, and degree/radian conversion.
 */
module Common {
  import opened Builtin

  /** Math.abs */
  function Abs(x: real): (r: real)
    ensures 0.0 <= r && (r == x || r == -x)
  {
    if x < 0.0 then -x else x
  }

  /** Math.max of two arguments; Math.max(1, p, q) is Max(1, Max(p, q)). */
  function Max(p: real, q: real): (r: real)
    ensures p <= r && q <= r && (r == p || r == q)
  {
    if p < q then q else p
  }

  /** A product of two positive numbers is positive. */
  lemma PositiveProduct(x: real, y: real)
    requires 0.0 < x && 0.0 < y
    ensures 0.0 < x * y
  {
  }

  /** A square is never negative. */
  lemma SquareNonNegative(x: real)
    ensures 0.0 <= x * x
  {
    if x > 0.0 {
      PositiveProduct(x, x);
    } else if x < 0.0 {
      PositiveProduct(-x, -x);
      assert (-x) * (-x) == x * x;
    }
  }

  /** A product of two positive numbers, named by an atom n, is positive. */
  lemma NamedProductPositive(n: real, x: real, y: real)
    requires n == x * y && 0.0 < x && 0.0 < y
    ensures 0.0 < n
  {
  }

  /** The square of a positive number, named so that its sign survives as a fact about an
      atom. */
  lemma PositiveSquare(x: real) returns (p: real)
    requires 0.0 < x
    ensures p == x * x && 0.0 < p
  {
    p := x * x;
    NamedProductPositive(p, x, x);
  }

  /** The square of any number, named as above. */
  lemma NonNegativeSquare(x: real) returns (p: real)
    ensures p == x * x && 0.0 <= p
  {
    p := x * x;
    SquareNonNegative(x);
  }

  /** Four squares, the first of a positive number, add up to a positive number. */
  lemma SquaresPositive(n: real, x: real, y: real, z: real, w: real)
    requires n == x * x + y * y + z * z + w * w && 0.0 < x
    ensures 0.0 < n
  {
    var p := PositiveSquare(x);
    var q := NonNegativeSquare(y);
    var r := NonNegativeSquare(z);
    var s := NonNegativeSquare(w);
  }

  /** Scaling a sum scales each term. The sum is a named value, which keeps the solver from
      expanding it inside a product. */
  lemma ScaleSum(s: real, x: real, y: real, k: real)
    requires s == x + y
    ensures s * k == x * k + y * k
  {
  }

  /** Equal factors give equal products; the solver does not always substitute an equation
      inside a product by itself. */
  lemma ScaleEqual(x: real, y: real, k: real)
    requires x == y
    ensures x * k == y * k
  {
  }

  /** The same for a sum of four terms. */
  lemma ScaleSum4(s: real, x1: real, x2: real, x3: real, x4: real, k: real)
    requires s == x1 + x2 + x3 + x4
    ensures s * k == x1 * k + x2 * k + x3 * k + x4 * k
  {
  }

  /** equals(a, b, tolerance): |a - b| <= tolerance * max(1, |a|, |b|). The tolerance is
      absolute while both magnitudes are at most 1 and relative to the larger magnitude
      otherwise, as the doc comment of equals promises. */
  function Equals(a: real, b: real, tolerance: real): (r: bool)
    ensures Abs(a) <= 1.0 && Abs(b) <= 1.0 ==> (r <==> Abs(a - b) <= tolerance)
    ensures !(Abs(a) <= 1.0 && Abs(b) <= 1.0) ==> (r <==> Abs(a - b) <= tolerance * Max(Abs(a), Abs(b)))
  {
    Abs(a - b) <= tolerance * Max(1.0, Max(Abs(a), Abs(b)))
  }

  lemma EqualsSymmetric(a: real, b: real, tolerance: real)
    ensures Equals(a, b, tolerance) <==> Equals(b, a, tolerance)
  {
  }

  lemma EqualsReflexive(a: real, tolerance: real)
    requires 0.0 <= tolerance
    ensures Equals(a, a, tolerance)
  {
  }

  /** The cases the library's tests exercise. */
  lemma EqualsExamples()
    ensures !Equals(1.0, 0.0, EPSILON)
    ensures Equals(1.0, 1.0, EPSILON)
    ensures Equals(1.0 + EPSILON / 2.0, 1.0, EPSILON)
    ensures !Equals(1.0011, 1.0, 0.001)
    ensures Equals(100.5, 100.7, 0.2)
  {
  }

  /** Math.round: the nearest integer, halves going towards +infinity. */
  function MathRound(a: real): (r: int)
    ensures a - 0.5 < r as real <= a + 0.5
  {
    (a + 0.5).Floor
  }

  /** `a % 0.5 === 0` on a real: a is a whole multiple of one half. */
  predicate IsHalfMultiple(a: real) {
    (2.0 * a).Floor as real == 2.0 * a
  }

  /** round (symround): round half up for a >= 0; for negative a, a multiple of one half
      is floored, anything else is rounded by Math.round. */
  function Round(a: real): (r: int)
    ensures Abs(r as real - a) <= 0.5
    ensures 0.0 <= a ==> r == MathRound(a)
  {
    if a >= 0.0 then MathRound(a)
    else if IsHalfMultiple(a) then
      HalfMultipleFloor(a);
      a.Floor
    else MathRound(a)
  }

  /** Flooring a multiple of one half moves it down by 0 or by 1/2. */
  lemma HalfMultipleFloor(a: real)
    requires IsHalfMultiple(a)
    ensures a - 0.5 <= a.Floor as real <= a
  {
    var k := (2.0 * a).Floor;
    var q := k / 2;
    assert k == 2 * q + k % 2;
    assert 2.0 * a == 2.0 * (q as real) + (k % 2) as real;
    if k % 2 == 0 {
      assert a == q as real;
      assert a.Floor == q;
    } else {
      assert a == q as real + 0.5;
      assert a.Floor == q;
    }
  }

  /** If a + 1/2 is whole, a is a multiple of one half. */
  lemma WholeShiftIsHalfMultiple(x: real)
    ensures (x + 0.5).Floor as real == x + 0.5 ==> IsHalfMultiple(x)
  {
    var n := (x + 0.5).Floor;
    if n as real == x + 0.5 {
      assert 2.0 * x == (2 * n - 1) as real;
    }
  }

  lemma HalfMultipleNegate(a: real)
    ensures IsHalfMultiple(a) <==> IsHalfMultiple(-a)
  {
    var k := (2.0 * a).Floor;
    if IsHalfMultiple(a) {
      assert (-2.0 * a).Floor == -k;
    }
    if IsHalfMultiple(-a) {
      var j := (2.0 * -a).Floor;
      assert (2.0 * a).Floor == -j;
    }
  }

  /** Rounding is symmetric about zero: round(-a) == -round(a) for every a. */
  lemma RoundIsOdd(a: real)
    ensures Round(-a) == -Round(a)
  {
    if a < 0.0 {
      RoundIsOddNonNeg(-a);
    } else {
      RoundIsOddNonNeg(a);
    }
  }

  lemma RoundIsOddNonNeg(x: real)
    requires 0.0 <= x
    ensures Round(-x) == -Round(x)
  {
    if x == 0.0 {
    } else {
      HalfMultipleNegate(x);
      var n := (x + 0.5).Floor;
      if IsHalfMultiple(x) {
        var k := (2.0 * x).Floor;
        if k % 2 == 0 {
          assert x == (k / 2) as real;
          assert (-x).Floor == -(k / 2);
        } else {
          assert x == (k / 2) as real + 0.5;
          assert (-x).Floor == -(k / 2) - 1;
        }
      } else {
        WholeShiftIsHalfMultiple(x);
        assert (-x + 0.5).Floor == -n;
      }
    }
  }

  /** The test case: symround(-5.5) is -6, where Math.round gives -5. */
  lemma RoundExamples()
    ensures Round(-5.5) == -6 && Round(5.5) == 6
    ensures MathRound(-5.5) == -5
  {
    assert IsHalfMultiple(-5.5);
  }

  /** toRadian: a degrees is to 180 as the result is to PI. */
  function ToRadian(a: real): (r: real)
    ensures r * 180.0 == a * PI
  {
    a * (PI / 180.0)
  }

  /** toDegree: a radians is to PI as the result is to 180. */
  function ToDegree(a: real): (r: real)
    ensures r * PI == a * 180.0
  {
    a * (180.0 / PI)
  }

  /** The two conversions are inverse to each other, and 180 degrees is PI radians. */
  lemma DegreeRadianRoundTrip(a: real)
    ensures ToDegree(ToRadian(a)) == a
    ensures ToRadian(ToDegree(a)) == a
    ensures ToRadian(180.0) == PI && ToDegree(PI) == 180.0
  {
  }
}
