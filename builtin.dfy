/**
 * The runtime primitives the library calls but does not define (src/builtin.ts re-exports them
 * from Math). Their values are not modelled: every operation that needs one takes a `Libm`
 * record of them as a parameter, and `Sound` states the few facts of real analysis that some
 * properties rely on.
 */
module Builtin {

  /** Math.PI as the double literal the runtime provides, read as a real number. */
  const PI: real := 3.141592653589793

  /** The library-wide tolerance (src/common.ts:7, src/builtin.ts:22). */
  const EPSILON: real := 0.000001

  /** Math.sin, Math.cos, Math.sqrt, Math.acos, Math.atan2, Math.exp and Math.log. */
  datatype Libm = Libm(
    sin: real -> real,
    cos: real -> real,
    sqrt: real -> real,
    acos: real -> real,
    atan2: (real, real) -> real,
    exp: real -> real,
    log: real -> real)

  /** What the model assumes of the primitives: sin 0 = 0, cos 0 = 1, sqrt 0 = 0, sqrt is
      the non-negative square root on non-negative arguments, and the angle acos returns for an
      argument strictly between -1 and 1 has a positive sine. */
  ghost predicate Sound(m: Libm) {
    && m.sin(0.0) == 0.0
    && m.cos(0.0) == 1.0
    && m.sqrt(0.0) == 0.0
    && (forall x :: 0.0 <= x ==> 0.0 <= m.sqrt(x) && m.sqrt(x) * m.sqrt(x) == x)
    && (forall x :: -1.0 < x < 1.0 ==> 0.0 < m.sin(m.acos(x)))
  }

  /** sqrt of a positive number is positive. */
  lemma SqrtPositive(m: Libm, x: real)
    requires Sound(m) && 0.0 < x
    ensures 0.0 < m.sqrt(x)
  {
    var s := m.sqrt(x);
    assert 0.0 <= s && s * s == x;
  }

  /** invSqrt(x) = 1 / sqrt(x), the normalisation divisor imported by vec3, vec4 and quat. */
  function InvSqrt(m: Libm, x: real): (r: real)
    requires Sound(m)
    requires 0.0 < x
    ensures 0.0 < r && r * r * x == 1.0
  {
    var s := m.sqrt(x);
    assert s * s == x;
    1.0 / s
  }
}
