# gl-matrix core in Dafny

This project models the core of gl-matrix, a TypeScript library of small fixed-size vectors,
2x2 matrices and quaternions for graphics code. The library stores every value in a flat numeric
buffer (a `Float32Array` or `Array`). Each operation takes an `out` buffer, writes the result
into it and returns it. `out` may be the same buffer as one of the inputs, so the source reads
and caches its inputs before it writes.

The model has two levels.

- **Value functions** on sequences of reals, with fixed lengths given by subtypes in module
  `Types`: `Vec2`, `Vec3`, `Vec4`, `Quat`, `Mat2`, `Mat2d`, `Mat3` and `Mat4`. Examples are
  `Matrix2.Product`, `Quaternion.Slerped` and `Vector3.AppliedQuat`. Each states, in closed
  form, what the corresponding source function writes.
- **Buffer methods** on `array<real>`, which keep the source's names: `Matrix2.Multiply`,
  `Quaternion.Slerp`, `Vector3.TransformQuat` and so on. Each has `modifies out` and is proved
  to leave `out[..] == F(old(a[..]), old(b[..]), ...)`. The inputs appear under `old`, so the
  contract also covers a call where `out` is the same array as an input (the aliasing
  contract). Where the source has an explicit `out === a` branch (mat2 `transpose`), the
  method has it too.

The properties the library promises are lemmas about the value functions. Examples:

- the algebra of the Hamilton product, conjugate and inverse;
- axis rotations as products with an axis-angle quaternion;
- the shortest-arc and linear fallbacks of `slerp`;
- `transformQuat` as the sandwich q v q*;
- the largest-diagonal pivot of `fromMat3`;
- the two-sided inverse of a 2x2 matrix and the LDU reconstruction;
- the frame and identity properties of the strided `forEach` loop.

Modules:

- `Builtin`:
  - `PI`, and `EPSILON` = 0.000001.
  - `Libm`, a record of the `Math` functions (sin, cos, sqrt, acos, atan2, exp, log).
  - `Sound`, the few facts about those functions that the proofs rely on.
  - `InvSqrt`, which is 1 / sqrt.
- `Types`: the buffer subtypes, and the extensionality lemmas `Ext2`, `Ext3`, `Ext4` and
  `Ext9`.
- `Common`: src/common.ts.
- `Strided`: the `forEach` loop that vec2, vec3 and vec4 share.
- `Vector2`, `Vector3`, `Vector4`, `Matrix2`, `Quaternion`: src/vec2.ts, src/vec3.ts,
  src/vec4.ts, src/mat2.ts and src/quat.ts.

src/vec3.ts and src/vec4.ts import `createArray`, `invSqrt` and `symround` from src/common.ts.
src/quat.ts imports `createArray`, `EPSILON` and `RANDOM` from it, and src/mat2.ts imports
`createArray` and `EPSILON`. src/common.ts exports `EPSILON` and `RANDOM` but not `createArray`,
`invSqrt` or `symround`. The model treats:

- `symround` as the `round` of src/common.ts:19-24;
- `invSqrt(x)` as `1 / sqrt(x)`;
- `createArray(n)` as a fresh zero-filled array of length n.

## Model

| member | source | states |
|---|---|---|
| Common.Equals | src/common.ts:63-64 | the tolerance is absolute while both magnitudes are at most 1, and relative to the larger magnitude otherwise (both directions of each case) |
| Common.EqualsSymmetric | src/common.ts:63-64 | equals(a, b) holds exactly when equals(b, a) does |
| Common.EqualsReflexive | src/common.ts:63-64 | every number equals itself for any non-negative tolerance |
| Common.EqualsExamples | src/common.ts:63-64 | 1 is not 0; 1 equals 1 and 1 + EPSILON/2; 1.0011 is not within 0.001 of 1; 100.5 is within 0.2 of 100.7 |
| Common.MathRound | src/common.ts:19-24 | Math.round lands within one half of its argument, from above: a - 1/2 < r <= a + 1/2 |
| Common.Round | src/common.ts:19-24 | round is within 1/2 of its argument, and for a >= 0 it is round-half-up |
| Common.RoundIsOdd | src/common.ts:19-24 | round(-a) == -round(a) for every a, including negative multiples of one half |
| Common.RoundExamples | src/common.ts:19-24 | round(-5.5) is -6 and round(5.5) is 6, while Math.round(-5.5) is -5 |
| Common.ToRadian | src/common.ts:35-44 | toRadian(a) is a PI/180: r 180 == a PI |
| Common.ToDegree | src/common.ts:37-51 | toDegree(a) is a 180/PI: r PI == a 180 |
| Common.DegreeRadianRoundTrip | src/common.ts:35-51 | toDegree and toRadian invert each other, and 180 degrees is PI radians |
| Strided.Stride | src/vec2.ts:610-616 | a stride of 0 means the vector size; any other stride is used as given |
| Strided.End | src/vec2.ts:618-622 | the loop ends at min(count * stride + offset, length) when count is nonzero and at the length otherwise, never past the length |
| Strided.ApplyFrame | src/vec2.ts:624-630 | no entry outside the visited windows changes |
| Strided.ApplyIdentity | src/vec2.ts:624-630 | a callback returning its argument leaves the array unchanged |
| Strided.ForEachWindow | src/vec2.ts:624-630 | the in-place loop leaves the array equal to the windows rewritten one after another by the callback |
| Vector2.ForEach | src/vec2.ts:605-634 | vec2 forEach is the strided loop with stride default 2 and the end bound above |
| Vector3.ForEach | src/vec3.ts:794-822 | vec3 forEach is the strided loop with stride default 3 |
| Vector4.ForEach | src/vec4.ts:621-652 | vec4 forEach is the strided loop with stride default 4 |
| Matrix2.Create | src/mat2.ts:14-19 | create returns a fresh identity matrix |
| Matrix2.SetIdentity | src/mat2.ts:57-63 | identity writes [1, 0, 0, 1] |
| Matrix2.IdentityNeutral | src/mat2.ts:57-63 | the identity is a two-sided unit for multiply |
| Matrix2.Transpose | src/mat2.ts:108-123 | transpose writes the transposed matrix, including through its `out === a` branch |
| Matrix2.TransposeInvolution | src/mat2.ts:108-123 | transposing twice gives the matrix back, and the determinant is unchanged |
| Matrix2.Inverse | src/mat2.ts:132-152 | there is no inverse exactly when the determinant is 0; otherwise the inverse is the adjoint scaled by 1/det, and it is a two-sided inverse |
| Matrix2.Invert | src/mat2.ts:132-152 | invert returns null and leaves out unchanged on a singular matrix; otherwise it writes the inverse and returns out |
| Matrix2.InverseInvolution | src/mat2.ts:132-152 | the inverse of the inverse is the matrix |
| Matrix2.Determinant | src/mat2.ts:161-180 | a times its adjoint, on either side, is det(a) times the identity, which makes det the number the adjoint inverts by |
| Matrix2.Adjoint | src/mat2.ts:161-170 | adjoint writes the adjugate of the input as it was on entry |
| Matrix2.DeterminantMultiplicative | src/mat2.ts:178-204 | det(a b) == det(a) det(b) |
| Matrix2.Multiply | src/mat2.ts:190-204 | multiply writes the column-major product of the inputs as they were on entry |
| Matrix2.ProductAssociative | src/mat2.ts:190-204 | the product is associative |
| Matrix2.ProductScalarLeft | src/mat2.ts:190-204 | scaling the left factor scales the product |
| Matrix2.ProductScalarRight | src/mat2.ts:190-204 | scaling the right factor scales the product |
| Matrix2.Rotate | src/mat2.ts:214-226 | rotate writes a times the rotation matrix of rad |
| Matrix2.Scale | src/mat2.ts:236-248 | scale writes a with its columns scaled by v |
| Matrix2.FromRotation | src/mat2.ts:261-269 | fromRotation writes the rotation matrix |
| Matrix2.FromScaling | src/mat2.ts:282-288 | fromScaling writes the diagonal scaling matrix |
| Matrix2.FromRotationAndScaling | src/mat2.ts:250-288 | rotate and scale multiply by the matrices that fromRotation and fromScaling build, which are rotate and scale applied to the identity |
| Matrix2.LduFactors | src/mat2.ts:317-323 | LDU keeps L[0], L[1], L[3] and U[2]; L[2] a[0] == a[2], and U takes a[0], a[1] and a[3] - L[2] a[1] |
| Matrix2.LDU | src/mat2.ts:317-323 | LDU writes only L[2], U[0], U[1] and U[3], never writes D, and returns the same three buffers |
| Matrix2.LduReconstructs | src/mat2.ts:317-323 | starting from identity L and U with a[0] != 0, U times L is a again |
| Matrix2.Add | src/mat2.ts:333-339 | add writes the entrywise sum |
| Matrix2.Subtract | src/mat2.ts:349-355 | subtract writes the entrywise difference |
| Matrix2.SumDifference | src/mat2.ts:333-423 | subtracting b undoes adding b, and multiplyScalarAndAdd adds the scaled second matrix |
| Matrix2.MultiplyScalar | src/mat2.ts:400-406 | multiplyScalar writes every entry times b |
| Matrix2.MultiplyScalarAndAdd | src/mat2.ts:417-423 | multiplyScalarAndAdd writes a + b scale |
| Matrix2.EqualsProperties | src/mat2.ts:364-390 | exactEquals is equality, exactEquals implies equals, and equals is symmetric |
| Matrix2.Examples | src/mat2.ts:132-204 | det [1,2,3,4] = -2, its inverse is [-2,1,1.5,-0.5], its adjoint is [4,-2,-3,1], and [1,2,3,4] times [5,6,7,8] is [23,34,31,46] |
| Vector2.SquaredLength | src/vec2.ts:272-276 | the squared length is the dot product with itself, never negative, and 0 for the zero vector |
| Vector2.CrossZLifted | src/vec2.ts:344-349 | cross writes the 3D cross product of the vectors lifted to z = 0, whose z is antisymmetric and 0 for a and any multiple k a of it |
| Vector2.Cross | src/vec2.ts:344-349 | cross writes [0, 0, a0 b1 - a1 b0] from the first two entries of the inputs as they were on entry, so out may be the same buffer as a or b |
| Vector2.NormFactor | src/vec2.ts:311-322 | the normalize factor is 0 for a zero-length vector and otherwise positive, with square equal to 1 over the squared length |
| Vector2.ScaledSquares | src/vec2.ts:311-322 | scaling by k scales the squared length by k squared and the dot with the original by k |
| Vector2.Normalized | src/vec2.ts:311-322 | normalize leaves the zero vector zero; otherwise it gives a unit vector pointing the same way as a |
| Vector2.Normalize | src/vec2.ts:311-322 | normalize writes the normalized input |
| Vector2.Interpolated | src/vec2.ts:360-366 | lerp gives a at t = 0 and b at t = 1 |
| Vector2.Lerp | src/vec2.ts:360-366 | lerp writes the interpolation of the inputs as they were on entry |
| Vector2.TransformMat2 | src/vec2.ts:390-396 | transformMat2 writes m times a |
| Vector2.AppliedMat2Identity | src/vec2.ts:390-396 | the identity matrix leaves a vector unchanged |
| Vector2.AppliedMat2Composes | src/vec2.ts:390-396 | transforming by n and then by m is transforming by the product m n |
| Vector2.AppliedMat2Inverse | src/vec2.ts:390-396 | transforming by m and then by the inverse of m gives the vector back |
| Vector2.TransformMat2d | src/vec2.ts:406-412 | transformMat2d writes m times a plus the translation |
| Vector2.AppliedMat2dSplits | src/vec2.ts:390-412 | transformMat2d is transformMat2 on m[0..3] plus the translation (m[4], m[5]) |
| Vector2.Rotate | src/vec2.ts:457-469 | rotate writes a rotated by rad about the origin b |
| Vector2.RotatedByMatrix | src/vec2.ts:457-469 | rotating about b is translating to b, applying the rotation matrix and translating back, and b itself stays fixed |
| Vector2.RotationKeepsDistance | src/vec2.ts:457-469 | rotation keeps the squared distance to the origin b |
| Vector2.EqualsProperties | src/vec2.ts:529-549 | exactEquals is equality, exactEquals implies equals, and equals is symmetric |
| Vector3.Create | src/vec3.ts:16 | create returns a fresh zero vector |
| Vector3.SquaredLength | src/vec3.ts:294-299 | the squared length is the dot product with itself, never negative, and 0 for the zero vector |
| Vector3.Length | src/vec3.ts:40-45 | the length is the non-negative square root of the squared length |
| Vector3.Add | src/vec3.ts:102-107 | add writes the sum |
| Vector3.Subtract | src/vec3.ts:117-122 | subtract writes the difference |
| Vector3.Scale | src/vec3.ts:234-239 | scale writes a times b |
| Vector3.ScaleAndAdd | src/vec3.ts:250-255 | scaleAndAdd writes a + b scale |
| Vector3.Negate | src/vec3.ts:308-313 | negate writes -a |
| Vector3.Dot | src/vec3.ts:358 | a vector's dot with itself is non-negative, and the dot with the zero vector is 0 |
| Vector3.DotCrossSymmetry | src/vec3.ts:358-380 | dot is symmetric and cross is antisymmetric |
| Vector3.CrossProduct | src/vec3.ts:368-380 | the cross product is orthogonal to both inputs |
| Vector3.Cross | src/vec3.ts:368-380 | cross writes the cross product of the inputs as they were on entry |
| Vector3.NormFactor | src/vec3.ts:336-348 | the normalize factor is 0 for a zero-length vector and otherwise positive, with square equal to 1 over the squared length |
| Vector3.ScaledSquares | src/vec3.ts:336-348 | scaling by k scales the squared length by k squared and the dot with the original by k |
| Vector3.Normalized | src/vec3.ts:336-348 | normalize leaves the zero vector zero; otherwise it gives a unit vector pointing the same way as a |
| Vector3.Normalize | src/vec3.ts:336-348 | normalize writes the normalized input |
| Vector3.Interpolated | src/vec3.ts:391-399 | lerp gives a at t = 0 and b at t = 1 |
| Vector3.Lerp | src/vec3.ts:391-399 | lerp writes the interpolation of the inputs as they were on entry |
| Vector3.Blend | src/vec3.ts:434-487 | a weighted sum of four points with weights (1,0,0,0) is the first point, with (0,0,0,1) the last, and is a itself when all four points are a and the weights add up to 1 |
| Vector3.HermiteWeights | src/vec3.ts:434-453 | the Hermite weights are (1,0,0,0) at t = 0 and (0,0,0,1) at t = 1, and the two point weights add up to 1 |
| Vector3.HermiteCurve | src/vec3.ts:434-453 | hermite gives a at t = 0 and d at t = 1 |
| Vector3.Hermite | src/vec3.ts:434-453 | hermite writes the Hermite blend of the inputs as they were on entry |
| Vector3.BezierWeights | src/vec3.ts:466-487 | the Bernstein weights are (1,0,0,0) at t = 0 and (0,0,0,1) at t = 1, and add up to 1 |
| Vector3.BezierCurve | src/vec3.ts:466-487 | bezier gives a at t = 0, d at t = 1, and a when all control points are a |
| Vector3.Bezier | src/vec3.ts:466-487 | bezier writes the Bezier blend of the inputs as they were on entry |
| Vector3.TransformMat3 | src/vec3.ts:536-544 | transformMat3 writes m times a |
| Vector3.AppliedMat3Identity | src/vec3.ts:536-544 | the identity matrix leaves a vector unchanged |
| Vector3.Mat4Divisor | src/vec3.ts:516-526 | the divisor is the computed w when that is nonzero and exactly 1 when it is 0, so it is never 0 |
| Vector3.AppliedMat4 | src/vec3.ts:516-526 | transformMat4 writes the homogeneous image divided by that divisor |
| Vector3.AppliedMat4NoDivision | src/vec3.ts:516-526 | a zero w, or an affine last row, gives the homogeneous image undivided |
| Vector3.AppliedMat4Identity | src/vec3.ts:516-526 | the identity matrix leaves a vector unchanged |
| Vector3.TransformMat4 | src/vec3.ts:516-526 | transformMat4 writes the divided homogeneous image of the input as it was on entry |
| Vector3.AppliedQuatPureScalar | src/vec3.ts:555-584 | a quaternion with zero vector part, the identity among them, leaves the vector unchanged |
| Vector3.AppliedQuatDoubleCross | src/vec3.ts:555-584 | transformQuat is a + w t + qv x t with t = 2 (qv x a) |
| Vector3.TransformQuat | src/vec3.ts:555-584 | transformQuat writes the double-cross rotation of the input as it was on entry |
| Vector3.RotateX | src/vec3.ts:594-613 | rotateX writes a rotated about the x axis through b |
| Vector3.RotateY | src/vec3.ts:623-642 | rotateY writes a rotated about the y axis through b |
| Vector3.RotateZ | src/vec3.ts:652-671 | rotateZ writes a rotated about the z axis through b |
| Vector3.RotationFixesOriginAndAxis | src/vec3.ts:594-671 | each axis rotation leaves the origin b fixed and the coordinate along its axis unchanged |
| Vector3.RotationZKeepsDistance | src/vec3.ts:652-671 | rotation about z keeps the squared distance to b |
| Vector3.EqualsProperties | src/vec3.ts:721-744 | exactEquals is equality, exactEquals implies equals, and equals is symmetric |
| Vector4.Create | src/vec4.ts:15 | create returns a fresh zero vector |
| Vector4.SquaredLength | src/vec4.ts:307-313 | the squared length is the dot product with itself, never negative, and 0 for the zero vector |
| Vector4.Dot | src/vec4.ts:375-377 | a vector's dot with itself is non-negative, and the dot with the zero vector is 0 |
| Vector4.DotProperties | src/vec4.ts:375-377 | dot is symmetric, additive and homogeneous in its second argument |
| Vector4.Add | src/vec4.ts:91-97 | add writes the sum |
| Vector4.Subtract | src/vec4.ts:107-113 | subtract writes the difference |
| Vector4.Scale | src/vec4.ts:232-238 | scale writes a times b |
| Vector4.ScaleAndAdd | src/vec4.ts:249-255 | scaleAndAdd writes a + b scale |
| Vector4.Negate | src/vec4.ts:322-328 | negate writes -a |
| Vector4.CrossProduct | src/vec4.ts:387-405 | the 4D cross product is orthogonal to each of u, v and w |
| Vector4.Cross | src/vec4.ts:387-405 | cross writes the 4D cross product of the inputs as they were on entry |
| Vector4.NormFactor | src/vec4.ts:352-366 | the normalize factor is 0 for a zero-length vector and otherwise positive, with square equal to 1 over the squared length |
| Vector4.ScaledSquares | src/vec4.ts:352-366 | scaling by k scales the squared length by k squared and the dot with the original by k |
| Vector4.Normalized | src/vec4.ts:352-366 | normalize leaves the zero vector zero; otherwise it gives a unit vector pointing the same way as a |
| Vector4.Normalize | src/vec4.ts:352-366 | normalize writes the normalized input |
| Vector4.Interpolated | src/vec4.ts:416-426 | lerp gives a at t = 0 and b at t = 1 |
| Vector4.InterpolatedIsScaleAndAdd | src/vec4.ts:416-426 | lerp is a + t (b - a) |
| Vector4.Lerp | src/vec4.ts:416-426 | lerp writes the interpolation of the inputs as they were on entry |
| Vector4.AppliedQuatAgrees | src/vec4.ts:486-515 | vec4 transformQuat rotates x, y, z exactly as vec3 transformQuat and keeps w |
| Vector4.TransformQuat | src/vec4.ts:486-515 | transformQuat writes the rotated input as it was on entry |
| Vector4.EqualsProperties | src/vec4.ts:546-571 | exactEquals is equality, exactEquals implies equals, and equals is symmetric |
| Vector4.Examples | src/vec4.ts:232-426 | squaredLength [1,2,3,4] = 30, dot with [5,6,7,8] = 70, scale by 2 is [2,4,6,8], and lerp halfway is [3,4,5,6] |
| Quaternion.Create | src/quat.ts:19-23 | create returns a fresh identity quaternion |
| Quaternion.SetIdentity | src/quat.ts:31-37 | identity writes [0, 0, 0, 1] |
| Quaternion.ProductIdentity | src/quat.ts:31-37 | the identity is a two-sided unit for multiply |
| Quaternion.Multiply | src/quat.ts:108-123 | multiply writes the Hamilton product of the inputs as they were on entry |
| Quaternion.ProductScaledLeft | src/quat.ts:108-123 | scaling the left factor scales the product |
| Quaternion.ProductScaledRight | src/quat.ts:108-123 | scaling the right factor scales the product |
| Quaternion.ConjugateProperties | src/quat.ts:395-401 | conjugate is an involution, reverses products, and a quaternion times its conjugate, on either side, is its squared length as a scalar |
| Quaternion.ConjugateReverses | src/quat.ts:395-401 | conjugate(a b) == conjugate(b) conjugate(a) |
| Quaternion.ConjugateNorm | src/quat.ts:395-401 | a times its conjugate is [0, 0, 0, squaredLength(a)] |
| Quaternion.Conjugate | src/quat.ts:395-401 | conjugate writes the conjugate of the input as it was on entry |
| Quaternion.Inverse | src/quat.ts:370-385 | invert gives zeros for a zero-length quaternion and the conjugate for a unit one |
| Quaternion.InverseTwoSided | src/quat.ts:370-385 | for nonzero length, the inverse is a two-sided inverse under multiply |
| Quaternion.Invert | src/quat.ts:370-385 | invert writes the inverse of the input as it was on entry |
| Quaternion.Examples | src/quat.ts:108-401 | [1,2,3,4] times [5,6,7,8] is [24,48,48,-6], its inverse is [-1,-2,-3,4]/30 and its conjugate [-1,-2,-3,4] |
| Quaternion.AxisAngleProperties | src/quat.ts:48-56 | a zero angle gives the identity, and a unit axis gives a unit quaternion |
| Quaternion.SetAxisAngle | src/quat.ts:48-56 | setAxisAngle writes [sin(rad/2) axis, cos(rad/2)] |
| Quaternion.AxisAngleOf | src/quat.ts:71-85 | getAxisAngle gives the axis [1, 0, 0] when sin(angle/2) <= EPSILON, and otherwise an axis that, times sin(angle/2), is the vector part |
| Quaternion.GetAxisAngle | src/quat.ts:71-85 | getAxisAngle writes that axis and returns that angle |
| Quaternion.RotatedXIsProduct | src/quat.ts:133-148 | rotateX is the product with the axis-angle quaternion about x |
| Quaternion.RotatedYIsProduct | src/quat.ts:158-173 | rotateY is the product with the axis-angle quaternion about y |
| Quaternion.RotatedZIsProduct | src/quat.ts:183-198 | rotateZ is the product with the axis-angle quaternion about z |
| Quaternion.RotateX | src/quat.ts:133-148 | rotateX writes the rotated input as it was on entry |
| Quaternion.RotateY | src/quat.ts:158-173 | rotateY writes the rotated input as it was on entry |
| Quaternion.RotateZ | src/quat.ts:183-198 | rotateZ writes the rotated input as it was on entry |
| Quaternion.AppliedQuatIsSandwich | src/vec3.ts:555-584 | for a unit q, vec3 transformQuat is the vector part of q (v, 0) conjugate(q) computed with quat multiply |
| Quaternion.ShortArc | src/quat.ts:309-317 | slerp's second endpoint, negated when the dot is negative, makes a non-negative dot with a |
| Quaternion.SlerpWeights | src/quat.ts:319-330 | the weights are (1 - t, t) when 1 - cos <= EPSILON, and are (1, 0) at t = 0 and (0, 1) at t = 1 in either branch |
| Quaternion.SphericalWeightsAtEnds | src/quat.ts:319-324 | on the spherical branch sin(omega) is positive and the weights are (1, 0) at t = 0 and (0, 1) at t = 1 |
| Quaternion.SlerpShortestArc | src/quat.ts:309-317 | when dot(a, b) < 0, slerp towards b is slerp towards -b |
| Quaternion.SlerpLinearWhenClose | src/quat.ts:319-335 | when 1 - abs(dot) <= EPSILON, slerp is lerp towards the sign-adjusted b |
| Quaternion.SlerpEndpoints | src/quat.ts:294-338 | slerp gives a at t = 0 and the sign-adjusted b at t = 1 |
| Quaternion.SlerpToItself | src/quat.ts:294-338 | for a unit a, slerp(a, a, t) and slerp(a, -a, t) are a |
| Quaternion.SlerpExample | src/quat.ts:294-338 | slerp([1,2,3,4], [5,6,7,8], 0.5) is [3,4,5,6] |
| Quaternion.Slerp | src/quat.ts:294-338 | slerp writes the slerp of the inputs as they were on entry |
| Quaternion.SqLerpEndpoints | src/quat.ts:721-734 | sqlerp gives a at t = 0 and the sign-adjusted d at t = 1 |
| Quaternion.SqLerp | src/quat.ts:721-734 | sqlerp writes slerp(slerp(a, d, t), slerp(b, c, t), 2t(1 - t)) of the inputs as they were on entry |
| Quaternion.Equals | src/quat.ts:664 | equals holds exactly when abs(dot(b, a)) >= 1 - EPSILON, also with either argument negated, and for a unit quaternion and itself |
| Quaternion.EqualsProperties | src/quat.ts:664 | equals is symmetric, ignores the sign of either argument, and holds for a unit quaternion and itself; [0,1,0,0] equals [0,-1,0,0] |
| Quaternion.LargestDiagonal | src/quat.ts:429-431 | the pivot is the first index of a largest diagonal entry |
| Quaternion.CyclicIndices | src/quat.ts:432-433 | i, (i+1) % 3 and (i+2) % 3 are distinct and together are {0, 1, 2} |
| Quaternion.RadicandAtLeastOne | src/quat.ts:427-435 | with a non-positive trace, the radicand at the largest diagonal is at least 1 |
| Quaternion.FromMatrix | src/quat.ts:413-444 | fromMat3 makes w positive when the trace is positive, and otherwise the component at the largest diagonal |
| Quaternion.FromPivot | src/quat.ts:427-441 | the pivot branch makes the pivot component positive |
| Quaternion.Pivoted | src/quat.ts:427-441 | the pivot component is positive whenever the root is |
| Quaternion.PivotedRelations | src/quat.ts:427-441 | for any root of the radicand, 4 r_i^2 is the radicand, and 4 r_i times each other component is the matching sum or difference of off-diagonal entries |
| Quaternion.FromPivotRelations | src/quat.ts:427-441 | the pivot branch satisfies those relations with the square root as root |
| Quaternion.FromMat3PositiveTrace | src/quat.ts:416-426 | in the positive-trace branch, 4 w^2 is trace + 1 and 4 w times each vector component is the matching difference of off-diagonal entries |
| Quaternion.FromMat3 | src/quat.ts:413-444 | fromMat3 writes each of out[0..3] exactly once, giving FromMatrix of the input as it was on entry |
| Quaternion.WritePivoted | src/quat.ts:427-441 | the pivot branch writes the pivot quaternion |
| Quaternion.Exponential | src/quat.ts:228-244 | exp of a quaternion with zero vector part is [0, 0, 0, e^w] |
| Quaternion.Exp | src/quat.ts:228-244 | exp writes the exponential of the input as it was on entry |
| Quaternion.Logarithm | src/quat.ts:253-268 | ln's scalar part is half the log of the squared length, and a zero vector part stays zero |
| Quaternion.Ln | src/quat.ts:253-268 | ln writes the logarithm of the input as it was on entry |
| Quaternion.PowScalar | src/quat.ts:278-283 | pow of a quaternion with zero vector part is exp(b ln) of its scalar part |
| Quaternion.Pow | src/quat.ts:278-283 | pow writes ln, scale by b, then exp of the input as it was on entry |
| Quaternion.ShortestRotation | src/quat.ts:681-705 | rotationTo gives the identity when dot > 0.999999; a half turn about an axis orthogonal to a when dot < -0.999999; otherwise a unit quaternion with positive w |
| Quaternion.AxisOrthogonal | src/quat.ts:683-688 | normalizing an axis orthogonal to a keeps it orthogonal |
| Quaternion.HalfTurnOrthogonal | src/quat.ts:683-690 | the half-turn quaternion about such an axis has a vector part orthogonal to a |
| Quaternion.RotationToTurnsAOntoB | src/quat.ts:697-704 | for unit a and b with -0.999999 <= dot <= 0.999999, transformQuat(a, rotationTo(a, b)) == b |
| Quaternion.ShortestRotationScaled | src/quat.ts:697-704 | the general branch writes k (a x b, 1 + a . b), and for unit a and b the normalizing factor satisfies k^2 2 (1 + a . b) == 1 |
| Quaternion.RotationTo | src/quat.ts:681-705 | rotationTo writes the shortest rotation for the inputs as they were on entry |
| Quaternion.AxesRotation | src/quat.ts:749-763 | setAxes gives a unit quaternion |
| Quaternion.SetAxes | src/quat.ts:749-763 | setAxes fills the rotation matrix from right, up and -view, converts it with fromMat3 and normalizes |

## Left out

- Floating point: the source computes in IEEE doubles or Float32. The model computes in exact
  reals, so rounding, NaN, infinities and -0 (for example `invert` of the zero quaternion) are
  not modelled.
- `Math` functions: sin, cos, sqrt, acos, atan2, exp and log are uninterpreted fields of
  `Builtin.Libm`. `Builtin.Sound` gives only:
  - sin 0 = 0 and cos 0 = 1;
  - sqrt 0 = 0, and sqrt of a non-negative number is non-negative and squares back;
  - a positive sine of acos strictly inside (-1, 1).
  No property depends on any other value of these functions.
- Quaternion.AxisAngleProperties, Vector2.RotationKeepsDistance, Vector3.RotationZKeepsDistance:
  they assume sin^2 + cos^2 = 1 at the angle used, because `Libm` does not provide it.
- Vector3.RotationZKeepsDistance: the same fact for rotateX and rotateY is not stated; their
  formulas have the same shape.
- Quaternion.AxisAngleOf: the returned angle 2 acos(w) is not related to the quaternion
  beyond the two branches, because acos is uninterpreted.
- Quaternion.Exponential, Quaternion.Logarithm, Quaternion.PowScalar: only the zero vector
  part case and the scalar part of ln are stated; the values of exp, ln and pow otherwise are
  trig and log results.
- Quaternion.ShortestRotation: in the antiparallel branch, only the scalar part (cos of a half
  turn) and the axis's orthogonality to a are stated. That the half turn maps a onto b = -a is
  not stated, because it needs the value of sin at a half turn. The general branch is proved to
  turn a onto b (Quaternion.RotationToTurnsAOntoB).
- Quaternion.SphericalWeightsAtEnds: the values of the spherical weights for t strictly
  between 0 and 1 are not stated.
- Quaternion.AxesRotation: states that the result has unit length, not that it rotates the
  given axes onto each other; that needs the values of sqrt.
- Quaternion.FromMatrix: the relations are stated for the positive-trace branch and for the
  pivot branch with any pivot whose radicand is positive. Not stated: that the quaternion
  represents the matrix when the matrix is a rotation.
- Matrix2.LDU: requires a[0] != 0, because the source divides by it, and requires L and U
  to be different buffers.
- `forEach` (Vector2.ForEach, Vector3.ForEach, Vector4.ForEach):
  - it requires every visited window to lie inside the array; JavaScript would read
    `undefined` past the end and grow the array when writing;
  - the callback and its extra argument are a pure function on one window, so a callback
    with side effects is not modelled;
  - the shared module-level `vec` scratch buffer is a local window.
- Scratch buffers `tmpvec3`, `xUnitVec3`, `yUnitVec3`, `temp1`, `temp2` and `tmp_matr` in
  src/quat.ts are local arrays of the methods that use them, so re-entrancy through them is
  not modelled.
- `random` in every module: depends on the global random source.
- `str`: depends on number-to-string formatting.
- Configuration: `ARRAY_TYPE`, `setMatrixArrayType`, `RANDOM` and `ANGLE_ORDER`.
- `fromEuler`, `getAngle`, `calculateW`, and `length`, `distance`, `frob` and `angle`: their
  values are trigonometric or square-root results. `Vector3.Length` appears only because
  `rotationTo` uses it.
- `clone`, `copy`, `set`, `fromValues`, and aliases such as `mul`, `sub` and `len`: these only
  copy values or rename functions.
- Not part of this model: the vec2, vec3 and vec4 operations outside the core above. These
  include multiply, divide, ceil, floor, min, max, round, inverse, zero, vec3 slerp, and
  transformMat3/transformMat4 for vec2 and vec4.
- Not part of this model: src/quat2.ts, src/mat2d.ts, src/mat3.ts and src/mat4.ts. The
  matrices they define appear only as plain buffers, as inputs to transformMat2d,
  transformMat3, transformMat4 and fromMat3.
