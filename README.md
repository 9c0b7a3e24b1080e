# ewq geometry core in Dafny

A Dafny model of the exact-algebra core of `ewq`, a small Rust geometry library. Its scalar
parameter `F: Float` is taken to be `real`, so every kept operation is a polynomial or a quotient
over the reals. Wherever the library divides, and IEEE arithmetic would give NaN or infinity,
the model has a `!= 0.0` precondition.

The model covers:

- quaternions (`Quat`): the Hamilton product, conjugate, squared norm (`sqrt_norm`), reciprocal,
  `combine`, `rotate`, and the componentwise operators with their in-place twins;
- the generic bounding box `Aabb<F, V>`, whose `is_right`/`is_inside` loops run over the axes of a
  `Vector` type;
- the fixed 3D box `Aabb3`, with the derived lexicographic order of `Vec3`;
- 2D, 3D and 4D vectors;
- complex numbers;
- the 3x4 row matrix;
- rigid transforms `QuatT`;
- rotation angles `Ang3`.

Files and modules:

- `reals.dfy` (`Reals`): signs of squares and of sums of squares, and the inverse of a product.
- `hamilton.dfy` (`Hamilton`): the degree-3 and degree-4 polynomial identities behind the
  quaternion laws, stated over plain reals.
- `vec_d2.dfy`, `vec_d3.dfy`, `vec_d4.dfy` (`VecD2`, `VecD3`, `VecD4`): vectors.
- `quat_rot.dfy` (`QuatRot`): `Quat` and its operations.
- `quat_algebra.dfy` (`QuatAlgebra`): their laws.
- `complex.dfy` (`Complexes`), `aabb.dfy` (`AabbGeneric`), `aabb_d3.dfy` (`AabbD3`),
  `mat3x4.dfy` (`Mat3x4s`), `quat_tsl.dfy` (`QuatTsl`) and `ang_d3.dfy` (`AngD3`).

Modelling choices:

- Value types that the library copies are datatypes.
- An operation taking `&mut self` (`scale`, `invert`, every `*Assign`) is a method of a small
  class holding the same fields, such as `MutVec3` or `MutQuat`. Each method overwrites the fields
  in the library's order. Its postcondition relates the new value to the pure operator applied to
  the old value.
- A `Vector` of the generic box is a `seq<real>`, and its `SIZE` is a parameter `size`. The
  trait's promise that `get(i)` is defined below `SIZE` is the precondition `Fits(size)`.

## Model

| member | source | states |
|---|---|---|
| QuatAlgebra.SqrtNormSign | src/quat/rot.rs:113-117 | The squared norm is never negative, and it is positive exactly when the quaternion is not `zero()`. |
| QuatAlgebra.ProductIdentity | src/quat/rot.rs:80-87 | `identity()` is a two-sided unit of `product`. |
| QuatAlgebra.ProductIJ | src/quat/rot.rs:137-155 | `i * j == k` on quaternions built with `from_parts`. |
| QuatAlgebra.ProductJI | src/quat/rot.rs:137-155 | `j * i == -k`. |
| QuatAlgebra.ProductNotCommutative | src/quat/rot.rs:137-155 | The product is not commutative: `i * j != j * i`. |
| QuatAlgebra.ProductAssociative | src/quat/rot.rs:137-155 | The Hamilton product is associative. |
| QuatAlgebra.ProductScalesRight | src/quat/rot.rs:137-155 | Scaling the right factor scales the product. |
| QuatAlgebra.ProductScalesLeft | src/quat/rot.rs:137-155 | Scaling the left factor scales the product. |
| QuatAlgebra.ConjugateProperties | src/quat/rot.rs:98-105 | Conjugation is an involution. It keeps `w`, negates `v` and preserves the squared norm. |
| QuatAlgebra.ConjugateOfProduct | src/quat/rot.rs:98-105 | The conjugate of `a * b` is `b̄ * ā`. |
| QuatAlgebra.ProductWithConjugate | src/quat/rot.rs:98-117 | `q * q̄` and `q̄ * q` have a zero vector part and scalar part `sqrt_norm(q)`. |
| QuatAlgebra.DivIsMulInverse | src/quat/rot.rs:236-249 | Division by a nonzero scalar is multiplication by its inverse. |
| QuatAlgebra.SqrtNormScales | src/quat/rot.rs:210-223 | Scaling by `k` multiplies the squared norm by `k²`. |
| QuatAlgebra.ReciprocalIsInverse | src/quat/rot.rs:125-129 | For a nonzero squared norm, the reciprocal is a two-sided inverse under `product`. |
| QuatAlgebra.ReciprocalSqrtNorm | src/quat/rot.rs:125-129 | The reciprocal's squared norm is the inverse of the quaternion's. |
| QuatAlgebra.SqrtNormMultiplicative | src/quat/rot.rs:113-117 | `sqrt_norm(a * b) == sqrt_norm(a) * sqrt_norm(b)`. |
| QuatAlgebra.ReciprocalAsScaling | src/quat/rot.rs:125-129 | The reciprocal is the conjugate scaled by the inverse squared norm. |
| QuatAlgebra.ReciprocalsProduct | src/quat/rot.rs:125-129 | `b⁻¹ * a⁻¹` is `b̄ * ā` scaled by both inverse squared norms. |
| QuatAlgebra.ReciprocalOfProduct | src/quat/rot.rs:125-129 | The product of two invertible quaternions is invertible, and `(a * b)⁻¹ == b⁻¹ * a⁻¹`. |
| QuatAlgebra.MulMul | src/quat/rot.rs:210-223 | Scaling twice is scaling by the product of the two factors. |
| QuatAlgebra.SandwichByConjugateIsPure | src/quat/rot.rs:63-69 | `q * (p, 0) * q̄` has a zero scalar part. |
| QuatAlgebra.RotateIsPure | src/quat/rot.rs:63-69 | `q * (p, 0) * q⁻¹` is the pure quaternion of `rotate(p)`, so `rotate` drops nothing. |
| QuatAlgebra.IdentitySqrtNorm | src/quat/rot.rs:80-87 | The identity has unit squared norm. |
| QuatAlgebra.IdentityIsUniqueUnit | src/quat/rot.rs:80-87 | The identity multiplies `r` into the identity exactly when `r` is the identity. |
| QuatAlgebra.ReciprocalOfIdentity | src/quat/rot.rs:125-129 | The identity is its own reciprocal. |
| QuatAlgebra.RotateByIdentity | src/quat/rot.rs:63-69 | Rotating by `identity()` changes no vector. |
| QuatAlgebra.RotatePreservesSqrtMagnitude | src/quat/rot.rs:63-69 | Rotation by any nonzero quaternion preserves the squared length. |
| QuatAlgebra.CombineRotates | src/quat/rot.rs:131-135 | `a.combine(b)` is invertible, and rotating by it rotates by `a` first and then by `b`. |
| QuatAlgebra.RotateByReciprocalUndoes | src/quat/rot.rs:125-129 | Rotating by the reciprocal undoes a rotation. |
| QuatAlgebra.ReciprocalOfUnitIsConjugate | src/quat/rot.rs:98-129 | When `sqrt_norm(q) == 1`, `reciprocal(q)` is `conjugate(q)`. |
| QuatAlgebra.ReciprocalInvolution | src/quat/rot.rs:125-129 | The reciprocal of an invertible quaternion is invertible, and its reciprocal is the quaternion itself. |
| QuatAlgebra.UnitConjugateRoundTrip | src/quat/rot.rs:63-129 | For a unit `q`, rotating by `q` and by `conjugate(q)` undo each other, in both orders. |
| QuatAlgebra.ProductSubRight | src/quat/rot.rs:137-155 | The product distributes over a difference in its right factor. |
| QuatAlgebra.ProductSubLeft | src/quat/rot.rs:137-155 | The product distributes over a difference in its left factor. |
| QuatAlgebra.RotateSub | src/quat/rot.rs:63-69 | Rotation maps the difference of two points to the difference of their images. |
| QuatAlgebra.ComponentwiseInverses | src/quat/rot.rs:158-249 | Subtraction undoes addition, and division by a nonzero scalar undoes scaling by it. |
| QuatRot.MutQuat.AddAssign | src/quat/rot.rs:173-182 | `+=` leaves the value of `+`. |
| QuatRot.MutQuat.SubAssign | src/quat/rot.rs:199-208 | `-=` leaves the value of `-`. |
| QuatRot.MutQuat.MulAssign | src/quat/rot.rs:225-234 | `*=` by a scalar leaves the value of `*`. |
| QuatRot.MutQuat.DivAssign | src/quat/rot.rs:251-260 | `/=` by a nonzero scalar leaves the value of `/`. |
| AabbGeneric.Aabb.IsRight | src/aabb.rs:55-64 | The early-exit loop returns true exactly when `min[i] <= max[i]` on every axis below `SIZE`. |
| AabbGeneric.Aabb.IsInside | src/aabb.rs:66-75 | The early-exit loop returns true exactly when `min[i] <= p[i] <= max[i]` on every axis below `SIZE`. |
| AabbGeneric.MutAabb.Invert | src/aabb.rs:39-43 | `min` becomes the old `max` and `max` the old `min`: the value of `inverted()`. |
| AabbGeneric.InvertedInvolution | src/aabb.rs:45-53 | `inverted` swaps the corners, and applying it twice gives the box back. |
| AabbGeneric.ContainsImpliesRight | src/aabb.rs:55-75 | A box that contains some point is right. |
| AabbGeneric.InvertedNotRight | src/aabb.rs:45-64 | A box with `min[k] < max[k]` on some axis is no longer right once inverted. |
| AabbGeneric.SizeZeroIsVacuous | src/vec/mod.rs:22-30 | With the trait's default `SIZE` of zero, every box is right and contains every point. |
| AabbD3.MutAabb3.Invert | src/aabb/d3.rs:32-36 | `invert` swaps the corners in place: the value of `inverted()`. |
| AabbD3.IsRightIsLexicographic | src/aabb/d3.rs:26-30 | `is_right` is the strict lexicographic comparison `max > min` over `(x, y, z)`. |
| AabbD3.InvertedProperties | src/aabb/d3.rs:38-45 | `inverted` swaps the corners and is an involution, and a right box is not right once inverted. |
| AabbD3.IsInsideOnlyWhenNotRight | src/aabb/d3.rs:47-51 | As written, `is_inside(p)` forces `min > max`, so the box is not right. |
| AabbD3.RightBoxHasEveryPointOutside | src/aabb/d3.rs:53-57 | `is_outside` holds for every point of a right box. |
| AabbD3.IsInsideMissesInteriorPoint | src/aabb/d3.rs:47-51 | The right box `(0,0,0)`–`(2,2,2)` contains `(1,1,1)` on every axis, yet `is_inside` rejects that point. |
| AabbD3.ContainsPointIsGenericContains | src/aabb.rs:66-75 | Per-axis containment in `Aabb3` is the generic `is_inside` with `SIZE == 3`. A box that is ordered on every axis contains all eight of its corners and its center. |
| AabbD3.CenterIsMidpoint | src/aabb/d3.rs:59-69 | `center()` is the componentwise midpoint; for `(1,1,1)`–`(2,2,2)` it is `(1.5, 1.5, 1.5)`. |
| AabbD3.VolumeIsProductOfExtents | src/aabb/d3.rs:88-97 | `volume()` is the product of the three extents `max - min`. |
| AabbD3.UnitCubeVolume | src/aabb/d3.rs:88-97 | The box `(1,1,1)`–`(2,2,2)` has volume 1. |
| AabbD3.CornersInBinaryOrder | src/aabb/d3.rs:71-86 | There are eight corners. Corner `k` takes `x` from `max` iff bit 0 of `k` is set, `y` iff bit 1 and `z` iff bit 2, so corner 0 is `min` and corner 7 is `max`. |
| VecD3.AxisConstants | src/vec/d3.rs:24-126 | `yaw == top == (0,0,1)`, `pitch == right == (0,-1,0)` and `roll == forward == (1,0,0)`; `back`, `bottom` and `left` are the negations of `forward`, `top` and `right`. |
| VecD3.CrossOfBasis | src/vec/d3.rs:270-284 | `(1,0,0) × (0,1,0) == (0,0,1)`. |
| VecD3.CrossAnticommutative | src/vec/d3.rs:270-284 | `a × b == -(b × a)`. |
| VecD3.CrossOrthogonal | src/vec/d3.rs:270-284 | `a × b` is orthogonal to both `a` and `b`. |
| VecD3.TripleProperties | src/vec/d3.rs:286-290 | The triple product vanishes when two of its vectors coincide and is invariant under cyclic shifts. |
| VecD3.LerpEndpoints | src/vec/d3.rs:258-268 | The reversed `lerp` gives `b` at 0 and `a` at 1. |
| VecD3.LerpMidpoint | src/vec/d3.rs:258-268 | `lerp` at one half is the midpoint; `(-1,-1,-1)` and `(1,1,1)` give zero. |
| VecD3.SqrtMagnitudeIsSelfDot | src/vec/d3.rs:220-224 | The squared length is `v · v`. It is never negative and is positive unless `v` is zero. |
| VecD3.DotSymmetric | src/vec/d3.rs:188-192 | `dot` is symmetric. |
| VecD3.DecompositionsRoundTrip | src/vec/d3.rs:139-186 | The `into_basis` parts sum to `v`. `split` and `combine` are inverse both ways, and so are `from_vec2` and `reduce`. |
| VecD3.SubAddCancel | src/vec/d3.rs:299-424 | `(a - b) + b == a` and `-(-a) == a`. |
| VecD3.MulDivCancel | src/vec/d3.rs:355-396 | Division by a nonzero scalar undoes multiplication by it. |
| VecD3.GtIsLexicographic | src/vec/d3.rs:9 | The derived `>` is the strict lexicographic order on `(x, y, z)`. |
| VecD3.GtStrictTotalOrder | src/vec/d3.rs:9 | The derived `>` is irreflexive, asymmetric, transitive and total on real vectors. |
| VecD3.GtIsNotPerAxis | src/vec/d3.rs:9 | `(1,0,0) > (0,5,0)`, though `y` is smaller. |
| VecD3.MutVec3.Scale | src/vec/d3.rs:206-212 | `scale(f)` leaves the value of `v * f`. |
| VecD3.MutVec3.AddAssign | src/vec/d3.rs:315-325 | `+=` leaves the value of `+`. |
| VecD3.MutVec3.SubAssign | src/vec/d3.rs:343-353 | `-=` leaves the value of `-`. |
| VecD3.MutVec3.MulAssign | src/vec/d3.rs:371-381 | `*=` leaves the value of `*`. |
| VecD3.MutVec3.DivAssign | src/vec/d3.rs:399-409 | `/=` by a nonzero scalar leaves the value of `/`. |
| VecD2.LerpEndpoints | src/vec/d2.rs:115-125 | The reversed `lerp` gives `b` at 0 and `a` at 1. |
| VecD2.LerpMidpoint | src/vec/d2.rs:115-125 | `lerp` at one half is the midpoint; `(1,1)` and `(2,2)` give `(1.5, 1.5)`. |
| VecD2.SplitCombineRoundTrip | src/vec/d2.rs:29-39 | `split` and `combine` are inverse in both directions. |
| VecD2.IntoBasisSums | src/vec/d2.rs:41-54 | The two `into_basis` parts sum to `v`, and each is zero off its axis. |
| VecD2.DotSymmetric | src/vec/d2.rs:56-60 | `dot` is symmetric. |
| VecD2.SqrtMagnitudeIsSelfDot | src/vec/d2.rs:93-97 | The squared length is `v · v`. It is never negative and is positive unless `v` is zero. |
| VecD2.SubAddCancel | src/vec/d2.rs:136-253 | `(a - b) + b == a` and `-(-a) == a`. |
| VecD2.MulDivCancel | src/vec/d2.rs:188-227 | Division by a nonzero scalar undoes multiplication by it. |
| VecD2.MutVec2.Scale | src/vec/d2.rs:80-85 | `scale(f)` leaves the value of `v * f`. |
| VecD2.MutVec2.AddAssign | src/vec/d2.rs:151-160 | `+=` leaves the value of `+`. |
| VecD2.MutVec2.SubAssign | src/vec/d2.rs:177-186 | `-=` leaves the value of `-`. |
| VecD2.MutVec2.MulAssign | src/vec/d2.rs:203-212 | `*=` leaves the value of `*`. |
| VecD2.MutVec2.DivAssign | src/vec/d2.rs:229-238 | `/=` by a nonzero scalar leaves the value of `/`. |
| VecD4.Widenings | src/vec/d4.rs:31-51 | `from_vec3` keeps `x, y, z` and appends `w`; `from_vec2` concatenates the two halves. |
| VecD4.SplitCombineRoundTrip | src/vec/d4.rs:53-68 | `split` and `combine` are inverse in both directions. |
| VecD4.IntoBasisSums | src/vec/d4.rs:70-99 | The four `into_basis` parts sum to `v`. |
| VecD4.LerpEndpoints | src/vec/d4.rs:131-135 | The reversed `lerp` gives `b` at 0 and `a` at 1. |
| VecD4.SqrtMagnitudeIsSelfDot | src/vec/d4.rs:152-156 | The squared length is `v · v`. It is never negative and is positive unless `v` is zero. |
| VecD4.DotSymmetric | src/vec/d4.rs:107-111 | `dot` is symmetric. |
| VecD4.SubAddCancel | src/vec/d4.rs:181-315 | `(a - b) + b == a` and `-(-a) == a`. |
| VecD4.MulDivCancel | src/vec/d4.rs:241-285 | Division by a nonzero scalar undoes multiplication by it. |
| VecD4.MutVec4.Scale | src/vec/d4.rs:137-144 | `scale(f)` leaves the value of `v * f`. |
| VecD4.MutVec4.AddAssign | src/vec/d4.rs:198-209 | `+=` leaves the value of `+`. |
| VecD4.MutVec4.SubAssign | src/vec/d4.rs:228-239 | `-=` leaves the value of `-`. |
| VecD4.MutVec4.MulAssign | src/vec/d4.rs:258-269 | `*=` leaves the value of `*`. |
| VecD4.MutVec4.DivAssign | src/vec/d4.rs:288-299 | `/=` by a nonzero scalar leaves the value of `/`. |
| Complexes.Pow2IsSquare | src/complex.rs:44-50 | `pow2(z) == z * z`. |
| Complexes.MulCommutative | src/complex.rs:120-133 | Complex multiplication commutes. |
| Complexes.ConjugateProperties | src/complex.rs:35-42 | Conjugation is an involution, and `z * z̄ == (re² + im², 0)`. |
| Complexes.SquaredModulusSign | src/complex.rs:26-33 | The denominator of `reciprocal` is never negative and vanishes only at zero. |
| Complexes.ReciprocalIsConjugateOverModulus | src/complex.rs:26-33 | `reciprocal(z)` is the conjugate divided by `re² + im²`. |
| Complexes.ReciprocalIsInverse | src/complex.rs:26-33 | `z * reciprocal(z) == 1` whenever `re² + im² != 0`. |
| Complexes.SequentialMulAgreement | src/complex.rs:135-144 | The in-place `*=` agrees with `*` on the real part, and on both parts whenever the right-hand side is real. |
| Complexes.SequentialMulDiffers | src/complex.rs:135-144 | `(1 + i)(1 + i)` is `2i`, but `*=` leaves `i`. |
| Complexes.ConversionRoundTrip | src/complex.rs:198-208 | `From<Vec2>` and `From<Complex> for Vec2` are inverse in both directions and map `x`/`y` to the real/imaginary part. |
| Complexes.ComponentwiseInverses | src/complex.rs:53-196 | Subtraction undoes addition, division by a nonzero scalar undoes scaling by it, and negation is an involution. |
| Complexes.MutComplex.AddAssign | src/complex.rs:68-77 | `+=` leaves the value of `+`. |
| Complexes.MutComplex.SubAssign | src/complex.rs:94-103 | `-=` leaves the value of `-`. |
| Complexes.MutComplex.MulAssign | src/complex.rs:135-144 | `*=` as written: `real` is overwritten first, and `imag` is computed from the new `real`. |
| Complexes.MutComplex.MulAssignIntended | src/complex.rs:135-144 | `*=` computing both parts from the old value leaves the value of `*`. |
| Complexes.MutComplex.ScaleAssign | src/complex.rs:146-155 | `*=` by a scalar leaves the value of scalar `*`. |
| Complexes.MutComplex.DivAssign | src/complex.rs:172-181 | `/=` by a nonzero scalar leaves the value of `/`. |
| Mat3x4s.NewKeepsRows | src/mat/mat3x4.rs:23-27 | `new` stores the rows unchanged. |
| Mat3x4s.VecMulCombinesColumns | src/mat/mat3x4.rs:53-67 | The row-dot product `v * m` is the combination of the columns (`column::<0..=2>` and the `w` column) weighted by `v`. |
| Mat3x4s.IdentityProperties | src/mat/mat3x4.rs:29-50 | `v * identity()` keeps `x, y, z` and drops `w`; columns 0, 1 and 2 of `identity()` are the unit vectors. |
| QuatTsl.NewKeepsParts | src/quat/tsl.rs:19-26 | `new` stores the rotation and the translation unchanged. |
| QuatTsl.ApplyWithoutTranslation | src/quat/tsl.rs:36-40 | With zero translation, `apply` is `rotate`. |
| QuatTsl.IdentityApply | src/quat/tsl.rs:28-34 | The identity transform moves no point. |
| QuatTsl.ApplyPreservesDistance | src/quat/tsl.rs:36-40 | A transform with a nonzero rotation preserves squared distances between points. |
| AngD3.FromVec3Fields | src/ang/d3.rs:43-53 | `From<Vec3>` maps `x, y, z` to yaw, pitch and roll. |
| AngD3.IntoRotationIsProduct | src/ang/d3.rs:7-40 | `into_rotation` is `R(roll) * (R(pitch) * R(yaw))`, about the axes `(1,0,0)`, `(0,-1,0)` and `(0,0,1)`. |
| AngD3.IntoRotationOrder | src/ang/d3.rs:34-40 | With invertible axis rotations, the result rotates by yaw first, then pitch, then roll. |
| AngD3.IntoRotationOfIdentities | src/ang/d3.rs:34-40 | Three identity axis rotations combine to the identity. |

## Left out

- Everything built on square roots or trigonometry: `magnitude`, `normalized`, `normalize`,
  `distance_to`, `dot_normalized` and `angle_to` of the vectors; `Quat::norm`, `Quat::normalize`,
  `new_dst_rotation` and `into_axis_angle`. Real square roots and trigonometric functions are not
  available.
- `Quat::new_axis_rotation` (src/quat/rot.rs:36-44) is trigonometric. `AngD3.Ang3.IntoRotation`
  takes it as a function parameter, and every statement about angles holds whatever that
  function is.
- IEEE-754 behaviour: NaN and infinities on division by zero, rounding, and the difference
  between `f32` and `f64`. Reciprocals, `/`, `/=` and `rotate` require a nonzero divisor instead.
- src/macros.rs (literal casts), src/lib.rs (module wiring) and the unused `VectorConst` trait.
- Layout and derive details: `#[repr(C)]`, `PhantomData`, and the `Debug`/`Default` derives.
- The alias `Ang3d = Ang3<f32>`, whose name is a typo.
- `QuatT::idenitity` calls `Quat::idenitity`, which does not exist. It is modelled as
  `Quat::identity` with a zero translation.
- `Aabb3::corners` returns an array of eight corners; the model returns a sequence of length 8.
- The fields `real` and `imag` of `Complex` are called `re` and `im`, since `real` is a Dafny type.
- `Mat3x4::column::<I>` takes `I` as a const generic; here it is an ordinary argument that must
  be at most 2, because larger indices panic.
- The `Vector` trait is modelled as a `seq<real>` with its `SIZE` passed alongside. Only `SIZE` and
  `get` are used by the boxes.

## Findings

| source | as written | input that shows it | evidently intended | confidence | as-written member | corrected member |
|---|---|---|---|---|---|---|
| src/complex.rs:141-142 | `MulAssign` overwrites `real` first and then computes `imag` from the new `real` | `z = 1 + i`, `z *= 1 + i` leaves `i` instead of `2i` | both parts computed from the old value, as `Mul` does | not executed | Complexes.MutComplex.MulAssign, Complexes.SequentialMulDiffers | Complexes.MutComplex.MulAssignIntended |
| src/aabb/d3.rs:49-51 | `is_inside` is `min > p && p > max` in the lexicographic order of `Vec3`, which can hold only when `min > max` | box `(0,0,0)`–`(2,2,2)`, point `(1,1,1)`: `is_inside` is false | per-axis `min <= p <= max`, as the generic `Aabb::is_inside` computes | not executed | AabbD3.IsInsideMissesInteriorPoint, AabbD3.IsInsideOnlyWhenNotRight | AabbD3.ContainsPointIsGenericContains |
