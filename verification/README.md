# Rust-4D-Raymarcher in Dafny

Rust-4D-Raymarcher renders 3D and 4D scenes by sphere tracing. It has two parts.

- **Geometric algebra.** There are 2D, 3D and 4D vectors (`Float2`, `Float3`, `Float4`) and bivectors (`Bivector3`, `Bivector4`). There are rotors: `Rotor3` is a scalar plus a bivector, and `Rotor4` adds a pseudoscalar `p`.
  - A rotor is built from a plane and an angle (`bivector_angle`) or from two vectors (`geometric_product`).
  - Rotors compose with `rotate_rotor`, rotate a vector by the sandwich product (`rotate_vector`), and are inverted by `reverse`.
  - `slerp` interpolates between two rotors. `from_to`, `angle` and `approx_equal` compare them.
- **Renderer core.**
  - `raymarch` walks a ray through a signed distance field.
  - `normal3` and `normal4` estimate the surface normal by finite differences.
  - The distance functions are `sdf_sphere`, `sdf_box3` and `sdf_box4`, and `Sphere` wraps the sphere case.
  - A `Camera` maps screen coordinates to ray directions.
  - `clamp` bounds a scalar.

The model uses exact real arithmetic. Each source type is a Dafny `datatype`, and each operation is a pure function with the same branches and constants as the Rust code. The one exception is bivector `length`, `length_squared` and `normalized`, whose bodies the source does not contain (see the next section). An in-place method such as `normalize`, `reverse_me` or the `*=` and `+=` operators becomes a function that returns the updated value.

`sqrt`, `sin`, `cos` and `acos` are a parameter `m: Elementary.Functions`. The predicate `Elementary.Lawful(m)` states the only facts the proofs rely on:
- `sqrt` of a non-negative number is its non-negative square root;
- `sin² + cos² = 1`;
- `cos(acos c) = c` on `[-1, 1]`.

Results that hold only for a quarter turn take the cosine of the half angle as a parameter `c`, together with the requirement that it is that cosine.

The raymarching loop and its distance field are modelled as follows:
- `Raymarching.Raymarch` takes the vector operations and the field as function parameters, so one definition covers the generic `raymarch<V>`.
- The loop is a `method` whose result is characterised by the recursive `March` and by the list of samples `Trace`.

### Where the code and its documentation differ

The model follows the code in each of these places.

- `normal3` and `normal4` take a backward difference, `f(p) - f(p - E·axis)` with `E = 0.01`. They are not central differences. A zero gradient is returned unnormalized.
- `from_to` computes `b * reverse(a)` and throws away the result of `.normalized()`, so the rotor it returns is not normalized (`src/mathematics/multivectors.rs:63-68`, `src/mathematics/rotor3.rs:182-187`).
- `Camera` has a position, viewport dimensions and a lower-left corner, but no rotor.
- The 3D `approx_equal` compares the scalar part by its signed value, so `approx_equal(a, -a)` is false for a unit rotor. The 4D `angle` takes `sqrt(a² + p²)`, which ignores the sign, so in 4D `approx_equal(a, -a)` holds. For the same reason the `flip` branch of the 4D `slerp` can never be taken.
- The 4D sandwich product scales lengths by `|r|⁴ - q²`, where `q` is the pseudoscalar of `r · reverse(r)`. A unit `Rotor4` is therefore an isometry only when `q = 0`. Every rotor the tests apply to a vector is a single-plane rotor or a product of rotors in the xyz subspace, which gives `q = 0`. `combined_rotation_angle` (`src/mathematics/rotor4_tests.rs:278-297`) builds the product of a zy and an xw rotor, but overwrites it with the single xw rotor before measuring the angle.
- `normal4` writes `distance_function(p) - Float4::new(…)`, but `float4.rs` defines `f32 - Float4` only as `Float4 - f32`. The model uses the component-wise meaning that `float3.rs:150-157` gives to `f32 - Float3`.
- `raymarch` writes `*rd * d_origin`, which the `Vector` bound does not provide. The model passes scaling as a parameter.
- `bivector_angle` calls `bv.normalized()` on a `Bivector3` (`src/mathematics/rotor3.rs:31`) and on a `Bivector4` (`src/mathematics/rotor4.rs:32`). However, `bivector3.rs` and `bivector4.rs` define only `new`, `Neg` and `PartialEq`, and neither type implements `Magnitude`. The bodies of bivector `length`, `length_squared` and `normalized` are therefore missing from the source. The model gives bivectors the `Magnitude` default `length = sqrt(length_squared)` (`src/mathematics/multivectors.rs:5-8`), the sum of the squared components, and the zero-guarded division of `Float3::normalized` (`src/mathematics/float3.rs:69-80`) and `Float4::normalized` (`src/mathematics/float4.rs:44-54`). The `Bivectors3` and `Bivectors4` rows below that cite the call sites state this assumed behaviour.

## Model

| member | source | states |
|---|---|---|
| Bivectors3.New | src/mathematics/bivector3.rs:16-19 | each argument is stored in the plane component of the same name |
| Bivectors3.NegComponents | src/mathematics/bivector3.rs:22-28 | negation flips the sign of every plane component, undoes itself, and fixes only the zero bivector |
| Bivectors3.EqualsExact | src/mathematics/bivector3.rs:30-37 | with an exact per-component comparison, `==` on bivectors is structural equality |
| Bivectors3.NormalizedOfZero | src/mathematics/rotor3.rs:31 | normalizing the zero plane leaves it unchanged, the zero-length branch of the `Float3::normalized` behaviour assumed for the missing bivector body |
| Bivectors3.NormalizedIsUnit | src/mathematics/rotor3.rs:31 | under the assumed `Float3::normalized` behaviour, a nonzero plane has positive length; normalizing divides every component by it and gives unit length |
| Bivectors4.New | src/mathematics/bivector4.rs:20-23 | each of the six arguments is stored in the plane component of the same name |
| Bivectors4.NegComponents | src/mathematics/bivector4.rs:28-34 | negation flips all six components, undoes itself, and fixes only the zero bivector |
| Bivectors4.EqualsExact | src/mathematics/bivector4.rs:36-46 | with an exact per-component comparison, `==` on 4D bivectors is structural equality |
| Bivectors4.NormalizedOfZero | src/mathematics/rotor4.rs:32 | normalizing the zero plane leaves it unchanged, the zero-length branch of the `Float4::normalized` behaviour assumed for the missing bivector body |
| Bivectors4.NormalizedIsUnit | src/mathematics/rotor4.rs:32 | under the assumed `Float4::normalized` behaviour, a nonzero 4D plane has positive length; normalizing divides by it and gives unit length |
| Floats2.Normalize | src/mathematics/float2.rs:40-47 | the in-place `normalize` leaves the vector equal to what `normalized` returns |
| Floats2.EqualsExact | src/mathematics/float2.rs:185-192 | with an exact per-component comparison, `==` on `Float2` is structural equality |
| Floats2.DotSymmetric | src/mathematics/float2.rs:24-38 | the dot product is symmetric, and a vector's dot product with itself is its squared length, which is never negative |
| Floats2.NormalizedOfZero | src/mathematics/float2.rs:40-59 | the zero vector is returned unchanged by both `normalized` and `normalize` |
| Floats2.NormalizedIsUnit | src/mathematics/float2.rs:49-59 | a nonzero vector has positive length, and `normalized` divides it by that length and gives a unit vector |
| Floats2.AddSubInverse | src/mathematics/float2.rs:70-150 | vector subtraction undoes addition in both orders, and negation undoes itself |
| Floats2.ScalarOperators | src/mathematics/float2.rs:79-183 | `s - u` is component-wise and is the negation of `u - s`; `s * u` equals `u * s`; `- s` undoes `+ s`; dividing by a nonzero `s` is scaling by `1/s` |
| Floats3.Normalize | src/mathematics/float3.rs:60-67 | the in-place `normalize` leaves the vector equal to what `normalized` returns |
| Floats3.EqualsExact | src/mathematics/float3.rs:215-223 | with an exact per-component comparison, `==` on `Float3` is structural equality |
| Floats3.WedgeAntisymmetric | src/mathematics/float3.rs:35-42 | swapping the arguments of `wedge` negates the bivector, and the wedge of a vector with itself is zero |
| Floats3.WedgeIsCross | src/mathematics/float3.rs:26-42 | the wedge components are the cross product components (yz = x, xz = -y, xy = z) |
| Floats3.CrossOrthogonal | src/mathematics/float3.rs:26-33 | the cross product is orthogonal to both arguments, and it is zero for a vector with itself |
| Floats3.DotSymmetric | src/mathematics/float3.rs:47-58 | the dot product is symmetric and equals the squared length, which is never negative, on a vector with itself |
| Floats3.NormalizedOfZero | src/mathematics/float3.rs:60-80 | the zero vector is returned unchanged by both `normalized` and `normalize` |
| Floats3.NormalizedIsUnit | src/mathematics/float3.rs:69-80 | a nonzero vector has positive length, and `normalized` divides it by that length and gives a unit vector |
| Floats3.AddSubInverse | src/mathematics/float3.rs:91-180 | vector subtraction undoes addition in both orders, and negation undoes itself |
| Floats3.ScalarOperators | src/mathematics/float3.rs:100-213 | the mixed scalar operators commute where the source defines both orders, `s - u` is the negation of `u - s`, and dividing by a nonzero `s` is scaling by `1/s` |
| Floats3.ScaledLengthSquared | src/mathematics/float3.rs:55-58 | scaling a vector by `s` scales its squared length by `s²` |
| Floats3.ScaledLength | src/mathematics/float3.rs:55-58 | scaling a vector by a positive `s` scales its length by `s` |
| Floats3.NormalizedOfScaled | src/mathematics/float3.rs:69-80 | normalizing is unchanged by a positive scale factor, for every vector including zero |
| Floats3.NormalizedOfScaledPositive | src/mathematics/float3.rs:69-80 | for a nonzero vector, normalizing after a positive scale gives the same unit vector |
| Floats3.DividedScaled | src/mathematics/float3.rs:207-213 | dividing `s·u` by `s·l` is dividing `u` by `l` for positive `s` and `l` |
| Floats3.ScaledZero | src/mathematics/float3.rs:191-198 | any scaling of the zero vector is the zero vector |
| Floats4.Normalize | src/mathematics/float4.rs:35-42 | the in-place `normalize` leaves the vector equal to what `normalized` returns |
| Floats4.EqualsExact | src/mathematics/float4.rs:189-197 | with an exact per-component comparison, `==` on `Float4` is structural equality |
| Floats4.WedgeAntisymmetric | src/mathematics/float4.rs:61-72 | swapping the arguments of the 4D `wedge` negates all six planes, and the wedge of a vector with itself is zero |
| Floats4.DotSymmetric | src/mathematics/float4.rs:30-59 | the dot product is symmetric and equals the squared length, which is never negative, on a vector with itself |
| Floats4.NormalizedOfZero | src/mathematics/float4.rs:35-54 | the zero vector is returned unchanged by both `normalized` and `normalize` |
| Floats4.NormalizedIsUnit | src/mathematics/float4.rs:24-54 | a nonzero vector has positive length, and `normalized` divides it by that length and gives a unit vector |
| Floats4.AddSubInverse | src/mathematics/float4.rs:83-154 | vector subtraction undoes addition in both orders, and negation undoes itself |
| Floats4.ScalarOperators | src/mathematics/float4.rs:92-187 | `u + s` adds `s` to each component and `- s` undoes it; `s * u` equals `u * s`; dividing by a nonzero `s` is scaling by `1/s` |
| Floats4.ScaledLengthSquared | src/mathematics/float4.rs:30-33 | scaling a 4D vector by `s` scales its squared length by `s²` |
| Floats4.ScaledLength | src/mathematics/float4.rs:24-33 | scaling a 4D vector by a positive `s` scales its length by `s` |
| Floats4.NormalizedOfScaled | src/mathematics/float4.rs:44-54 | normalizing a 4D vector is unchanged by a positive scale factor, zero included |
| Floats4.NormalizedOfScaledPositive | src/mathematics/float4.rs:44-54 | for a nonzero 4D vector, normalizing after a positive scale gives the same unit vector |
| Floats4.DividedScaled | src/mathematics/float4.rs:181-187 | dividing `s·u` by `s·l` is dividing `u` by `l` for positive `s` and `l` |
| Floats4.ScaledZero | src/mathematics/float4.rs:165-172 | any scaling of the zero 4D vector is the zero vector |
| Conversions.WidenNarrow | src/mathematics/float3.rs:226-232 | widening a `Float2` gives `z = 0` and narrowing undoes it; narrowing then widening a `Float3` is the identity exactly when its `z` is 0 |
| Conversions.NarrowFloat4 | src/mathematics/float3.rs:234-239 | `Float3::from(Float4)` keeps x, y and z, ignores w, and narrowing to `Float2` directly or through `Float3` agrees |
| Conversions.WedgeInHyperplane | src/mathematics/float4.rs:61-72 | for vectors with `w = 0` the 4D wedge has no w planes and its other three planes are the 3D wedge of the narrowed vectors |
| Multivectors.LengthIsRoot | src/mathematics/multivectors.rs:4-8 | `length` is the non-negative square root of the squared length, positive exactly when the squared length is |
| Multivectors.LengthOfScaled | src/mathematics/multivectors.rs:4-8 | the length of `s²·L` is `s` times the length of `L` for positive `s` |
| Interpolation.SlerpWeights | src/mathematics/rotor3.rs:132-162 | the second weight is negated (`flip`) exactly when the cosine of the rotor difference is negative; the first weight never is |
| Interpolation.Spherical | src/mathematics/rotor3.rs:153-161 | with `ω = acos(c)`, the spherical weights times `sin ω` give back `sin((1 - t)·ω)` and `sin(t·ω)`, so they are those sines divided by `sin ω` |
| Interpolation.WeightsLinear | src/mathematics/rotor3.rs:143-152 | a cosine above `1 - EPSILON` gives the linear weights `(1 - t, t)`, unflipped |
| Interpolation.WeightsSpherical | src/mathematics/rotor3.rs:143-161 | a cosine in `[0, 1 - EPSILON]` gives the spherical weights, unflipped |
| Interpolation.WeightsFlip | src/mathematics/rotor3.rs:135-161 | negating a positive cosine keeps the first weight and negates the second, on both branches |
| Interpolation.WeightsSymmetric | src/mathematics/rotor3.rs:143-161 | for a non-negative cosine, the weights at `1 - t` are the weights at `t` swapped |
| Interpolation.WeightsAtStart | src/mathematics/rotor3.rs:143-162 | at `t = 0` the weights are `(1, 0)` on both the linear and the spherical branch |
| Interpolation.WeightsAtEnd | src/mathematics/rotor3.rs:143-162 | at `t = 1` the weights are `(0, ±1)`, negative exactly when `flip` is set |
| Rotors3.New | src/mathematics/rotor3.rs:20-23 | the scalar and the bivector arguments are stored unchanged |
| Rotors3.ReverseMe | src/mathematics/rotor3.rs:58-61 | the in-place `reverse_me` leaves the rotor equal to `reverse` of it |
| Rotors3.Normalize | src/mathematics/rotor3.rs:203-213 | the in-place `normalize` leaves the rotor equal to what `normalized` returns |
| Rotors3Laws.RotateByIdentity | src/mathematics/rotor3.rs:18 | rotating by `IDENTITY` leaves every vector unchanged |
| Rotors3Laws.IdentityIsUnit | src/mathematics/rotor3.rs:63-78 | `IDENTITY` is a two-sided unit of `rotate_rotor` |
| Rotors3Laws.ReverseInvolution | src/mathematics/rotor3.rs:53-61 | `reverse` keeps the scalar, negates the plane, and reversing twice (also in place) gives the rotor back |
| Rotors3Laws.ProductWithReverse | src/mathematics/rotor3.rs:53-78 | a rotor times its reverse, in either order, is the scalar `|r|²`, so for a unit rotor it is `IDENTITY` |
| Rotors3Laws.DoubleCover | src/mathematics/rotor3.rs:80-122 | `r` and `-r` rotate every vector the same way |
| Rotors3Laws.RotationScalesLength | src/mathematics/rotor3.rs:80-122 | the sandwich product scales squared lengths by `|r|⁴`, so a unit rotor preserves lengths |
| Rotors3Laws.LengthSquaredMultiplicative | src/mathematics/rotor3.rs:63-78 | the squared length of a product is the product of the squared lengths, so unit rotors compose to unit rotors |
| Rotors3Laws.ReverseOfProduct | src/mathematics/rotor3.rs:53-78 | the reverse of a product is the product of the reverses in the opposite order |
| Rotors3Laws.ProductAssociative | src/mathematics/rotor3.rs:63-78 | `rotate_rotor` is associative |
| Rotors3Laws.GeometricProductReverse | src/mathematics/rotor3.rs:45-56 | reversing `uv` gives `vu`, and `uu` is the scalar `|u|²` |
| Rotors3Laws.NormalizedOfZero | src/mathematics/rotor3.rs:215-233 | a rotor of squared length 0 is the zero rotor, and both `normalized` and `normalize` return it unchanged |
| Rotors3Laws.NormalizedIsUnit | src/mathematics/rotor3.rs:215-233 | a nonzero rotor has positive length, and `normalized` divides every part by it and gives a unit rotor |
| Rotors3Laws.NormalizedOfUnit | src/mathematics/rotor3.rs:215-233 | normalizing a unit rotor leaves it unchanged |
| Rotors3Laws.BivectorAngleIsHalfAngle | src/mathematics/rotor3.rs:29-43 | for a nonzero plane, `bivector_angle` is `cos(θ/2) - sin(θ/2)·B̂` with `B̂` the normalized plane |
| Rotors3Laws.HalfAngleOfUnitPlane | src/mathematics/rotor3.rs:33-42 | for a unit plane the half-angle rotor already has unit length, so the final `normalized()` does not change it |
| Rotors3Laws.BivectorAngleIsUnit | src/mathematics/rotor3.rs:29-43 | `bivector_angle` of a nonzero plane is a unit rotor |
| Rotors3Laws.BivectorAngleOfZeroPlane | src/mathematics/rotor3.rs:29-43 | `bivector_angle` of the zero plane is `IDENTITY` when `cos(θ/2)` is positive |
| Rotors3Laws.HalfAngleOfZeroPlane | src/mathematics/rotor3.rs:29-42 | with the zero plane, the rotor before the final normalization is the scalar `cos(θ/2)` |
| Rotors3Laws.NormalizedOfScalar | src/mathematics/rotor3.rs:215-233 | normalizing a positive scalar rotor gives `IDENTITY` |
| Rotors3Laws.FromToRecovers | src/mathematics/rotor3.rs:182-187 | for a unit `a`, `from_to(a, b) * a == b`: the difference rotor takes `a` to `b` |
| Rotors3Laws.FromToSelf | src/mathematics/rotor3.rs:182-187 | the difference from a unit rotor to itself is `IDENTITY` |
| Rotors3Laws.FromToReversed | src/mathematics/rotor3.rs:182-187 | swapping the arguments of `from_to` reverses the difference rotor |
| Rotors3Laws.ApproxEqualSymmetric | src/mathematics/rotor3.rs:177-193 | `approx_equal` is symmetric |
| Rotors3Laws.ApproxEqualReflexive | src/mathematics/rotor3.rs:177-193 | every unit rotor is `approx_equal` to itself |
| Rotors3Laws.NotApproxEqualOpposite | src/mathematics/rotor3.rs:177-193 | a unit rotor is not `approx_equal` to its negation, although both rotate identically |
| Rotors3Laws.SlerpAtStart | src/mathematics/rotor3.rs:124-174 | at ratio 0, `slerp` returns `from` normalized |
| Rotors3Laws.SlerpAtEnd | src/mathematics/rotor3.rs:124-174 | at ratio 1, `slerp` returns `to` normalized, negated when the difference has a negative scalar part |
| Rotors3Laws.SlerpIsUnit | src/mathematics/rotor3.rs:124-174 | the result of `slerp` is a unit rotor unless the blend is exactly zero |
| Rotors3Examples.DiagonalNormalized | src/mathematics/rotor3_tests.rs:21 | `(1, 1, 0).normalized()` is `(k, k, 0)` with `k > 0` and `k² = 1/2` |
| Rotors3Examples.GeometricProductRotation | src/mathematics/rotor3_tests.rs:16-29 | the product of the unit diagonal and `x` rotates `x` to `y`, twice the angle between them |
| Rotors3Examples.AxisProductMoves | src/mathematics/rotor3_tests.rs:89-100 | the rotor `xy` moves `x` |
| Rotors3Examples.AxisProductTimesReverse | src/mathematics/rotor3_tests.rs:89-104 | the rotor `xy` times its reverse is `IDENTITY` |
| Rotors3Examples.AxisProductReverseUndoes | src/mathematics/rotor3_tests.rs:89-109 | the reverse of `xy` rotates the moved `x` back to `x` |
| Rotors3Examples.PlanarRotationXY | src/mathematics/rotor3_tests.rs:31-50 | a quarter turn in the plane `x ∧ y` takes `x` to `y` |
| Rotors3Examples.PlanarRotationXZ | src/mathematics/rotor3_tests.rs:51-60 | a quarter turn in the plane `x ∧ z` takes `x` to `z` |
| Rotors3Examples.PlanarRotationYZ | src/mathematics/rotor3_tests.rs:61-71 | a quarter turn in the plane `y ∧ z` takes `y` to `z` |
| Rotors3Examples.ZeroRotation | src/mathematics/rotor3_tests.rs:73-87 | the plane of a vector with itself gives a rotor that leaves every vector unchanged |
| Rotors3Examples.OffAxisRotation | src/mathematics/rotor3_tests.rs:111-136 | a quarter turn in the plane of `z` and the unit diagonal takes `z` to the diagonal |
| Rotors3Examples.TwoCombinedRotations | src/mathematics/rotor3_tests.rs:138-158 | multiplying quarter turns in the zy and then the zx plane into `IDENTITY` takes `z` to `x` |
| Rotors3Examples.SlerpStartsAtIdentity | src/mathematics/rotor3_tests.rs:291-295 | `slerp` from `IDENTITY` to a quarter turn at ratio 0 is `IDENTITY` |
| Rotors3Examples.SlerpEndsAtTurn | src/mathematics/rotor3_tests.rs:297-299 | `slerp` from `IDENTITY` to a quarter turn at ratio 1 is the quarter turn |
| Rotors3Examples.FromIdentity | src/mathematics/rotor3.rs:182-187 | the difference from `IDENTITY` to `r` is `r` |
| Rotors4.New | src/mathematics/rotor4.rs:21-24 | the scalar, bivector and pseudoscalar arguments are stored unchanged |
| Rotors4.ReverseMe | src/mathematics/rotor4.rs:64-67 | the in-place `reverse_me` leaves the rotor equal to `reverse` of it |
| Rotors4.Normalize | src/mathematics/rotor4.rs:275-289 | the in-place `normalize` leaves the rotor equal to what `normalized` returns |
| Rotors4Laws.RotateByIdentity | src/mathematics/rotor4.rs:19 | rotating by `IDENTITY` leaves every 4D vector unchanged |
| Rotors4Laws.IdentityIsUnit | src/mathematics/rotor4.rs:69-92 | `IDENTITY` is a two-sided unit of `rotate_rotor` |
| Rotors4Laws.ReverseInvolution | src/mathematics/rotor4.rs:59-67 | `reverse` keeps the scalar and the pseudoscalar, negates the plane, and reversing twice (also in place) gives the rotor back |
| Rotors4Laws.ProductWithReverse | src/mathematics/rotor4.rs:59-92 | `r · reverse(r)`, in either order, is the scalar `|r|²` plus a pseudoscalar `q`; it is `IDENTITY` exactly for a unit rotor with `q = 0` |
| Rotors4Laws.DoubleCover | src/mathematics/rotor4.rs:94-202 | `r` and `-r` rotate every 4D vector the same way |
| Rotors4Laws.ReverseOfProduct | src/mathematics/rotor4.rs:59-92 | the reverse of a product is the product of the reverses in the opposite order |
| Rotors4Associativity.ProductAssociative | src/mathematics/rotor4.rs:69-92 | the 4D `rotate_rotor` is associative |
| Rotors4Laws.GeometricProductReverse | src/mathematics/rotor4.rs:50-62 | reversing `uv` gives `vu`, and `uu` is the scalar `|u|²` |
| Rotors4Laws.RotationScalesLength | src/mathematics/rotor4.rs:94-202 | the sandwich product scales squared lengths by `|r|⁴ - q²`, where `q` is the pseudoscalar of `r · reverse(r)` |
| Rotors4Laws.UnitRotorIsIsometry | src/mathematics/rotor4.rs:94-202 | a unit rotor with `q = 0` preserves the length of every 4D vector |
| Rotors4Laws.NormalizedOfZero | src/mathematics/rotor4.rs:291-313 | both `normalized` and `normalize` return a rotor of squared length 0 unchanged |
| Rotors4Laws.ZeroRotor | src/mathematics/rotor4.rs:269-273 | a squared length of 0 means all eight parts are 0 |
| Rotors4Laws.NormalizedIsUnit | src/mathematics/rotor4.rs:291-313 | a nonzero rotor has positive length, and `normalized` divides all eight parts by it and gives a unit rotor |
| Rotors4Laws.NormalizedOfUnit | src/mathematics/rotor4.rs:291-313 | normalizing a unit rotor leaves it unchanged |
| Rotors4Laws.BivectorAngleHasNoPseudoscalar | src/mathematics/rotor4.rs:30-48 | `bivector_angle` always gives pseudoscalar 0 |
| Rotors4Laws.BivectorAngleIsHalfAngle | src/mathematics/rotor4.rs:30-48 | for a nonzero plane, `bivector_angle` is `cos(θ/2) - sin(θ/2)·B̂` and has unit length |
| Rotors4Laws.HalfAngleOfUnitPlane | src/mathematics/rotor4.rs:34-47 | for a unit plane the half-angle rotor already has unit length, so the final `normalized()` does not change it |
| Rotors4Laws.BivectorAngleOfZeroPlaneHasNoPlane | src/mathematics/rotor4.rs:30-48 | `bivector_angle` of the zero plane has zero plane part for every angle |
| Rotors4Laws.BivectorAngleOfZeroPlane | src/mathematics/rotor4.rs:30-48 | `bivector_angle` of the zero plane is `IDENTITY` when `cos(θ/2)` is positive |
| Rotors4Laws.BivectorAngleOfZeroPlaneIsScalar | src/mathematics/rotor4.rs:30-48 | `bivector_angle` of the zero plane is the normalized scalar `cos(θ/2)` |
| Rotors4Laws.HalfAngleOfZeroPlane | src/mathematics/rotor4.rs:32-47 | with the zero plane, the rotor before the final normalization is the scalar `cos(θ/2)` |
| Rotors4Laws.NormalizedOfScalar | src/mathematics/rotor4.rs:291-313 | normalizing a positive scalar rotor gives `IDENTITY` |
| Rotors4Laws.NormalizedKeepsZeroPlane | src/mathematics/rotor4.rs:291-313 | normalizing a scalar rotor never creates a plane part |
| Rotors4Laws.FromToSelf | src/mathematics/multivectors.rs:63-68 | the difference from `a` to itself is `|a|²` plus the pseudoscalar `q`, and it is `IDENTITY` exactly for a unit rotor with `q = 0` |
| Rotors4Laws.FromToRecovers | src/mathematics/multivectors.rs:63-68 | for a unit `a` with `q = 0`, `from_to(a, b) * a == b` |
| Rotors4Laws.FromToReversed | src/mathematics/multivectors.rs:63-68 | swapping the arguments of `from_to` reverses the difference rotor |
| Rotors4Laws.AngleOfSameScalars | src/mathematics/rotor4.rs:260-264 | the 4D `angle` depends only on the scalar and pseudoscalar parts |
| Rotors4Laws.AngleOfUnitScalar | src/mathematics/rotor4.rs:260-264 | when `sqrt(a² + p²)` is 1, the angle is 0 |
| Rotors4Laws.ApproxEqualSymmetric | src/mathematics/multivectors.rs:70-74 | the 4D `approx_equal` is symmetric |
| Rotors4Laws.ApproxEqualReflexive | src/mathematics/multivectors.rs:70-74 | every unit rotor with `q = 0` is `approx_equal` to itself |
| Rotors4Laws.ApproxEqualOpposite | src/mathematics/multivectors.rs:70-74 | unlike in 3D, a unit rotor with `q = 0` is `approx_equal` to its negation |
| Rotors4Laws.SlerpNeverFlips | src/mathematics/rotor4.rs:213-221 | the 4D cosine is a square root and never negative, so the `flip` branch is never taken |
| Rotors4Laws.SlerpAtStart | src/mathematics/rotor4.rs:204-258 | at ratio 0, `slerp` returns `from` normalized |
| Rotors4Laws.SlerpAtEnd | src/mathematics/rotor4.rs:204-258 | at ratio 1, `slerp` returns `to` normalized, never negated |
| Rotors4Laws.SlerpIsUnit | src/mathematics/rotor4.rs:204-258 | the result of `slerp` is a unit rotor unless the blend is exactly zero |
| Rotors4Examples.DiagonalNormalized | src/mathematics/rotor4_tests.rs:22 | `(1, 1, 0, 0).normalized()` is `(k, k, 0, 0)` with `k > 0` and `k² = 1/2` |
| Rotors4Examples.GeometricProductRotation | src/mathematics/rotor4_tests.rs:17-30 | the product of the unit diagonal and `x` rotates `x` to `y` |
| Rotors4Examples.AxisProductMoves | src/mathematics/rotor4_tests.rs:120-131 | the rotor `xy` moves `x` |
| Rotors4Examples.AxisProductTimesReverse | src/mathematics/rotor4_tests.rs:120-135 | the rotor `xy` times its reverse is `IDENTITY` |
| Rotors4Examples.AxisProductReverseUndoes | src/mathematics/rotor4_tests.rs:120-140 | the reverse of `xy` rotates the moved `x` back to `x` |
| Rotors4Examples.PlanarRotationXY | src/mathematics/rotor4_tests.rs:43-51 | a quarter turn in the plane `x ∧ y` takes `x` to `y` |
| Rotors4Examples.PlanarRotationXZ | src/mathematics/rotor4_tests.rs:53-61 | a quarter turn in the plane `x ∧ z` takes `x` to `z` |
| Rotors4Examples.PlanarRotationYZ | src/mathematics/rotor4_tests.rs:63-71 | a quarter turn in the plane `y ∧ z` takes `y` to `z` |
| Rotors4Examples.PlanarRotationXW | src/mathematics/rotor4_tests.rs:73-81 | a quarter turn in the plane `x ∧ w` takes `x` to `w` |
| Rotors4Examples.PlanarRotationYW | src/mathematics/rotor4_tests.rs:83-91 | a quarter turn in the plane `y ∧ w` takes `y` to `w` |
| Rotors4Examples.PlanarRotationZW | src/mathematics/rotor4_tests.rs:93-101 | a quarter turn in the plane `z ∧ w` takes `z` to `w` |
| Rotors4Examples.ZeroRotation | src/mathematics/rotor4_tests.rs:104-118 | the plane of a vector with itself gives a rotor that leaves every 4D vector unchanged |
| Rotors4Examples.OffAxisRotation | src/mathematics/rotor4_tests.rs:142-167 | a quarter turn in the plane of `z` and the unit diagonal takes `z` to the diagonal |
| Rotors4Examples.TwoCombinedRotations | src/mathematics/rotor4_tests.rs:169-189 | multiplying quarter turns in the zy and then the zx plane into `IDENTITY` takes `z` to `x` |
| Rotors4Examples.SlerpStartsAtIdentity | src/mathematics/rotor4_tests.rs:324-326 | `slerp` from `IDENTITY` to a quarter turn at ratio 0 is `IDENTITY` |
| Rotors4Examples.SlerpEndsAtTurn | src/mathematics/rotor4_tests.rs:328-330 | `slerp` from `IDENTITY` to a quarter turn at ratio 1 is the quarter turn |
| Raymarching.Trace | src/raymarching.rs:13-22 | the loop takes at most `MAX_STEPS` samples, and at least one |
| Raymarching.Raymarch | src/raymarching.rs:9-25 | the returned distance is the recursive march along `ro + rd·d` and equals the sum of the sampled distances; if the loop ends before `MAX_STEPS`, the last sample is within `SURF_DIST` or the distance exceeds `MAX_DIST` |
| Raymarching.MarchIsSum | src/raymarching.rs:13-22 | the marched distance is the start plus the sum of every sample taken |
| Raymarching.SampleAtRunningSum | src/raymarching.rs:15-17 | each sample is the field at the start plus the sum of all earlier samples |
| Raymarching.NoEarlyStop | src/raymarching.rs:18-21 | the loop never stops before its last sample: every earlier sample fails both exit tests |
| Raymarching.EarlyExit | src/raymarching.rs:18-21 | when fewer than `MAX_STEPS` samples are taken, the last one passes an exit test |
| Raymarching.Escapes | src/raymarching.rs:13-22 | if the field stays at least `s >= SURF_DIST` along the ray, the march passes `MAX_DIST` or advances at least `n·s` |
| Raymarching.GuardedZero3 | src/raymarching.rs:36-41 | the guarded normalization of `normal3` is zero exactly when the gradient is zero |
| Raymarching.GuardedUnit3 | src/raymarching.rs:36-41 | for a nonzero gradient, `normal3` returns the normalized gradient, which has unit length |
| Raymarching.GuardedZero4 | src/raymarching.rs:53-58 | the guarded normalization of `normal4` is zero exactly when the gradient is zero |
| Raymarching.GuardedUnit4 | src/raymarching.rs:53-58 | for a nonzero gradient, `normal4` returns the normalized gradient, which has unit length |
| Raymarching.LinearGradient3 | src/raymarching.rs:29-34 | for a linear field `q·dir + k`, the backward difference is `E·dir` at every point |
| Raymarching.LinearNormal3 | src/raymarching.rs:27-42 | for a linear field, `normal3` is the guarded normalization of `dir`, the same at every point |
| Raymarching.PlaneNormal3 | src/raymarching.rs:27-42 | the normal of the plane field `x + k` is `(1, 0, 0)` everywhere |
| Raymarching.LinearGradient4 | src/raymarching.rs:46-52 | for a linear 4D field `q·dir + k`, the backward difference is `E·dir` at every point |
| Raymarching.LinearNormal4 | src/raymarching.rs:44-60 | for a linear 4D field, `normal4` is the guarded normalization of `dir` |
| Raymarching.PlaneNormal4 | src/raymarching.rs:44-60 | the normal of the hyperplane field `w + k` is `(0, 0, 0, 1)` everywhere |
| RaymarchingExamples.DownTheAxis | src/distance_functions.rs:8-11 | along `-z` from `(0, 0, 2)` the unit sphere's field is `1 - t` until the centre |
| RaymarchingExamples.Hit | src/raymarching.rs:9-25 | marching from `(0, 0, 2)` towards the unit sphere samples distance 1 at the start, steps 1, and stops on the second sample (distance 0), having travelled 1 |
| RaymarchingExamples.PastTheSphere | src/distance_functions.rs:8-11 | along `+y` from `(0, 0, 2)` the unit sphere's field is `sqrt(4 + t²) - 1` |
| RaymarchingExamples.FarFromTheSphere | src/distance_functions.rs:8-11 | from distance 1 on, the field along that ray stays at least 1.2 |
| RaymarchingExamples.Miss | src/raymarching.rs:9-25 | marching past the unit sphere ends beyond `MAX_DIST` |
| RaymarchingExamples.MarchToSphere | src/raymarching.rs:9-25 | `raymarch` towards the unit sphere returns exactly 1 |
| RaymarchingExamples.MarchPastSphere | src/raymarching.rs:9-25 | `raymarch` past the unit sphere returns more than `MAX_DIST` |
| DistanceFunctions.SphereAtCentre3 | src/distance_functions.rs:8-11 | the sphere field at the centre is `-radius` |
| DistanceFunctions.SphereSign3 | src/distance_functions.rs:8-11 | for a non-negative radius the field is negative exactly inside the sphere and zero exactly on it |
| DistanceFunctions.SphereTranslation3 | src/distance_functions.rs:8-11 | moving the point and the centre by the same offset leaves the field unchanged |
| DistanceFunctions.SphereAtCentre4 | src/distance_functions.rs:8-11 | the 4D sphere field at the centre is `-radius` |
| DistanceFunctions.SphereSign4 | src/distance_functions.rs:8-11 | for a non-negative radius the 4D field is negative exactly inside the hypersphere and zero exactly on it |
| DistanceFunctions.SphereTranslation4 | src/distance_functions.rs:8-11 | the 4D sphere field is invariant under translating point and centre together |
| DistanceFunctions.BoxInside3 | src/distance_functions.rs:14-27 | when every offset is non-positive the box field is the largest offset, which is not positive |
| DistanceFunctions.BoxOutside3 | src/distance_functions.rs:14-27 | when some offset is positive the box field is positive |
| DistanceFunctions.BoxOutsideAlongX3 | src/distance_functions.rs:14-27 | outside only along x, the box field is the x offset |
| DistanceFunctions.BoxSign3 | src/distance_functions.rs:14-27 | the box field is at most 0 exactly when every coordinate is within the half-size from the centre |
| DistanceFunctions.BoxAtCentre3 | src/distance_functions.rs:14-27 | at the centre the box field is minus the smallest half-size |
| DistanceFunctions.BoxReflection3 | src/distance_functions.rs:14-27 | mirroring the point through the centre along any one axis leaves the box field unchanged |
| DistanceFunctions.BoxInside4 | src/distance_functions.rs:30-44 | when every 4D offset is non-positive the field is the largest offset, which is not positive |
| DistanceFunctions.BoxOutside4 | src/distance_functions.rs:30-44 | when some 4D offset is positive the field is positive |
| DistanceFunctions.BoxSign4 | src/distance_functions.rs:30-44 | the 4D box field is at most 0 exactly when every coordinate is within the half-size from the centre |
| Spheres.New | src/distance_functions/sphere.rs:12-15 | the centre and the radius are stored unchanged |
| Spheres.Sdf | src/distance_functions/sphere.rs:20-22 | a `Sphere`'s field is the generic sphere field of its centre and radius |
| Spheres.SdfAtCentre | src/distance_functions/sphere.rs:12-22 | a new sphere's field at its centre is minus its radius |
| Spheres.SdfSign | src/distance_functions/sphere.rs:20-22 | a sphere's field is negative exactly inside it and zero exactly on it |
| Cameras.New | src/camera.rs:13-28 | the viewport is `aspect·height` by `height`, and the lower-left corner sits half a viewport left and down and one focal length forward of the position |
| Cameras.RayDirection | src/camera.rs:30-33 | the ray for screen point `uv` is `((u - ½)·width, (v - ½)·height, -focal)` |
| Cameras.RayIndependentOfPosition | src/camera.rs:13-33 | ray directions do not depend on the camera position |
| Cameras.CentreAndCornerRays | src/camera.rs:13-33 | the screen centre looks straight down `-z`, and the corners `(0, 0)` and `(1, 1)` look at opposite viewport corners |
| Mathematics.ClampRange | src/mathematics.rs:12-22 | with ordered bounds the result lies between them, and `clamp` returns `x` exactly when `x` is already in range |
| Mathematics.ClampIdempotent | src/mathematics.rs:12-22 | clamping twice is clamping once |
| Mathematics.ClampMonotone | src/mathematics.rs:12-22 | `clamp` preserves the order of its inputs |
| Mathematics.ClampCrossedBounds | src/mathematics.rs:12-22 | with `max < min`, every input below `min` gives `min` and every other input gives `max`, because the lower test runs first |

## Left out

- `f32` arithmetic is replaced by exact reals. The model therefore has no rounding, no NaN or infinity, and none of the `f32::max`, `f32::min` or `f32::abs` NaN rules. The per-component tolerance test `approx_equal(f32, f32)` behind every `==` is not part of this model, so it is a parameter of each `Equals` predicate.
- The `sqrt`, `sin`, `cos` and `acos` platform functions are parameters, constrained only by `Elementary.Lawful`.
- `Display` implementations, `main.rs`, `application.rs` and the window and pixel loop are I/O and are not modelled. The `SDF` trait that `Sphere` implements is not part of this model.
- The operator traits are folded into the named functions:
  - `Rotor * Float` and `Float * Rotor` are `RotateVector`;
  - `Rotor * Rotor` and `*=` are `RotateRotor`;
  - `+=`, `-=` and `*=` on vectors are `Add`, `Sub` and `Scale`.
- `DEGREES_TO_RADIANS` and `RADIANS_TO_DEGREES` are never used and are not modelled.
- Composing rotations is stated through `rotate_rotor` associativity, `reverse` and norm laws. The general law `rotate_vector(a * b, v) == rotate_vector(a, rotate_vector(b, v))` is not proved; each concrete composition in the tests is proved instead.
- The `single_rotation_angle` and `combined_rotation_angle` tests (`rotor3_tests.rs:160-267`, `rotor4_tests.rs:191-298`) need `acos(cos x) = x`, which is not among the `Lawful` facts, so they are not modelled.
- The `slerp` midpoint check (`rotor3_tests.rs:281-289`, and its 4D counterpart) compares with the irrational `(1, 0, 1).normalized()` after `acos` and `sin`, so it is not modelled. The end points are.
- The normal of the unit sphere at `(1, 0, 0)` is irrational under the backward difference and is not stated. Linear fields, whose normals are exact, are stated instead.
- Rotors3Laws.ApproxEqualReflexive: requires a unit rotor, because `angle` of a non-unit difference is `2·acos` of a value outside `[-1, 1]`.
- Rotors4Laws.ApproxEqualReflexive: also requires `q = 0`, for the same reason as `Rotors4Laws.UnitRotorIsIsometry`.
- Rotors3Laws.SlerpIsUnit: states unit length or the zero rotor, because for opposite end points the blend can vanish and `normalize` then leaves it at zero.
- Rotors3Laws.BivectorAngleOfZeroPlane: requires `cos(θ/2) > 0`. For a non-positive cosine the normalized scalar is `-1` or `0`, not `IDENTITY`.
- Raymarching.Raymarch: the distance field is a total function `V -> real`. A field that panics or returns NaN is not modelled.
- `sdf_sphere<T: Vector>` is modelled by its two instances, `SdfSphere3` and `SdfSphere4`. The 2D instance is not used by the renderer.
