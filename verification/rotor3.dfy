/**
 * `Rotor3`: a 3D rotor, a scalar `a` plus a bivector `bv`, with the rotor
 * product, the sandwich rotation of a vector, reversal, normalization,
 * interpolation and the comparison built on `from_to` and `angle`.
 *
 * The `*` operators only delegate: `Rotor3 * Rotor3` is `RotateRotor`, and
 * both `Rotor3 * Float3` and `Float3 * Rotor3` are `RotateVector`.
 */
module Rotors3 {
  import opened Elementary
  import Multivectors
  import Interpolation
  import Bivectors3
  import Floats3

  type Bivector3 = Bivectors3.Bivector3
  type Float3 = Floats3.Float3

  datatype Rotor3 = Rotor3(a: real, bv: Bivector3)

  /** The rotor that rotates nothing. */
  const Identity: Rotor3 := Rotor3(1.0, Bivectors3.Bivector3(0.0, 0.0, 0.0))

  /** `Rotor3::new(a, bv)` */
  function New(a: real, bv: Bivector3): (r: Rotor3)
    ensures r.a == a && r.bv == bv
  {
    Rotor3(a, bv)
  }

  /**
   * The rotor for a rotation by `angle` radians in the plane `bv`: the
   * half-angle rotor of the normalized plane, normalized once more.
   */
  function BivectorAngle(m: Functions, bv: Bivector3, angle: real): Rotor3 {
    Normalized(m, HalfAngle(m, Bivectors3.Normalized(m, bv), angle))
  }

  /** The scalar `cos(angle/2)` and the plane scaled by `-sin(angle/2)`. */
  function HalfAngle(m: Functions, plane: Bivector3, angle: real): Rotor3 {
    var sina := Sin(m, angle / 2.0);
    Rotor3(Cos(m, angle / 2.0), Bivectors3.Bivector3(-sina * plane.yz, -sina * plane.xz, -sina * plane.xy))
  }

  /** The geometric product `uv` of two vectors: their dot product and their wedge product. */
  function GeometricProduct(u: Float3, v: Float3): Rotor3 {
    Rotor3(Floats3.Dot(u, v), Floats3.Wedge(u, v))
  }

  /** The reverse: the same scalar with the bivector negated. */
  function Reverse(r: Rotor3): Rotor3 {
    New(r.a, Bivectors3.Neg(r.bv))
  }

  /** `reverse_me()` in place: the value the rotor holds after the call. */
  function ReverseMe(r: Rotor3): (updated: Rotor3)
    ensures updated == Reverse(r)
  {
    r.(bv := Bivectors3.Neg(r.bv))
  }

  /**
   * The rotor product `a * b`, the rotor that applies `b` first and then `a`.
   * Each component is one of the polynomials below.
   */
  function RotateRotor(a: Rotor3, b: Rotor3): Rotor3 {
    var (aa, ayz, axz, axy) := (a.a, a.bv.yz, a.bv.xz, a.bv.xy);
    var (ba, byz, bxz, bxy) := (b.a, b.bv.yz, b.bv.xz, b.bv.xy);
    Rotor3(
      ProductScalar(aa, ayz, axz, axy, ba, byz, bxz, bxy),
      Bivectors3.Bivector3(
        ProductYz(aa, ayz, axz, axy, ba, byz, bxz, bxy),
        ProductXz(aa, ayz, axz, axy, ba, byz, bxz, bxy),
        ProductXy(aa, ayz, axz, axy, ba, byz, bxz, bxy)))
  }

  /** The scalar part of the rotor product, from the factors' components. */
  function ProductScalar(aa: real, ayz: real, axz: real, axy: real, ba: real, byz: real, bxz: real, bxy: real): real {
    aa * ba - axy * bxy - axz * bxz - ayz * byz
  }

  /** The `xy` part of the rotor product. */
  function ProductXy(aa: real, ayz: real, axz: real, axy: real, ba: real, byz: real, bxz: real, bxy: real): real {
    axy * ba + aa * bxy + ayz * bxz - axz * byz
  }

  /** The `xz` part of the rotor product. */
  function ProductXz(aa: real, ayz: real, axz: real, axy: real, ba: real, byz: real, bxz: real, bxy: real): real {
    axz * ba + aa * bxz - ayz * bxy + axy * byz
  }

  /** The `yz` part of the rotor product. */
  function ProductYz(aa: real, ayz: real, axz: real, axy: real, ba: real, byz: real, bxz: real, bxy: real): real {
    ayz * ba + aa * byz + axz * bxy - axy * bxz
  }

  /**
   * The sandwich product `r v r~`: each coordinate of the result is one of
   * the quadratic forms below in the rotor's components.
   */
  function RotateVector(r: Rotor3, v: Float3): Float3 {
    var (s, yz, xz, xy) := (r.a, r.bv.yz, r.bv.xz, r.bv.xy);
    Floats3.Float3(
      SandwichX(s, yz, xz, xy, v.x, v.y, v.z),
      SandwichY(s, yz, xz, xy, v.x, v.y, v.z),
      SandwichZ(s, yz, xz, xy, v.x, v.y, v.z))
  }

  /** The `x` coordinate of the sandwich product. */
  function SandwichX(s: real, yz: real, xz: real, xy: real, x: real, y: real, z: real): real {
    var s2, bxy2, bxz2, byz2 := s * s, xy * xy, xz * xz, yz * yz;
    - x * bxy2
    - x * bxz2
    + x * byz2
    + x * s2
    + 2.0 * y * xy * s
    - 2.0 * y * xz * yz
    + 2.0 * z * xy * yz
    + 2.0 * z * xz * s
  }

  /** The `y` coordinate of the sandwich product. */
  function SandwichY(s: real, yz: real, xz: real, xy: real, x: real, y: real, z: real): real {
    var s2, bxy2, bxz2, byz2 := s * s, xy * xy, xz * xz, yz * yz;
    - 2.0 * x * xy * s
    - 2.0 * x * xz * yz
    - y * bxy2
    + y * bxz2
    - y * byz2
    + y * s2
    - 2.0 * z * xy * xz
    + 2.0 * z * yz * s
  }

  /** The `z` coordinate of the sandwich product. */
  function SandwichZ(s: real, yz: real, xz: real, xy: real, x: real, y: real, z: real): real {
    var s2, bxy2, bxz2, byz2 := s * s, xy * xy, xz * xz, yz * yz;
    2.0 * x * xy * yz
    - 2.0 * x * xz * s
    - 2.0 * y * xy * xz
    - 2.0 * y * yz * s
    + z * bxy2
    - z * bxz2
    - z * byz2
    + z * s2
  }

  /**
   * Spherical interpolation from `from` to `to` by `ratio`: the weights come
   * from the scalar of `from_to(from, to)`, the weighted sum is normalized in
   * place.
   */
  function Slerp(m: Functions, from: Rotor3, to: Rotor3, ratio: real): Rotor3
    requires Lawful(m)
  {
    var difference := FromTo(from, to);
    var w := Interpolation.SlerpWeights(m, difference.a, ratio);
    var toReturn := Combine(w.s1, from, w.s2, to);
    Normalize(m, toReturn)
  }

  /** The weighted sum `s1·from + s2·to`, component by component. */
  function Combine(s1: real, from: Rotor3, s2: real, to: Rotor3): Rotor3 {
    Rotor3(
      s1 * from.a + s2 * to.a,
      Bivectors3.Bivector3(
        s1 * from.bv.yz + s2 * to.bv.yz,
        s1 * from.bv.xz + s2 * to.bv.xz,
        s1 * from.bv.xy + s2 * to.bv.xy))
  }

  /** The rotation angle in radians: twice the arc cosine of the scalar. */
  function Angle(m: Functions, r: Rotor3): real {
    Acos(m, r.a) * 2.0
  }

  /**
   * The rotor taking `a` to `b`: `b * reverse(a)`. The source also calls
   * `normalized()` on it and drops the value, which has no effect, so the
   * product is returned as is.
   */
  function FromTo(a: Rotor3, b: Rotor3): Rotor3 {
    RotateRotor(b, Reverse(a))
  }

  /** Two rotors are approximately equal when the rotor between them turns by less than 0.001 radians. */
  predicate ApproxEqual(m: Functions, a: Rotor3, b: Rotor3) {
    Angle(m, FromTo(a, b)) < 0.001
  }

  function LengthSquared(r: Rotor3): real {
    r.a * r.a + r.bv.yz * r.bv.yz + r.bv.xz * r.bv.xz + r.bv.xy * r.bv.xy
  }

  /** `length()` comes from the trait default. */
  function Length(m: Functions, r: Rotor3): real {
    Multivectors.Length(m, LengthSquared(r))
  }

  /** `normalize()` in place: each component divided by a positive length. It agrees with `normalized()`. */
  function Normalize(m: Functions, r: Rotor3): (updated: Rotor3)
    ensures updated == Normalized(m, r)
  {
    var length := Length(m, r);
    if length > 0.0 then
      var a := r.a / length;
      var yz := r.bv.yz / length;
      var xz := r.bv.xz / length;
      var xy := r.bv.xy / length;
      Rotor3(a, Bivectors3.Bivector3(yz, xz, xy))
    else
      r
  }

  /** `normalized()`: divide by the length when it is positive, else return `r` unchanged. */
  function Normalized(m: Functions, r: Rotor3): Rotor3 {
    var length := Length(m, r);
    if length > 0.0 then
      Rotor3(r.a / length, Bivectors3.Bivector3(r.bv.yz / length, r.bv.xz / length, r.bv.xy / length))
    else
      r
  }

  /**
   * The source's `==`: a tolerance test on the scalar and the bivector's
   * `==`; the tolerance test is a parameter here.
   */
  predicate Equals(r: Rotor3, s: Rotor3, near: (real, real) -> bool) {
    near(r.a, s.a) && Bivectors3.Equals(r.bv, s.bv, near)
  }
}
