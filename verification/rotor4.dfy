/**
 * `Rotor4`: a 4D rotor, a scalar `a`, a bivector `bv` of six planes and the
 * pseudoscalar `p` (the `xyzw` part), with the rotor product, the sandwich
 * rotation of a 4-vector, reversal, normalization, interpolation and the
 * comparison built on `from_to` and `angle`.
 *
 * The `*` operators only delegate: `Rotor4 * Rotor4` is `RotateRotor`, and
 * both `Rotor4 * Float4` and `Float4 * Rotor4` are `RotateVector`.
 */
module Rotors4 {
  import opened Elementary
  import Multivectors
  import Interpolation
  import Bivectors4
  import Floats4

  type Bivector4 = Bivectors4.Bivector4
  type Float4 = Floats4.Float4

  datatype Rotor4 = Rotor4(a: real, bv: Bivector4, p: real)

  /** The rotor that rotates nothing. */
  const Identity: Rotor4 := Rotor4(1.0, Bivectors4.Bivector4(0.0, 0.0, 0.0, 0.0, 0.0, 0.0), 0.0)

  /** `Rotor4::new(a, bv, p)` */
  function New(a: real, bv: Bivector4, p: real): (r: Rotor4)
    ensures r.a == a && r.bv == bv && r.p == p
  {
    Rotor4(a, bv, p)
  }

  /**
   * The rotor for a rotation by `angle` radians in the plane `bv`: the
   * half-angle rotor of the normalized plane, with no pseudoscalar part,
   * normalized once more.
   */
  function BivectorAngle(m: Functions, bv: Bivector4, angle: real): Rotor4 {
    Normalized(m, HalfAngle(m, Bivectors4.Normalized(m, bv), angle))
  }

  /** The scalar `cos(angle/2)`, the plane scaled by `-sin(angle/2)`, and `p == 0`. */
  function HalfAngle(m: Functions, plane: Bivector4, angle: real): Rotor4 {
    var sina := Sin(m, angle / 2.0);
    Rotor4(
      Cos(m, angle / 2.0),
      Bivectors4.Bivector4(-sina * plane.yz, -sina * plane.xz, -sina * plane.xy, -sina * plane.xw, -sina * plane.yw, -sina * plane.zw),
      0.0)
  }

  /** The geometric product `uv` of two vectors: their dot product, their wedge product and no pseudoscalar. */
  function GeometricProduct(u: Float4, v: Float4): Rotor4 {
    Rotor4(Floats4.Dot(u, v), Floats4.Wedge(u, v), 0.0)
  }

  /** The reverse: the same scalar and pseudoscalar with the bivector negated. */
  function Reverse(r: Rotor4): Rotor4 {
    New(r.a, Bivectors4.Neg(r.bv), r.p)
  }

  /** `reverse_me()` in place: the value the rotor holds after the call. */
  function ReverseMe(r: Rotor4): (updated: Rotor4)
    ensures updated == Reverse(r)
  {
    r.(bv := Bivectors4.Neg(r.bv))
  }

  /**
   * The rotor product `a * b`, the rotor that applies `b` first and then `a`.
   * Each component is one of the eight polynomials below.
   */
  function RotateRotor(a: Rotor4, b: Rotor4): Rotor4 {
    var (aa, ayz, axz, axy, axw, ayw, azw, ap) := (a.a, a.bv.yz, a.bv.xz, a.bv.xy, a.bv.xw, a.bv.yw, a.bv.zw, a.p);
    var (ba, byz, bxz, bxy, bxw, byw, bzw, bp) := (b.a, b.bv.yz, b.bv.xz, b.bv.xy, b.bv.xw, b.bv.yw, b.bv.zw, b.p);
    Rotor4(
      ProductScalar(aa, ayz, axz, axy, axw, ayw, azw, ap, ba, byz, bxz, bxy, bxw, byw, bzw, bp),
      Bivectors4.Bivector4(
        ProductYz(aa, ayz, axz, axy, axw, ayw, azw, ap, ba, byz, bxz, bxy, bxw, byw, bzw, bp),
        ProductXz(aa, ayz, axz, axy, axw, ayw, azw, ap, ba, byz, bxz, bxy, bxw, byw, bzw, bp),
        ProductXy(aa, ayz, axz, axy, axw, ayw, azw, ap, ba, byz, bxz, bxy, bxw, byw, bzw, bp),
        ProductXw(aa, ayz, axz, axy, axw, ayw, azw, ap, ba, byz, bxz, bxy, bxw, byw, bzw, bp),
        ProductYw(aa, ayz, axz, axy, axw, ayw, azw, ap, ba, byz, bxz, bxy, bxw, byw, bzw, bp),
        ProductZw(aa, ayz, axz, axy, axw, ayw, azw, ap, ba, byz, bxz, bxy, bxw, byw, bzw, bp)),
      ProductP(aa, ayz, axz, axy, axw, ayw, azw, ap, ba, byz, bxz, bxy, bxw, byw, bzw, bp))
  }

  /** The scalar part of the rotor product, from the factors' components. */
  function ProductScalar(
    aa: real, ayz: real, axz: real, axy: real, axw: real, ayw: real, azw: real, ap: real,
    ba: real, byz: real, bxz: real, bxy: real, bxw: real, byw: real, bzw: real, bp: real): real
  {
    -axw * bxw - axy * bxy - axz * bxz - ayw * byw - ayz * byz - azw * bzw + ap * bp + aa * ba
  }

  /** The `xy` part of the rotor product. */
  function ProductXy(
    aa: real, ayz: real, axz: real, axy: real, axw: real, ayw: real, azw: real, ap: real,
    ba: real, byz: real, bxz: real, bxy: real, bxw: real, byw: real, bzw: real, bp: real): real
  {
    -axw * byw + axy * ba - axz * byz + ayw * bxw + ayz * bxz - azw * bp - ap * bzw + aa * bxy
  }

  /** The `xz` part of the rotor product. */
  function ProductXz(
    aa: real, ayz: real, axz: real, axy: real, axw: real, ayw: real, azw: real, ap: real,
    ba: real, byz: real, bxz: real, bxy: real, bxw: real, byw: real, bzw: real, bp: real): real
  {
    -axw * bzw + axy * byz + axz * ba + ayw * bp - ayz * bxy + azw * bxw + ap * byw + aa * bxz
  }

  /** The `xw` part of the rotor product. */
  function ProductXw(
    aa: real, ayz: real, axz: real, axy: real, axw: real, ayw: real, azw: real, ap: real,
    ba: real, byz: real, bxz: real, bxy: real, bxw: real, byw: real, bzw: real, bp: real): real
  {
    axw * ba + axy * byw + axz * bzw - ayw * bxy - ayz * bp - azw * bxz - ap * byz + aa * bxw
  }

  /** The `yz` part of the rotor product. */
  function ProductYz(
    aa: real, ayz: real, axz: real, axy: real, axw: real, ayw: real, azw: real, ap: real,
    ba: real, byz: real, bxz: real, bxy: real, bxw: real, byw: real, bzw: real, bp: real): real
  {
    -axw * bp - axy * bxz + axz * bxy - ayw * bzw + ayz * ba + azw * byw - ap * bxw + aa * byz
  }

  /** The `yw` part of the rotor product. */
  function ProductYw(
    aa: real, ayz: real, axz: real, axy: real, axw: real, ayw: real, azw: real, ap: real,
    ba: real, byz: real, bxz: real, bxy: real, bxw: real, byw: real, bzw: real, bp: real): real
  {
    axw * bxy - axy * bxw + axz * bp + ayw * ba + ayz * bzw - azw * byz + ap * bxz + aa * byw
  }

  /** The `zw` part of the rotor product. */
  function ProductZw(
    aa: real, ayz: real, axz: real, axy: real, axw: real, ayw: real, azw: real, ap: real,
    ba: real, byz: real, bxz: real, bxy: real, bxw: real, byw: real, bzw: real, bp: real): real
  {
    axw * bxz - axy * bp - axz * bxw + ayw * byz - ayz * byw + azw * ba - ap * bxy + aa * bzw
  }

  /** The pseudoscalar (`xyzw`) part of the rotor product. */
  function ProductP(
    aa: real, ayz: real, axz: real, axy: real, axw: real, ayw: real, azw: real, ap: real,
    ba: real, byz: real, bxz: real, bxy: real, bxw: real, byw: real, bzw: real, bp: real): real
  {
    axw * byz + axy * bzw - axz * byw - ayw * bxz + ayz * bxw + azw * bxy + ap * ba + aa * bp
  }

  /**
   * The sandwich product `r v r~`: each coordinate of the result is one of
   * the quadratic forms below in the rotor's components.
   */
  function RotateVector(r: Rotor4, v: Float4): Float4 {
    var (a, yz, xz, xy, xw, yw, zw, p) := (r.a, r.bv.yz, r.bv.xz, r.bv.xy, r.bv.xw, r.bv.yw, r.bv.zw, r.p);
    Floats4.Float4(
      SandwichX(a, yz, xz, xy, xw, yw, zw, p, v.x, v.y, v.z, v.w),
      SandwichY(a, yz, xz, xy, xw, yw, zw, p, v.x, v.y, v.z, v.w),
      SandwichZ(a, yz, xz, xy, xw, yw, zw, p, v.x, v.y, v.z, v.w),
      SandwichW(a, yz, xz, xy, xw, yw, zw, p, v.x, v.y, v.z, v.w))
  }

  /** The `x` coordinate of the sandwich product. */
  function SandwichX(
    a: real, yz: real, xz: real, xy: real, xw: real, yw: real, zw: real, p: real,
    x: real, y: real, z: real, w: real): real
  {
    var a2, bxy2, bxz2, bxw2, byz2, byw2, bzw2, p2 := a * a, xy * xy, xz * xz, xw * xw, yz * yz, yw * yw, zw * zw, p * p;
    2.0 * w * xw * a
    + 2.0 * w * xy * yw
    + 2.0 * w * xz * zw
    + 2.0 * w * yz * p
    - x * bxw2
    - x * bxy2
    - x * bxz2
    + x * byw2
    + x * byz2
    + x * bzw2
    - x * p2
    + x * a2
    - 2.0 * y * xw * yw
    + 2.0 * y * xy * a
    - 2.0 * y * xz * yz
    + 2.0 * y * zw * p
    - 2.0 * z * xw * zw
    + 2.0 * z * xy * yz
    + 2.0 * z * xz * a
    - 2.0 * z * yw * p
  }

  /** The `y` coordinate of the sandwich product. */
  function SandwichY(
    a: real, yz: real, xz: real, xy: real, xw: real, yw: real, zw: real, p: real,
    x: real, y: real, z: real, w: real): real
  {
    var a2, bxy2, bxz2, bxw2, byz2, byw2, bzw2, p2 := a * a, xy * xy, xz * xz, xw * xw, yz * yz, yw * yw, zw * zw, p * p;
    - 2.0 * w * xw * xy
    - 2.0 * w * xz * p
    + 2.0 * w * yw * a
    + 2.0 * w * yz * zw
    - 2.0 * x * xw * yw
    - 2.0 * x * xy * a
    - 2.0 * x * xz * yz
    - 2.0 * x * zw * p
    + y * bxw2
    - y * bxy2
    + y * bxz2
    - y * byw2
    - y * byz2
    + y * bzw2
    - y * p2
    + y * a2
    + 2.0 * z * xw * p
    - 2.0 * z * xy * xz
    - 2.0 * z * yw * zw
    + 2.0 * z * yz * a
  }

  /** The `z` coordinate of the sandwich product. */
  function SandwichZ(
    a: real, yz: real, xz: real, xy: real, xw: real, yw: real, zw: real, p: real,
    x: real, y: real, z: real, w: real): real
  {
    var a2, bxy2, bxz2, bxw2, byz2, byw2, bzw2, p2 := a * a, xy * xy, xz * xz, xw * xw, yz * yz, yw * yw, zw * zw, p * p;
    - 2.0 * w * xw * xz
    + 2.0 * w * xy * p
    - 2.0 * w * yw * yz
    + 2.0 * w * zw * a
    - 2.0 * x * xw * zw
    + 2.0 * x * xy * yz
    - 2.0 * x * xz * a
    + 2.0 * x * yw * p
    - 2.0 * y * xw * p
    - 2.0 * y * xy * xz
    - 2.0 * y * yw * zw
    - 2.0 * y * yz * a
    + z * bxw2
    + z * bxy2
    - z * bxz2
    + z * byw2
    - z * byz2
    - z * bzw2
    - z * p2
    + z * a2
  }

  /** The `w` coordinate of the sandwich product. */
  function SandwichW(
    a: real, yz: real, xz: real, xy: real, xw: real, yw: real, zw: real, p: real,
    x: real, y: real, z: real, w: real): real
  {
    var a2, bxy2, bxz2, bxw2, byz2, byw2, bzw2, p2 := a * a, xy * xy, xz * xz, xw * xw, yz * yz, yw * yw, zw * zw, p * p;
    - w * bxw2
    + w * bxy2
    + w * bxz2
    - w * byw2
    + w * byz2
    - w * bzw2
    - w * p2
    + w * a2
    - 2.0 * x * xw * a
    + 2.0 * x * xy * yw
    + 2.0 * x * xz * zw
    - 2.0 * x * yz * p
    - 2.0 * y * xw * xy
    + 2.0 * y * xz * p
    - 2.0 * y * yw * a
    + 2.0 * y * yz * zw
    - 2.0 * z * xw * xz
    - 2.0 * z * xy * p
    - 2.0 * z * yw * yz
    - 2.0 * z * zw * a
  }

  /**
   * The cosine `slerp` uses: the square root of the squared scalar and
   * pseudoscalar of `from_to(from, to)`.
   */
  function CosOmega(m: Functions, difference: Rotor4): real {
    Sqrt(m, ScalarNorm(difference))
  }

  /**
   * Spherical interpolation from `from` to `to` by `ratio`: the weights come
   * from `CosOmega` of `from_to(from, to)`, the weighted sum is normalized in
   * place.
   */
  function Slerp(m: Functions, from: Rotor4, to: Rotor4, ratio: real): Rotor4
    requires Lawful(m)
  {
    var difference := FromTo(from, to);
    var w := Interpolation.SlerpWeights(m, CosOmega(m, difference), ratio);
    var toReturn := Combine(w.s1, from, w.s2, to);
    Normalize(m, toReturn)
  }

  /** The weighted sum `s1·from + s2·to`, component by component. */
  function Combine(s1: real, from: Rotor4, s2: real, to: Rotor4): Rotor4 {
    Rotor4(
      s1 * from.a + s2 * to.a,
      Bivectors4.Bivector4(
        s1 * from.bv.yz + s2 * to.bv.yz,
        s1 * from.bv.xz + s2 * to.bv.xz,
        s1 * from.bv.xy + s2 * to.bv.xy,
        s1 * from.bv.xw + s2 * to.bv.xw,
        s1 * from.bv.yw + s2 * to.bv.yw,
        s1 * from.bv.zw + s2 * to.bv.zw),
      s1 * from.p + s2 * to.p)
  }

  /** The rotation angle in radians: twice the arc cosine of `sqrt(a² + p²)`. */
  function Angle(m: Functions, r: Rotor4): real {
    Acos(m, Sqrt(m, ScalarNorm(r))) * 2.0
  }

  /**
   * The rotor taking `a` to `b`, from the trait default: `b * reverse(a)`.
   * The default also calls `normalized()` on it and drops the value, which
   * has no effect, so the product is returned as is.
   */
  function FromTo(a: Rotor4, b: Rotor4): Rotor4 {
    RotateRotor(b, Reverse(a))
  }

  /** Two rotors are approximately equal when the rotor between them turns by less than 0.001 radians. */
  predicate ApproxEqual(m: Functions, a: Rotor4, b: Rotor4) {
    Angle(m, FromTo(a, b)) < 0.001
  }

  /** The squared scalar plus the squared pseudoscalar. */
  function ScalarNorm(r: Rotor4): real {
    r.a * r.a + r.p * r.p
  }

  function LengthSquared(r: Rotor4): real {
    r.a * r.a + r.bv.yz * r.bv.yz + r.bv.xz * r.bv.xz + r.bv.xy * r.bv.xy
    + r.bv.xw * r.bv.xw + r.bv.yw * r.bv.yw + r.bv.zw * r.bv.zw + r.p * r.p
  }

  /** `length()` comes from the trait default. */
  function Length(m: Functions, r: Rotor4): real {
    Multivectors.Length(m, LengthSquared(r))
  }

  /** `normalize()` in place: each component divided by a positive length. It agrees with `normalized()`. */
  function Normalize(m: Functions, r: Rotor4): (updated: Rotor4)
    ensures updated == Normalized(m, r)
  {
    var length := Length(m, r);
    if length > 0.0 then
      var a := r.a / length;
      var yz := r.bv.yz / length;
      var xz := r.bv.xz / length;
      var xy := r.bv.xy / length;
      var xw := r.bv.xw / length;
      var yw := r.bv.yw / length;
      var zw := r.bv.zw / length;
      var p := r.p / length;
      Rotor4(a, Bivectors4.Bivector4(yz, xz, xy, xw, yw, zw), p)
    else
      r
  }

  /** `normalized()`: divide by the length when it is positive, else return `r` unchanged. */
  function Normalized(m: Functions, r: Rotor4): Rotor4 {
    var length := Length(m, r);
    if length > 0.0 then
      Rotor4(
        r.a / length,
        Bivectors4.Bivector4(r.bv.yz / length, r.bv.xz / length, r.bv.xy / length, r.bv.xw / length, r.bv.yw / length, r.bv.zw / length),
        r.p / length)
    else
      r
  }

  /**
   * The source's `==`: tolerance tests on the scalar and the pseudoscalar
   * and the bivector's `==`; the tolerance test is a parameter here.
   */
  predicate Equals(r: Rotor4, s: Rotor4, near: (real, real) -> bool) {
    near(r.a, s.a) && Bivectors4.Equals(r.bv, s.bv, near) && near(r.p, s.p)
  }
}
