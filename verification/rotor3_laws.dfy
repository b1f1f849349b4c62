/**
 * Algebraic laws of the 3D rotor: the identity, the reverse, double cover,
 * length preservation, associativity, normalization, `bivector_angle`,
 * `from_to`, `approx_equal` and the end points of `slerp`.
 */
module Rotors3Laws {
  import opened Elementary
  import Multivectors
  import Interpolation
  import Bivectors3
  import Floats3
  import opened Rotors3

  /** `-r`: every component negated. It is the same rotation as `r`. */
  function Opposite(r: Rotor3): Rotor3 {
    Rotor3(-r.a, Bivectors3.Neg(r.bv))
  }

  /** Rotating by the identity rotor leaves every vector unchanged. */
  lemma RotateByIdentity(v: Float3)
    ensures RotateVector(Identity, v) == v
  {
  }

  /** The identity rotor is a two-sided unit of the rotor product. */
  lemma IdentityIsUnit(r: Rotor3)
    ensures RotateRotor(Identity, r) == r
    ensures RotateRotor(r, Identity) == r
  {
  }

  /** Reversal keeps the scalar, negates the bivector and undoes itself. */
  lemma ReverseInvolution(r: Rotor3)
    ensures Reverse(r).a == r.a && Reverse(r).bv == Bivectors3.Neg(r.bv)
    ensures Reverse(Reverse(r)) == r
    ensures ReverseMe(ReverseMe(r)) == r
  {
  }

  /**
   * A rotor times its reverse, in either order, is the scalar
   * `length_squared(r)` with no bivector part: the identity for a unit rotor.
   */
  lemma ProductWithReverse(r: Rotor3)
    ensures RotateRotor(r, Reverse(r)) == Rotor3(LengthSquared(r), Bivectors3.Zero)
    ensures RotateRotor(Reverse(r), r) == Rotor3(LengthSquared(r), Bivectors3.Zero)
    ensures LengthSquared(r) == 1.0 ==> RotateRotor(r, Reverse(r)) == Identity
  {
  }

  /** Double cover: `r` and `-r` rotate every vector the same way. */
  lemma DoubleCover(r: Rotor3, v: Float3)
    ensures RotateVector(Opposite(r), v) == RotateVector(r, v)
  {
  }

  /** The sandwich scales squared lengths by `length_squared(r)^2`, so a unit rotor preserves length. */
  lemma RotationScalesLength(r: Rotor3, v: Float3)
    ensures Floats3.LengthSquared(RotateVector(r, v))
         == LengthSquared(r) * LengthSquared(r) * Floats3.LengthSquared(v)
  {
    SandwichNorm(r.a, r.bv.yz, r.bv.xz, r.bv.xy, v.x, v.y, v.z);
  }

  /** `RotationScalesLength` on the plain components of the rotor and the vector. */
  lemma SandwichNorm(s: real, yz: real, xz: real, xy: real, x: real, y: real, z: real)
    ensures
      var s2, bxy2, bxz2, byz2 := s * s, xy * xy, xz * xz, yz * yz;
      var rx := - x * bxy2 - x * bxz2 + x * byz2 + x * s2
                + 2.0 * y * xy * s - 2.0 * y * xz * yz + 2.0 * z * xy * yz + 2.0 * z * xz * s;
      var ry := - 2.0 * x * xy * s - 2.0 * x * xz * yz - y * bxy2 + y * bxz2
                - y * byz2 + y * s2 - 2.0 * z * xy * xz + 2.0 * z * yz * s;
      var rz := 2.0 * x * xy * yz - 2.0 * x * xz * s - 2.0 * y * xy * xz - 2.0 * y * yz * s
                + z * bxy2 - z * bxz2 - z * byz2 + z * s2;
      var l := s * s + yz * yz + xz * xz + xy * xy;
      rx * rx + ry * ry + rz * rz == l * l * (x * x + y * y + z * z)
  {
  }

  /** The squared length of a product of rotors is the product of their squared lengths. */
  lemma LengthSquaredMultiplicative(a: Rotor3, b: Rotor3)
    ensures LengthSquared(RotateRotor(a, b)) == LengthSquared(a) * LengthSquared(b)
  {
    ProductNorm(a.a, a.bv.yz, a.bv.xz, a.bv.xy, b.a, b.bv.yz, b.bv.xz, b.bv.xy);
  }

  /** `LengthSquaredMultiplicative` on plain components. */
  lemma ProductNorm(aa: real, ayz: real, axz: real, axy: real, ba: real, byz: real, bxz: real, bxy: real)
    ensures
      var e := ProductScalar(aa, ayz, axz, axy, ba, byz, bxz, bxy);
      var eyz := ProductYz(aa, ayz, axz, axy, ba, byz, bxz, bxy);
      var exz := ProductXz(aa, ayz, axz, axy, ba, byz, bxz, bxy);
      var exy := ProductXy(aa, ayz, axz, axy, ba, byz, bxz, bxy);
      e * e + eyz * eyz + exz * exz + exy * exy
        == (aa * aa + ayz * ayz + axz * axz + axy * axy) * (ba * ba + byz * byz + bxz * bxz + bxy * bxy)
  {
  }

  /** Reversal reverses the order of a product. */
  lemma ReverseOfProduct(a: Rotor3, b: Rotor3)
    ensures Reverse(RotateRotor(a, b)) == RotateRotor(Reverse(b), Reverse(a))
  {
  }

  /** The rotor product is associative. */
  lemma ProductAssociative(a: Rotor3, b: Rotor3, c: Rotor3)
    ensures RotateRotor(RotateRotor(a, b), c) == RotateRotor(a, RotateRotor(b, c))
  {
    AssociativeScalar(a.a, a.bv.yz, a.bv.xz, a.bv.xy, b.a, b.bv.yz, b.bv.xz, b.bv.xy, c.a, c.bv.yz, c.bv.xz, c.bv.xy);
    AssociativeYz(a.a, a.bv.yz, a.bv.xz, a.bv.xy, b.a, b.bv.yz, b.bv.xz, b.bv.xy, c.a, c.bv.yz, c.bv.xz, c.bv.xy);
    AssociativeXz(a.a, a.bv.yz, a.bv.xz, a.bv.xy, b.a, b.bv.yz, b.bv.xz, b.bv.xy, c.a, c.bv.yz, c.bv.xz, c.bv.xy);
    AssociativeXy(a.a, a.bv.yz, a.bv.xz, a.bv.xy, b.a, b.bv.yz, b.bv.xz, b.bv.xy, c.a, c.bv.yz, c.bv.xz, c.bv.xy);
  }

  /** The scalar part of `(ab)c` and of `a(bc)`, on plain components. */
  lemma AssociativeScalar(
    aa: real, ayz: real, axz: real, axy: real,
    ba: real, byz: real, bxz: real, bxy: real,
    ca: real, cyz: real, cxz: real, cxy: real)
    ensures
      var da, dyz, dxz, dxy := ProductScalar(aa, ayz, axz, axy, ba, byz, bxz, bxy), ProductYz(aa, ayz, axz, axy, ba, byz, bxz, bxy),
        ProductXz(aa, ayz, axz, axy, ba, byz, bxz, bxy), ProductXy(aa, ayz, axz, axy, ba, byz, bxz, bxy);
      var fa, fyz, fxz, fxy := ProductScalar(ba, byz, bxz, bxy, ca, cyz, cxz, cxy), ProductYz(ba, byz, bxz, bxy, ca, cyz, cxz, cxy),
        ProductXz(ba, byz, bxz, bxy, ca, cyz, cxz, cxy), ProductXy(ba, byz, bxz, bxy, ca, cyz, cxz, cxy);
      ProductScalar(da, dyz, dxz, dxy, ca, cyz, cxz, cxy) == ProductScalar(aa, ayz, axz, axy, fa, fyz, fxz, fxy)
  {
  }

  /** The yz part of `(ab)c` and of `a(bc)`, on plain components. */
  lemma AssociativeYz(
    aa: real, ayz: real, axz: real, axy: real,
    ba: real, byz: real, bxz: real, bxy: real,
    ca: real, cyz: real, cxz: real, cxy: real)
    ensures
      var da, dyz, dxz, dxy := ProductScalar(aa, ayz, axz, axy, ba, byz, bxz, bxy), ProductYz(aa, ayz, axz, axy, ba, byz, bxz, bxy),
        ProductXz(aa, ayz, axz, axy, ba, byz, bxz, bxy), ProductXy(aa, ayz, axz, axy, ba, byz, bxz, bxy);
      var fa, fyz, fxz, fxy := ProductScalar(ba, byz, bxz, bxy, ca, cyz, cxz, cxy), ProductYz(ba, byz, bxz, bxy, ca, cyz, cxz, cxy),
        ProductXz(ba, byz, bxz, bxy, ca, cyz, cxz, cxy), ProductXy(ba, byz, bxz, bxy, ca, cyz, cxz, cxy);
      ProductYz(da, dyz, dxz, dxy, ca, cyz, cxz, cxy) == ProductYz(aa, ayz, axz, axy, fa, fyz, fxz, fxy)
  {
  }

  /** The xz part of `(ab)c` and of `a(bc)`, on plain components. */
  lemma AssociativeXz(
    aa: real, ayz: real, axz: real, axy: real,
    ba: real, byz: real, bxz: real, bxy: real,
    ca: real, cyz: real, cxz: real, cxy: real)
    ensures
      var da, dyz, dxz, dxy := ProductScalar(aa, ayz, axz, axy, ba, byz, bxz, bxy), ProductYz(aa, ayz, axz, axy, ba, byz, bxz, bxy),
        ProductXz(aa, ayz, axz, axy, ba, byz, bxz, bxy), ProductXy(aa, ayz, axz, axy, ba, byz, bxz, bxy);
      var fa, fyz, fxz, fxy := ProductScalar(ba, byz, bxz, bxy, ca, cyz, cxz, cxy), ProductYz(ba, byz, bxz, bxy, ca, cyz, cxz, cxy),
        ProductXz(ba, byz, bxz, bxy, ca, cyz, cxz, cxy), ProductXy(ba, byz, bxz, bxy, ca, cyz, cxz, cxy);
      ProductXz(da, dyz, dxz, dxy, ca, cyz, cxz, cxy) == ProductXz(aa, ayz, axz, axy, fa, fyz, fxz, fxy)
  {
  }

  /** The xy part of `(ab)c` and of `a(bc)`, on plain components. */
  lemma AssociativeXy(
    aa: real, ayz: real, axz: real, axy: real,
    ba: real, byz: real, bxz: real, bxy: real,
    ca: real, cyz: real, cxz: real, cxy: real)
    ensures
      var da, dyz, dxz, dxy := ProductScalar(aa, ayz, axz, axy, ba, byz, bxz, bxy), ProductYz(aa, ayz, axz, axy, ba, byz, bxz, bxy),
        ProductXz(aa, ayz, axz, axy, ba, byz, bxz, bxy), ProductXy(aa, ayz, axz, axy, ba, byz, bxz, bxy);
      var fa, fyz, fxz, fxy := ProductScalar(ba, byz, bxz, bxy, ca, cyz, cxz, cxy), ProductYz(ba, byz, bxz, bxy, ca, cyz, cxz, cxy),
        ProductXz(ba, byz, bxz, bxy, ca, cyz, cxz, cxy), ProductXy(ba, byz, bxz, bxy, ca, cyz, cxz, cxy);
      ProductXy(da, dyz, dxz, dxy, ca, cyz, cxz, cxy) == ProductXy(aa, ayz, axz, axy, fa, fyz, fxz, fxy)
  {
  }

  /** The geometric product of `v` and `u` is the reverse of that of `u` and `v`; `uu` is the scalar `|u|^2`. */
  lemma GeometricProductReverse(u: Float3, v: Float3)
    ensures Reverse(GeometricProduct(u, v)) == GeometricProduct(v, u)
    ensures GeometricProduct(u, u) == Rotor3(Floats3.LengthSquared(u), Bivectors3.Zero)
  {
  }

  /**
   * The only rotor of squared length 0 is the zero rotor, and `normalized()`
   * and `normalize()` leave it unchanged.
   */
  lemma NormalizedOfZero(m: Functions, r: Rotor3)
    requires Lawful(m)
    requires LengthSquared(r) == 0.0
    ensures r == Rotor3(0.0, Bivectors3.Zero)
    ensures Normalized(m, r) == r && Normalize(m, r) == r
  {
    Multivectors.LengthIsRoot(m, LengthSquared(r));
    SquaresVanish(r.a, r.bv.yz, r.bv.xz, r.bv.xy);
  }

  /**
   * A nonzero rotor has a positive length, and normalizing it divides it by
   * that length and gives unit length.
   */
  lemma NormalizedIsUnit(m: Functions, r: Rotor3)
    requires Lawful(m)
    requires LengthSquared(r) != 0.0
    ensures LengthSquared(Normalized(m, r)) == 1.0
    ensures var l := Length(m, r);
      && 0.0 < l
      && Normalized(m, r) == Rotor3(r.a / l, Bivectors3.Bivector3(r.bv.yz / l, r.bv.xz / l, r.bv.xy / l))
  {
    var l := Length(m, r);
    Multivectors.LengthIsRoot(m, LengthSquared(r));
    Multivectors.UnitAfterDivision4(r.a, r.bv.yz, r.bv.xz, r.bv.xy, l);
  }

  /** A unit rotor is its own normalization. */
  lemma NormalizedOfUnit(m: Functions, r: Rotor3)
    requires Lawful(m)
    requires LengthSquared(r) == 1.0
    ensures Normalized(m, r) == r
  {
    Multivectors.LengthOfOne(m);
  }

  /**
   * For a plane of positive length, the final normalization in
   * `bivector_angle` changes nothing: the result is the half-angle rotor of
   * the unit plane.
   */
  lemma BivectorAngleIsHalfAngle(m: Functions, bv: Bivector3, angle: real)
    requires Lawful(m)
    requires Bivectors3.LengthSquared(bv) != 0.0
    ensures BivectorAngle(m, bv, angle) == HalfAngle(m, Bivectors3.Normalized(m, bv), angle)
  {
    var plane := Bivectors3.Normalized(m, bv);
    Bivectors3.NormalizedIsUnit(m, bv);
    HalfAngleOfUnitPlane(m, plane, angle, Cos(m, angle / 2.0), Sin(m, angle / 2.0));
    NormalizedOfUnit(m, HalfAngle(m, plane, angle));
  }

  /**
   * For a unit plane the half-angle rotor has scalar `cos(angle/2)` and
   * bivector `-sin(angle/2)` times the plane, and it is a unit rotor.
   */
  lemma HalfAngleOfUnitPlane(m: Functions, plane: Bivector3, angle: real, c: real, s: real)
    requires Lawful(m)
    requires Bivectors3.LengthSquared(plane) == 1.0
    requires c == Cos(m, angle / 2.0) && s == Sin(m, angle / 2.0)
    ensures HalfAngle(m, plane, angle) == Rotor3(c, Bivectors3.Bivector3(-s * plane.yz, -s * plane.xz, -s * plane.xy))
    ensures LengthSquared(HalfAngle(m, plane, angle)) == 1.0
  {
    Pythagorean(m, angle / 2.0);
    UnitRotorKernel(c, s, plane.yz, plane.xz, plane.xy);
  }

  /** For a plane of positive length, `bivector_angle` is a unit rotor. */
  lemma BivectorAngleIsUnit(m: Functions, bv: Bivector3, angle: real)
    requires Lawful(m)
    requires Bivectors3.LengthSquared(bv) != 0.0
    ensures LengthSquared(BivectorAngle(m, bv, angle)) == 1.0
  {
    var plane := Bivectors3.Normalized(m, bv);
    Bivectors3.NormalizedIsUnit(m, bv);
    HalfAngleOfUnitPlane(m, plane, angle, Cos(m, angle / 2.0), Sin(m, angle / 2.0));
    NormalizedOfUnit(m, HalfAngle(m, plane, angle));
  }

  /** A scalar and a scaled unit plane whose weights lie on the unit circle form a unit rotor. */
  lemma UnitRotorKernel(c: real, s: real, yz: real, xz: real, xy: real)
    requires s * s + c * c == 1.0
    requires yz * yz + xz * xz + xy * xy == 1.0
    ensures c * c + (-s * yz) * (-s * yz) + (-s * xz) * (-s * xz) + (-s * xy) * (-s * xy) == 1.0
  {
    assert (-s * yz) * (-s * yz) + (-s * xz) * (-s * xz) + (-s * xy) * (-s * xy)
        == (s * s) * (yz * yz + xz * xz + xy * xy);
  }

  /**
   * For the zero plane (the wedge of parallel vectors) and a half angle with
   * positive cosine, `bivector_angle` is the identity rotor.
   */
  lemma BivectorAngleOfZeroPlane(m: Functions, angle: real, c: real)
    requires Lawful(m)
    requires c == Cos(m, angle / 2.0) && 0.0 < c
    ensures BivectorAngle(m, Bivectors3.Zero, angle) == Identity
  {
    HalfAngleOfZeroPlane(m, angle);
    NormalizedOfScalar(m, c);
  }

  /** The half-angle rotor of the normalized zero plane is the scalar `cos(angle/2)`. */
  lemma HalfAngleOfZeroPlane(m: Functions, angle: real)
    requires Lawful(m)
    ensures HalfAngle(m, Bivectors3.Normalized(m, Bivectors3.Zero), angle) == Rotor3(Cos(m, angle / 2.0), Bivectors3.Zero)
  {
    ZeroPlaneNormalized(m);
    HalfAngleOfZero(m, angle);
  }

  /** The zero plane is its own normalization. */
  lemma ZeroPlaneNormalized(m: Functions)
    requires Lawful(m)
    ensures Bivectors3.Normalized(m, Bivectors3.Zero) == Bivectors3.Zero
  {
    Bivectors3.NormalizedOfZero(m, Bivectors3.Zero);
  }

  /** The half-angle rotor of the zero plane has no bivector part. */
  lemma HalfAngleOfZero(m: Functions, angle: real)
    ensures HalfAngle(m, Bivectors3.Zero, angle) == Rotor3(Cos(m, angle / 2.0), Bivectors3.Zero)
  {
  }

  /** A rotor with a positive scalar and no bivector part normalizes to the identity. */
  lemma NormalizedOfScalar(m: Functions, c: real)
    requires Lawful(m)
    requires 0.0 < c
    ensures Normalized(m, Rotor3(c, Bivectors3.Zero)) == Identity
  {
    var r := Rotor3(c, Bivectors3.Zero);
    assert LengthSquared(r) == c * c;
    SqrtOfSquare(m, c);
    assert Length(m, r) == c;
  }

  /** `from_to(a, b)` applied after a unit `a` gives `b`: it is the rotor from `a` to `b`. */
  lemma FromToRecovers(a: Rotor3, b: Rotor3)
    requires LengthSquared(a) == 1.0
    ensures RotateRotor(FromTo(a, b), a) == b
  {
    ProductAssociative(b, Reverse(a), a);
    ProductWithReverse(a);
    IdentityIsUnit(b);
  }

  /** The rotor from a unit rotor to itself is the identity. */
  lemma FromToSelf(a: Rotor3)
    requires LengthSquared(a) == 1.0
    ensures FromTo(a, a) == Identity
  {
    ProductWithReverse(a);
  }

  /** The rotor from `b` to `a` is the reverse of the rotor from `a` to `b`. */
  lemma FromToReversed(a: Rotor3, b: Rotor3)
    ensures FromTo(b, a) == Reverse(FromTo(a, b))
  {
    ReverseOfProduct(b, Reverse(a));
    ReverseInvolution(a);
  }

  /** `approx_equal` does not depend on the order of its arguments. */
  lemma ApproxEqualSymmetric(m: Functions, a: Rotor3, b: Rotor3)
    ensures ApproxEqual(m, a, b) <==> ApproxEqual(m, b, a)
  {
    FromToReversed(a, b);
  }

  /** A unit rotor is approximately equal to itself. */
  lemma ApproxEqualReflexive(m: Functions, a: Rotor3)
    requires Lawful(m)
    requires LengthSquared(a) == 1.0
    ensures ApproxEqual(m, a, a)
  {
    FromToSelf(a);
  }

  /**
   * A unit rotor is not approximately equal to its opposite, although by
   * `DoubleCover` both rotate every vector the same way: the rotor between
   * them has scalar -1, so its angle is `2·acos(-1)`.
   */
  lemma NotApproxEqualOpposite(m: Functions, a: Rotor3)
    requires Lawful(m)
    requires LengthSquared(a) == 1.0
    ensures !ApproxEqual(m, a, Opposite(a))
  {
    assert FromTo(a, Opposite(a)).a == -LengthSquared(a);
  }

  /** `slerp` at ratio 0 is the normalized first rotor. */
  lemma SlerpAtStart(m: Functions, from: Rotor3, to: Rotor3)
    requires Lawful(m)
    ensures Slerp(m, from, to, 0.0) == Normalized(m, from)
  {
    Interpolation.WeightsAtStart(m, FromTo(from, to).a);
    assert Combine(1.0, from, 0.0, to) == from;
  }

  /**
   * `slerp` at ratio 1 is the normalized second rotor, negated when the
   * scalar of `from_to(from, to)` is negative (the shorter way round).
   */
  lemma SlerpAtEnd(m: Functions, from: Rotor3, to: Rotor3)
    requires Lawful(m)
    ensures Slerp(m, from, to, 1.0)
         == Normalized(m, if FromTo(from, to).a < 0.0 then Opposite(to) else to)
  {
    Interpolation.WeightsAtEnd(m, FromTo(from, to).a);
    assert Combine(0.0, from, -1.0, to) == Opposite(to);
    assert Combine(0.0, from, 1.0, to) == to;
  }

  /** Every result of `slerp` is a unit rotor, unless the weighted sum is the zero rotor. */
  lemma SlerpIsUnit(m: Functions, from: Rotor3, to: Rotor3, ratio: real)
    requires Lawful(m)
    ensures var r := Slerp(m, from, to, ratio);
      LengthSquared(r) == 1.0 || r == Rotor3(0.0, Bivectors3.Zero)
  {
    var w := Interpolation.SlerpWeights(m, FromTo(from, to).a, ratio);
    var sum := Combine(w.s1, from, w.s2, to);
    if LengthSquared(sum) == 0.0 {
      NormalizedOfZero(m, sum);
    } else {
      NormalizedIsUnit(m, sum);
    }
  }
}
