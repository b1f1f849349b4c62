/**
 * Algebraic laws of the 4D rotor: the identity, the reverse and the
 * pseudoscalar left in `r * reverse(r)`, double cover, how the sandwich
 * scales lengths, normalization, `bivector_angle`, `from_to`,
 * `approx_equal` and `slerp`, whose `flip` branch is never taken.
 */
module Rotors4Laws {
  import opened Elementary
  import Multivectors
  import Interpolation
  import Bivectors4
  import Floats4
  import opened Rotors4
  import Rotors4Sandwich
  import Rotors4Associativity

  /** `-r`: every component negated. It is the same rotation as `r`. */
  function Opposite(r: Rotor4): Rotor4 {
    Rotor4(-r.a, Bivectors4.Neg(r.bv), -r.p)
  }

  /**
   * The pseudoscalar part of `r * reverse(r)`. It is zero for the rotors
   * `bivector_angle` builds from a single plane, but not for every rotor.
   */
  function NormPseudoscalar(r: Rotor4): real {
    2.0 * (r.a * r.p - r.bv.xw * r.bv.yz - r.bv.xy * r.bv.zw + r.bv.xz * r.bv.yw)
  }

  /** Rotating by the identity rotor leaves every 4-vector unchanged. */
  lemma RotateByIdentity(v: Float4)
    ensures RotateVector(Identity, v) == v
  {
  }

  /** The identity rotor is a two-sided unit of the rotor product, the pseudoscalar included. */
  lemma IdentityIsUnit(r: Rotor4)
    ensures RotateRotor(Identity, r) == r
    ensures RotateRotor(r, Identity) == r
  {
  }

  /** Reversal keeps the scalar and the pseudoscalar, negates the bivector and undoes itself. */
  lemma ReverseInvolution(r: Rotor4)
    ensures Reverse(r).a == r.a && Reverse(r).bv == Bivectors4.Neg(r.bv) && Reverse(r).p == r.p
    ensures Reverse(Reverse(r)) == r
    ensures ReverseMe(ReverseMe(r)) == r
  {
  }

  /**
   * A rotor times its reverse, in either order, has scalar
   * `length_squared(r)`, no bivector part and pseudoscalar
   * `NormPseudoscalar(r)`: the identity for a unit rotor whose
   * `NormPseudoscalar` is zero.
   */
  lemma ProductWithReverse(r: Rotor4)
    ensures RotateRotor(r, Reverse(r)) == Rotor4(LengthSquared(r), Bivectors4.Zero, NormPseudoscalar(r))
    ensures RotateRotor(Reverse(r), r) == Rotor4(LengthSquared(r), Bivectors4.Zero, NormPseudoscalar(r))
    ensures LengthSquared(r) == 1.0 && NormPseudoscalar(r) == 0.0 ==> RotateRotor(r, Reverse(r)) == Identity
  {
  }

  /** Double cover: `r` and `-r` rotate every 4-vector the same way. */
  lemma DoubleCover(r: Rotor4, v: Float4)
    ensures RotateVector(Opposite(r), v) == RotateVector(r, v)
  {
  }

  /** Reversal reverses the order of a product. */
  lemma ReverseOfProduct(a: Rotor4, b: Rotor4)
    ensures Reverse(RotateRotor(a, b)) == RotateRotor(Reverse(b), Reverse(a))
  {
  }

  /** The geometric product of `v` and `u` is the reverse of that of `u` and `v`; `uu` is the scalar `|u|^2`. */
  lemma GeometricProductReverse(u: Float4, v: Float4)
    ensures Reverse(GeometricProduct(u, v)) == GeometricProduct(v, u)
    ensures GeometricProduct(u, u) == Rotor4(Floats4.LengthSquared(u), Bivectors4.Zero, 0.0)
  {
  }

  /**
   * The sandwich scales squared lengths by `|r|^4 - q^2`, where `q` is
   * `NormPseudoscalar(r)`: unlike the 3D rotor, a unit 4D rotor is an
   * isometry only when `q` is zero.
   */
  lemma RotationScalesLength(r: Rotor4, v: Float4)
    ensures Floats4.LengthSquared(RotateVector(r, v))
         == (LengthSquared(r) * LengthSquared(r) - NormPseudoscalar(r) * NormPseudoscalar(r)) * Floats4.LengthSquared(v)
  {
    Rotors4Sandwich.SandwichNormTerms(r.a, r.bv.yz, r.bv.xz, r.bv.xy, r.bv.xw, r.bv.yw, r.bv.zw, r.p, v.x, v.y, v.z, v.w);
    var n := LengthSquared(r) * LengthSquared(r) - NormPseudoscalar(r) * NormPseudoscalar(r);
    Rotors4Sandwich.Factor4(n, v.x * v.x, v.y * v.y, v.z * v.z, v.w * v.w);
  }

  /** A unit rotor with `NormPseudoscalar(r) == 0` preserves the length of every 4-vector. */
  lemma UnitRotorIsIsometry(r: Rotor4, v: Float4)
    requires LengthSquared(r) == 1.0 && NormPseudoscalar(r) == 0.0
    ensures Floats4.LengthSquared(RotateVector(r, v)) == Floats4.LengthSquared(v)
  {
    RotationScalesLength(r, v);
  }

  /**
   * A rotor of squared length 0 (the zero rotor, by `ZeroRotor`) is left
   * unchanged by `normalized()` and `normalize()`.
   */
  lemma NormalizedOfZero(m: Functions, r: Rotor4)
    requires Lawful(m)
    requires LengthSquared(r) == 0.0
    ensures Normalized(m, r) == r && Normalize(m, r) == r
  {
    Multivectors.LengthIsRoot(m, LengthSquared(r));
  }

  /** A rotor of squared length 0 has all eight components 0. */
  lemma ZeroRotor(r: Rotor4)
    requires LengthSquared(r) == 0.0
    ensures r == Rotor4(0.0, Bivectors4.Zero, 0.0)
  {
    SquareNonnegative(r.a);
    SquareNonnegative(r.bv.yz);
    SquareNonnegative(r.bv.xz);
    SquareNonnegative(r.bv.xy);
    SquareNonnegative(r.bv.xw);
    SquareNonnegative(r.bv.yw);
    SquareNonnegative(r.bv.zw);
    SquareNonnegative(r.p);
    SquaresVanish(r.a, r.bv.yz, r.bv.xz, r.bv.xy);
    SquaresVanish(r.bv.xw, r.bv.yw, r.bv.zw, r.p);
  }

  /**
   * A nonzero rotor has a positive length, and normalizing it divides all
   * eight components by that length and gives unit length.
   */
  lemma NormalizedIsUnit(m: Functions, r: Rotor4)
    requires Lawful(m)
    requires LengthSquared(r) != 0.0
    ensures LengthSquared(Normalized(m, r)) == 1.0
    ensures var l := Length(m, r);
      && 0.0 < l
      && Normalized(m, r)
         == Rotor4(r.a / l, Bivectors4.Bivector4(r.bv.yz / l, r.bv.xz / l, r.bv.xy / l, r.bv.xw / l, r.bv.yw / l, r.bv.zw / l), r.p / l)
  {
    var l := Length(m, r);
    Multivectors.LengthIsRoot(m, LengthSquared(r));
    Multivectors.UnitAfterDivision8(r.a, r.bv.yz, r.bv.xz, r.bv.xy, r.bv.xw, r.bv.yw, r.bv.zw, r.p, l);
  }

  /** A unit rotor is its own normalization. */
  lemma NormalizedOfUnit(m: Functions, r: Rotor4)
    requires Lawful(m)
    requires LengthSquared(r) == 1.0
    ensures Normalized(m, r) == r
  {
    Multivectors.LengthOfOne(m);
  }

  /** `bivector_angle` never produces a pseudoscalar part. */
  lemma BivectorAngleHasNoPseudoscalar(m: Functions, bv: Bivector4, angle: real)
    ensures BivectorAngle(m, bv, angle).p == 0.0
  {
  }

  /**
   * For a plane of positive length, the final normalization in
   * `bivector_angle` changes nothing: the result is the half-angle rotor of
   * the unit plane `bv / |bv|`, so its bivector is a multiple of `bv`.
   */
  lemma BivectorAngleIsHalfAngle(m: Functions, bv: Bivector4, angle: real)
    requires Lawful(m)
    requires Bivectors4.LengthSquared(bv) != 0.0
    ensures BivectorAngle(m, bv, angle) == HalfAngle(m, Bivectors4.Normalized(m, bv), angle)
    ensures LengthSquared(BivectorAngle(m, bv, angle)) == 1.0
  {
    var plane := Bivectors4.Normalized(m, bv);
    Bivectors4.NormalizedIsUnit(m, bv);
    HalfAngleOfUnitPlane(m, plane, angle, Cos(m, angle / 2.0), Sin(m, angle / 2.0));
    NormalizedOfUnit(m, HalfAngle(m, plane, angle));
  }

  /**
   * For a unit plane the half-angle rotor has scalar `cos(angle/2)`, the
   * plane scaled by `-sin(angle/2)` and no pseudoscalar, and it is a unit
   * rotor.
   */
  lemma HalfAngleOfUnitPlane(m: Functions, plane: Bivector4, angle: real, c: real, s: real)
    requires Lawful(m)
    requires Bivectors4.LengthSquared(plane) == 1.0
    requires c == Cos(m, angle / 2.0) && s == Sin(m, angle / 2.0)
    ensures HalfAngle(m, plane, angle)
         == Rotor4(c, Bivectors4.Bivector4(-s * plane.yz, -s * plane.xz, -s * plane.xy, -s * plane.xw, -s * plane.yw, -s * plane.zw), 0.0)
    ensures LengthSquared(HalfAngle(m, plane, angle)) == 1.0
  {
    Pythagorean(m, angle / 2.0);
    UnitRotorKernel(c, s, plane.yz, plane.xz, plane.xy, plane.xw, plane.yw, plane.zw);
  }

  /** A scalar and a scaled unit plane whose weights lie on the unit circle form a unit rotor. */
  lemma UnitRotorKernel(c: real, s: real, yz: real, xz: real, xy: real, xw: real, yw: real, zw: real)
    requires s * s + c * c == 1.0
    requires yz * yz + xz * xz + xy * xy + xw * xw + yw * yw + zw * zw == 1.0
    ensures c * c + (-s * yz) * (-s * yz) + (-s * xz) * (-s * xz) + (-s * xy) * (-s * xy)
          + (-s * xw) * (-s * xw) + (-s * yw) * (-s * yw) + (-s * zw) * (-s * zw) + 0.0 * 0.0 == 1.0
  {
    assert (-s * yz) * (-s * yz) + (-s * xz) * (-s * xz) + (-s * xy) * (-s * xy)
         + (-s * xw) * (-s * xw) + (-s * yw) * (-s * yw) + (-s * zw) * (-s * zw)
        == (s * s) * (yz * yz + xz * xz + xy * xy + xw * xw + yw * yw + zw * zw);
  }

  /** For the zero plane `bivector_angle` has no bivector part, whatever the angle. */
  lemma BivectorAngleOfZeroPlaneHasNoPlane(m: Functions, angle: real)
    requires Lawful(m)
    ensures BivectorAngle(m, Bivectors4.Zero, angle).bv == Bivectors4.Zero
  {
    var c := Cos(m, angle / 2.0);
    BivectorAngleOfZeroPlaneIsScalar(m, angle, c);
    NormalizedKeepsZeroPlane(m, c);
  }

  /**
   * For the zero plane (the wedge of parallel vectors) and a half angle with
   * positive cosine, `bivector_angle` is the identity rotor.
   */
  lemma BivectorAngleOfZeroPlane(m: Functions, angle: real, c: real)
    requires Lawful(m)
    requires c == Cos(m, angle / 2.0) && 0.0 < c
    ensures BivectorAngle(m, Bivectors4.Zero, angle) == Identity
  {
    BivectorAngleOfZeroPlaneIsScalar(m, angle, c);
    NormalizedOfScalar(m, c);
  }

  /** `bivector_angle` of the zero plane normalizes the scalar `cos(angle/2)`. */
  lemma BivectorAngleOfZeroPlaneIsScalar(m: Functions, angle: real, c: real)
    requires Lawful(m)
    requires c == Cos(m, angle / 2.0)
    ensures BivectorAngle(m, Bivectors4.Zero, angle) == Normalized(m, Rotor4(c, Bivectors4.Zero, 0.0))
  {
    HalfAngleOfZeroPlane(m, angle, c);
  }

  /** The half-angle rotor of the normalized zero plane is the scalar `cos(angle/2)`. */
  lemma HalfAngleOfZeroPlane(m: Functions, angle: real, c: real)
    requires Lawful(m)
    requires c == Cos(m, angle / 2.0)
    ensures HalfAngle(m, Bivectors4.Normalized(m, Bivectors4.Zero), angle) == Rotor4(c, Bivectors4.Zero, 0.0)
  {
    Bivectors4.NormalizedOfZero(m, Bivectors4.Zero);
    HalfAngleOfZero(m, angle, c);
  }

  /** The half-angle rotor of the zero plane is the scalar `cos(angle/2)`. */
  lemma HalfAngleOfZero(m: Functions, angle: real, c: real)
    requires c == Cos(m, angle / 2.0)
    ensures HalfAngle(m, Bivectors4.Zero, angle) == Rotor4(c, Bivectors4.Zero, 0.0)
  {
  }

  /** A rotor with a positive scalar and nothing else normalizes to the identity. */
  lemma NormalizedOfScalar(m: Functions, c: real)
    requires Lawful(m)
    requires 0.0 < c
    ensures Normalized(m, Rotor4(c, Bivectors4.Zero, 0.0)) == Identity
  {
    var r := Rotor4(c, Bivectors4.Zero, 0.0);
    assert LengthSquared(r) == c * c;
    SqrtOfSquare(m, c);
    assert Length(m, r) == c;
  }

  /** Normalizing a rotor with only a scalar part leaves it without a bivector part. */
  lemma NormalizedKeepsZeroPlane(m: Functions, c: real)
    ensures Normalized(m, Rotor4(c, Bivectors4.Zero, 0.0)).bv == Bivectors4.Zero
  {
  }

  /**
   * The rotor from a rotor to itself has scalar `|a|^2`, no bivector and
   * pseudoscalar `NormPseudoscalar(a)`: it is the identity exactly for the
   * unit rotors with no pseudoscalar norm.
   */
  lemma FromToSelf(a: Rotor4)
    ensures FromTo(a, a) == Rotor4(LengthSquared(a), Bivectors4.Zero, NormPseudoscalar(a))
    ensures FromTo(a, a) == Identity <==> LengthSquared(a) == 1.0 && NormPseudoscalar(a) == 0.0
  {
    ProductWithReverse(a);
  }

  /**
   * `from_to(a, b)` applied after `a` gives `b` when `a` is a unit rotor with
   * no pseudoscalar norm: it is the rotor from `a` to `b`.
   */
  lemma FromToRecovers(a: Rotor4, b: Rotor4)
    requires LengthSquared(a) == 1.0 && NormPseudoscalar(a) == 0.0
    ensures RotateRotor(FromTo(a, b), a) == b
  {
    Rotors4Associativity.ProductAssociative(b, Reverse(a), a);
    ProductWithReverse(a);
    IdentityIsUnit(b);
  }

  /** The rotor from `b` to `a` is the reverse of the rotor from `a` to `b`. */
  lemma FromToReversed(a: Rotor4, b: Rotor4)
    ensures FromTo(b, a) == Reverse(FromTo(a, b))
  {
    ReverseOfProduct(b, Reverse(a));
    ReverseInvolution(a);
  }

  /** `Angle` reads only the scalar and the pseudoscalar. */
  lemma AngleOfSameScalars(m: Functions, r: Rotor4, q: Rotor4)
    requires r.a == q.a && r.p == q.p
    ensures Angle(m, r) == Angle(m, q)
  {
    assert ScalarNorm(r) == ScalarNorm(q);
    assert Sqrt(m, ScalarNorm(r)) == Sqrt(m, ScalarNorm(q));
  }

  /** `approx_equal` does not depend on the order of its arguments. */
  lemma ApproxEqualSymmetric(m: Functions, a: Rotor4, b: Rotor4)
    ensures ApproxEqual(m, a, b) <==> ApproxEqual(m, b, a)
  {
    FromToReversed(a, b);
    ReverseInvolution(FromTo(a, b));
    AngleOfSameScalars(m, FromTo(b, a), FromTo(a, b));
  }

  /** A rotor whose scalar and pseudoscalar have squares summing to 1 turns by angle 0. */
  lemma AngleOfUnitScalar(m: Functions, r: Rotor4)
    requires Lawful(m)
    requires ScalarNorm(r) == 1.0
    ensures Angle(m, r) == 0.0
  {
    SqrtOfSquare(m, 1.0);
    assert Sqrt(m, ScalarNorm(r)) == 1.0;
    assert Acos(m, Sqrt(m, ScalarNorm(r))) == 0.0;
  }

  /** A unit rotor with no pseudoscalar norm is approximately equal to itself. */
  lemma ApproxEqualReflexive(m: Functions, a: Rotor4)
    requires Lawful(m)
    requires LengthSquared(a) == 1.0 && NormPseudoscalar(a) == 0.0
    ensures ApproxEqual(m, a, a)
  {
    FromToSelf(a);
    AngleOfUnitScalar(m, FromTo(a, a));
  }

  /**
   * Unlike the 3D rotor, a unit 4D rotor with no pseudoscalar norm IS
   * approximately equal to its opposite: the rotor between them has scalar
   * -1, and `Angle` only sees the square root of `a² + p²`.
   */
  lemma ApproxEqualOpposite(m: Functions, a: Rotor4)
    requires Lawful(m)
    requires LengthSquared(a) == 1.0 && NormPseudoscalar(a) == 0.0
    ensures ApproxEqual(m, a, Opposite(a))
  {
    var d := FromTo(a, Opposite(a));
    assert d.a == -LengthSquared(a);
    assert d.p == -NormPseudoscalar(a);
    assert ScalarNorm(d) == 1.0;
    AngleOfUnitScalar(m, d);
  }

  /** The cosine `slerp` uses is never negative, so the weights are never flipped. */
  lemma SlerpNeverFlips(m: Functions, from: Rotor4, to: Rotor4, ratio: real)
    requires Lawful(m)
    ensures 0.0 <= CosOmega(m, FromTo(from, to))
    ensures !Interpolation.SlerpWeights(m, CosOmega(m, FromTo(from, to)), ratio).flip
  {
    var d := FromTo(from, to);
    SquareNonnegative(d.a);
    SquareNonnegative(d.p);
    Root(m, ScalarNorm(d));
    assert CosOmega(m, d) == Sqrt(m, ScalarNorm(d));
  }

  /** `slerp` at ratio 0 is the normalized first rotor. */
  lemma SlerpAtStart(m: Functions, from: Rotor4, to: Rotor4)
    requires Lawful(m)
    ensures Slerp(m, from, to, 0.0) == Normalized(m, from)
  {
    Interpolation.WeightsAtStart(m, CosOmega(m, FromTo(from, to)));
    assert Combine(1.0, from, 0.0, to) == from;
  }

  /**
   * `slerp` at ratio 1 is the normalized second rotor, never its opposite:
   * the cosine is never negative.
   */
  lemma SlerpAtEnd(m: Functions, from: Rotor4, to: Rotor4)
    requires Lawful(m)
    ensures Slerp(m, from, to, 1.0) == Normalized(m, to)
  {
    SlerpNeverFlips(m, from, to, 1.0);
    Interpolation.WeightsAtEnd(m, CosOmega(m, FromTo(from, to)));
    assert Combine(0.0, from, 1.0, to) == to;
  }

  /** Every result of `slerp` is a unit rotor, unless the weighted sum is the zero rotor. */
  lemma SlerpIsUnit(m: Functions, from: Rotor4, to: Rotor4, ratio: real)
    requires Lawful(m)
    ensures var r := Slerp(m, from, to, ratio);
      LengthSquared(r) == 1.0 || r == Rotor4(0.0, Bivectors4.Zero, 0.0)
  {
    var w := Interpolation.SlerpWeights(m, CosOmega(m, FromTo(from, to)), ratio);
    var sum := Combine(w.s1, from, w.s2, to);
    if LengthSquared(sum) == 0.0 {
      ZeroRotor(sum);
      NormalizedOfZero(m, sum);
    } else {
      NormalizedIsUnit(m, sum);
    }
  }
}
