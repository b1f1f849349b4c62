/**
 * `Bivector4`: the six oriented-plane components of a 4D rotor (yz, xz, xy,
 * xw, yw, zw), with negation and component-wise comparison.
 */
module Bivectors4 {
  import opened Elementary
  import Multivectors

  /** The six plane components, in the declaration order of the source. */
  datatype Bivector4 = Bivector4(yz: real, xz: real, xy: real, xw: real, yw: real, zw: real)

  /** The bivector with every component 0. */
  const Zero: Bivector4 := Bivector4(0.0, 0.0, 0.0, 0.0, 0.0, 0.0)

  /** `Bivector4::new(yz, xz, xy, xw, yw, zw)`: the arguments go to the fields of the same name. */
  function New(yz: real, xz: real, xy: real, xw: real, yw: real, zw: real): (b: Bivector4)
    ensures b.yz == yz && b.xz == xz && b.xy == xy
    ensures b.xw == xw && b.yw == yw && b.zw == zw
  {
    Bivector4(yz, xz, xy, xw, yw, zw)
  }

  /** The unary minus: all six components negated. */
  function Neg(b: Bivector4): Bivector4 {
    Bivector4(-b.yz, -b.xz, -b.xy, -b.xw, -b.yw, -b.zw)
  }

  /**
   * The source's `==`: the conjunction of six per-component comparisons; the
   * `f32` tolerance test is a parameter here.
   */
  predicate Equals(b: Bivector4, c: Bivector4, near: (real, real) -> bool) {
    && near(b.yz, c.yz) && near(b.xz, c.xz) && near(b.xy, c.xy)
    && near(b.xw, c.xw) && near(b.yw, c.yw) && near(b.zw, c.zw)
  }

  function LengthSquared(b: Bivector4): real {
    b.yz * b.yz + b.xz * b.xz + b.xy * b.xy + b.xw * b.xw + b.yw * b.yw + b.zw * b.zw
  }

  function Length(m: Functions, b: Bivector4): real {
    Multivectors.Length(m, LengthSquared(b))
  }

  /**
   * `normalized()`, which the 4D rotor's `bivector_angle` calls but whose
   * body is not in the source; it follows `Float4::normalized`.
   */
  function Normalized(m: Functions, b: Bivector4): Bivector4 {
    var length := Length(m, b);
    if length > 0.0 then
      Bivector4(b.yz / length, b.xz / length, b.xy / length, b.xw / length, b.yw / length, b.zw / length)
    else
      b
  }

  /** Every component of `-b` is the negated component of `b`, and `-` undoes itself. */
  lemma NegComponents(b: Bivector4)
    ensures Neg(b).yz == -b.yz && Neg(b).xz == -b.xz && Neg(b).xy == -b.xy
    ensures Neg(b).xw == -b.xw && Neg(b).yw == -b.yw && Neg(b).zw == -b.zw
    ensures Neg(Neg(b)) == b
    ensures Neg(b) == b <==> b == Zero
  {
  }

  /** With exact comparison of components, `Equals` is equality of bivectors. */
  lemma EqualsExact(b: Bivector4, c: Bivector4)
    ensures Equals(b, c, (s: real, t: real) => s == t) <==> b == c
  {
  }

  /** A bivector of length 0 is left unchanged by `Normalized`. */
  lemma NormalizedOfZero(m: Functions, b: Bivector4)
    requires Lawful(m)
    requires LengthSquared(b) == 0.0
    ensures Normalized(m, b) == b
  {
    Multivectors.LengthIsRoot(m, LengthSquared(b));
  }

  /**
   * A nonzero bivector has a positive length, and normalizing it divides it
   * by that length (the same plane) and gives unit length.
   */
  lemma NormalizedIsUnit(m: Functions, b: Bivector4)
    requires Lawful(m)
    requires LengthSquared(b) != 0.0
    ensures LengthSquared(Normalized(m, b)) == 1.0
    ensures var l := Length(m, b);
      && 0.0 < l
      && Normalized(m, b) == Bivector4(b.yz / l, b.xz / l, b.xy / l, b.xw / l, b.yw / l, b.zw / l)
  {
    var l := Length(m, b);
    Multivectors.LengthIsRoot(m, LengthSquared(b));
    Multivectors.UnitAfterDivision6(b.yz, b.xz, b.xy, b.xw, b.yw, b.zw, l);
  }

}
