/**
 * `Bivector3`: the oriented-plane part of a 3D rotor, with one component per
 * coordinate plane (yz, xz, xy), its negation and its component-wise
 * comparison.
 */
module Bivectors3 {
  import opened Elementary
  import Multivectors

  /** The three plane components, in the declaration order of the source. */
  datatype Bivector3 = Bivector3(yz: real, xz: real, xy: real)

  /** The bivector with every component 0. */
  const Zero: Bivector3 := Bivector3(0.0, 0.0, 0.0)

  /** `Bivector3::new(yz, xz, xy)`: the arguments go to the fields of the same name. */
  function New(yz: real, xz: real, xy: real): (b: Bivector3)
    ensures b.yz == yz && b.xz == xz && b.xy == xy
  {
    Bivector3(yz, xz, xy)
  }

  /** The unary minus: every component negated. */
  function Neg(b: Bivector3): Bivector3 {
    Bivector3(-b.yz, -b.xz, -b.xy)
  }

  /**
   * The source's `==`: the conjunction of one per-component comparison,
   * which is a tolerance test on `f32` values that is not part of this model
   * and is therefore a parameter here.
   */
  predicate Equals(b: Bivector3, c: Bivector3, near: (real, real) -> bool) {
    near(b.yz, c.yz) && near(b.xz, c.xz) && near(b.xy, c.xy)
  }

  function LengthSquared(b: Bivector3): real {
    b.yz * b.yz + b.xz * b.xz + b.xy * b.xy
  }

  function Length(m: Functions, b: Bivector3): real {
    Multivectors.Length(m, LengthSquared(b))
  }

  /**
   * `normalized()`, which the 3D rotor's `bivector_angle` calls but whose
   * body is not in the source; it follows `Float3::normalized`: divide by the
   * length when it is positive, otherwise return the bivector unchanged.
   */
  function Normalized(m: Functions, b: Bivector3): Bivector3 {
    var length := Length(m, b);
    if length > 0.0 then Bivector3(b.yz / length, b.xz / length, b.xy / length) else b
  }

  /** Every component of `-b` is the negated component of `b`, and `-` undoes itself. */
  lemma NegComponents(b: Bivector3)
    ensures Neg(b).yz == -b.yz && Neg(b).xz == -b.xz && Neg(b).xy == -b.xy
    ensures Neg(Neg(b)) == b
    ensures Neg(b) == b <==> b == Zero
  {
  }

  /** With exact comparison of components, `Equals` is equality of bivectors. */
  lemma EqualsExact(b: Bivector3, c: Bivector3)
    ensures Equals(b, c, (s: real, t: real) => s == t) <==> b == c
  {
  }

  /** The zero bivector has length 0 and `Normalized` leaves it unchanged. */
  lemma NormalizedOfZero(m: Functions, b: Bivector3)
    requires Lawful(m)
    requires LengthSquared(b) == 0.0
    ensures Normalized(m, b) == b
  {
    Multivectors.LengthIsRoot(m, LengthSquared(b));
  }

  /**
   * A nonzero bivector has a positive length, and normalizing it divides it
   * by that length (the same plane) and gives unit length.
   */
  lemma NormalizedIsUnit(m: Functions, b: Bivector3)
    requires Lawful(m)
    requires LengthSquared(b) != 0.0
    ensures LengthSquared(Normalized(m, b)) == 1.0
    ensures var l := Length(m, b);
      0.0 < l && Normalized(m, b) == Bivector3(b.yz / l, b.xz / l, b.xy / l)
  {
    var l := Length(m, b);
    Multivectors.LengthIsRoot(m, LengthSquared(b));
    Multivectors.UnitAfterDivision3(b.yz, b.xz, b.xy, l);
  }

}
