/**
 * `Float2`: the 2D vector type (screen coordinates), with `dot`, the
 * `Magnitude` operations and the component-wise arithmetic operators.
 */
module Floats2 {
  import opened Elementary
  import Multivectors

  datatype Float2 = Float2(x: real, y: real)

  function Dot(u: Float2, v: Float2): real {
    u.x * v.x + u.y * v.y
  }

  function LengthSquared(u: Float2): real {
    u.x * u.x + u.y * u.y
  }

  /** `length()` comes from the trait default. */
  function Length(m: Functions, u: Float2): real {
    Multivectors.Length(m, LengthSquared(u))
  }

  /**
   * `normalized()`: when the length is positive, divide by the length (which
   * the source computes a second time); otherwise return `u` unchanged.
   */
  function Normalized(m: Functions, u: Float2): Float2 {
    var length := Length(m, u);
    if length > 0.0 then Div(u, Length(m, u)) else u
  }

  /** `normalize()` in place: the value `u` holds after the call. It agrees with `normalized()`. */
  function Normalize(m: Functions, u: Float2): (updated: Float2)
    ensures updated == Normalized(m, u)
  {
    var length := Length(m, u);
    if length > 0.0 then Float2(u.x / Length(m, u), u.y / Length(m, u)) else u
  }

  // The arithmetic operators. The compound assignments `+=`, `-=` and `*=`
  // assign the result of the matching operator and are not repeated here.

  /** `u + v` */
  function Add(u: Float2, v: Float2): Float2 {
    Float2(u.x + v.x, u.y + v.y)
  }

  /** `u + s` */
  function AddScalar(u: Float2, s: real): Float2 {
    Float2(u.x + s, u.y + s)
  }

  /** `u - v` */
  function Sub(u: Float2, v: Float2): Float2 {
    Float2(u.x - v.x, u.y - v.y)
  }

  /** `u - s` */
  function SubScalar(u: Float2, s: real): Float2 {
    Float2(u.x - s, u.y - s)
  }

  /** `s - u` */
  function ScalarSub(s: real, u: Float2): Float2 {
    Float2(s - u.x, s - u.y)
  }

  /** `-u` */
  function Neg(u: Float2): Float2 {
    Float2(-u.x, -u.y)
  }

  /** `u * s` */
  function Scale(u: Float2, s: real): Float2 {
    Float2(u.x * s, u.y * s)
  }

  /** `s * u` */
  function ScalarScale(s: real, u: Float2): Float2 {
    Float2(s * u.x, s * u.y)
  }

  /** `u / s`, for a nonzero divisor. */
  function Div(u: Float2, s: real): Float2
    requires s != 0.0
  {
    Float2(u.x / s, u.y / s)
  }

  /** The source's `==`: per-component tolerance tests, the test being a parameter here. */
  predicate Equals(u: Float2, v: Float2, near: (real, real) -> bool) {
    near(u.x, v.x) && near(u.y, v.y)
  }

  /** With exact comparison of components, `Equals` is equality of vectors. */
  lemma EqualsExact(u: Float2, v: Float2)
    ensures Equals(u, v, (s: real, t: real) => s == t) <==> u == v
  {
  }

  /** `dot` is symmetric, and a vector's dot with itself is its nonnegative squared length. */
  lemma DotSymmetric(u: Float2, v: Float2)
    ensures Dot(u, v) == Dot(v, u)
    ensures Dot(u, u) == LengthSquared(u) >= 0.0
  {
  }

  /** A vector of length 0 is left unchanged by `normalized()` and by `normalize()`. */
  lemma NormalizedOfZero(m: Functions, u: Float2)
    requires Lawful(m)
    requires LengthSquared(u) == 0.0
    ensures Normalized(m, u) == u
    ensures Normalize(m, u) == u
  {
    Multivectors.LengthIsRoot(m, LengthSquared(u));
  }

  /**
   * A nonzero vector has a positive length, and normalizing it divides it by
   * that length and gives unit length.
   */
  lemma NormalizedIsUnit(m: Functions, u: Float2)
    requires Lawful(m)
    requires LengthSquared(u) != 0.0
    ensures LengthSquared(Normalized(m, u)) == 1.0
    ensures 0.0 < Length(m, u) && Normalized(m, u) == Div(u, Length(m, u))
  {
    var l := Length(m, u);
    Multivectors.LengthIsRoot(m, LengthSquared(u));
    Multivectors.UnitAfterDivision2(u.x, u.y, l);
  }

  /** Adding then subtracting `v` is the identity, and negation is an involution. */
  lemma AddSubInverse(u: Float2, v: Float2)
    ensures Sub(Add(u, v), v) == u
    ensures Add(Sub(u, v), v) == u
    ensures Neg(Neg(u)) == u
  {
  }

  /**
   * The mixed scalar operators: `s - u` is `(s - u.x, s - u.y)`, the negation
   * of `u - s`; `s * u == u * s`; and `u / s` is `u * (1 / s)`.
   */
  lemma ScalarOperators(u: Float2, s: real)
    ensures ScalarSub(s, u).x == s - u.x && ScalarSub(s, u).y == s - u.y
    ensures ScalarSub(s, u) == Neg(SubScalar(u, s))
    ensures ScalarScale(s, u) == Scale(u, s)
    ensures SubScalar(AddScalar(u, s), s) == u
    ensures s != 0.0 ==> Div(u, s) == Scale(u, 1.0 / s)
  {
  }
}
