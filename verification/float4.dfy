/**
 * `Float4`: the 4D vector type, with `dot`, `wedge`, length and
 * normalization, and the component-wise arithmetic operators.
 */
module Floats4 {
  import opened Elementary
  import Multivectors
  import Bivectors4

  datatype Float4 = Float4(x: real, y: real, z: real, w: real)

  const Zero: Float4 := Float4(0.0, 0.0, 0.0, 0.0)

  /** `length()`: the square root of `length_squared()`. */
  function Length(m: Functions, u: Float4): real {
    Multivectors.Length(m, LengthSquared(u))
  }

  function LengthSquared(u: Float4): real {
    u.x * u.x + u.y * u.y + u.z * u.z + u.w * u.w
  }

  /** `normalize()` in place: the value `u` holds after the call. It agrees with `normalized()`. */
  function Normalize(m: Functions, u: Float4): (updated: Float4)
    ensures updated == Normalized(m, u)
  {
    var length := Length(m, u);
    if length > 0.0 then Float4(u.x / length, u.y / length, u.z / length, u.w / length) else u
  }

  /** `normalized()`: divide by the length when it is positive, else return `u` unchanged. */
  function Normalized(m: Functions, u: Float4): Float4 {
    var length := Length(m, u);
    if length > 0.0 then Div(u, length) else u
  }

  function Dot(u: Float4, v: Float4): real {
    u.x * v.x + u.y * v.y + u.z * v.z + u.w * v.w
  }

  function Wedge(u: Float4, v: Float4): Bivectors4.Bivector4 {
    Bivectors4.Bivector4(
      u.y * v.z - u.z * v.y,
      u.x * v.z - u.z * v.x,
      u.x * v.y - u.y * v.x,
      u.x * v.w - u.w * v.x,
      u.y * v.w - u.w * v.y,
      u.z * v.w - u.w * v.z)
  }

  // The arithmetic operators. The compound assignments `+=`, `-=` and `*=`
  // assign the result of the matching operator and are not repeated here.

  /** `u + v` */
  function Add(u: Float4, v: Float4): Float4 {
    Float4(u.x + v.x, u.y + v.y, u.z + v.z, u.w + v.w)
  }

  /** `u + s` */
  function AddScalar(u: Float4, s: real): Float4 {
    Float4(u.x + s, u.y + s, u.z + s, u.w + s)
  }

  /** `u - v` */
  function Sub(u: Float4, v: Float4): Float4 {
    Float4(u.x - v.x, u.y - v.y, u.z - v.z, u.w - v.w)
  }

  /** `u - s` */
  function SubScalar(u: Float4, s: real): Float4 {
    Float4(u.x - s, u.y - s, u.z - s, u.w - s)
  }

  /** `-u` */
  function Neg(u: Float4): Float4 {
    Float4(-u.x, -u.y, -u.z, -u.w)
  }

  /** `u * s` */
  function Scale(u: Float4, s: real): Float4 {
    Float4(u.x * s, u.y * s, u.z * s, u.w * s)
  }

  /** `s * u` */
  function ScalarScale(s: real, u: Float4): Float4 {
    Float4(s * u.x, s * u.y, s * u.z, s * u.w)
  }

  /** `u / s`, for a nonzero divisor. */
  function Div(u: Float4, s: real): Float4
    requires s != 0.0
  {
    Float4(u.x / s, u.y / s, u.z / s, u.w / s)
  }

  /** The source's `==`: per-component tolerance tests, the test being a parameter here. */
  predicate Equals(u: Float4, v: Float4, near: (real, real) -> bool) {
    near(u.x, v.x) && near(u.y, v.y) && near(u.z, v.z) && near(u.w, v.w)
  }

  /** With exact comparison of components, `Equals` is equality of vectors. */
  lemma EqualsExact(u: Float4, v: Float4)
    ensures Equals(u, v, (s: real, t: real) => s == t) <==> u == v
  {
  }

  /** The wedge product is antisymmetric and vanishes on a vector with itself. */
  lemma WedgeAntisymmetric(u: Float4, v: Float4)
    ensures Wedge(u, v) == Bivectors4.Neg(Wedge(v, u))
    ensures Wedge(u, u) == Bivectors4.Zero
  {
  }

  /** `dot` is symmetric, and a vector's dot with itself is its nonnegative squared length. */
  lemma DotSymmetric(u: Float4, v: Float4)
    ensures Dot(u, v) == Dot(v, u)
    ensures Dot(u, u) == LengthSquared(u) >= 0.0
  {
  }

  /** A vector of length 0 is left unchanged by `normalized()` and by `normalize()`. */
  lemma NormalizedOfZero(m: Functions, u: Float4)
    requires Lawful(m)
    requires LengthSquared(u) == 0.0
    ensures Normalized(m, u) == u
    ensures Normalize(m, u) == u
  {
    Multivectors.LengthIsRoot(m, LengthSquared(u));
  }

  /**
   * A nonzero vector has a positive length, and normalizing it divides it by
   * that length and gives unit length.
   */
  lemma NormalizedIsUnit(m: Functions, u: Float4)
    requires Lawful(m)
    requires LengthSquared(u) != 0.0
    ensures LengthSquared(Normalized(m, u)) == 1.0
    ensures 0.0 < Length(m, u) && Normalized(m, u) == Div(u, Length(m, u))
  {
    var l := Length(m, u);
    Multivectors.LengthIsRoot(m, LengthSquared(u));
    Multivectors.UnitAfterDivision4(u.x, u.y, u.z, u.w, l);
  }

  /** Adding then subtracting `v` is the identity, and negation is an involution. */
  lemma AddSubInverse(u: Float4, v: Float4)
    ensures Sub(Add(u, v), v) == u
    ensures Add(Sub(u, v), v) == u
    ensures Neg(Neg(u)) == u
  {
  }

  /**
   * The scalar operators: `u + s` adds `s` to all four components and `u - s`
   * undoes it; `s * u == u * s`; and `u / s` is `u * (1 / s)`.
   */
  lemma ScalarOperators(u: Float4, s: real)
    ensures var r := AddScalar(u, s); r.x == u.x + s && r.y == u.y + s && r.z == u.z + s && r.w == u.w + s
    ensures SubScalar(AddScalar(u, s), s) == u
    ensures ScalarScale(s, u) == Scale(u, s)
    ensures s != 0.0 ==> Div(u, s) == Scale(u, 1.0 / s)
  {
  }

  /** Scaling by `s` multiplies the squared length by `s * s`. */
  lemma ScaledLengthSquared(u: Float4, s: real)
    ensures LengthSquared(ScalarScale(s, u)) == (s * s) * LengthSquared(u)
  {
  }

  /** Scaling by a positive `s` multiplies the length by `s`. */
  lemma ScaledLength(m: Functions, u: Float4, s: real)
    requires Lawful(m)
    requires 0.0 < s
    ensures Length(m, ScalarScale(s, u)) == s * Length(m, u)
  {
    ScaledLengthSquared(u, s);
    DotSymmetric(u, u);
    Multivectors.LengthOfScaled(m, s, LengthSquared(u));
  }

  /** Normalizing ignores a positive scale factor: `s * u` and `u` have the same direction. */
  lemma NormalizedOfScaled(m: Functions, u: Float4, s: real)
    requires Lawful(m)
    requires 0.0 < s
    ensures Normalized(m, ScalarScale(s, u)) == Normalized(m, u)
  {
    if Length(m, u) > 0.0 {
      NormalizedOfScaledPositive(m, u, s);
    } else {
      DotSymmetric(u, u);
      Multivectors.LengthIsRoot(m, LengthSquared(u));
      SquaresVanish(u.x, u.y, u.z, u.w);
      ScaledZero(u, s);
    }
  }

  lemma NormalizedOfScaledPositive(m: Functions, u: Float4, s: real)
    requires Lawful(m)
    requires 0.0 < s && 0.0 < Length(m, u)
    ensures Normalized(m, ScalarScale(s, u)) == Normalized(m, u)
  {
    var l := Length(m, u);
    ScaledLength(m, u, s);
    ProductPositive(s, l);
    assert Normalized(m, ScalarScale(s, u)) == Div(ScalarScale(s, u), s * l);
    DividedScaled(u, s, l);
  }

  /** `(s * u) / (s * l) == u / l` */
  lemma DividedScaled(u: Float4, s: real, l: real)
    requires 0.0 < s && 0.0 < l
    ensures Div(ScalarScale(s, u), s * l) == Div(u, l)
  {
    Multivectors.CancelFactor(s, u.x, l);
    Multivectors.CancelFactor(s, u.y, l);
    Multivectors.CancelFactor(s, u.z, l);
    Multivectors.CancelFactor(s, u.w, l);
  }

  /** Scaling the zero vector leaves it zero. */
  lemma ScaledZero(u: Float4, s: real)
    requires u.x == 0.0 && u.y == 0.0 && u.z == 0.0 && u.w == 0.0
    ensures ScalarScale(s, u) == u
  {
  }
}
