/**
 * `Float3`: the 3D vector type, with the dot, cross and wedge products, the
 * `Magnitude` operations and the component-wise arithmetic operators.
 */
module Floats3 {
  import opened Elementary
  import Multivectors
  import Bivectors3

  datatype Float3 = Float3(x: real, y: real, z: real)

  const Zero: Float3 := Float3(0.0, 0.0, 0.0)

  function Cross(u: Float3, v: Float3): Float3 {
    Float3(u.y * v.z - u.z * v.y, u.z * v.x - u.x * v.z, u.x * v.y - u.y * v.x)
  }

  function Wedge(u: Float3, v: Float3): Bivectors3.Bivector3 {
    Bivectors3.Bivector3(u.y * v.z - u.z * v.y, u.x * v.z - u.z * v.x, u.x * v.y - u.y * v.x)
  }

  function Dot(u: Float3, v: Float3): real {
    u.x * v.x + u.y * v.y + u.z * v.z
  }

  function LengthSquared(u: Float3): real {
    u.x * u.x + u.y * u.y + u.z * u.z
  }

  /** `length()` comes from the trait default. */
  function Length(m: Functions, u: Float3): real {
    Multivectors.Length(m, LengthSquared(u))
  }

  /** `normalized()`: divide by the length when it is positive, else return `u` unchanged. */
  function Normalized(m: Functions, u: Float3): Float3 {
    var length := Length(m, u);
    if length > 0.0 then Div(u, length) else u
  }

  /**
   * `normalize()` in place: the value `u` holds after the call. It agrees
   * with `normalized()`.
   */
  function Normalize(m: Functions, u: Float3): (updated: Float3)
    ensures updated == Normalized(m, u)
  {
    var length := Length(m, u);
    if length > 0.0 then Float3(u.x / length, u.y / length, u.z / length) else u
  }

  // The arithmetic operators. The compound assignments `+=`, `-=` and `*=`
  // assign the result of the matching operator and are not repeated here.

  /** `u + v` */
  function Add(u: Float3, v: Float3): Float3 {
    Float3(u.x + v.x, u.y + v.y, u.z + v.z)
  }

  /** `u + s` */
  function AddScalar(u: Float3, s: real): Float3 {
    Float3(u.x + s, u.y + s, u.z + s)
  }

  /** `s + u` */
  function ScalarAdd(s: real, u: Float3): Float3 {
    Float3(s + u.x, s + u.y, s + u.z)
  }

  /** `u - v` */
  function Sub(u: Float3, v: Float3): Float3 {
    Float3(u.x - v.x, u.y - v.y, u.z - v.z)
  }

  /** `u - s` */
  function SubScalar(u: Float3, s: real): Float3 {
    Float3(u.x - s, u.y - s, u.z - s)
  }

  /** `s - u` */
  function ScalarSub(s: real, u: Float3): Float3 {
    Float3(s - u.x, s - u.y, s - u.z)
  }

  /** `-u` */
  function Neg(u: Float3): Float3 {
    Float3(-u.x, -u.y, -u.z)
  }

  /** `u * s` */
  function Scale(u: Float3, s: real): Float3 {
    Float3(u.x * s, u.y * s, u.z * s)
  }

  /** `s * u` */
  function ScalarScale(s: real, u: Float3): Float3 {
    Float3(s * u.x, s * u.y, s * u.z)
  }

  /** `u / s`, for a nonzero divisor. */
  function Div(u: Float3, s: real): Float3
    requires s != 0.0
  {
    Float3(u.x / s, u.y / s, u.z / s)
  }

  /** The source's `==`: per-component tolerance tests, the test being a parameter here. */
  predicate Equals(u: Float3, v: Float3, near: (real, real) -> bool) {
    near(u.x, v.x) && near(u.y, v.y) && near(u.z, v.z)
  }

  /** With exact comparison of components, `Equals` is equality of vectors. */
  lemma EqualsExact(u: Float3, v: Float3)
    ensures Equals(u, v, (s: real, t: real) => s == t) <==> u == v
  {
  }

  /** The wedge product is antisymmetric and vanishes on a vector with itself. */
  lemma WedgeAntisymmetric(u: Float3, v: Float3)
    ensures Wedge(u, v) == Bivectors3.Neg(Wedge(v, u))
    ensures Wedge(u, u) == Bivectors3.Zero
  {
  }

  /** The wedge product holds the components of the cross product, plane by plane. */
  lemma WedgeIsCross(u: Float3, v: Float3)
    ensures Wedge(u, v).yz == Cross(u, v).x
    ensures Wedge(u, v).xz == -Cross(u, v).y
    ensures Wedge(u, v).xy == Cross(u, v).z
  {
  }

  /** The cross product is orthogonal to both factors and vanishes on a vector with itself. */
  lemma CrossOrthogonal(u: Float3, v: Float3)
    ensures Dot(u, Cross(u, v)) == 0.0
    ensures Dot(v, Cross(u, v)) == 0.0
    ensures Cross(u, u) == Zero
  {
  }

  /** `dot` is symmetric, and a vector's dot with itself is its nonnegative squared length. */
  lemma DotSymmetric(u: Float3, v: Float3)
    ensures Dot(u, v) == Dot(v, u)
    ensures Dot(u, u) == LengthSquared(u) >= 0.0
  {
  }

  /** A vector of length 0 is left unchanged by `normalized()` and by `normalize()`. */
  lemma NormalizedOfZero(m: Functions, u: Float3)
    requires Lawful(m)
    requires LengthSquared(u) == 0.0
    ensures Normalized(m, u) == u
    ensures Normalize(m, u) == u
  {
    Multivectors.LengthIsRoot(m, LengthSquared(u));
  }

  /**
   * A nonzero vector has a positive length, and normalizing it divides it by
   * that length and gives unit length.
   */
  lemma NormalizedIsUnit(m: Functions, u: Float3)
    requires Lawful(m)
    requires LengthSquared(u) != 0.0
    ensures LengthSquared(Normalized(m, u)) == 1.0
    ensures 0.0 < Length(m, u) && Normalized(m, u) == Div(u, Length(m, u))
  {
    var l := Length(m, u);
    Multivectors.LengthIsRoot(m, LengthSquared(u));
    Multivectors.UnitAfterDivision3(u.x, u.y, u.z, l);
  }

  /** Adding then subtracting `v` is the identity, and negation is an involution. */
  lemma AddSubInverse(u: Float3, v: Float3)
    ensures Sub(Add(u, v), v) == u
    ensures Add(Sub(u, v), v) == u
    ensures Neg(Neg(u)) == u
  {
  }

  /**
   * The mixed scalar operators are the vector ones seen from the other side:
   * `s + u == u + s`, `s * u == u * s`, `s - u == -(u - s)`, and `u / s`
   * is `u * (1 / s)`.
   */
  lemma ScalarOperators(u: Float3, s: real)
    ensures ScalarAdd(s, u) == AddScalar(u, s)
    ensures ScalarScale(s, u) == Scale(u, s)
    ensures ScalarSub(s, u) == Neg(SubScalar(u, s))
    ensures SubScalar(AddScalar(u, s), s) == u
    ensures s != 0.0 ==> Div(u, s) == Scale(u, 1.0 / s)
  {
  }

  /** Scaling by `s` multiplies the squared length by `s * s`. */
  lemma ScaledLengthSquared(u: Float3, s: real)
    ensures LengthSquared(ScalarScale(s, u)) == (s * s) * LengthSquared(u)
  {
  }

  /** Scaling by a positive `s` multiplies the length by `s`. */
  lemma ScaledLength(m: Functions, u: Float3, s: real)
    requires Lawful(m)
    requires 0.0 < s
    ensures Length(m, ScalarScale(s, u)) == s * Length(m, u)
  {
    ScaledLengthSquared(u, s);
    DotSymmetric(u, u);
    Multivectors.LengthOfScaled(m, s, LengthSquared(u));
  }

  /** Normalizing ignores a positive scale factor: `s * u` and `u` have the same direction. */
  lemma NormalizedOfScaled(m: Functions, u: Float3, s: real)
    requires Lawful(m)
    requires 0.0 < s
    ensures Normalized(m, ScalarScale(s, u)) == Normalized(m, u)
  {
    if Length(m, u) > 0.0 {
      NormalizedOfScaledPositive(m, u, s);
    } else {
      DotSymmetric(u, u);
      Multivectors.LengthIsRoot(m, LengthSquared(u));
      SquaresVanish(u.x, u.y, u.z, 0.0);
      ScaledZero(u, s);
    }
  }

  lemma NormalizedOfScaledPositive(m: Functions, u: Float3, s: real)
    requires Lawful(m)
    requires 0.0 < s && 0.0 < Length(m, u)
    ensures Normalized(m, ScalarScale(s, u)) == Normalized(m, u)
  {
    var l := Length(m, u);
    ScaledLength(m, u, s);
    ProductPositive(s, l);
    assert Normalized(m, ScalarScale(s, u)) == Div(ScalarScale(s, u), s * l);
    DividedScaled(u, s, l);
  }

  /** `(s * u) / (s * l) == u / l` */
  lemma DividedScaled(u: Float3, s: real, l: real)
    requires 0.0 < s && 0.0 < l
    ensures Div(ScalarScale(s, u), s * l) == Div(u, l)
  {
    Multivectors.CancelFactor(s, u.x, l);
    Multivectors.CancelFactor(s, u.y, l);
    Multivectors.CancelFactor(s, u.z, l);
  }

  /** Scaling the zero vector leaves it zero. */
  lemma ScaledZero(u: Float3, s: real)
    requires u.x == 0.0 && u.y == 0.0 && u.z == 0.0
    ensures ScalarScale(s, u) == u
  {
  }
}
