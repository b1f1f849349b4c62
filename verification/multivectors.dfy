/**
 * The defaults of the `Magnitude` trait shared by every vector and rotor
 * type: `length` is the square root of `length_squared`, and the helpers
 * below carry the arithmetic behind every `normalized` implementation.
 */
module Multivectors {
  import opened Elementary

  /** The trait's default `length`: the square root of `length_squared`. */
  function Length(m: Functions, lengthSquared: real): real {
    Sqrt(m, lengthSquared)
  }

  /**
   * For a nonnegative squared length, `length` is a nonnegative number whose
   * square is the squared length, and it is positive exactly when the squared
   * length is.
   */
  lemma LengthIsRoot(m: Functions, lengthSquared: real)
    requires Lawful(m)
    requires 0.0 <= lengthSquared
    ensures 0.0 <= Length(m, lengthSquared)
    ensures Length(m, lengthSquared) * Length(m, lengthSquared) == lengthSquared
    ensures 0.0 < Length(m, lengthSquared) <==> 0.0 < lengthSquared
  {
    Root(m, lengthSquared);
    SqrtPositive(m, lengthSquared);
  }

  /** The length of a zero-length value is 0. */
  lemma LengthOfZero(m: Functions)
    requires Lawful(m)
    ensures Length(m, 0.0) == 0.0
  {
    LengthIsRoot(m, 0.0);
  }

  /** The length of a unit-length value is 1. */
  lemma LengthOfOne(m: Functions)
    requires Lawful(m)
    ensures Length(m, 1.0) == 1.0
  {
    SqrtOfSquare(m, 1.0);
  }

  /** Dividing a component by `l` multiplies its square by `1 / (l * l)`. */
  lemma DividedSquare(x: real, l: real)
    requires l != 0.0
    ensures (x / l) * (x / l) == (x * x) * (1.0 / (l * l))
  {
    var q := x / l;
    assert q * l == x;
    assert (1.0 / (l * l)) * (l * l) == 1.0;
    assert (q * q) * (l * l) == x * x;
  }

  /**
   * Dividing each of 2 components by the positive root `l` of their sum of
   * squares leaves a sum of squares of 1.
   */
  lemma UnitAfterDivision2(a: real, b: real, l: real)
    requires 0.0 < l && l * l == a * a + b * b
    ensures (a / l) * (a / l) + (b / l) * (b / l) == 1.0
  {
    DividedSquare(a, l);
    DividedSquare(b, l);
    Distribute2(1.0 / (l * l), l * l, a * a, b * b);
    assert (l * l) * (1.0 / (l * l)) == 1.0;
  }

  /** Multiplying each of 2 terms by `k` multiplies their sum `s` by `k`. */
  lemma Distribute2(k: real, s: real, a: real, b: real)
    requires s == a + b
    ensures a * k + b * k == s * k
  {
  }

  /**
   * Dividing each of 3 components by the positive root `l` of their sum of
   * squares leaves a sum of squares of 1.
   */
  lemma UnitAfterDivision3(a: real, b: real, c: real, l: real)
    requires 0.0 < l && l * l == a * a + b * b + c * c
    ensures (a / l) * (a / l) + (b / l) * (b / l) + (c / l) * (c / l) == 1.0
  {
    DividedSquare(a, l);
    DividedSquare(b, l);
    DividedSquare(c, l);
    Distribute3(1.0 / (l * l), l * l, a * a, b * b, c * c);
    assert (l * l) * (1.0 / (l * l)) == 1.0;
  }

  /** Multiplying each of 3 terms by `k` multiplies their sum `s` by `k`. */
  lemma Distribute3(k: real, s: real, a: real, b: real, c: real)
    requires s == a + b + c
    ensures a * k + b * k + c * k == s * k
  {
  }

  /**
   * Dividing each of 4 components by the positive root `l` of their sum of
   * squares leaves a sum of squares of 1.
   */
  lemma UnitAfterDivision4(a: real, b: real, c: real, d: real, l: real)
    requires 0.0 < l && l * l == a * a + b * b + c * c + d * d
    ensures (a / l) * (a / l) + (b / l) * (b / l) + (c / l) * (c / l) + (d / l) * (d / l) == 1.0
  {
    DividedSquare(a, l);
    DividedSquare(b, l);
    DividedSquare(c, l);
    DividedSquare(d, l);
    Distribute4(1.0 / (l * l), l * l, a * a, b * b, c * c, d * d);
    assert (l * l) * (1.0 / (l * l)) == 1.0;
  }

  /** Multiplying each of 4 terms by `k` multiplies their sum `s` by `k`. */
  lemma Distribute4(k: real, s: real, a: real, b: real, c: real, d: real)
    requires s == a + b + c + d
    ensures a * k + b * k + c * k + d * k == s * k
  {
  }

  /**
   * Dividing each of 6 components by the positive root `l` of their sum of
   * squares leaves a sum of squares of 1.
   */
  lemma UnitAfterDivision6(a: real, b: real, c: real, d: real, e: real, f: real, l: real)
    requires 0.0 < l && l * l == a * a + b * b + c * c + d * d + e * e + f * f
    ensures (a / l) * (a / l) + (b / l) * (b / l) + (c / l) * (c / l) + (d / l) * (d / l) + (e / l) * (e / l) + (f / l) * (f / l) == 1.0
  {
    DividedSquare(a, l);
    DividedSquare(b, l);
    DividedSquare(c, l);
    DividedSquare(d, l);
    DividedSquare(e, l);
    DividedSquare(f, l);
    Distribute6(1.0 / (l * l), l * l, a * a, b * b, c * c, d * d, e * e, f * f);
    assert (l * l) * (1.0 / (l * l)) == 1.0;
  }

  /** Multiplying each of 6 terms by `k` multiplies their sum `s` by `k`. */
  lemma Distribute6(k: real, s: real, a: real, b: real, c: real, d: real, e: real, f: real)
    requires s == a + b + c + d + e + f
    ensures a * k + b * k + c * k + d * k + e * k + f * k == s * k
  {
  }

  /**
   * Dividing each of 8 components by the positive root `l` of their sum of
   * squares leaves a sum of squares of 1.
   */
  lemma UnitAfterDivision8(a: real, b: real, c: real, d: real, e: real, f: real, g: real, h: real, l: real)
    requires 0.0 < l && l * l == a * a + b * b + c * c + d * d + e * e + f * f + g * g + h * h
    ensures (a / l) * (a / l) + (b / l) * (b / l) + (c / l) * (c / l) + (d / l) * (d / l) + (e / l) * (e / l) + (f / l) * (f / l) + (g / l) * (g / l) + (h / l) * (h / l) == 1.0
  {
    DividedSquare(a, l);
    DividedSquare(b, l);
    DividedSquare(c, l);
    DividedSquare(d, l);
    DividedSquare(e, l);
    DividedSquare(f, l);
    DividedSquare(g, l);
    DividedSquare(h, l);
    Distribute8(1.0 / (l * l), l * l, a * a, b * b, c * c, d * d, e * e, f * f, g * g, h * h);
    assert (l * l) * (1.0 / (l * l)) == 1.0;
  }

  /** Multiplying each of 8 terms by `k` multiplies their sum `s` by `k`. */
  lemma Distribute8(k: real, s: real, a: real, b: real, c: real, d: real, e: real, f: real, g: real, h: real)
    requires s == a + b + c + d + e + f + g + h
    ensures a * k + b * k + c * k + d * k + e * k + f * k + g * k + h * k == s * k
  {
  }

  /** The length of `s` times a value is `s` times its length, for positive `s`. */
  lemma LengthOfScaled(m: Functions, s: real, lengthSquared: real)
    requires Lawful(m)
    requires 0.0 < s && 0.0 <= lengthSquared
    ensures Length(m, (s * s) * lengthSquared) == s * Length(m, lengthSquared)
  {
    Root(m, lengthSquared);
    SquareNonnegative(s);
    Root(m, (s * s) * lengthSquared);
    var r := Sqrt(m, lengthSquared);
    assert (s * r) * (s * r) == (s * s) * (r * r);
    SquareInjective(Sqrt(m, (s * s) * lengthSquared), s * r);
  }

  /** A common nonzero factor of numerator and denominator cancels. */
  lemma CancelFactor(s: real, x: real, l: real)
    requires s != 0.0 && l != 0.0
    ensures (s * x) / (s * l) == x / l
  {
  }
}
