/**
 * The transcendental functions the renderer takes from the platform's `f32`
 * (`sqrt`, `sin`, `cos`, `acos`), modelled over `real`.
 *
 * Dafny has no square root or trigonometry over `real`, and every member of
 * this project has a body, so the four functions are the fields of a
 * `Functions` value that each operation receives as a parameter. `Lawful`
 * collects the few facts about them that the proofs rely on; nothing else
 * about them is assumed.
 */
module Elementary {

  /** The four platform functions, as uninterpreted `real -> real` maps. */
  datatype Functions = Functions(
    sqrt: real -> real,
    sin: real -> real,
    cos: real -> real,
    acos: real -> real
  )

  /** `sqrt`, `sin`, `cos` and `acos` of `m`, applied. */
  function Sqrt(m: Functions, x: real): real { m.sqrt(x) }
  function Sin(m: Functions, x: real): real { m.sin(x) }
  function Cos(m: Functions, x: real): real { m.cos(x) }
  function Acos(m: Functions, x: real): real { m.acos(x) }

  /** `sqrt(x)` is a nonnegative square root of a nonnegative `x`. */
  ghost predicate RootLaw(m: Functions, x: real) {
    0.0 <= x ==> 0.0 <= Sqrt(m, x) && Sqrt(m, x) * Sqrt(m, x) == x
  }

  /** `sin(x)^2 + cos(x)^2 == 1`. */
  ghost predicate PythagoreanLaw(m: Functions, x: real) {
    Sin(m, x) * Sin(m, x) + Cos(m, x) * Cos(m, x) == 1.0
  }

  /** `acos` inverts `cos` on [-1, 1]. */
  ghost predicate AcosLaw(m: Functions, c: real) {
    -1.0 <= c <= 1.0 ==> Cos(m, Acos(m, c)) == c
  }

  /**
   * The facts assumed about the platform functions: the three laws above at
   * every argument, `sin(0) == 0`, `acos(1) == 0`, and `acos(-1)` (which is
   * pi) exceeds 3. Each law is used through the lemma below that names it,
   * so that the solver only meets the instances a proof asks for.
   */
  ghost predicate Lawful(m: Functions) {
    && (forall x: real :: RootLaw(m, x))
    && (forall x: real :: PythagoreanLaw(m, x))
    && Sin(m, 0.0) == 0.0
    && (forall c: real :: AcosLaw(m, c))
    && Acos(m, 1.0) == 0.0
    && Acos(m, -1.0) > 3.0
  }

  /** The square root law at `x`. */
  lemma Root(m: Functions, x: real)
    requires Lawful(m)
    requires 0.0 <= x
    ensures 0.0 <= Sqrt(m, x) && Sqrt(m, x) * Sqrt(m, x) == x
  {
    assert RootLaw(m, x);
  }

  /** The Pythagorean identity at `x`. */
  lemma Pythagorean(m: Functions, x: real)
    requires Lawful(m)
    ensures Sin(m, x) * Sin(m, x) + Cos(m, x) * Cos(m, x) == 1.0
  {
    assert PythagoreanLaw(m, x);
  }

  /** `cos(acos(c)) == c` on [-1, 1]. */
  lemma CosOfAcos(m: Functions, c: real)
    requires Lawful(m)
    requires -1.0 <= c <= 1.0
    ensures Cos(m, Acos(m, c)) == c
  {
    assert AcosLaw(m, c);
  }

  /** The square root of the square of a nonnegative number is that number. */
  lemma SqrtOfSquare(m: Functions, k: real)
    requires Lawful(m)
    requires 0.0 <= k
    ensures Sqrt(m, k * k) == k
  {
    Root(m, k * k);
    SquareInjective(Sqrt(m, k * k), k);
  }

  /** Two nonnegative reals with equal squares are equal. */
  lemma SquareInjective(s: real, k: real)
    requires 0.0 <= s && 0.0 <= k && s * s == k * k
    ensures s == k
  {
    if s < k {
      ProductPositive(k - s, k + s);
    } else if k < s {
      ProductPositive(s - k, s + k);
    }
  }

  /** The square root vanishes exactly at zero and is positive on positive numbers. */
  lemma SqrtPositive(m: Functions, x: real)
    requires Lawful(m)
    requires 0.0 <= x
    ensures Sqrt(m, x) == 0.0 <==> x == 0.0
    ensures 0.0 < x ==> 0.0 < Sqrt(m, x)
  {
    Root(m, x);
    if x == 0.0 {
      SqrtOfSquare(m, 0.0);
    }
  }

  /** `cos(0) == 1` follows from `acos` inverting `cos` at 1. */
  lemma CosZero(m: Functions)
    requires Lawful(m)
    ensures Cos(m, 0.0) == 1.0
  {
    CosOfAcos(m, 1.0);
  }

  /** On the open interval (-1, 1) the sine of `acos(c)` is not zero. */
  lemma SinOfAcosNonzero(m: Functions, c: real)
    requires Lawful(m)
    requires -1.0 < c < 1.0
    ensures Sin(m, Acos(m, c)) != 0.0
  {
    var w := Acos(m, c);
    CosOfAcos(m, c);
    Pythagorean(m, w);
    var u, v := 1.0 - c, 1.0 + c;
    ProductPositive(u, v);
    assert u * v == 1.0 - c * c;
  }

  /** Two nonnegative reals compare as their squares do. */
  lemma CompareSquares(l: real, r: real)
    requires 0.0 <= l && 0.0 <= r
    ensures l < r <==> l * l < r * r
    ensures l == r <==> l * l == r * r
  {
    if l < r {
      ProductPositive(r - l, r + l);
    } else if r < l {
      ProductPositive(l - r, l + r);
    }
  }

  /** The square root of a number at least `k * k` is at least `k`, for nonnegative `k`. */
  lemma SqrtAtLeast(m: Functions, x: real, k: real)
    requires Lawful(m)
    requires 0.0 <= k && k * k <= x
    ensures k <= Sqrt(m, x)
  {
    SquareNonnegative(k);
    Root(m, x);
    CompareSquares(Sqrt(m, x), k);
  }

  /** A product of two positive reals is positive. */
  lemma ProductPositive(u: real, v: real)
    requires 0.0 < u && 0.0 < v
    ensures 0.0 < u * v
  {
  }

  /** Four reals whose squares sum to 0 are all 0. */
  lemma SquaresVanish(a: real, b: real, c: real, d: real)
    requires a * a + b * b + c * c + d * d == 0.0
    ensures a == 0.0 && b == 0.0 && c == 0.0 && d == 0.0
  {
    SquareNonnegative(a);
    SquareNonnegative(b);
    SquareNonnegative(c);
    SquareNonnegative(d);
    SquareZero(a);
    SquareZero(b);
    SquareZero(c);
    SquareZero(d);
  }

  /** A square is nonnegative. */
  lemma SquareNonnegative(x: real)
    ensures 0.0 <= x * x
  {
    if x < 0.0 {
      ProductPositive(-x, -x);
    } else if 0.0 < x {
      ProductPositive(x, x);
    }
  }

  /** Only 0 squares to 0. */
  lemma SquareZero(x: real)
    requires x * x == 0.0
    ensures x == 0.0
  {
    if 0.0 <= x {
      SquareInjective(x, 0.0);
    } else {
      SquareInjective(-x, 0.0);
    }
  }

  /**
   * `angle` is a quarter turn and `c` is the cosine of its half: the sine and
   * cosine of the half angle are equal and positive.
   */
  predicate QuarterTurn(m: Functions, angle: real, c: real) {
    c == Cos(m, angle / 2.0) && c == Sin(m, angle / 2.0) && 0.0 < c
  }

  /** For a quarter turn the cosine of the half angle squares to 1/2. */
  lemma HalfOfQuarterTurn(m: Functions, angle: real, c: real)
    requires Lawful(m)
    requires QuarterTurn(m, angle, c)
    ensures c * c == 0.5
  {
    Pythagorean(m, angle / 2.0);
  }
}
