/**
 * The squared length of the 4D sandwich product, proved on plain real
 * components. The sandwich is linear in the vector, so it is a matrix `M`
 * (the rows `Row_` below) applied to `v`. The columns of `M` are orthogonal
 * and each has squared length `|r|^4 - q^2` (the lemmas `Gram__`), where `q`
 * is the pseudoscalar of `r * reverse(r)`. Hence
 * `|M v|^2 == (|r|^4 - q^2) |v|^2`.
 */
module Rotors4Sandwich {
  import opened Rotors4

  /** The squared length of the sandwich is `(|r|^4 - q^2) |v|^2`, one coordinate of `v` at a time. */
  lemma SandwichNormTerms(a: real, yz: real, xz: real, xy: real, xw: real, yw: real, zw: real, p: real, x: real, y: real, z: real, w: real)
    ensures SandwichX(a, yz, xz, xy, xw, yw, zw, p, x, y, z, w) * SandwichX(a, yz, xz, xy, xw, yw, zw, p, x, y, z, w) + SandwichY(a, yz, xz, xy, xw, yw, zw, p, x, y, z, w) * SandwichY(a, yz, xz, xy, xw, yw, zw, p, x, y, z, w)
          + SandwichZ(a, yz, xz, xy, xw, yw, zw, p, x, y, z, w) * SandwichZ(a, yz, xz, xy, xw, yw, zw, p, x, y, z, w) + SandwichW(a, yz, xz, xy, xw, yw, zw, p, x, y, z, w) * SandwichW(a, yz, xz, xy, xw, yw, zw, p, x, y, z, w)
         == ((a * a + yz * yz + xz * xz + xy * xy + xw * xw + yw * yw + zw * zw + p * p) * (a * a + yz * yz + xz * xz + xy * xy + xw * xw + yw * yw + zw * zw + p * p)
         - (2.0 * (a * p - xw * yz - xy * zw + xz * yw)) * (2.0 * (a * p - xw * yz - xy * zw + xz * yw))) * (x * x) + ((a * a + yz * yz + xz * xz + xy * xy + xw * xw + yw * yw + zw * zw + p * p) * (a * a + yz * yz + xz * xz + xy * xy + xw * xw + yw * yw + zw * zw + p * p)
         - (2.0 * (a * p - xw * yz - xy * zw + xz * yw)) * (2.0 * (a * p - xw * yz - xy * zw + xz * yw))) * (y * y) + ((a * a + yz * yz + xz * xz + xy * xy + xw * xw + yw * yw + zw * zw + p * p) * (a * a + yz * yz + xz * xz + xy * xy + xw * xw + yw * yw + zw * zw + p * p)
         - (2.0 * (a * p - xw * yz - xy * zw + xz * yw)) * (2.0 * (a * p - xw * yz - xy * zw + xz * yw))) * (z * z) + ((a * a + yz * yz + xz * xz + xy * xy + xw * xw + yw * yw + zw * zw + p * p) * (a * a + yz * yz + xz * xz + xy * xy + xw * xw + yw * yw + zw * zw + p * p)
         - (2.0 * (a * p - xw * yz - xy * zw + xz * yw)) * (2.0 * (a * p - xw * yz - xy * zw + xz * yw))) * (w * w)
  {
    ExpandSquares(a, yz, xz, xy, xw, yw, zw, p, x, y, z, w);
    DiagonalPart(a, yz, xz, xy, xw, yw, zw, p, x, y, z, w);
    OffDiagonalPart(a, yz, xz, xy, xw, yw, zw, p, x, y, z, w);
  }

  /**
   * The squared length of the sandwich, grouped by the products of the
   * vector's coordinates: the coefficients are the entries of `M^T M`, for
   * the matrix `M` of the sandwich.
   */
  lemma ExpandSquares(a: real, yz: real, xz: real, xy: real, xw: real, yw: real, zw: real, p: real, x: real, y: real, z: real, w: real)
    ensures SandwichX(a, yz, xz, xy, xw, yw, zw, p, x, y, z, w) * SandwichX(a, yz, xz, xy, xw, yw, zw, p, x, y, z, w) + SandwichY(a, yz, xz, xy, xw, yw, zw, p, x, y, z, w) * SandwichY(a, yz, xz, xy, xw, yw, zw, p, x, y, z, w)
          + SandwichZ(a, yz, xz, xy, xw, yw, zw, p, x, y, z, w) * SandwichZ(a, yz, xz, xy, xw, yw, zw, p, x, y, z, w) + SandwichW(a, yz, xz, xy, xw, yw, zw, p, x, y, z, w) * SandwichW(a, yz, xz, xy, xw, yw, zw, p, x, y, z, w)
         == (((a * a - xw * xw - xy * xy - xz * xz + yw * yw + yz * yz + zw * zw - p * p) * (a * a - xw * xw - xy * xy - xz * xz + yw * yw + yz * yz + zw * zw - p * p) + (-2.0 * xy * a - 2.0 * xw * yw - 2.0 * xz * yz - 2.0 * zw * p) * (-2.0 * xy * a - 2.0 * xw * yw - 2.0 * xz * yz - 2.0 * zw * p) + (2.0 * xy * yz - 2.0 * xz * a - 2.0 * xw * zw + 2.0 * yw * p) * (2.0 * xy * yz - 2.0 * xz * a - 2.0 * xw * zw + 2.0 * yw * p) + (2.0 * xy * yw + 2.0 * xz * zw - 2.0 * xw * a - 2.0 * yz * p) * (2.0 * xy * yw + 2.0 * xz * zw - 2.0 * xw * a - 2.0 * yz * p)) * (x * x)
         + ((2.0 * xy * a - 2.0 * xw * yw - 2.0 * xz * yz + 2.0 * zw * p) * (2.0 * xy * a - 2.0 * xw * yw - 2.0 * xz * yz + 2.0 * zw * p) + (a * a + xw * xw - xy * xy + xz * xz - yw * yw - yz * yz + zw * zw - p * p) * (a * a + xw * xw - xy * xy + xz * xz - yw * yw - yz * yz + zw * zw - p * p) + (-2.0 * yz * a - 2.0 * xw * p - 2.0 * xy * xz - 2.0 * yw * zw) * (-2.0 * yz * a - 2.0 * xw * p - 2.0 * xy * xz - 2.0 * yw * zw) + (2.0 * xz * p + 2.0 * yz * zw - 2.0 * xw * xy - 2.0 * yw * a) * (2.0 * xz * p + 2.0 * yz * zw - 2.0 * xw * xy - 2.0 * yw * a)) * (y * y)
         + ((2.0 * xz * a - 2.0 * xw * zw + 2.0 * xy * yz - 2.0 * yw * p) * (2.0 * xz * a - 2.0 * xw * zw + 2.0 * xy * yz - 2.0 * yw * p) + (2.0 * yz * a + 2.0 * xw * p - 2.0 * xy * xz - 2.0 * yw * zw) * (2.0 * yz * a + 2.0 * xw * p - 2.0 * xy * xz - 2.0 * yw * zw) + (a * a + xw * xw + xy * xy - xz * xz + yw * yw - yz * yz - zw * zw - p * p) * (a * a + xw * xw + xy * xy - xz * xz + yw * yw - yz * yz - zw * zw - p * p) + (-2.0 * xw * xz - 2.0 * xy * p - 2.0 * yw * yz - 2.0 * zw * a) * (-2.0 * xw * xz - 2.0 * xy * p - 2.0 * yw * yz - 2.0 * zw * a)) * (z * z)
         + ((2.0 * xw * a + 2.0 * xy * yw + 2.0 * xz * zw + 2.0 * yz * p) * (2.0 * xw * a + 2.0 * xy * yw + 2.0 * xz * zw + 2.0 * yz * p) + (2.0 * yw * a - 2.0 * xw * xy - 2.0 * xz * p + 2.0 * yz * zw) * (2.0 * yw * a - 2.0 * xw * xy - 2.0 * xz * p + 2.0 * yz * zw) + (2.0 * zw * a - 2.0 * xw * xz + 2.0 * xy * p - 2.0 * yw * yz) * (2.0 * zw * a - 2.0 * xw * xz + 2.0 * xy * p - 2.0 * yw * yz) + (a * a - xw * xw + xy * xy + xz * xz - yw * yw + yz * yz - zw * zw - p * p) * (a * a - xw * xw + xy * xy + xz * xz - yw * yw + yz * yz - zw * zw - p * p)) * (w * w))
          + (2.0 * ((a * a - xw * xw - xy * xy - xz * xz + yw * yw + yz * yz + zw * zw - p * p) * (2.0 * xy * a - 2.0 * xw * yw - 2.0 * xz * yz + 2.0 * zw * p) + (-2.0 * xy * a - 2.0 * xw * yw - 2.0 * xz * yz - 2.0 * zw * p) * (a * a + xw * xw - xy * xy + xz * xz - yw * yw - yz * yz + zw * zw - p * p) + (2.0 * xy * yz - 2.0 * xz * a - 2.0 * xw * zw + 2.0 * yw * p) * (-2.0 * yz * a - 2.0 * xw * p - 2.0 * xy * xz - 2.0 * yw * zw) + (2.0 * xy * yw + 2.0 * xz * zw - 2.0 * xw * a - 2.0 * yz * p) * (2.0 * xz * p + 2.0 * yz * zw - 2.0 * xw * xy - 2.0 * yw * a)) * (x * y)
         + 2.0 * ((a * a - xw * xw - xy * xy - xz * xz + yw * yw + yz * yz + zw * zw - p * p) * (2.0 * xz * a - 2.0 * xw * zw + 2.0 * xy * yz - 2.0 * yw * p) + (-2.0 * xy * a - 2.0 * xw * yw - 2.0 * xz * yz - 2.0 * zw * p) * (2.0 * yz * a + 2.0 * xw * p - 2.0 * xy * xz - 2.0 * yw * zw) + (2.0 * xy * yz - 2.0 * xz * a - 2.0 * xw * zw + 2.0 * yw * p) * (a * a + xw * xw + xy * xy - xz * xz + yw * yw - yz * yz - zw * zw - p * p) + (2.0 * xy * yw + 2.0 * xz * zw - 2.0 * xw * a - 2.0 * yz * p) * (-2.0 * xw * xz - 2.0 * xy * p - 2.0 * yw * yz - 2.0 * zw * a)) * (x * z)
         + 2.0 * ((a * a - xw * xw - xy * xy - xz * xz + yw * yw + yz * yz + zw * zw - p * p) * (2.0 * xw * a + 2.0 * xy * yw + 2.0 * xz * zw + 2.0 * yz * p) + (-2.0 * xy * a - 2.0 * xw * yw - 2.0 * xz * yz - 2.0 * zw * p) * (2.0 * yw * a - 2.0 * xw * xy - 2.0 * xz * p + 2.0 * yz * zw) + (2.0 * xy * yz - 2.0 * xz * a - 2.0 * xw * zw + 2.0 * yw * p) * (2.0 * zw * a - 2.0 * xw * xz + 2.0 * xy * p - 2.0 * yw * yz) + (2.0 * xy * yw + 2.0 * xz * zw - 2.0 * xw * a - 2.0 * yz * p) * (a * a - xw * xw + xy * xy + xz * xz - yw * yw + yz * yz - zw * zw - p * p)) * (x * w)
         + 2.0 * ((2.0 * xy * a - 2.0 * xw * yw - 2.0 * xz * yz + 2.0 * zw * p) * (2.0 * xz * a - 2.0 * xw * zw + 2.0 * xy * yz - 2.0 * yw * p) + (a * a + xw * xw - xy * xy + xz * xz - yw * yw - yz * yz + zw * zw - p * p) * (2.0 * yz * a + 2.0 * xw * p - 2.0 * xy * xz - 2.0 * yw * zw) + (-2.0 * yz * a - 2.0 * xw * p - 2.0 * xy * xz - 2.0 * yw * zw) * (a * a + xw * xw + xy * xy - xz * xz + yw * yw - yz * yz - zw * zw - p * p) + (2.0 * xz * p + 2.0 * yz * zw - 2.0 * xw * xy - 2.0 * yw * a) * (-2.0 * xw * xz - 2.0 * xy * p - 2.0 * yw * yz - 2.0 * zw * a)) * (y * z)
         + 2.0 * ((2.0 * xy * a - 2.0 * xw * yw - 2.0 * xz * yz + 2.0 * zw * p) * (2.0 * xw * a + 2.0 * xy * yw + 2.0 * xz * zw + 2.0 * yz * p) + (a * a + xw * xw - xy * xy + xz * xz - yw * yw - yz * yz + zw * zw - p * p) * (2.0 * yw * a - 2.0 * xw * xy - 2.0 * xz * p + 2.0 * yz * zw) + (-2.0 * yz * a - 2.0 * xw * p - 2.0 * xy * xz - 2.0 * yw * zw) * (2.0 * zw * a - 2.0 * xw * xz + 2.0 * xy * p - 2.0 * yw * yz) + (2.0 * xz * p + 2.0 * yz * zw - 2.0 * xw * xy - 2.0 * yw * a) * (a * a - xw * xw + xy * xy + xz * xz - yw * yw + yz * yz - zw * zw - p * p)) * (y * w)
         + 2.0 * ((2.0 * xz * a - 2.0 * xw * zw + 2.0 * xy * yz - 2.0 * yw * p) * (2.0 * xw * a + 2.0 * xy * yw + 2.0 * xz * zw + 2.0 * yz * p) + (2.0 * yz * a + 2.0 * xw * p - 2.0 * xy * xz - 2.0 * yw * zw) * (2.0 * yw * a - 2.0 * xw * xy - 2.0 * xz * p + 2.0 * yz * zw) + (a * a + xw * xw + xy * xy - xz * xz + yw * yw - yz * yz - zw * zw - p * p) * (2.0 * zw * a - 2.0 * xw * xz + 2.0 * xy * p - 2.0 * yw * yz) + (-2.0 * xw * xz - 2.0 * xy * p - 2.0 * yw * yz - 2.0 * zw * a) * (a * a - xw * xw + xy * xy + xz * xz - yw * yw + yz * yz - zw * zw - p * p)) * (z * w))
  {
    RowSquareX(a, yz, xz, xy, xw, yw, zw, p, x, y, z, w);
    RowSquareY(a, yz, xz, xy, xw, yw, zw, p, x, y, z, w);
    RowSquareZ(a, yz, xz, xy, xw, yw, zw, p, x, y, z, w);
    RowSquareW(a, yz, xz, xy, xw, yw, zw, p, x, y, z, w);
  }

  /** The squares of the vector's coordinates have the common coefficient `|r|^4 - q^2`. */
  lemma DiagonalPart(a: real, yz: real, xz: real, xy: real, xw: real, yw: real, zw: real, p: real, x: real, y: real, z: real, w: real)
    ensures ((a * a - xw * xw - xy * xy - xz * xz + yw * yw + yz * yz + zw * zw - p * p) * (a * a - xw * xw - xy * xy - xz * xz + yw * yw + yz * yz + zw * zw - p * p) + (-2.0 * xy * a - 2.0 * xw * yw - 2.0 * xz * yz - 2.0 * zw * p) * (-2.0 * xy * a - 2.0 * xw * yw - 2.0 * xz * yz - 2.0 * zw * p) + (2.0 * xy * yz - 2.0 * xz * a - 2.0 * xw * zw + 2.0 * yw * p) * (2.0 * xy * yz - 2.0 * xz * a - 2.0 * xw * zw + 2.0 * yw * p) + (2.0 * xy * yw + 2.0 * xz * zw - 2.0 * xw * a - 2.0 * yz * p) * (2.0 * xy * yw + 2.0 * xz * zw - 2.0 * xw * a - 2.0 * yz * p)) * (x * x)
         + ((2.0 * xy * a - 2.0 * xw * yw - 2.0 * xz * yz + 2.0 * zw * p) * (2.0 * xy * a - 2.0 * xw * yw - 2.0 * xz * yz + 2.0 * zw * p) + (a * a + xw * xw - xy * xy + xz * xz - yw * yw - yz * yz + zw * zw - p * p) * (a * a + xw * xw - xy * xy + xz * xz - yw * yw - yz * yz + zw * zw - p * p) + (-2.0 * yz * a - 2.0 * xw * p - 2.0 * xy * xz - 2.0 * yw * zw) * (-2.0 * yz * a - 2.0 * xw * p - 2.0 * xy * xz - 2.0 * yw * zw) + (2.0 * xz * p + 2.0 * yz * zw - 2.0 * xw * xy - 2.0 * yw * a) * (2.0 * xz * p + 2.0 * yz * zw - 2.0 * xw * xy - 2.0 * yw * a)) * (y * y)
         + ((2.0 * xz * a - 2.0 * xw * zw + 2.0 * xy * yz - 2.0 * yw * p) * (2.0 * xz * a - 2.0 * xw * zw + 2.0 * xy * yz - 2.0 * yw * p) + (2.0 * yz * a + 2.0 * xw * p - 2.0 * xy * xz - 2.0 * yw * zw) * (2.0 * yz * a + 2.0 * xw * p - 2.0 * xy * xz - 2.0 * yw * zw) + (a * a + xw * xw + xy * xy - xz * xz + yw * yw - yz * yz - zw * zw - p * p) * (a * a + xw * xw + xy * xy - xz * xz + yw * yw - yz * yz - zw * zw - p * p) + (-2.0 * xw * xz - 2.0 * xy * p - 2.0 * yw * yz - 2.0 * zw * a) * (-2.0 * xw * xz - 2.0 * xy * p - 2.0 * yw * yz - 2.0 * zw * a)) * (z * z)
         + ((2.0 * xw * a + 2.0 * xy * yw + 2.0 * xz * zw + 2.0 * yz * p) * (2.0 * xw * a + 2.0 * xy * yw + 2.0 * xz * zw + 2.0 * yz * p) + (2.0 * yw * a - 2.0 * xw * xy - 2.0 * xz * p + 2.0 * yz * zw) * (2.0 * yw * a - 2.0 * xw * xy - 2.0 * xz * p + 2.0 * yz * zw) + (2.0 * zw * a - 2.0 * xw * xz + 2.0 * xy * p - 2.0 * yw * yz) * (2.0 * zw * a - 2.0 * xw * xz + 2.0 * xy * p - 2.0 * yw * yz) + (a * a - xw * xw + xy * xy + xz * xz - yw * yw + yz * yz - zw * zw - p * p) * (a * a - xw * xw + xy * xy + xz * xz - yw * yw + yz * yz - zw * zw - p * p)) * (w * w)
         == ((a * a + yz * yz + xz * xz + xy * xy + xw * xw + yw * yw + zw * zw + p * p) * (a * a + yz * yz + xz * xz + xy * xy + xw * xw + yw * yw + zw * zw + p * p)
         - (2.0 * (a * p - xw * yz - xy * zw + xz * yw)) * (2.0 * (a * p - xw * yz - xy * zw + xz * yw))) * (x * x) + ((a * a + yz * yz + xz * xz + xy * xy + xw * xw + yw * yw + zw * zw + p * p) * (a * a + yz * yz + xz * xz + xy * xy + xw * xw + yw * yw + zw * zw + p * p)
         - (2.0 * (a * p - xw * yz - xy * zw + xz * yw)) * (2.0 * (a * p - xw * yz - xy * zw + xz * yw))) * (y * y) + ((a * a + yz * yz + xz * xz + xy * xy + xw * xw + yw * yw + zw * zw + p * p) * (a * a + yz * yz + xz * xz + xy * xy + xw * xw + yw * yw + zw * zw + p * p)
         - (2.0 * (a * p - xw * yz - xy * zw + xz * yw)) * (2.0 * (a * p - xw * yz - xy * zw + xz * yw))) * (z * z) + ((a * a + yz * yz + xz * xz + xy * xy + xw * xw + yw * yw + zw * zw + p * p) * (a * a + yz * yz + xz * xz + xy * xy + xw * xw + yw * yw + zw * zw + p * p)
         - (2.0 * (a * p - xw * yz - xy * zw + xz * yw)) * (2.0 * (a * p - xw * yz - xy * zw + xz * yw))) * (w * w)
  {
    ScaledXX(a, yz, xz, xy, xw, yw, zw, p, x);
    ScaledYY(a, yz, xz, xy, xw, yw, zw, p, y);
    ScaledZZ(a, yz, xz, xy, xw, yw, zw, p, z);
    ScaledWW(a, yz, xz, xy, xw, yw, zw, p, w);
  }

  /** The mixed products of the vector's coordinates cancel. */
  lemma OffDiagonalPart(a: real, yz: real, xz: real, xy: real, xw: real, yw: real, zw: real, p: real, x: real, y: real, z: real, w: real)
    ensures 2.0 * ((a * a - xw * xw - xy * xy - xz * xz + yw * yw + yz * yz + zw * zw - p * p) * (2.0 * xy * a - 2.0 * xw * yw - 2.0 * xz * yz + 2.0 * zw * p) + (-2.0 * xy * a - 2.0 * xw * yw - 2.0 * xz * yz - 2.0 * zw * p) * (a * a + xw * xw - xy * xy + xz * xz - yw * yw - yz * yz + zw * zw - p * p) + (2.0 * xy * yz - 2.0 * xz * a - 2.0 * xw * zw + 2.0 * yw * p) * (-2.0 * yz * a - 2.0 * xw * p - 2.0 * xy * xz - 2.0 * yw * zw) + (2.0 * xy * yw + 2.0 * xz * zw - 2.0 * xw * a - 2.0 * yz * p) * (2.0 * xz * p + 2.0 * yz * zw - 2.0 * xw * xy - 2.0 * yw * a)) * (x * y)
         + 2.0 * ((a * a - xw * xw - xy * xy - xz * xz + yw * yw + yz * yz + zw * zw - p * p) * (2.0 * xz * a - 2.0 * xw * zw + 2.0 * xy * yz - 2.0 * yw * p) + (-2.0 * xy * a - 2.0 * xw * yw - 2.0 * xz * yz - 2.0 * zw * p) * (2.0 * yz * a + 2.0 * xw * p - 2.0 * xy * xz - 2.0 * yw * zw) + (2.0 * xy * yz - 2.0 * xz * a - 2.0 * xw * zw + 2.0 * yw * p) * (a * a + xw * xw + xy * xy - xz * xz + yw * yw - yz * yz - zw * zw - p * p) + (2.0 * xy * yw + 2.0 * xz * zw - 2.0 * xw * a - 2.0 * yz * p) * (-2.0 * xw * xz - 2.0 * xy * p - 2.0 * yw * yz - 2.0 * zw * a)) * (x * z)
         + 2.0 * ((a * a - xw * xw - xy * xy - xz * xz + yw * yw + yz * yz + zw * zw - p * p) * (2.0 * xw * a + 2.0 * xy * yw + 2.0 * xz * zw + 2.0 * yz * p) + (-2.0 * xy * a - 2.0 * xw * yw - 2.0 * xz * yz - 2.0 * zw * p) * (2.0 * yw * a - 2.0 * xw * xy - 2.0 * xz * p + 2.0 * yz * zw) + (2.0 * xy * yz - 2.0 * xz * a - 2.0 * xw * zw + 2.0 * yw * p) * (2.0 * zw * a - 2.0 * xw * xz + 2.0 * xy * p - 2.0 * yw * yz) + (2.0 * xy * yw + 2.0 * xz * zw - 2.0 * xw * a - 2.0 * yz * p) * (a * a - xw * xw + xy * xy + xz * xz - yw * yw + yz * yz - zw * zw - p * p)) * (x * w)
         + 2.0 * ((2.0 * xy * a - 2.0 * xw * yw - 2.0 * xz * yz + 2.0 * zw * p) * (2.0 * xz * a - 2.0 * xw * zw + 2.0 * xy * yz - 2.0 * yw * p) + (a * a + xw * xw - xy * xy + xz * xz - yw * yw - yz * yz + zw * zw - p * p) * (2.0 * yz * a + 2.0 * xw * p - 2.0 * xy * xz - 2.0 * yw * zw) + (-2.0 * yz * a - 2.0 * xw * p - 2.0 * xy * xz - 2.0 * yw * zw) * (a * a + xw * xw + xy * xy - xz * xz + yw * yw - yz * yz - zw * zw - p * p) + (2.0 * xz * p + 2.0 * yz * zw - 2.0 * xw * xy - 2.0 * yw * a) * (-2.0 * xw * xz - 2.0 * xy * p - 2.0 * yw * yz - 2.0 * zw * a)) * (y * z)
         + 2.0 * ((2.0 * xy * a - 2.0 * xw * yw - 2.0 * xz * yz + 2.0 * zw * p) * (2.0 * xw * a + 2.0 * xy * yw + 2.0 * xz * zw + 2.0 * yz * p) + (a * a + xw * xw - xy * xy + xz * xz - yw * yw - yz * yz + zw * zw - p * p) * (2.0 * yw * a - 2.0 * xw * xy - 2.0 * xz * p + 2.0 * yz * zw) + (-2.0 * yz * a - 2.0 * xw * p - 2.0 * xy * xz - 2.0 * yw * zw) * (2.0 * zw * a - 2.0 * xw * xz + 2.0 * xy * p - 2.0 * yw * yz) + (2.0 * xz * p + 2.0 * yz * zw - 2.0 * xw * xy - 2.0 * yw * a) * (a * a - xw * xw + xy * xy + xz * xz - yw * yw + yz * yz - zw * zw - p * p)) * (y * w)
         + 2.0 * ((2.0 * xz * a - 2.0 * xw * zw + 2.0 * xy * yz - 2.0 * yw * p) * (2.0 * xw * a + 2.0 * xy * yw + 2.0 * xz * zw + 2.0 * yz * p) + (2.0 * yz * a + 2.0 * xw * p - 2.0 * xy * xz - 2.0 * yw * zw) * (2.0 * yw * a - 2.0 * xw * xy - 2.0 * xz * p + 2.0 * yz * zw) + (a * a + xw * xw + xy * xy - xz * xz + yw * yw - yz * yz - zw * zw - p * p) * (2.0 * zw * a - 2.0 * xw * xz + 2.0 * xy * p - 2.0 * yw * yz) + (-2.0 * xw * xz - 2.0 * xy * p - 2.0 * yw * yz - 2.0 * zw * a) * (a * a - xw * xw + xy * xy + xz * xz - yw * yw + yz * yz - zw * zw - p * p)) * (z * w)
         == 0.0
  {
    ScaledXY(a, yz, xz, xy, xw, yw, zw, p, x, y);
    ScaledXZ(a, yz, xz, xy, xw, yw, zw, p, x, z);
    ScaledXW(a, yz, xz, xy, xw, yw, zw, p, x, w);
    ScaledYZ(a, yz, xz, xy, xw, yw, zw, p, y, z);
    ScaledYW(a, yz, xz, xy, xw, yw, zw, p, y, w);
    ScaledZW(a, yz, xz, xy, xw, yw, zw, p, z, w);
  }

  /** The square of the `x` coordinate of the sandwich, expanded in the vector's coordinates. */
  lemma RowSquareX(a: real, yz: real, xz: real, xy: real, xw: real, yw: real, zw: real, p: real, x: real, y: real, z: real, w: real)
    ensures SandwichX(a, yz, xz, xy, xw, yw, zw, p, x, y, z, w) * SandwichX(a, yz, xz, xy, xw, yw, zw, p, x, y, z, w)
         == ((a * a - xw * xw - xy * xy - xz * xz + yw * yw + yz * yz + zw * zw - p * p) * (a * a - xw * xw - xy * xy - xz * xz + yw * yw + yz * yz + zw * zw - p * p)) * (x * x)
         + ((2.0 * xy * a - 2.0 * xw * yw - 2.0 * xz * yz + 2.0 * zw * p) * (2.0 * xy * a - 2.0 * xw * yw - 2.0 * xz * yz + 2.0 * zw * p)) * (y * y)
         + ((2.0 * xz * a - 2.0 * xw * zw + 2.0 * xy * yz - 2.0 * yw * p) * (2.0 * xz * a - 2.0 * xw * zw + 2.0 * xy * yz - 2.0 * yw * p)) * (z * z)
         + ((2.0 * xw * a + 2.0 * xy * yw + 2.0 * xz * zw + 2.0 * yz * p) * (2.0 * xw * a + 2.0 * xy * yw + 2.0 * xz * zw + 2.0 * yz * p)) * (w * w)
         + 2.0 * ((a * a - xw * xw - xy * xy - xz * xz + yw * yw + yz * yz + zw * zw - p * p) * (2.0 * xy * a - 2.0 * xw * yw - 2.0 * xz * yz + 2.0 * zw * p)) * (x * y)
         + 2.0 * ((a * a - xw * xw - xy * xy - xz * xz + yw * yw + yz * yz + zw * zw - p * p) * (2.0 * xz * a - 2.0 * xw * zw + 2.0 * xy * yz - 2.0 * yw * p)) * (x * z)
         + 2.0 * ((a * a - xw * xw - xy * xy - xz * xz + yw * yw + yz * yz + zw * zw - p * p) * (2.0 * xw * a + 2.0 * xy * yw + 2.0 * xz * zw + 2.0 * yz * p)) * (x * w)
         + 2.0 * ((2.0 * xy * a - 2.0 * xw * yw - 2.0 * xz * yz + 2.0 * zw * p) * (2.0 * xz * a - 2.0 * xw * zw + 2.0 * xy * yz - 2.0 * yw * p)) * (y * z)
         + 2.0 * ((2.0 * xy * a - 2.0 * xw * yw - 2.0 * xz * yz + 2.0 * zw * p) * (2.0 * xw * a + 2.0 * xy * yw + 2.0 * xz * zw + 2.0 * yz * p)) * (y * w)
         + 2.0 * ((2.0 * xz * a - 2.0 * xw * zw + 2.0 * xy * yz - 2.0 * yw * p) * (2.0 * xw * a + 2.0 * xy * yw + 2.0 * xz * zw + 2.0 * yz * p)) * (z * w)
  {
    RowX(a, yz, xz, xy, xw, yw, zw, p, x, y, z, w);
  }

  /** The square of the `y` coordinate of the sandwich, expanded in the vector's coordinates. */
  lemma RowSquareY(a: real, yz: real, xz: real, xy: real, xw: real, yw: real, zw: real, p: real, x: real, y: real, z: real, w: real)
    ensures SandwichY(a, yz, xz, xy, xw, yw, zw, p, x, y, z, w) * SandwichY(a, yz, xz, xy, xw, yw, zw, p, x, y, z, w)
         == ((-2.0 * xy * a - 2.0 * xw * yw - 2.0 * xz * yz - 2.0 * zw * p) * (-2.0 * xy * a - 2.0 * xw * yw - 2.0 * xz * yz - 2.0 * zw * p)) * (x * x)
         + ((a * a + xw * xw - xy * xy + xz * xz - yw * yw - yz * yz + zw * zw - p * p) * (a * a + xw * xw - xy * xy + xz * xz - yw * yw - yz * yz + zw * zw - p * p)) * (y * y)
         + ((2.0 * yz * a + 2.0 * xw * p - 2.0 * xy * xz - 2.0 * yw * zw) * (2.0 * yz * a + 2.0 * xw * p - 2.0 * xy * xz - 2.0 * yw * zw)) * (z * z)
         + ((2.0 * yw * a - 2.0 * xw * xy - 2.0 * xz * p + 2.0 * yz * zw) * (2.0 * yw * a - 2.0 * xw * xy - 2.0 * xz * p + 2.0 * yz * zw)) * (w * w)
         + 2.0 * ((-2.0 * xy * a - 2.0 * xw * yw - 2.0 * xz * yz - 2.0 * zw * p) * (a * a + xw * xw - xy * xy + xz * xz - yw * yw - yz * yz + zw * zw - p * p)) * (x * y)
         + 2.0 * ((-2.0 * xy * a - 2.0 * xw * yw - 2.0 * xz * yz - 2.0 * zw * p) * (2.0 * yz * a + 2.0 * xw * p - 2.0 * xy * xz - 2.0 * yw * zw)) * (x * z)
         + 2.0 * ((-2.0 * xy * a - 2.0 * xw * yw - 2.0 * xz * yz - 2.0 * zw * p) * (2.0 * yw * a - 2.0 * xw * xy - 2.0 * xz * p + 2.0 * yz * zw)) * (x * w)
         + 2.0 * ((a * a + xw * xw - xy * xy + xz * xz - yw * yw - yz * yz + zw * zw - p * p) * (2.0 * yz * a + 2.0 * xw * p - 2.0 * xy * xz - 2.0 * yw * zw)) * (y * z)
         + 2.0 * ((a * a + xw * xw - xy * xy + xz * xz - yw * yw - yz * yz + zw * zw - p * p) * (2.0 * yw * a - 2.0 * xw * xy - 2.0 * xz * p + 2.0 * yz * zw)) * (y * w)
         + 2.0 * ((2.0 * yz * a + 2.0 * xw * p - 2.0 * xy * xz - 2.0 * yw * zw) * (2.0 * yw * a - 2.0 * xw * xy - 2.0 * xz * p + 2.0 * yz * zw)) * (z * w)
  {
    RowY(a, yz, xz, xy, xw, yw, zw, p, x, y, z, w);
  }

  /** The square of the `z` coordinate of the sandwich, expanded in the vector's coordinates. */
  lemma RowSquareZ(a: real, yz: real, xz: real, xy: real, xw: real, yw: real, zw: real, p: real, x: real, y: real, z: real, w: real)
    ensures SandwichZ(a, yz, xz, xy, xw, yw, zw, p, x, y, z, w) * SandwichZ(a, yz, xz, xy, xw, yw, zw, p, x, y, z, w)
         == ((2.0 * xy * yz - 2.0 * xz * a - 2.0 * xw * zw + 2.0 * yw * p) * (2.0 * xy * yz - 2.0 * xz * a - 2.0 * xw * zw + 2.0 * yw * p)) * (x * x)
         + ((-2.0 * yz * a - 2.0 * xw * p - 2.0 * xy * xz - 2.0 * yw * zw) * (-2.0 * yz * a - 2.0 * xw * p - 2.0 * xy * xz - 2.0 * yw * zw)) * (y * y)
         + ((a * a + xw * xw + xy * xy - xz * xz + yw * yw - yz * yz - zw * zw - p * p) * (a * a + xw * xw + xy * xy - xz * xz + yw * yw - yz * yz - zw * zw - p * p)) * (z * z)
         + ((2.0 * zw * a - 2.0 * xw * xz + 2.0 * xy * p - 2.0 * yw * yz) * (2.0 * zw * a - 2.0 * xw * xz + 2.0 * xy * p - 2.0 * yw * yz)) * (w * w)
         + 2.0 * ((2.0 * xy * yz - 2.0 * xz * a - 2.0 * xw * zw + 2.0 * yw * p) * (-2.0 * yz * a - 2.0 * xw * p - 2.0 * xy * xz - 2.0 * yw * zw)) * (x * y)
         + 2.0 * ((2.0 * xy * yz - 2.0 * xz * a - 2.0 * xw * zw + 2.0 * yw * p) * (a * a + xw * xw + xy * xy - xz * xz + yw * yw - yz * yz - zw * zw - p * p)) * (x * z)
         + 2.0 * ((2.0 * xy * yz - 2.0 * xz * a - 2.0 * xw * zw + 2.0 * yw * p) * (2.0 * zw * a - 2.0 * xw * xz + 2.0 * xy * p - 2.0 * yw * yz)) * (x * w)
         + 2.0 * ((-2.0 * yz * a - 2.0 * xw * p - 2.0 * xy * xz - 2.0 * yw * zw) * (a * a + xw * xw + xy * xy - xz * xz + yw * yw - yz * yz - zw * zw - p * p)) * (y * z)
         + 2.0 * ((-2.0 * yz * a - 2.0 * xw * p - 2.0 * xy * xz - 2.0 * yw * zw) * (2.0 * zw * a - 2.0 * xw * xz + 2.0 * xy * p - 2.0 * yw * yz)) * (y * w)
         + 2.0 * ((a * a + xw * xw + xy * xy - xz * xz + yw * yw - yz * yz - zw * zw - p * p) * (2.0 * zw * a - 2.0 * xw * xz + 2.0 * xy * p - 2.0 * yw * yz)) * (z * w)
  {
    RowZ(a, yz, xz, xy, xw, yw, zw, p, x, y, z, w);
  }

  /** The square of the `w` coordinate of the sandwich, expanded in the vector's coordinates. */
  lemma RowSquareW(a: real, yz: real, xz: real, xy: real, xw: real, yw: real, zw: real, p: real, x: real, y: real, z: real, w: real)
    ensures SandwichW(a, yz, xz, xy, xw, yw, zw, p, x, y, z, w) * SandwichW(a, yz, xz, xy, xw, yw, zw, p, x, y, z, w)
         == ((2.0 * xy * yw + 2.0 * xz * zw - 2.0 * xw * a - 2.0 * yz * p) * (2.0 * xy * yw + 2.0 * xz * zw - 2.0 * xw * a - 2.0 * yz * p)) * (x * x)
         + ((2.0 * xz * p + 2.0 * yz * zw - 2.0 * xw * xy - 2.0 * yw * a) * (2.0 * xz * p + 2.0 * yz * zw - 2.0 * xw * xy - 2.0 * yw * a)) * (y * y)
         + ((-2.0 * xw * xz - 2.0 * xy * p - 2.0 * yw * yz - 2.0 * zw * a) * (-2.0 * xw * xz - 2.0 * xy * p - 2.0 * yw * yz - 2.0 * zw * a)) * (z * z)
         + ((a * a - xw * xw + xy * xy + xz * xz - yw * yw + yz * yz - zw * zw - p * p) * (a * a - xw * xw + xy * xy + xz * xz - yw * yw + yz * yz - zw * zw - p * p)) * (w * w)
         + 2.0 * ((2.0 * xy * yw + 2.0 * xz * zw - 2.0 * xw * a - 2.0 * yz * p) * (2.0 * xz * p + 2.0 * yz * zw - 2.0 * xw * xy - 2.0 * yw * a)) * (x * y)
         + 2.0 * ((2.0 * xy * yw + 2.0 * xz * zw - 2.0 * xw * a - 2.0 * yz * p) * (-2.0 * xw * xz - 2.0 * xy * p - 2.0 * yw * yz - 2.0 * zw * a)) * (x * z)
         + 2.0 * ((2.0 * xy * yw + 2.0 * xz * zw - 2.0 * xw * a - 2.0 * yz * p) * (a * a - xw * xw + xy * xy + xz * xz - yw * yw + yz * yz - zw * zw - p * p)) * (x * w)
         + 2.0 * ((2.0 * xz * p + 2.0 * yz * zw - 2.0 * xw * xy - 2.0 * yw * a) * (-2.0 * xw * xz - 2.0 * xy * p - 2.0 * yw * yz - 2.0 * zw * a)) * (y * z)
         + 2.0 * ((2.0 * xz * p + 2.0 * yz * zw - 2.0 * xw * xy - 2.0 * yw * a) * (a * a - xw * xw + xy * xy + xz * xz - yw * yw + yz * yz - zw * zw - p * p)) * (y * w)
         + 2.0 * ((-2.0 * xw * xz - 2.0 * xy * p - 2.0 * yw * yz - 2.0 * zw * a) * (a * a - xw * xw + xy * xy + xz * xz - yw * yw + yz * yz - zw * zw - p * p)) * (z * w)
  {
    RowW(a, yz, xz, xy, xw, yw, zw, p, x, y, z, w);
  }

  /** The `x` coordinate of the sandwich is linear in the vector: row `x` of the matrix `M`. */
  lemma RowX(a: real, yz: real, xz: real, xy: real, xw: real, yw: real, zw: real, p: real, x: real, y: real, z: real, w: real)
    ensures SandwichX(a, yz, xz, xy, xw, yw, zw, p, x, y, z, w)
         == (a * a - xw * xw - xy * xy - xz * xz + yw * yw + yz * yz + zw * zw - p * p) * x
         + (2.0 * xy * a - 2.0 * xw * yw - 2.0 * xz * yz + 2.0 * zw * p) * y
         + (2.0 * xz * a - 2.0 * xw * zw + 2.0 * xy * yz - 2.0 * yw * p) * z
         + (2.0 * xw * a + 2.0 * xy * yw + 2.0 * xz * zw + 2.0 * yz * p) * w
  {
  }

  /** The `y` coordinate of the sandwich is linear in the vector: row `y` of the matrix `M`. */
  lemma RowY(a: real, yz: real, xz: real, xy: real, xw: real, yw: real, zw: real, p: real, x: real, y: real, z: real, w: real)
    ensures SandwichY(a, yz, xz, xy, xw, yw, zw, p, x, y, z, w)
         == (-2.0 * xy * a - 2.0 * xw * yw - 2.0 * xz * yz - 2.0 * zw * p) * x
         + (a * a + xw * xw - xy * xy + xz * xz - yw * yw - yz * yz + zw * zw - p * p) * y
         + (2.0 * yz * a + 2.0 * xw * p - 2.0 * xy * xz - 2.0 * yw * zw) * z
         + (2.0 * yw * a - 2.0 * xw * xy - 2.0 * xz * p + 2.0 * yz * zw) * w
  {
  }

  /** The `z` coordinate of the sandwich is linear in the vector: row `z` of the matrix `M`. */
  lemma RowZ(a: real, yz: real, xz: real, xy: real, xw: real, yw: real, zw: real, p: real, x: real, y: real, z: real, w: real)
    ensures SandwichZ(a, yz, xz, xy, xw, yw, zw, p, x, y, z, w)
         == (2.0 * xy * yz - 2.0 * xz * a - 2.0 * xw * zw + 2.0 * yw * p) * x
         + (-2.0 * yz * a - 2.0 * xw * p - 2.0 * xy * xz - 2.0 * yw * zw) * y
         + (a * a + xw * xw + xy * xy - xz * xz + yw * yw - yz * yz - zw * zw - p * p) * z
         + (2.0 * zw * a - 2.0 * xw * xz + 2.0 * xy * p - 2.0 * yw * yz) * w
  {
  }

  /** The `w` coordinate of the sandwich is linear in the vector: row `w` of the matrix `M`. */
  lemma RowW(a: real, yz: real, xz: real, xy: real, xw: real, yw: real, zw: real, p: real, x: real, y: real, z: real, w: real)
    ensures SandwichW(a, yz, xz, xy, xw, yw, zw, p, x, y, z, w)
         == (2.0 * xy * yw + 2.0 * xz * zw - 2.0 * xw * a - 2.0 * yz * p) * x
         + (2.0 * xz * p + 2.0 * yz * zw - 2.0 * xw * xy - 2.0 * yw * a) * y
         + (-2.0 * xw * xz - 2.0 * xy * p - 2.0 * yw * yz - 2.0 * zw * a) * z
         + (a * a - xw * xw + xy * xy + xz * xz - yw * yw + yz * yz - zw * zw - p * p) * w
  {
  }

  /** Column `x` of `M`, times `x^2`, has squared length `(|r|^4 - q^2) x^2`. */
  lemma ScaledXX(a: real, yz: real, xz: real, xy: real, xw: real, yw: real, zw: real, p: real, x: real)
    ensures ((a * a - xw * xw - xy * xy - xz * xz + yw * yw + yz * yz + zw * zw - p * p) * (a * a - xw * xw - xy * xy - xz * xz + yw * yw + yz * yz + zw * zw - p * p) + (-2.0 * xy * a - 2.0 * xw * yw - 2.0 * xz * yz - 2.0 * zw * p) * (-2.0 * xy * a - 2.0 * xw * yw - 2.0 * xz * yz - 2.0 * zw * p) + (2.0 * xy * yz - 2.0 * xz * a - 2.0 * xw * zw + 2.0 * yw * p) * (2.0 * xy * yz - 2.0 * xz * a - 2.0 * xw * zw + 2.0 * yw * p) + (2.0 * xy * yw + 2.0 * xz * zw - 2.0 * xw * a - 2.0 * yz * p) * (2.0 * xy * yw + 2.0 * xz * zw - 2.0 * xw * a - 2.0 * yz * p)) * (x * x)
         == ((a * a + yz * yz + xz * xz + xy * xy + xw * xw + yw * yw + zw * zw + p * p) * (a * a + yz * yz + xz * xz + xy * xy + xw * xw + yw * yw + zw * zw + p * p)
         - (2.0 * (a * p - xw * yz - xy * zw + xz * yw)) * (2.0 * (a * p - xw * yz - xy * zw + xz * yw))) * (x * x)
  {
    GramXX(a, yz, xz, xy, xw, yw, zw, p);
  }

  /** Columns `x` and `y` of `M` are orthogonal, so the `xy` term vanishes. */
  lemma ScaledXY(a: real, yz: real, xz: real, xy: real, xw: real, yw: real, zw: real, p: real, x: real, y: real)
    ensures 2.0 * ((a * a - xw * xw - xy * xy - xz * xz + yw * yw + yz * yz + zw * zw - p * p) * (2.0 * xy * a - 2.0 * xw * yw - 2.0 * xz * yz + 2.0 * zw * p) + (-2.0 * xy * a - 2.0 * xw * yw - 2.0 * xz * yz - 2.0 * zw * p) * (a * a + xw * xw - xy * xy + xz * xz - yw * yw - yz * yz + zw * zw - p * p) + (2.0 * xy * yz - 2.0 * xz * a - 2.0 * xw * zw + 2.0 * yw * p) * (-2.0 * yz * a - 2.0 * xw * p - 2.0 * xy * xz - 2.0 * yw * zw) + (2.0 * xy * yw + 2.0 * xz * zw - 2.0 * xw * a - 2.0 * yz * p) * (2.0 * xz * p + 2.0 * yz * zw - 2.0 * xw * xy - 2.0 * yw * a)) * (x * y)
         == 0.0
  {
    GramXY(a, yz, xz, xy, xw, yw, zw, p);
  }

  /** Columns `x` and `z` of `M` are orthogonal, so the `xz` term vanishes. */
  lemma ScaledXZ(a: real, yz: real, xz: real, xy: real, xw: real, yw: real, zw: real, p: real, x: real, z: real)
    ensures 2.0 * ((a * a - xw * xw - xy * xy - xz * xz + yw * yw + yz * yz + zw * zw - p * p) * (2.0 * xz * a - 2.0 * xw * zw + 2.0 * xy * yz - 2.0 * yw * p) + (-2.0 * xy * a - 2.0 * xw * yw - 2.0 * xz * yz - 2.0 * zw * p) * (2.0 * yz * a + 2.0 * xw * p - 2.0 * xy * xz - 2.0 * yw * zw) + (2.0 * xy * yz - 2.0 * xz * a - 2.0 * xw * zw + 2.0 * yw * p) * (a * a + xw * xw + xy * xy - xz * xz + yw * yw - yz * yz - zw * zw - p * p) + (2.0 * xy * yw + 2.0 * xz * zw - 2.0 * xw * a - 2.0 * yz * p) * (-2.0 * xw * xz - 2.0 * xy * p - 2.0 * yw * yz - 2.0 * zw * a)) * (x * z)
         == 0.0
  {
    GramXZ(a, yz, xz, xy, xw, yw, zw, p);
  }

  /** Columns `x` and `w` of `M` are orthogonal, so the `xw` term vanishes. */
  lemma ScaledXW(a: real, yz: real, xz: real, xy: real, xw: real, yw: real, zw: real, p: real, x: real, w: real)
    ensures 2.0 * ((a * a - xw * xw - xy * xy - xz * xz + yw * yw + yz * yz + zw * zw - p * p) * (2.0 * xw * a + 2.0 * xy * yw + 2.0 * xz * zw + 2.0 * yz * p) + (-2.0 * xy * a - 2.0 * xw * yw - 2.0 * xz * yz - 2.0 * zw * p) * (2.0 * yw * a - 2.0 * xw * xy - 2.0 * xz * p + 2.0 * yz * zw) + (2.0 * xy * yz - 2.0 * xz * a - 2.0 * xw * zw + 2.0 * yw * p) * (2.0 * zw * a - 2.0 * xw * xz + 2.0 * xy * p - 2.0 * yw * yz) + (2.0 * xy * yw + 2.0 * xz * zw - 2.0 * xw * a - 2.0 * yz * p) * (a * a - xw * xw + xy * xy + xz * xz - yw * yw + yz * yz - zw * zw - p * p)) * (x * w)
         == 0.0
  {
    GramXW(a, yz, xz, xy, xw, yw, zw, p);
  }

  /** Column `y` of `M`, times `y^2`, has squared length `(|r|^4 - q^2) y^2`. */
  lemma ScaledYY(a: real, yz: real, xz: real, xy: real, xw: real, yw: real, zw: real, p: real, y: real)
    ensures ((2.0 * xy * a - 2.0 * xw * yw - 2.0 * xz * yz + 2.0 * zw * p) * (2.0 * xy * a - 2.0 * xw * yw - 2.0 * xz * yz + 2.0 * zw * p) + (a * a + xw * xw - xy * xy + xz * xz - yw * yw - yz * yz + zw * zw - p * p) * (a * a + xw * xw - xy * xy + xz * xz - yw * yw - yz * yz + zw * zw - p * p) + (-2.0 * yz * a - 2.0 * xw * p - 2.0 * xy * xz - 2.0 * yw * zw) * (-2.0 * yz * a - 2.0 * xw * p - 2.0 * xy * xz - 2.0 * yw * zw) + (2.0 * xz * p + 2.0 * yz * zw - 2.0 * xw * xy - 2.0 * yw * a) * (2.0 * xz * p + 2.0 * yz * zw - 2.0 * xw * xy - 2.0 * yw * a)) * (y * y)
         == ((a * a + yz * yz + xz * xz + xy * xy + xw * xw + yw * yw + zw * zw + p * p) * (a * a + yz * yz + xz * xz + xy * xy + xw * xw + yw * yw + zw * zw + p * p)
         - (2.0 * (a * p - xw * yz - xy * zw + xz * yw)) * (2.0 * (a * p - xw * yz - xy * zw + xz * yw))) * (y * y)
  {
    GramYY(a, yz, xz, xy, xw, yw, zw, p);
  }

  /** Columns `y` and `z` of `M` are orthogonal, so the `yz` term vanishes. */
  lemma ScaledYZ(a: real, yz: real, xz: real, xy: real, xw: real, yw: real, zw: real, p: real, y: real, z: real)
    ensures 2.0 * ((2.0 * xy * a - 2.0 * xw * yw - 2.0 * xz * yz + 2.0 * zw * p) * (2.0 * xz * a - 2.0 * xw * zw + 2.0 * xy * yz - 2.0 * yw * p) + (a * a + xw * xw - xy * xy + xz * xz - yw * yw - yz * yz + zw * zw - p * p) * (2.0 * yz * a + 2.0 * xw * p - 2.0 * xy * xz - 2.0 * yw * zw) + (-2.0 * yz * a - 2.0 * xw * p - 2.0 * xy * xz - 2.0 * yw * zw) * (a * a + xw * xw + xy * xy - xz * xz + yw * yw - yz * yz - zw * zw - p * p) + (2.0 * xz * p + 2.0 * yz * zw - 2.0 * xw * xy - 2.0 * yw * a) * (-2.0 * xw * xz - 2.0 * xy * p - 2.0 * yw * yz - 2.0 * zw * a)) * (y * z)
         == 0.0
  {
    GramYZ(a, yz, xz, xy, xw, yw, zw, p);
  }

  /** Columns `y` and `w` of `M` are orthogonal, so the `yw` term vanishes. */
  lemma ScaledYW(a: real, yz: real, xz: real, xy: real, xw: real, yw: real, zw: real, p: real, y: real, w: real)
    ensures 2.0 * ((2.0 * xy * a - 2.0 * xw * yw - 2.0 * xz * yz + 2.0 * zw * p) * (2.0 * xw * a + 2.0 * xy * yw + 2.0 * xz * zw + 2.0 * yz * p) + (a * a + xw * xw - xy * xy + xz * xz - yw * yw - yz * yz + zw * zw - p * p) * (2.0 * yw * a - 2.0 * xw * xy - 2.0 * xz * p + 2.0 * yz * zw) + (-2.0 * yz * a - 2.0 * xw * p - 2.0 * xy * xz - 2.0 * yw * zw) * (2.0 * zw * a - 2.0 * xw * xz + 2.0 * xy * p - 2.0 * yw * yz) + (2.0 * xz * p + 2.0 * yz * zw - 2.0 * xw * xy - 2.0 * yw * a) * (a * a - xw * xw + xy * xy + xz * xz - yw * yw + yz * yz - zw * zw - p * p)) * (y * w)
         == 0.0
  {
    GramYW(a, yz, xz, xy, xw, yw, zw, p);
  }

  /** Column `z` of `M`, times `z^2`, has squared length `(|r|^4 - q^2) z^2`. */
  lemma ScaledZZ(a: real, yz: real, xz: real, xy: real, xw: real, yw: real, zw: real, p: real, z: real)
    ensures ((2.0 * xz * a - 2.0 * xw * zw + 2.0 * xy * yz - 2.0 * yw * p) * (2.0 * xz * a - 2.0 * xw * zw + 2.0 * xy * yz - 2.0 * yw * p) + (2.0 * yz * a + 2.0 * xw * p - 2.0 * xy * xz - 2.0 * yw * zw) * (2.0 * yz * a + 2.0 * xw * p - 2.0 * xy * xz - 2.0 * yw * zw) + (a * a + xw * xw + xy * xy - xz * xz + yw * yw - yz * yz - zw * zw - p * p) * (a * a + xw * xw + xy * xy - xz * xz + yw * yw - yz * yz - zw * zw - p * p) + (-2.0 * xw * xz - 2.0 * xy * p - 2.0 * yw * yz - 2.0 * zw * a) * (-2.0 * xw * xz - 2.0 * xy * p - 2.0 * yw * yz - 2.0 * zw * a)) * (z * z)
         == ((a * a + yz * yz + xz * xz + xy * xy + xw * xw + yw * yw + zw * zw + p * p) * (a * a + yz * yz + xz * xz + xy * xy + xw * xw + yw * yw + zw * zw + p * p)
         - (2.0 * (a * p - xw * yz - xy * zw + xz * yw)) * (2.0 * (a * p - xw * yz - xy * zw + xz * yw))) * (z * z)
  {
    GramZZ(a, yz, xz, xy, xw, yw, zw, p);
  }

  /** Columns `z` and `w` of `M` are orthogonal, so the `zw` term vanishes. */
  lemma ScaledZW(a: real, yz: real, xz: real, xy: real, xw: real, yw: real, zw: real, p: real, z: real, w: real)
    ensures 2.0 * ((2.0 * xz * a - 2.0 * xw * zw + 2.0 * xy * yz - 2.0 * yw * p) * (2.0 * xw * a + 2.0 * xy * yw + 2.0 * xz * zw + 2.0 * yz * p) + (2.0 * yz * a + 2.0 * xw * p - 2.0 * xy * xz - 2.0 * yw * zw) * (2.0 * yw * a - 2.0 * xw * xy - 2.0 * xz * p + 2.0 * yz * zw) + (a * a + xw * xw + xy * xy - xz * xz + yw * yw - yz * yz - zw * zw - p * p) * (2.0 * zw * a - 2.0 * xw * xz + 2.0 * xy * p - 2.0 * yw * yz) + (-2.0 * xw * xz - 2.0 * xy * p - 2.0 * yw * yz - 2.0 * zw * a) * (a * a - xw * xw + xy * xy + xz * xz - yw * yw + yz * yz - zw * zw - p * p)) * (z * w)
         == 0.0
  {
    GramZW(a, yz, xz, xy, xw, yw, zw, p);
  }

  /** Column `w` of `M`, times `w^2`, has squared length `(|r|^4 - q^2) w^2`. */
  lemma ScaledWW(a: real, yz: real, xz: real, xy: real, xw: real, yw: real, zw: real, p: real, w: real)
    ensures ((2.0 * xw * a + 2.0 * xy * yw + 2.0 * xz * zw + 2.0 * yz * p) * (2.0 * xw * a + 2.0 * xy * yw + 2.0 * xz * zw + 2.0 * yz * p) + (2.0 * yw * a - 2.0 * xw * xy - 2.0 * xz * p + 2.0 * yz * zw) * (2.0 * yw * a - 2.0 * xw * xy - 2.0 * xz * p + 2.0 * yz * zw) + (2.0 * zw * a - 2.0 * xw * xz + 2.0 * xy * p - 2.0 * yw * yz) * (2.0 * zw * a - 2.0 * xw * xz + 2.0 * xy * p - 2.0 * yw * yz) + (a * a - xw * xw + xy * xy + xz * xz - yw * yw + yz * yz - zw * zw - p * p) * (a * a - xw * xw + xy * xy + xz * xz - yw * yw + yz * yz - zw * zw - p * p)) * (w * w)
         == ((a * a + yz * yz + xz * xz + xy * xy + xw * xw + yw * yw + zw * zw + p * p) * (a * a + yz * yz + xz * xz + xy * xy + xw * xw + yw * yw + zw * zw + p * p)
         - (2.0 * (a * p - xw * yz - xy * zw + xz * yw)) * (2.0 * (a * p - xw * yz - xy * zw + xz * yw))) * (w * w)
  {
    GramWW(a, yz, xz, xy, xw, yw, zw, p);
  }

  /** Column `x` of `M` has squared length `|r|^4 - q^2`. */
  lemma GramXX(a: real, yz: real, xz: real, xy: real, xw: real, yw: real, zw: real, p: real)
    ensures (a * a - xw * xw - xy * xy - xz * xz + yw * yw + yz * yz + zw * zw - p * p) * (a * a - xw * xw - xy * xy - xz * xz + yw * yw + yz * yz + zw * zw - p * p)
       + (-2.0 * xy * a - 2.0 * xw * yw - 2.0 * xz * yz - 2.0 * zw * p) * (-2.0 * xy * a - 2.0 * xw * yw - 2.0 * xz * yz - 2.0 * zw * p)
       + (2.0 * xy * yz - 2.0 * xz * a - 2.0 * xw * zw + 2.0 * yw * p) * (2.0 * xy * yz - 2.0 * xz * a - 2.0 * xw * zw + 2.0 * yw * p)
       + (2.0 * xy * yw + 2.0 * xz * zw - 2.0 * xw * a - 2.0 * yz * p) * (2.0 * xy * yw + 2.0 * xz * zw - 2.0 * xw * a - 2.0 * yz * p)
       == (a * a + yz * yz + xz * xz + xy * xy + xw * xw + yw * yw + zw * zw + p * p) * (a * a + yz * yz + xz * xz + xy * xy + xw * xw + yw * yw + zw * zw + p * p)
         - (2.0 * (a * p - xw * yz - xy * zw + xz * yw)) * (2.0 * (a * p - xw * yz - xy * zw + xz * yw))
  {
  }

  /** Columns `x` and `y` of `M` are orthogonal. */
  lemma GramXY(a: real, yz: real, xz: real, xy: real, xw: real, yw: real, zw: real, p: real)
    ensures (a * a - xw * xw - xy * xy - xz * xz + yw * yw + yz * yz + zw * zw - p * p) * (2.0 * xy * a - 2.0 * xw * yw - 2.0 * xz * yz + 2.0 * zw * p)
       + (-2.0 * xy * a - 2.0 * xw * yw - 2.0 * xz * yz - 2.0 * zw * p) * (a * a + xw * xw - xy * xy + xz * xz - yw * yw - yz * yz + zw * zw - p * p)
       + (2.0 * xy * yz - 2.0 * xz * a - 2.0 * xw * zw + 2.0 * yw * p) * (-2.0 * yz * a - 2.0 * xw * p - 2.0 * xy * xz - 2.0 * yw * zw)
       + (2.0 * xy * yw + 2.0 * xz * zw - 2.0 * xw * a - 2.0 * yz * p) * (2.0 * xz * p + 2.0 * yz * zw - 2.0 * xw * xy - 2.0 * yw * a)
       == 0.0
  {
  }

  /** Columns `x` and `z` of `M` are orthogonal. */
  lemma GramXZ(a: real, yz: real, xz: real, xy: real, xw: real, yw: real, zw: real, p: real)
    ensures (a * a - xw * xw - xy * xy - xz * xz + yw * yw + yz * yz + zw * zw - p * p) * (2.0 * xz * a - 2.0 * xw * zw + 2.0 * xy * yz - 2.0 * yw * p)
       + (-2.0 * xy * a - 2.0 * xw * yw - 2.0 * xz * yz - 2.0 * zw * p) * (2.0 * yz * a + 2.0 * xw * p - 2.0 * xy * xz - 2.0 * yw * zw)
       + (2.0 * xy * yz - 2.0 * xz * a - 2.0 * xw * zw + 2.0 * yw * p) * (a * a + xw * xw + xy * xy - xz * xz + yw * yw - yz * yz - zw * zw - p * p)
       + (2.0 * xy * yw + 2.0 * xz * zw - 2.0 * xw * a - 2.0 * yz * p) * (-2.0 * xw * xz - 2.0 * xy * p - 2.0 * yw * yz - 2.0 * zw * a)
       == 0.0
  {
  }

  /** Columns `x` and `w` of `M` are orthogonal. */
  lemma GramXW(a: real, yz: real, xz: real, xy: real, xw: real, yw: real, zw: real, p: real)
    ensures (a * a - xw * xw - xy * xy - xz * xz + yw * yw + yz * yz + zw * zw - p * p) * (2.0 * xw * a + 2.0 * xy * yw + 2.0 * xz * zw + 2.0 * yz * p)
       + (-2.0 * xy * a - 2.0 * xw * yw - 2.0 * xz * yz - 2.0 * zw * p) * (2.0 * yw * a - 2.0 * xw * xy - 2.0 * xz * p + 2.0 * yz * zw)
       + (2.0 * xy * yz - 2.0 * xz * a - 2.0 * xw * zw + 2.0 * yw * p) * (2.0 * zw * a - 2.0 * xw * xz + 2.0 * xy * p - 2.0 * yw * yz)
       + (2.0 * xy * yw + 2.0 * xz * zw - 2.0 * xw * a - 2.0 * yz * p) * (a * a - xw * xw + xy * xy + xz * xz - yw * yw + yz * yz - zw * zw - p * p)
       == 0.0
  {
  }

  /** Column `y` of `M` has squared length `|r|^4 - q^2`. */
  lemma GramYY(a: real, yz: real, xz: real, xy: real, xw: real, yw: real, zw: real, p: real)
    ensures (2.0 * xy * a - 2.0 * xw * yw - 2.0 * xz * yz + 2.0 * zw * p) * (2.0 * xy * a - 2.0 * xw * yw - 2.0 * xz * yz + 2.0 * zw * p)
       + (a * a + xw * xw - xy * xy + xz * xz - yw * yw - yz * yz + zw * zw - p * p) * (a * a + xw * xw - xy * xy + xz * xz - yw * yw - yz * yz + zw * zw - p * p)
       + (-2.0 * yz * a - 2.0 * xw * p - 2.0 * xy * xz - 2.0 * yw * zw) * (-2.0 * yz * a - 2.0 * xw * p - 2.0 * xy * xz - 2.0 * yw * zw)
       + (2.0 * xz * p + 2.0 * yz * zw - 2.0 * xw * xy - 2.0 * yw * a) * (2.0 * xz * p + 2.0 * yz * zw - 2.0 * xw * xy - 2.0 * yw * a)
       == (a * a + yz * yz + xz * xz + xy * xy + xw * xw + yw * yw + zw * zw + p * p) * (a * a + yz * yz + xz * xz + xy * xy + xw * xw + yw * yw + zw * zw + p * p)
         - (2.0 * (a * p - xw * yz - xy * zw + xz * yw)) * (2.0 * (a * p - xw * yz - xy * zw + xz * yw))
  {
  }

  /** Columns `y` and `z` of `M` are orthogonal. */
  lemma GramYZ(a: real, yz: real, xz: real, xy: real, xw: real, yw: real, zw: real, p: real)
    ensures (2.0 * xy * a - 2.0 * xw * yw - 2.0 * xz * yz + 2.0 * zw * p) * (2.0 * xz * a - 2.0 * xw * zw + 2.0 * xy * yz - 2.0 * yw * p)
       + (a * a + xw * xw - xy * xy + xz * xz - yw * yw - yz * yz + zw * zw - p * p) * (2.0 * yz * a + 2.0 * xw * p - 2.0 * xy * xz - 2.0 * yw * zw)
       + (-2.0 * yz * a - 2.0 * xw * p - 2.0 * xy * xz - 2.0 * yw * zw) * (a * a + xw * xw + xy * xy - xz * xz + yw * yw - yz * yz - zw * zw - p * p)
       + (2.0 * xz * p + 2.0 * yz * zw - 2.0 * xw * xy - 2.0 * yw * a) * (-2.0 * xw * xz - 2.0 * xy * p - 2.0 * yw * yz - 2.0 * zw * a)
       == 0.0
  {
  }

  /** Columns `y` and `w` of `M` are orthogonal. */
  lemma GramYW(a: real, yz: real, xz: real, xy: real, xw: real, yw: real, zw: real, p: real)
    ensures (2.0 * xy * a - 2.0 * xw * yw - 2.0 * xz * yz + 2.0 * zw * p) * (2.0 * xw * a + 2.0 * xy * yw + 2.0 * xz * zw + 2.0 * yz * p)
       + (a * a + xw * xw - xy * xy + xz * xz - yw * yw - yz * yz + zw * zw - p * p) * (2.0 * yw * a - 2.0 * xw * xy - 2.0 * xz * p + 2.0 * yz * zw)
       + (-2.0 * yz * a - 2.0 * xw * p - 2.0 * xy * xz - 2.0 * yw * zw) * (2.0 * zw * a - 2.0 * xw * xz + 2.0 * xy * p - 2.0 * yw * yz)
       + (2.0 * xz * p + 2.0 * yz * zw - 2.0 * xw * xy - 2.0 * yw * a) * (a * a - xw * xw + xy * xy + xz * xz - yw * yw + yz * yz - zw * zw - p * p)
       == 0.0
  {
  }

  /** Column `z` of `M` has squared length `|r|^4 - q^2`. */
  lemma GramZZ(a: real, yz: real, xz: real, xy: real, xw: real, yw: real, zw: real, p: real)
    ensures (2.0 * xz * a - 2.0 * xw * zw + 2.0 * xy * yz - 2.0 * yw * p) * (2.0 * xz * a - 2.0 * xw * zw + 2.0 * xy * yz - 2.0 * yw * p)
       + (2.0 * yz * a + 2.0 * xw * p - 2.0 * xy * xz - 2.0 * yw * zw) * (2.0 * yz * a + 2.0 * xw * p - 2.0 * xy * xz - 2.0 * yw * zw)
       + (a * a + xw * xw + xy * xy - xz * xz + yw * yw - yz * yz - zw * zw - p * p) * (a * a + xw * xw + xy * xy - xz * xz + yw * yw - yz * yz - zw * zw - p * p)
       + (-2.0 * xw * xz - 2.0 * xy * p - 2.0 * yw * yz - 2.0 * zw * a) * (-2.0 * xw * xz - 2.0 * xy * p - 2.0 * yw * yz - 2.0 * zw * a)
       == (a * a + yz * yz + xz * xz + xy * xy + xw * xw + yw * yw + zw * zw + p * p) * (a * a + yz * yz + xz * xz + xy * xy + xw * xw + yw * yw + zw * zw + p * p)
         - (2.0 * (a * p - xw * yz - xy * zw + xz * yw)) * (2.0 * (a * p - xw * yz - xy * zw + xz * yw))
  {
  }

  /** Columns `z` and `w` of `M` are orthogonal. */
  lemma GramZW(a: real, yz: real, xz: real, xy: real, xw: real, yw: real, zw: real, p: real)
    ensures (2.0 * xz * a - 2.0 * xw * zw + 2.0 * xy * yz - 2.0 * yw * p) * (2.0 * xw * a + 2.0 * xy * yw + 2.0 * xz * zw + 2.0 * yz * p)
       + (2.0 * yz * a + 2.0 * xw * p - 2.0 * xy * xz - 2.0 * yw * zw) * (2.0 * yw * a - 2.0 * xw * xy - 2.0 * xz * p + 2.0 * yz * zw)
       + (a * a + xw * xw + xy * xy - xz * xz + yw * yw - yz * yz - zw * zw - p * p) * (2.0 * zw * a - 2.0 * xw * xz + 2.0 * xy * p - 2.0 * yw * yz)
       + (-2.0 * xw * xz - 2.0 * xy * p - 2.0 * yw * yz - 2.0 * zw * a) * (a * a - xw * xw + xy * xy + xz * xz - yw * yw + yz * yz - zw * zw - p * p)
       == 0.0
  {
  }

  /** Column `w` of `M` has squared length `|r|^4 - q^2`. */
  lemma GramWW(a: real, yz: real, xz: real, xy: real, xw: real, yw: real, zw: real, p: real)
    ensures (2.0 * xw * a + 2.0 * xy * yw + 2.0 * xz * zw + 2.0 * yz * p) * (2.0 * xw * a + 2.0 * xy * yw + 2.0 * xz * zw + 2.0 * yz * p)
       + (2.0 * yw * a - 2.0 * xw * xy - 2.0 * xz * p + 2.0 * yz * zw) * (2.0 * yw * a - 2.0 * xw * xy - 2.0 * xz * p + 2.0 * yz * zw)
       + (2.0 * zw * a - 2.0 * xw * xz + 2.0 * xy * p - 2.0 * yw * yz) * (2.0 * zw * a - 2.0 * xw * xz + 2.0 * xy * p - 2.0 * yw * yz)
       + (a * a - xw * xw + xy * xy + xz * xz - yw * yw + yz * yz - zw * zw - p * p) * (a * a - xw * xw + xy * xy + xz * xz - yw * yw + yz * yz - zw * zw - p * p)
       == (a * a + yz * yz + xz * xz + xy * xy + xw * xw + yw * yw + zw * zw + p * p) * (a * a + yz * yz + xz * xz + xy * xy + xw * xw + yw * yw + zw * zw + p * p)
         - (2.0 * (a * p - xw * yz - xy * zw + xz * yw)) * (2.0 * (a * p - xw * yz - xy * zw + xz * yw))
  {
  }

  /** A common factor of four terms comes out of their sum. */
  lemma Factor4(n: real, xx: real, yy: real, zz: real, ww: real)
    ensures n * xx + n * yy + n * zz + n * ww == n * (xx + yy + zz + ww)
  {
  }
}
