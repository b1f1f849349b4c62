/**
 * The interpolation weights of `slerp`, shared by the 3D and the 4D rotor:
 * spherical weights `sin((1 - t)·ω) / sin ω` and `sin(t·ω) / sin ω`, or the
 * linear weights `1 - t` and `t` when the rotors are too close for the
 * division, with the second weight negated when the cosine was negative.
 */
module Interpolation {
  import opened Elementary

  /** The closeness threshold below which `slerp` falls back to linear weights. */
  const Epsilon: real := 0.000001

  /** The two weights, and whether the cosine was flipped to its absolute value. */
  datatype Weights = Weights(s1: real, s2: real, flip: bool)

  /**
   * The weights for the cosine `cosOmega` of the angle between the two
   * rotors and the ratio `t`. `flip` records a negative cosine; the
   * spherical branch is taken only for a cosine magnitude of at most
   * `1 - Epsilon`, where `sin(acos(c))` is not zero.
   */
  function SlerpWeights(m: Functions, cosOmega: real, t: real): (w: Weights)
    requires Lawful(m)
    ensures w.flip <==> cosOmega < 0.0
  {
    var flip := cosOmega < 0.0;
    var c := if flip then -cosOmega else cosOmega;
    if c > 1.0 - Epsilon then
      Weights(1.0 - t, if flip then -t else t, flip)
    else
      var s := Spherical(m, c, t);
      Weights(s.0, if flip then -s.1 else s.1, flip)
  }

  /**
   * The spherical weights for a non-negative cosine `c` of at most
   * `1 - Epsilon`: with `ω = acos(c)`, multiplying them by `sin ω` gives
   * back `sin((1 - t)·ω)` and `sin(t·ω)`.
   */
  function Spherical(m: Functions, c: real, t: real): (s: (real, real))
    requires Lawful(m)
    requires 0.0 <= c <= 1.0 - Epsilon
    ensures s.0 * Sin(m, Acos(m, c)) == Sin(m, (1.0 - t) * Acos(m, c))
    ensures s.1 * Sin(m, Acos(m, c)) == Sin(m, t * Acos(m, c))
  {
    SinOfAcosNonzero(m, c);
    Divide(Sin(m, (1.0 - t) * Acos(m, c)), Sin(m, t * Acos(m, c)), Sin(m, Acos(m, c)))
  }

  /** Both numerators divided by the non-zero `b`. */
  function Divide(a1: real, a2: real, b: real): (s: (real, real))
    requires b != 0.0
    ensures s.0 * b == a1 && s.1 * b == a2
  {
    var inv := 1.0 / b;
    Cancel(a1, b);
    Cancel(a2, b);
    (a1 * inv, a2 * inv)
  }

  /** Multiplying by the inverse of a non-zero `b` and then by `b` gives back `a`. */
  lemma Cancel(a: real, b: real)
    requires b != 0.0
    ensures a * (1.0 / b) * b == a
  {
  }

  /** Close rotors with a positive cosine get the linear weights `1 - t` and `t`, unflipped. */
  lemma WeightsLinear(m: Functions, cosOmega: real, t: real)
    requires Lawful(m)
    requires 1.0 - Epsilon < cosOmega
    ensures SlerpWeights(m, cosOmega, t) == Weights(1.0 - t, t, false)
  {
  }

  /** A non-negative cosine of at most `1 - Epsilon` gets the spherical weights, unflipped. */
  lemma WeightsSpherical(m: Functions, cosOmega: real, t: real)
    requires Lawful(m)
    requires 0.0 <= cosOmega <= 1.0 - Epsilon
    ensures SlerpWeights(m, cosOmega, t) == Weights(Spherical(m, cosOmega, t).0, Spherical(m, cosOmega, t).1, false)
  {
  }

  /**
   * Negating a positive cosine keeps the first weight and negates the
   * second: `slerp` takes the shorter way round by flipping the sign.
   */
  lemma WeightsFlip(m: Functions, c: real, t: real)
    requires Lawful(m)
    requires 0.0 < c
    ensures SlerpWeights(m, -c, t) == Weights(SlerpWeights(m, c, t).s1, -SlerpWeights(m, c, t).s2, true)
  {
    assert -(-c) == c;
  }

  /** For a non-negative cosine, running the ratio backwards swaps the two weights. */
  lemma WeightsSymmetric(m: Functions, c: real, t: real)
    requires Lawful(m)
    requires 0.0 <= c
    ensures SlerpWeights(m, c, 1.0 - t) == Weights(SlerpWeights(m, c, t).s2, SlerpWeights(m, c, t).s1, false)
  {
    if c <= 1.0 - Epsilon {
      assert (1.0 - (1.0 - t)) * Acos(m, c) == t * Acos(m, c);
    }
  }

  /** At `t == 0` all weight is on the first rotor. */
  lemma WeightsAtStart(m: Functions, cosOmega: real)
    requires Lawful(m)
    ensures SlerpWeights(m, cosOmega, 0.0).s1 == 1.0
    ensures SlerpWeights(m, cosOmega, 0.0).s2 == 0.0
  {
    var c := if cosOmega < 0.0 then -cosOmega else cosOmega;
    if c <= 1.0 - Epsilon {
      var omega := Acos(m, c);
      SinOfAcosNonzero(m, c);
      assert (1.0 - 0.0) * omega == omega;
      assert 0.0 * omega == 0.0;
    }
  }

  /**
   * At `t == 1` all weight is on the second rotor, with weight `-1` exactly
   * when the cosine was negative.
   */
  lemma WeightsAtEnd(m: Functions, cosOmega: real)
    requires Lawful(m)
    ensures SlerpWeights(m, cosOmega, 1.0).s1 == 0.0
    ensures SlerpWeights(m, cosOmega, 1.0).s2 == if cosOmega < 0.0 then -1.0 else 1.0
  {
    var c := if cosOmega < 0.0 then -cosOmega else cosOmega;
    if c <= 1.0 - Epsilon {
      var omega := Acos(m, c);
      SinOfAcosNonzero(m, c);
      assert (1.0 - 1.0) * omega == 0.0;
      assert 1.0 * omega == omega;
    }
  }
}
