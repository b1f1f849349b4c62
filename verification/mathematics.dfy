/** The scalar helper `clamp`. */
module Mathematics {

  /**
   * `clamp(x, min, max)`: `min` below `min`, else `max` above `max`, else `x`.
   * The lower bound is tested first, so it wins when `min > max`.
   */
  function Clamp(x: real, min: real, max: real): real {
    if x < min then min else if x > max then max else x
  }

  /**
   * For `min <= max` the result lies in [min, max]; in any case `clamp`
   * returns `x` exactly when `x` lies in [min, max].
   */
  lemma ClampRange(x: real, min: real, max: real)
    ensures min <= max ==> min <= Clamp(x, min, max) <= max
    ensures Clamp(x, min, max) == x <==> min <= x <= max
  {
  }

  /** For `min <= max`, clamping twice is clamping once. */
  lemma ClampIdempotent(x: real, min: real, max: real)
    requires min <= max
    ensures Clamp(Clamp(x, min, max), min, max) == Clamp(x, min, max)
  {
  }

  /** For `min <= max`, `clamp` is monotone in `x`. */
  lemma ClampMonotone(x: real, y: real, min: real, max: real)
    requires min <= max
    requires x <= y
    ensures Clamp(x, min, max) <= Clamp(y, min, max)
  {
  }

  /**
   * With `min > max` the lower bound wins below `min`, and everything else
   * is sent to `max`: the result is never `x`.
   */
  lemma ClampCrossedBounds(x: real, min: real, max: real)
    requires max < min
    ensures x < min ==> Clamp(x, min, max) == min
    ensures min <= x ==> Clamp(x, min, max) == max
  {
  }
}
