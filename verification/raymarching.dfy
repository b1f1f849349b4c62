/**
 * The sphere-tracing kernel: `raymarch` walks along a ray, advancing by the
 * distance field's value at each sample point, for at most `MaxSteps`
 * samples; `normal3` and `normal4` estimate a surface normal from finite
 * differences of the distance field.
 *
 * `raymarch` is generic over the vector type. Here the vector type is a type
 * parameter and its two operations the kernel uses, `ro + rd * d`, are
 * passed in as `add` and `scale`. The distance field is a total function.
 */
module Raymarching {
  import opened Elementary
  import Multivectors
  import Floats3
  import Floats4

  /** The distance beyond which a ray counts as a miss. */
  const MaxDist: real := 100.0
  /** The number of samples after which the march gives up. */
  const MaxSteps: nat := 100
  /** A sample closer to the surface than this counts as a hit. */
  const SurfDist: real := 0.001
  /** The finite-difference offset of the normal estimate. */
  const Epsilon: real := 0.01

  /** The loop's exit test, on the sample just taken and the distance after stepping by it. */
  predicate Stops(sample: real, next: real) {
    sample < SurfDist || next > MaxDist
  }

  /**
   * The distance field seen along the ray: its value at the point `ro + rd * d`.
   */
  function Along<V>(ro: V, rd: V, add: (V, V) -> V, scale: (V, real) -> V, df: V -> real): real -> real {
    d => df(add(ro, scale(rd, d)))
  }

  /**
   * The march as the loop performs it, starting at distance `d` with `n`
   * samples left: sample, step, and stop on the exit test or when no sample
   * is left.
   */
  function March(f: real -> real, d: real, n: nat): real
    decreases n
  {
    if n == 0 then
      d
    else
      var next := d + f(d);
      if Stops(f(d), next) then next else March(f, next, n - 1)
  }

  /**
   * The samples the march takes, in order: the independent reference the
   * loop is compared against. It has at most `n` samples, and at least one
   * when `n` is positive.
   */
  function Trace(f: real -> real, d: real, n: nat): (samples: seq<real>)
    ensures |samples| <= n
    ensures 0 < n ==> 0 < |samples|
    decreases n
  {
    if n == 0 then
      []
    else if Stops(f(d), d + f(d)) then
      [f(d)]
    else
      [f(d)] + Trace(f, d + f(d), n - 1)
  }

  function Sum(s: seq<real>): real {
    if |s| == 0 then 0.0 else s[0] + Sum(s[1..])
  }

  /**
   * `raymarch(ro, rd, distance_function)`: the distance travelled along the
   * ray when the loop ends. It is the march from distance 0 with
   * `MaxSteps` samples, that is the sum of the samples taken; and when the
   * loop ends before the last step, the last sample met the exit test.
   */
  method Raymarch<V>(ro: V, rd: V, add: (V, V) -> V, scale: (V, real) -> V, df: V -> real)
    returns (dOrigin: real)
    ensures dOrigin == March(Along(ro, rd, add, scale, df), 0.0, MaxSteps)
    ensures dOrigin == Sum(Trace(Along(ro, rd, add, scale, df), 0.0, MaxSteps))
    ensures var samples := Trace(Along(ro, rd, add, scale, df), 0.0, MaxSteps);
      |samples| < MaxSteps ==> Stops(samples[|samples| - 1], dOrigin)
  {
    var f := Along(ro, rd, add, scale, df);
    MarchIsSum(f, 0.0, MaxSteps);
    EarlyExit(f, 0.0, MaxSteps);
    dOrigin := 0.0;
    var i := 0;
    while i < MaxSteps
      invariant 0 <= i <= MaxSteps
      invariant March(f, dOrigin, MaxSteps - i) == March(f, 0.0, MaxSteps)
    {
      var p := add(ro, scale(rd, dOrigin));
      var dSurface := df(p);
      dOrigin := dOrigin + dSurface;
      if dSurface < SurfDist || dOrigin > MaxDist {
        return;
      }
      i := i + 1;
    }
  }

  /** The march ends at its starting distance plus the sum of the samples it takes. */
  lemma {:induction false} MarchIsSum(f: real -> real, d: real, n: nat)
    ensures March(f, d, n) == d + Sum(Trace(f, d, n))
    decreases n
  {
    if n > 0 && !Stops(f(d), d + f(d)) {
      var rest := Trace(f, d + f(d), n - 1);
      MarchIsSum(f, d + f(d), n - 1);
      assert ([f(d)] + rest)[1..] == rest;
    }
  }

  /**
   * Each sample is the distance field at the distance reached so far: the
   * start plus the samples before it.
   */
  lemma {:induction false} SampleAtRunningSum(f: real -> real, d: real, n: nat, i: nat)
    requires i < |Trace(f, d, n)|
    ensures Trace(f, d, n)[i] == f(d + Sum(Trace(f, d, n)[..i]))
    decreases n
  {
    var samples := Trace(f, d, n);
    if i > 0 {
      var rest := Trace(f, d + f(d), n - 1);
      assert samples == [f(d)] + rest;
      SampleAtRunningSum(f, d + f(d), n - 1, i - 1);
      assert samples[..i] == [f(d)] + rest[..i - 1];
      assert samples[..i][1..] == rest[..i - 1];
    }
  }

  /**
   * No sample but the last meets the exit test: the march goes on while the
   * samples are at least `SurfDist` and the distance stays within `MaxDist`.
   */
  lemma {:induction false} NoEarlyStop(f: real -> real, d: real, n: nat, i: nat)
    requires i + 1 < |Trace(f, d, n)|
    ensures var samples := Trace(f, d, n);
      !Stops(samples[i], d + Sum(samples[..i + 1]))
    decreases n
  {
    var samples := Trace(f, d, n);
    var rest := Trace(f, d + f(d), n - 1);
    assert samples == [f(d)] + rest;
    if i == 0 {
      assert samples[..1] == [f(d)];
      assert samples[..1][1..] == [];
    } else {
      NoEarlyStop(f, d + f(d), n - 1, i - 1);
      assert samples[..i + 1] == [f(d)] + rest[..i];
      assert samples[..i + 1][1..] == rest[..i];
    }
  }

  /**
   * A march that takes fewer samples than it was allowed stopped on the exit
   * test: its last sample is below `SurfDist` or its distance beyond `MaxDist`.
   */
  lemma {:induction false} EarlyExit(f: real -> real, d: real, n: nat)
    ensures var samples := Trace(f, d, n);
      |samples| < n ==> Stops(samples[|samples| - 1], March(f, d, n))
    decreases n
  {
    if n > 0 && !Stops(f(d), d + f(d)) {
      var rest := Trace(f, d + f(d), n - 1);
      EarlyExit(f, d + f(d), n - 1);
      if |rest| < n - 1 {
        assert ([f(d)] + rest)[|rest|] == rest[|rest| - 1];
      }
    }
  }

  /**
   * Escape: when the field is at least `s >= SurfDist` everywhere beyond the
   * start, the march either leaves `MaxDist` (a miss) or advances at least
   * `s` per sample.
   */
  lemma {:induction false} Escapes(f: real -> real, d: real, n: nat, s: real)
    requires SurfDist <= s
    requires forall t: real :: d <= t ==> s <= f(t)
    ensures March(f, d, n) > MaxDist || March(f, d, n) >= d + (n as real) * s
    decreases n
  {
    if n > 0 && !Stops(f(d), d + f(d)) {
      Escapes(f, d + f(d), n - 1, s);
    }
  }

  /**
   * `normal3(p, distance_function)`: the difference between the field at `p`
   * and at `p` moved back by `Epsilon` along each axis, normalized unless it
   * is zero.
   */
  function Normal3(m: Functions, p: Floats3.Float3, df: Floats3.Float3 -> real): Floats3.Float3 {
    GuardedNormalized3(m, Gradient3(p, df))
  }

  /** The difference vector `normal3` normalizes (the source's `f32 - Float3`). */
  function Gradient3(p: Floats3.Float3, df: Floats3.Float3 -> real): Floats3.Float3 {
    Floats3.ScalarSub(df(p), Floats3.Float3(
      df(Floats3.Sub(p, Floats3.Float3(Epsilon, 0.0, 0.0))),
      df(Floats3.Sub(p, Floats3.Float3(0.0, Epsilon, 0.0))),
      df(Floats3.Sub(p, Floats3.Float3(0.0, 0.0, Epsilon)))))
  }

  /** The last step of `normal3`: a zero squared length returns `n` as it is. */
  function GuardedNormalized3(m: Functions, n: Floats3.Float3): Floats3.Float3 {
    if Floats3.LengthSquared(n) == 0.0 then n else Floats3.Normalized(m, n)
  }

  /** `normal4(p, distance_function)`, the same estimate in four dimensions. */
  function Normal4(m: Functions, p: Floats4.Float4, df: Floats4.Float4 -> real): Floats4.Float4 {
    GuardedNormalized4(m, Gradient4(p, df))
  }

  /**
   * The difference vector `normal4` normalizes. `float4.rs` defines no
   * `f32 - Float4` operator; it is taken here component-wise, like the 3D one.
   */
  function Gradient4(p: Floats4.Float4, df: Floats4.Float4 -> real): Floats4.Float4 {
    var s := df(p);
    Floats4.Float4(
      s - df(Floats4.Sub(p, Floats4.Float4(Epsilon, 0.0, 0.0, 0.0))),
      s - df(Floats4.Sub(p, Floats4.Float4(0.0, Epsilon, 0.0, 0.0))),
      s - df(Floats4.Sub(p, Floats4.Float4(0.0, 0.0, Epsilon, 0.0))),
      s - df(Floats4.Sub(p, Floats4.Float4(0.0, 0.0, 0.0, Epsilon))))
  }

  /** The last step of `normal4`: a zero squared length returns `n` as it is. */
  function GuardedNormalized4(m: Functions, n: Floats4.Float4): Floats4.Float4 {
    if Floats4.LengthSquared(n) == 0.0 then n else Floats4.Normalized(m, n)
  }

  /** The guarded normalization gives the zero vector exactly for the zero vector. */
  lemma GuardedZero3(m: Functions, n: Floats3.Float3)
    requires Lawful(m)
    ensures GuardedNormalized3(m, n) == Floats3.Zero <==> n == Floats3.Zero
  {
    if Floats3.LengthSquared(n) == 0.0 {
      SquaresVanish(n.x, n.y, n.z, 0.0);
    } else {
      Floats3.NormalizedIsUnit(m, n);
    }
  }

  /**
   * For a nonzero vector the guarded normalization is the vector divided by
   * its length, of unit length.
   */
  lemma GuardedUnit3(m: Functions, n: Floats3.Float3)
    requires Lawful(m)
    requires n != Floats3.Zero
    ensures Floats3.LengthSquared(GuardedNormalized3(m, n)) == 1.0
    ensures GuardedNormalized3(m, n) == Floats3.Normalized(m, n)
  {
    if Floats3.LengthSquared(n) == 0.0 {
      SquaresVanish(n.x, n.y, n.z, 0.0);
    } else {
      Floats3.NormalizedIsUnit(m, n);
    }
  }

  /** The guarded normalization gives the zero vector exactly for the zero vector. */
  lemma GuardedZero4(m: Functions, n: Floats4.Float4)
    requires Lawful(m)
    ensures GuardedNormalized4(m, n) == Floats4.Zero <==> n == Floats4.Zero
  {
    if Floats4.LengthSquared(n) == 0.0 {
      SquaresVanish(n.x, n.y, n.z, n.w);
    } else {
      Floats4.NormalizedIsUnit(m, n);
    }
  }

  /**
   * For a nonzero vector the guarded normalization is the vector divided by
   * its length, of unit length.
   */
  lemma GuardedUnit4(m: Functions, n: Floats4.Float4)
    requires Lawful(m)
    requires n != Floats4.Zero
    ensures Floats4.LengthSquared(GuardedNormalized4(m, n)) == 1.0
    ensures GuardedNormalized4(m, n) == Floats4.Normalized(m, n)
  {
    if Floats4.LengthSquared(n) == 0.0 {
      SquaresVanish(n.x, n.y, n.z, n.w);
    } else {
      Floats4.NormalizedIsUnit(m, n);
    }
  }

  /** A linear distance field: the signed distance to a plane with normal direction `dir`. */
  function Linear3(dir: Floats3.Float3, k: real): Floats3.Float3 -> real {
    q => Floats3.Dot(q, dir) + k
  }

  /** On a linear field the difference vector is `Epsilon` times the field's direction. */
  lemma LinearGradient3(p: Floats3.Float3, dir: Floats3.Float3, k: real)
    ensures Gradient3(p, Linear3(dir, k)) == Floats3.ScalarScale(Epsilon, dir)
  {
  }

  /**
   * On a linear field the estimated normal is the field's direction,
   * normalized, at every point: the finite difference is exact there.
   */
  lemma LinearNormal3(m: Functions, p: Floats3.Float3, dir: Floats3.Float3, k: real)
    requires Lawful(m)
    ensures Normal3(m, p, Linear3(dir, k)) == GuardedNormalized3(m, dir)
  {
    LinearGradient3(p, dir, k);
    Floats3.NormalizedOfScaled(m, dir, Epsilon);
    Floats3.ScaledLengthSquared(dir, Epsilon);
  }

  /** The field `q.x + k`, whose zero set is the plane `x == -k`, has normal `(1, 0, 0)` everywhere. */
  lemma PlaneNormal3(m: Functions, p: Floats3.Float3, k: real)
    requires Lawful(m)
    ensures Normal3(m, p, Linear3(Floats3.Float3(1.0, 0.0, 0.0), k)) == Floats3.Float3(1.0, 0.0, 0.0)
  {
    LinearNormal3(m, p, Floats3.Float3(1.0, 0.0, 0.0), k);
    Multivectors.LengthOfOne(m);
  }

  /** A linear distance field in four dimensions. */
  function Linear4(dir: Floats4.Float4, k: real): Floats4.Float4 -> real {
    q => Floats4.Dot(q, dir) + k
  }

  /** On a linear field the difference vector is `Epsilon` times the field's direction. */
  lemma LinearGradient4(p: Floats4.Float4, dir: Floats4.Float4, k: real)
    ensures Gradient4(p, Linear4(dir, k)) == Floats4.ScalarScale(Epsilon, dir)
  {
  }

  /** On a linear field the estimated 4D normal is the field's direction, normalized. */
  lemma LinearNormal4(m: Functions, p: Floats4.Float4, dir: Floats4.Float4, k: real)
    requires Lawful(m)
    ensures Normal4(m, p, Linear4(dir, k)) == GuardedNormalized4(m, dir)
  {
    LinearGradient4(p, dir, k);
    Floats4.NormalizedOfScaled(m, dir, Epsilon);
    Floats4.ScaledLengthSquared(dir, Epsilon);
  }

  /** The field `q.w + k` has normal `(0, 0, 0, 1)` everywhere. */
  lemma PlaneNormal4(m: Functions, p: Floats4.Float4, k: real)
    requires Lawful(m)
    ensures Normal4(m, p, Linear4(Floats4.Float4(0.0, 0.0, 0.0, 1.0), k)) == Floats4.Float4(0.0, 0.0, 0.0, 1.0)
  {
    LinearNormal4(m, p, Floats4.Float4(0.0, 0.0, 0.0, 1.0), k);
    Multivectors.LengthOfOne(m);
  }
}
