/**
 * Two marches toward the unit sphere at the origin, starting from (0, 0, 2):
 * straight at it, which hits the surface after travelling exactly 1, and
 * along the y axis, past it, which leaves `MaxDist` behind.
 */
module RaymarchingExamples {
  import opened Elementary
  import Floats3
  import DistanceFunctions
  import opened Raymarching

  const Origin: Floats3.Float3 := Floats3.Float3(0.0, 0.0, 2.0)

  /** The distance field of the unit sphere at the origin. */
  function UnitSphere(m: Functions): Floats3.Float3 -> real {
    p => DistanceFunctions.SdfSphere3(m, p, Floats3.Zero, 1.0)
  }

  /** The unit sphere's field along the ray from `Origin` in direction `rd`. */
  function Ray(m: Functions, rd: Floats3.Float3): real -> real {
    Along(Origin, rd, Floats3.Add, Floats3.Scale, UnitSphere(m))
  }

  /** Down the z axis the field at `t` is the length of `(0, 0, 2 - t)` less 1. */
  lemma AlongTheAxis(m: Functions, t: real)
    ensures Ray(m, Floats3.Float3(0.0, 0.0, -1.0))(t) == Floats3.Length(m, Floats3.Float3(0.0, 0.0, 2.0 - t)) - 1.0
  {
    var q := Floats3.Add(Origin, Floats3.Scale(Floats3.Float3(0.0, 0.0, -1.0), t));
    assert Ray(m, Floats3.Float3(0.0, 0.0, -1.0))(t) == DistanceFunctions.SdfSphere3(m, q, Floats3.Zero, 1.0);
    assert Floats3.Sub(q, Floats3.Zero) == Floats3.Float3(0.0, 0.0, 2.0 - t);
  }

  /** A vector along the z axis is as long as its z component. */
  lemma DepthLength(m: Functions, z: real)
    requires Lawful(m)
    requires 0.0 <= z
    ensures Floats3.Length(m, Floats3.Float3(0.0, 0.0, z)) == z
  {
    assert Floats3.LengthSquared(Floats3.Float3(0.0, 0.0, z)) == z * z;
    SqrtOfSquare(m, z);
  }

  /** Short of the sphere's far side the field is the remaining distance to the pole, `1 - t`. */
  lemma DownTheAxis(m: Functions, t: real)
    requires Lawful(m)
    requires t <= 2.0
    ensures Ray(m, Floats3.Float3(0.0, 0.0, -1.0))(t) == 1.0 - t
  {
    AlongTheAxis(m, t);
    DepthLength(m, 2.0 - t);
  }

  /** Aimed at the sphere, the march stops on the surface, 1 away: a hit. */
  lemma Hit(m: Functions)
    requires Lawful(m)
    ensures March(Ray(m, Floats3.Float3(0.0, 0.0, -1.0)), 0.0, MaxSteps) == 1.0
  {
    var f := Ray(m, Floats3.Float3(0.0, 0.0, -1.0));
    DownTheAxis(m, 0.0);
    DownTheAxis(m, 1.0);
    assert March(f, 0.0, MaxSteps) == March(f, 1.0, MaxSteps - 1);
  }

  /** Along the y axis the field at `t` is `sqrt(4 + t * t) - 1`. */
  lemma PastTheSphere(m: Functions, t: real)
    ensures Ray(m, Floats3.Float3(0.0, 1.0, 0.0))(t) == Sqrt(m, 4.0 + t * t) - 1.0
  {
    var q := Floats3.Add(Origin, Floats3.Scale(Floats3.Float3(0.0, 1.0, 0.0), t));
    assert Ray(m, Floats3.Float3(0.0, 1.0, 0.0))(t) == DistanceFunctions.SdfSphere3(m, q, Floats3.Zero, 1.0);
    var p := Floats3.Sub(q, Floats3.Zero);
    assert p == Floats3.Float3(0.0, t, 2.0);
    assert Floats3.LengthSquared(p) == 4.0 + t * t;
  }

  /** Once `t >= 1` the field along the y axis is at least 1.2. */
  lemma FarFromTheSphere(m: Functions, t: real)
    requires Lawful(m)
    requires 1.0 <= t
    ensures 1.2 <= Ray(m, Floats3.Float3(0.0, 1.0, 0.0))(t)
  {
    PastTheSphere(m, t);
    CompareSquares(1.0, t);
    SqrtAtLeast(m, 4.0 + t * t, 2.2);
  }

  /** Past the sphere, the march travels beyond `MaxDist`: a miss. */
  lemma Miss(m: Functions)
    requires Lawful(m)
    ensures March(Ray(m, Floats3.Float3(0.0, 1.0, 0.0)), 0.0, MaxSteps) > MaxDist
  {
    var f := Ray(m, Floats3.Float3(0.0, 1.0, 0.0));
    PastTheSphere(m, 0.0);
    assert 4.0 + 0.0 * 0.0 == 2.0 * 2.0;
    SqrtOfSquare(m, 2.0);
    assert f(0.0) == 1.0;
    assert March(f, 0.0, MaxSteps) == March(f, 1.0, MaxSteps - 1);
    forall t: real | 1.0 <= t
      ensures 1.2 <= f(t)
    {
      FarFromTheSphere(m, t);
    }
    Escapes(f, 1.0, MaxSteps - 1, 1.2);
  }

  /** `raymarch` itself, aimed at the sphere, returns the hit distance 1. */
  method MarchToSphere(m: Functions) returns (d: real)
    requires Lawful(m)
    ensures d == 1.0
  {
    d := Raymarch(Origin, Floats3.Float3(0.0, 0.0, -1.0), Floats3.Add, Floats3.Scale, UnitSphere(m));
    Hit(m);
  }

  /** `raymarch` itself, aimed past the sphere, returns a distance beyond `MaxDist`. */
  method MarchPastSphere(m: Functions) returns (d: real)
    requires Lawful(m)
    ensures d > MaxDist
  {
    d := Raymarch(Origin, Floats3.Float3(0.0, 1.0, 0.0), Floats3.Add, Floats3.Scale, UnitSphere(m));
    Miss(m);
  }
}
