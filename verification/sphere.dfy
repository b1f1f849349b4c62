/**
 * The `Sphere` scene object: a centre and a radius, whose signed distance
 * function is `sdf_sphere` at that centre and radius.
 */
module Spheres {
  import opened Elementary
  import Floats3
  import DistanceFunctions

  datatype Sphere = Sphere(centre: Floats3.Float3, radius: real)

  /** `Sphere::new(centre, radius)` stores both unchanged. */
  function New(centre: Floats3.Float3, radius: real): (s: Sphere)
    ensures s.centre == centre && s.radius == radius
  {
    Sphere(centre, radius)
  }

  /**
   * `sdf(p)`: the distance from `p` to the centre less the radius, which is
   * `sdf_sphere` at the sphere's centre and radius.
   */
  function Sdf(m: Functions, s: Sphere, p: Floats3.Float3): (d: real)
    ensures d == DistanceFunctions.SdfSphere3(m, p, s.centre, s.radius)
  {
    Floats3.Length(m, Floats3.Sub(p, s.centre)) - s.radius
  }

  /** At its centre a sphere's distance is minus its radius. */
  lemma SdfAtCentre(m: Functions, centre: Floats3.Float3, radius: real)
    requires Lawful(m)
    ensures Sdf(m, New(centre, radius), centre) == -radius
  {
    var s := New(centre, radius);
    DistanceFunctions.SphereAtCentre3(m, s.centre, s.radius);
  }

  /**
   * For a nonnegative radius a sphere's distance is negative exactly inside
   * the ball and zero exactly on the sphere.
   */
  lemma SdfSign(m: Functions, s: Sphere, p: Floats3.Float3)
    requires Lawful(m)
    requires 0.0 <= s.radius
    ensures var d2 := Floats3.LengthSquared(Floats3.Sub(p, s.centre));
      && (Sdf(m, s, p) < 0.0 <==> d2 < s.radius * s.radius)
      && (Sdf(m, s, p) == 0.0 <==> d2 == s.radius * s.radius)
  {
    DistanceFunctions.SphereSign3(m, p, s.centre, s.radius);
  }
}
