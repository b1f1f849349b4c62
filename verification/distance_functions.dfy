/**
 * The signed distance functions of the scenes: the sphere in any dimension
 * and the axis-aligned box in three and four dimensions. A negative value is
 * inside the shape, zero on its surface and positive outside.
 */
module DistanceFunctions {
  import opened Elementary
  import Multivectors
  import Floats3
  import Floats4

  /** `f32::abs` */
  function Abs(x: real): real {
    if x < 0.0 then -x else x
  }

  /** `f32::max` */
  function Max(x: real, y: real): real {
    if x < y then y else x
  }

  /** `f32::min` */
  function Min(x: real, y: real): real {
    if y < x then y else x
  }

  /** `sdf_sphere(p, centre, radius)` on `Float3`: the distance to the centre less the radius. */
  function SdfSphere3(m: Functions, p: Floats3.Float3, centre: Floats3.Float3, radius: real): real {
    Floats3.Length(m, Floats3.Sub(p, centre)) - radius
  }

  /** `sdf_sphere(p, centre, radius)` on `Float4`. */
  function SdfSphere4(m: Functions, p: Floats4.Float4, centre: Floats4.Float4, radius: real): real {
    Floats4.Length(m, Floats4.Sub(p, centre)) - radius
  }

  /**
   * `sdf_box3(p, centre, size)`: with `q` the distance of `p` from the centre
   * per axis less the half-extent `size`, the length of the positive part of
   * `q` plus the largest component of `q` when that is negative.
   */
  function SdfBox3(m: Functions, p: Floats3.Float3, centre: Floats3.Float3, size: Floats3.Float3): real {
    BoxDistance3(m, BoxOffset3(p, centre, size))
  }

  /** The vector `q` of `sdf_box3`: per axis, how far `p` lies outside the box's slab. */
  function BoxOffset3(p: Floats3.Float3, centre: Floats3.Float3, size: Floats3.Float3): Floats3.Float3 {
    var d := Floats3.Sub(p, centre);
    Floats3.Sub(Floats3.Float3(Abs(d.x), Abs(d.y), Abs(d.z)), size)
  }

  /** The value `sdf_box3` returns for the vector `q`. */
  function BoxDistance3(m: Functions, q: Floats3.Float3): real {
    Floats3.Length(m, Floats3.Float3(Max(q.x, 0.0), Max(q.y, 0.0), Max(q.z, 0.0)))
      + Min(Max(q.x, Max(q.y, q.z)), 0.0)
  }

  /** `sdf_box4(p, centre, size)`, the same construction over four axes. */
  function SdfBox4(m: Functions, p: Floats4.Float4, centre: Floats4.Float4, size: Floats4.Float4): real {
    BoxDistance4(m, BoxOffset4(p, centre, size))
  }

  /** The vector `q` of `sdf_box4`. */
  function BoxOffset4(p: Floats4.Float4, centre: Floats4.Float4, size: Floats4.Float4): Floats4.Float4 {
    var d := Floats4.Sub(p, centre);
    Floats4.Sub(Floats4.Float4(Abs(d.x), Abs(d.y), Abs(d.z), Abs(d.w)), size)
  }

  /** The value `sdf_box4` returns for the vector `q`. */
  function BoxDistance4(m: Functions, q: Floats4.Float4): real {
    Floats4.Length(m, Floats4.Float4(Max(q.x, 0.0), Max(q.y, 0.0), Max(q.z, 0.0), Max(q.w, 0.0)))
      + Min(Max(q.x, Max(q.y, Max(q.z, q.w))), 0.0)
  }

  // The sphere.

  /** At its own centre the sphere's distance is minus its radius. */
  lemma SphereAtCentre3(m: Functions, centre: Floats3.Float3, radius: real)
    requires Lawful(m)
    ensures SdfSphere3(m, centre, centre, radius) == -radius
  {
    assert Floats3.Sub(centre, centre) == Floats3.Zero;
    ZeroLength3(m);
  }

  /**
   * For a nonnegative radius the sphere's distance is negative exactly
   * strictly inside the ball (squared distance below the squared radius)
   * and zero exactly on the sphere.
   */
  lemma SphereSign3(m: Functions, p: Floats3.Float3, centre: Floats3.Float3, radius: real)
    requires Lawful(m)
    requires 0.0 <= radius
    ensures var d2 := Floats3.LengthSquared(Floats3.Sub(p, centre));
      && (SdfSphere3(m, p, centre, radius) < 0.0 <==> d2 < radius * radius)
      && (SdfSphere3(m, p, centre, radius) == 0.0 <==> d2 == radius * radius)
  {
    var d := Floats3.Sub(p, centre);
    Floats3.DotSymmetric(d, d);
    Multivectors.LengthIsRoot(m, Floats3.LengthSquared(d));
    CompareSquares(Floats3.Length(m, d), radius);
  }

  /** Moving the point and the centre by the same offset leaves the sphere's distance unchanged. */
  lemma SphereTranslation3(m: Functions, p: Floats3.Float3, centre: Floats3.Float3, radius: real, t: Floats3.Float3)
    ensures SdfSphere3(m, Floats3.Add(p, t), Floats3.Add(centre, t), radius) == SdfSphere3(m, p, centre, radius)
  {
    assert Floats3.Sub(Floats3.Add(p, t), Floats3.Add(centre, t)) == Floats3.Sub(p, centre);
  }

  /** At its own centre the 4D sphere's distance is minus its radius. */
  lemma SphereAtCentre4(m: Functions, centre: Floats4.Float4, radius: real)
    requires Lawful(m)
    ensures SdfSphere4(m, centre, centre, radius) == -radius
  {
    assert Floats4.Sub(centre, centre) == Floats4.Zero;
    ZeroLength4(m);
  }

  /** The sign of the 4D sphere's distance, as for `SphereSign3`. */
  lemma SphereSign4(m: Functions, p: Floats4.Float4, centre: Floats4.Float4, radius: real)
    requires Lawful(m)
    requires 0.0 <= radius
    ensures var d2 := Floats4.LengthSquared(Floats4.Sub(p, centre));
      && (SdfSphere4(m, p, centre, radius) < 0.0 <==> d2 < radius * radius)
      && (SdfSphere4(m, p, centre, radius) == 0.0 <==> d2 == radius * radius)
  {
    var d := Floats4.Sub(p, centre);
    Floats4.DotSymmetric(d, d);
    Multivectors.LengthIsRoot(m, Floats4.LengthSquared(d));
    CompareSquares(Floats4.Length(m, d), radius);
  }

  /** The 4D sphere's distance is translation invariant. */
  lemma SphereTranslation4(m: Functions, p: Floats4.Float4, centre: Floats4.Float4, radius: real, t: Floats4.Float4)
    ensures SdfSphere4(m, Floats4.Add(p, t), Floats4.Add(centre, t), radius) == SdfSphere4(m, p, centre, radius)
  {
    assert Floats4.Sub(Floats4.Add(p, t), Floats4.Add(centre, t)) == Floats4.Sub(p, centre);
  }

  // The 3D box.

  /**
   * Inside the box (every component of `q` at most 0) `sdf_box3` is the
   * largest component of `q`, which is at most 0.
   */
  lemma BoxInside3(m: Functions, q: Floats3.Float3)
    requires Lawful(m)
    requires q.x <= 0.0 && q.y <= 0.0 && q.z <= 0.0
    ensures BoxDistance3(m, q) == Max(q.x, Max(q.y, q.z)) <= 0.0
  {
    ZeroLength3(m);
  }

  /**
   * Outside the box (some component of `q` positive) `sdf_box3` is positive:
   * with `BoxInside3`, the distance is at most 0 exactly inside.
   */
  lemma BoxOutside3(m: Functions, q: Floats3.Float3)
    requires Lawful(m)
    requires 0.0 < q.x || 0.0 < q.y || 0.0 < q.z
    ensures 0.0 < BoxDistance3(m, q)
  {
    var v := Floats3.Float3(Max(q.x, 0.0), Max(q.y, 0.0), Max(q.z, 0.0));
    PositiveLengthSquared3(v);
    Floats3.DotSymmetric(v, v);
    Multivectors.LengthIsRoot(m, Floats3.LengthSquared(v));
  }

  /**
   * Outside along the x axis only, `sdf_box3` is the distance `q.x` to the
   * face the point faces.
   */
  lemma BoxOutsideAlongX3(m: Functions, q: Floats3.Float3)
    requires Lawful(m)
    requires 0.0 < q.x && q.y <= 0.0 && q.z <= 0.0
    ensures BoxDistance3(m, q) == q.x
  {
    assert Floats3.Float3(Max(q.x, 0.0), Max(q.y, 0.0), Max(q.z, 0.0)) == Floats3.Float3(q.x, 0.0, 0.0);
    AxisLength3(m, q.x);
  }

  /** A vector along the x axis is as long as its x component. */
  lemma AxisLength3(m: Functions, x: real)
    requires Lawful(m)
    requires 0.0 <= x
    ensures Floats3.Length(m, Floats3.Float3(x, 0.0, 0.0)) == x
  {
    assert Floats3.LengthSquared(Floats3.Float3(x, 0.0, 0.0)) == x * x;
    SqrtOfSquare(m, x);
  }

  /**
   * `sdf_box3` is at most 0 exactly when `p` lies in the box: within
   * `size` of the centre along every axis.
   */
  lemma BoxSign3(m: Functions, p: Floats3.Float3, centre: Floats3.Float3, size: Floats3.Float3)
    requires Lawful(m)
    ensures SdfBox3(m, p, centre, size) <= 0.0 <==>
      && Abs(p.x - centre.x) <= size.x
      && Abs(p.y - centre.y) <= size.y
      && Abs(p.z - centre.z) <= size.z
  {
    var q := BoxOffset3(p, centre, size);
    if q.x <= 0.0 && q.y <= 0.0 && q.z <= 0.0 {
      BoxInside3(m, q);
    } else {
      BoxOutside3(m, q);
    }
  }

  /**
   * At the centre of a box with nonnegative half-extents `sdf_box3` is minus
   * the smallest half-extent: the distance to the nearest face.
   */
  lemma BoxAtCentre3(m: Functions, centre: Floats3.Float3, size: Floats3.Float3)
    requires Lawful(m)
    requires 0.0 <= size.x && 0.0 <= size.y && 0.0 <= size.z
    ensures SdfBox3(m, centre, centre, size) == -Min(size.x, Min(size.y, size.z))
  {
    var q := BoxOffset3(centre, centre, size);
    assert q == Floats3.Float3(-size.x, -size.y, -size.z);
    BoxInside3(m, q);
  }

  /** The box is symmetric about its centre along each axis: reflecting `p` there leaves `sdf_box3` unchanged. */
  lemma BoxReflection3(m: Functions, p: Floats3.Float3, centre: Floats3.Float3, size: Floats3.Float3)
    ensures SdfBox3(m, Floats3.Float3(2.0 * centre.x - p.x, p.y, p.z), centre, size) == SdfBox3(m, p, centre, size)
    ensures SdfBox3(m, Floats3.Float3(p.x, 2.0 * centre.y - p.y, p.z), centre, size) == SdfBox3(m, p, centre, size)
    ensures SdfBox3(m, Floats3.Float3(p.x, p.y, 2.0 * centre.z - p.z), centre, size) == SdfBox3(m, p, centre, size)
  {
    assert BoxOffset3(Floats3.Float3(2.0 * centre.x - p.x, p.y, p.z), centre, size) == BoxOffset3(p, centre, size);
    assert BoxOffset3(Floats3.Float3(p.x, 2.0 * centre.y - p.y, p.z), centre, size) == BoxOffset3(p, centre, size);
    assert BoxOffset3(Floats3.Float3(p.x, p.y, 2.0 * centre.z - p.z), centre, size) == BoxOffset3(p, centre, size);
  }

  /** The zero vector has length 0. */
  lemma ZeroLength3(m: Functions)
    requires Lawful(m)
    ensures Floats3.Length(m, Floats3.Zero) == 0.0
  {
    assert Floats3.LengthSquared(Floats3.Zero) == 0.0;
    Multivectors.LengthOfZero(m);
  }

  /** A vector with a positive component has a positive squared length. */
  lemma PositiveLengthSquared3(v: Floats3.Float3)
    requires 0.0 < v.x || 0.0 < v.y || 0.0 < v.z
    ensures 0.0 < Floats3.LengthSquared(v)
  {
    Floats3.DotSymmetric(v, v);
    if Floats3.LengthSquared(v) == 0.0 {
      SquaresVanish(v.x, v.y, v.z, 0.0);
    }
  }

  // The 4D box.

  /**
   * Inside the 4D box `sdf_box4` is the largest component of `q`, which is
   * at most 0.
   */
  lemma BoxInside4(m: Functions, q: Floats4.Float4)
    requires Lawful(m)
    requires q.x <= 0.0 && q.y <= 0.0 && q.z <= 0.0 && q.w <= 0.0
    ensures BoxDistance4(m, q) == Max(q.x, Max(q.y, Max(q.z, q.w))) <= 0.0
  {
    ZeroLength4(m);
  }

  /** Outside the 4D box `sdf_box4` is positive. */
  lemma BoxOutside4(m: Functions, q: Floats4.Float4)
    requires Lawful(m)
    requires 0.0 < q.x || 0.0 < q.y || 0.0 < q.z || 0.0 < q.w
    ensures 0.0 < BoxDistance4(m, q)
  {
    var v := Floats4.Float4(Max(q.x, 0.0), Max(q.y, 0.0), Max(q.z, 0.0), Max(q.w, 0.0));
    PositiveLengthSquared4(v);
    Floats4.DotSymmetric(v, v);
    Multivectors.LengthIsRoot(m, Floats4.LengthSquared(v));
  }

  /** `sdf_box4` is at most 0 exactly when `p` lies in the box. */
  lemma BoxSign4(m: Functions, p: Floats4.Float4, centre: Floats4.Float4, size: Floats4.Float4)
    requires Lawful(m)
    ensures SdfBox4(m, p, centre, size) <= 0.0 <==>
      && Abs(p.x - centre.x) <= size.x
      && Abs(p.y - centre.y) <= size.y
      && Abs(p.z - centre.z) <= size.z
      && Abs(p.w - centre.w) <= size.w
  {
    var q := BoxOffset4(p, centre, size);
    assert q.x == Abs(p.x - centre.x) - size.x && q.y == Abs(p.y - centre.y) - size.y;
    assert q.z == Abs(p.z - centre.z) - size.z && q.w == Abs(p.w - centre.w) - size.w;
    if q.x <= 0.0 && q.y <= 0.0 && q.z <= 0.0 && q.w <= 0.0 {
      BoxInside4(m, q);
    } else {
      BoxOutside4(m, q);
    }
  }

  /** The zero 4D vector has length 0. */
  lemma ZeroLength4(m: Functions)
    requires Lawful(m)
    ensures Floats4.Length(m, Floats4.Zero) == 0.0
  {
    assert Floats4.LengthSquared(Floats4.Zero) == 0.0;
    Multivectors.LengthOfZero(m);
  }

  /** A 4D vector with a positive component has a positive squared length. */
  lemma PositiveLengthSquared4(v: Floats4.Float4)
    requires 0.0 < v.x || 0.0 < v.y || 0.0 < v.z || 0.0 < v.w
    ensures 0.0 < Floats4.LengthSquared(v)
  {
    Floats4.DotSymmetric(v, v);
    if Floats4.LengthSquared(v) == 0.0 {
      SquaresVanish(v.x, v.y, v.z, v.w);
    }
  }
}
