/**
 * The `From` conversions between the vector types. Each keeps the leading
 * coordinates; widening from `Float2` to `Float3` fills `z` with 0.
 */
module Conversions {
  import Floats2
  import Floats3
  import Floats4

  /** `Float3::from(Float2)` */
  function Float3FromFloat2(u: Floats2.Float2): Floats3.Float3 {
    Floats3.Float3(u.x, u.y, 0.0)
  }

  /** `Float3::from(Float4)` */
  function Float3FromFloat4(u: Floats4.Float4): Floats3.Float3 {
    Floats3.Float3(u.x, u.y, u.z)
  }

  /** `Float2::from(Float3)` */
  function Float2FromFloat3(u: Floats3.Float3): Floats2.Float2 {
    Floats2.Float2(u.x, u.y)
  }

  /** `Float2::from(Float4)` */
  function Float2FromFloat4(u: Floats4.Float4): Floats2.Float2 {
    Floats2.Float2(u.x, u.y)
  }

  /**
   * Widening a `Float2` to a `Float3` puts it in the plane `z == 0` and
   * narrowing it back recovers it; a `Float3` in that plane survives the
   * opposite round trip.
   */
  lemma WidenNarrow(u: Floats2.Float2, v: Floats3.Float3)
    ensures Float3FromFloat2(u).z == 0.0
    ensures Float2FromFloat3(Float3FromFloat2(u)) == u
    ensures v.z == 0.0 <==> Float3FromFloat2(Float2FromFloat3(v)) == v
  {
  }

  /**
   * Dropping coordinates of a `Float4`: x, y and z survive into `Float3`,
   * `w` is lost, and going to `Float2` directly or through `Float3` agrees.
   */
  lemma NarrowFloat4(u: Floats4.Float4, w: real)
    ensures Float3FromFloat4(u) == Float3FromFloat4(u.(w := w))
    ensures Float3FromFloat4(u).x == u.x && Float3FromFloat4(u).y == u.y && Float3FromFloat4(u).z == u.z
    ensures Float2FromFloat4(u) == Float2FromFloat3(Float3FromFloat4(u))
  {
  }

  /**
   * For vectors in the hyperplane `w == 0` the 4D wedge product has no
   * component in the xw, yw and zw planes, and its yz, xz and xy components
   * are the 3D wedge product of the first three coordinates.
   */
  lemma WedgeInHyperplane(u: Floats4.Float4, v: Floats4.Float4)
    requires u.w == 0.0 && v.w == 0.0
    ensures var b := Floats4.Wedge(u, v); b.xw == 0.0 && b.yw == 0.0 && b.zw == 0.0
    ensures var b, c := Floats4.Wedge(u, v), Floats3.Wedge(Float3FromFloat4(u), Float3FromFloat4(v));
      b.yz == c.yz && b.xz == c.xz && b.xy == c.xy
  {
  }
}
