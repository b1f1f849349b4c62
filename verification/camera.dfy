/**
 * The fixed-orientation camera: a position, the viewport's width and height,
 * and the viewport's lower-left corner, from which a ray direction is
 * derived for each point of the image.
 */
module Cameras {
  import Floats2
  import Floats3

  datatype Camera = Camera(
    position: Floats3.Float3,
    viewportDimensions: Floats2.Float2,
    lowerLeftCorner: Floats3.Float3)

  /**
   * `Camera::new(position, aspect_ratio, viewport_height, focal_length)`: the
   * viewport is `aspect_ratio` times as wide as it is high, and its
   * lower-left corner lies half a width left, half a height down and one
   * focal length in front (towards -z) of the position.
   */
  function New(position: Floats3.Float3, aspectRatio: real, viewportHeight: real, focalLength: real): (c: Camera)
    ensures c.position == position
    ensures c.viewportDimensions.x == aspectRatio * viewportHeight
    ensures c.viewportDimensions.y == viewportHeight
    ensures c.lowerLeftCorner == Floats3.Sub(position,
      Floats3.Float3(c.viewportDimensions.x / 2.0, c.viewportDimensions.y / 2.0, focalLength))
  {
    var viewportWidth := aspectRatio * viewportHeight;
    var lowerLeftCorner := Floats3.Float3(
      position.x - viewportWidth * 0.5,
      position.y - viewportHeight * 0.5,
      position.z - focalLength);
    Camera(position, Floats2.Float2(viewportWidth, viewportHeight), lowerLeftCorner)
  }

  /**
   * `get_ray_direction(uv)`: from the position to the point `uv` of the
   * viewport, `uv` running over [0, 1] from the lower-left corner. The
   * direction is not normalized.
   */
  function GetRayDirection(c: Camera, uv: Floats2.Float2): Floats3.Float3 {
    Floats3.Sub(
      Floats3.Add(c.lowerLeftCorner,
        Floats3.Float3(uv.x * c.viewportDimensions.x, uv.y * c.viewportDimensions.y, 0.0)),
      c.position)
  }

  /**
   * The ray through `uv` is `uv` measured from the viewport's centre, scaled
   * to the viewport, at depth `-focal_length`; it does not depend on the
   * camera's position.
   */
  lemma RayDirection(position: Floats3.Float3, aspectRatio: real, viewportHeight: real, focalLength: real, uv: Floats2.Float2)
    ensures var width := aspectRatio * viewportHeight;
      GetRayDirection(New(position, aspectRatio, viewportHeight, focalLength), uv)
        == Floats3.Float3((uv.x - 0.5) * width, (uv.y - 0.5) * viewportHeight, -focalLength)
  {
  }

  /** Moving the camera does not change any ray direction. */
  lemma RayIndependentOfPosition(p: Floats3.Float3, q: Floats3.Float3, aspectRatio: real, viewportHeight: real, focalLength: real, uv: Floats2.Float2)
    ensures GetRayDirection(New(p, aspectRatio, viewportHeight, focalLength), uv)
         == GetRayDirection(New(q, aspectRatio, viewportHeight, focalLength), uv)
  {
    RayDirection(p, aspectRatio, viewportHeight, focalLength, uv);
    RayDirection(q, aspectRatio, viewportHeight, focalLength, uv);
  }

  /**
   * The image's centre looks straight down -z, and its lower-left and
   * upper-right corners at the viewport's corners.
   */
  lemma CentreAndCornerRays(position: Floats3.Float3, aspectRatio: real, viewportHeight: real, focalLength: real)
    ensures var c := New(position, aspectRatio, viewportHeight, focalLength);
      var width := aspectRatio * viewportHeight;
      && GetRayDirection(c, Floats2.Float2(0.5, 0.5)) == Floats3.Float3(0.0, 0.0, -focalLength)
      && GetRayDirection(c, Floats2.Float2(0.0, 0.0)) == Floats3.Float3(-width / 2.0, -viewportHeight / 2.0, -focalLength)
      && GetRayDirection(c, Floats2.Float2(1.0, 1.0)) == Floats3.Float3(width / 2.0, viewportHeight / 2.0, -focalLength)
  {
    RayDirection(position, aspectRatio, viewportHeight, focalLength, Floats2.Float2(0.5, 0.5));
    RayDirection(position, aspectRatio, viewportHeight, focalLength, Floats2.Float2(0.0, 0.0));
    RayDirection(position, aspectRatio, viewportHeight, focalLength, Floats2.Float2(1.0, 1.0));
  }
}
