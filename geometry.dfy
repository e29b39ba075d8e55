/**
 * Points and extents, and the mapping from capture-image space (the rotated
 * camera frame) to screen space that every overlay element goes through.
 * CGFloat arithmetic is modelled on `real`.
 */
module Geometry {

  datatype Point = Point(x: real, y: real)

  datatype Size = Size(width: real, height: real)

  predicate IsPositive(s: Size) {
    s.width > 0.0 && s.height > 0.0
  }

  /** Half the size of a 4x4 eye marker; the half size is subtracted before the point is assigned to the view's center. */
  const EyeOffset := Point(2.0, 2.0)

  /** Half the size of the 30x2 mouth marker. */
  const MouthOffset := Point(15.0, 1.0)

  /**
   * Mirror a capture point (x becomes capture width minus x, y is negated),
   * scale it to the screen and subtract the element's half-size offset.
   */
  function MapPoint(p: Point, capture: Size, screen: Size, offset: Point): (q: Point)
    requires IsPositive(capture)
    ensures (q.x + offset.x) * capture.width == (capture.width - p.x) * screen.width
    ensures (q.y + offset.y) * capture.height == -p.y * screen.height
  {
    var flipped := Point(capture.width - p.x, -p.y);
    Point(flipped.x * screen.width / capture.width - offset.x,
          flipped.y * screen.height / capture.height - offset.y)
  }

  /** The inverse mapping: from a screen position back to the capture point. */
  function UnmapPoint(q: Point, capture: Size, screen: Size, offset: Point): Point
    requires IsPositive(screen)
  {
    Point(capture.width - (q.x + offset.x) * capture.width / screen.width,
          -((q.y + offset.y) * capture.height / screen.height))
  }

  /** Mapping to the screen and back gives the capture point. */
  lemma UnmapMap(p: Point, capture: Size, screen: Size, offset: Point)
    requires IsPositive(capture) && IsPositive(screen)
    ensures UnmapPoint(MapPoint(p, capture, screen, offset), capture, screen, offset) == p
  {
  }

  /** Mapping back and then to the screen gives the screen position. */
  lemma MapUnmap(q: Point, capture: Size, screen: Size, offset: Point)
    requires IsPositive(capture) && IsPositive(screen)
    ensures MapPoint(UnmapPoint(q, capture, screen, offset), capture, screen, offset) == q
  {
  }

  /** The horizontal mirror: a point further right in the capture lands further left on screen. */
  lemma MapMirrorsX(p1: Point, p2: Point, capture: Size, screen: Size, offset: Point)
    requires IsPositive(capture) && screen.width > 0.0
    requires p1.x < p2.x
    ensures MapPoint(p1, capture, screen, offset).x > MapPoint(p2, capture, screen, offset).x
  {
  }

  /** The vertical flip: a point higher in the capture lands lower on screen. */
  lemma MapFlipsY(p1: Point, p2: Point, capture: Size, screen: Size, offset: Point)
    requires IsPositive(capture) && screen.height > 0.0
    requires p1.y < p2.y
    ensures MapPoint(p1, capture, screen, offset).y > MapPoint(p2, capture, screen, offset).y
  {
  }

  /** The center of the rotated capture image maps to the screen center, less the offset. */
  lemma MapCentre(capture: Size, screen: Size, offset: Point)
    requires IsPositive(capture)
    ensures MapPoint(Point(capture.width / 2.0, -capture.height / 2.0), capture, screen, offset)
         == Point(screen.width / 2.0 - offset.x, screen.height / 2.0 - offset.y)
  {
  }

  function Midpoint(a: Point, b: Point): Point {
    Point((a.x + b.x) / 2.0, (a.y + b.y) / 2.0)
  }

  /** The mapping is affine: it takes the midpoint of two points to the midpoint of their images. */
  lemma MapPreservesMidpoint(a: Point, b: Point, capture: Size, screen: Size, offset: Point)
    requires IsPositive(capture)
    ensures MapPoint(Midpoint(a, b), capture, screen, offset)
         == Midpoint(MapPoint(a, capture, screen, offset), MapPoint(b, capture, screen, offset))
  {
  }

  /**
   * The rotation given to an angle-bearing element: the face angle in degrees,
   * negated for the mirrored convention and converted to radians with `pi`.
   */
  function Rotation(angle: real, pi: real): (r: real)
    ensures angle == 0.0 ==> r == 0.0
    ensures pi > 0.0 ==> (r < 0.0 <==> angle > 0.0) && (r > 0.0 <==> angle < 0.0)
  {
    -angle * pi / 180.0
  }

  lemma RotationOfZero(pi: real)
    ensures Rotation(0.0, pi) == 0.0
  {
  }

  lemma RotationIsOdd(angle: real, pi: real)
    ensures Rotation(-angle, pi) == -Rotation(angle, pi)
  {
  }

  lemma RotationOfRightAngle(pi: real)
    ensures Rotation(90.0, pi) == -pi / 2.0
  {
  }

  /** A positive face angle turns the element the negative way, and a negative one the positive way. */
  lemma RotationSign(angle: real, pi: real)
    requires pi > 0.0
    ensures angle > 0.0 ==> Rotation(angle, pi) < 0.0
    ensures angle < 0.0 ==> Rotation(angle, pi) > 0.0
  {
  }
}
