/** Plane geometry shared by the viewport and the controller: the CGPoint and
    CGSize pairs of the Swift viewer, over exact reals instead of CGFloat. */
module Geometry {

  /** A point or a displacement of the plane (CGPoint). */
  datatype Point = Point(x: real, y: real)

  /** A width/height pair (CGSize). */
  datatype Size = Size(width: real, height: real)

  /** The point (0, 0). */
  const Zero: Point := Point(0.0, 0.0)

  function Add(p: Point, q: Point): Point
  {
    Point(p.x + q.x, p.y + q.y)
  }

  function Sub(p: Point, q: Point): Point
  {
    Point(p.x - q.x, p.y - q.y)
  }

  function Neg(p: Point): Point
  {
    Point(-p.x, -p.y)
  }

  /** The sum of a sequence of displacements, first to last. */
  function Sum(ps: seq<Point>): Point
  {
    if ps == [] then Zero else Add(ps[0], Sum(ps[1..]))
  }
}
