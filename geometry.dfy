/** Two-dimensional geometry values: points, segments, polygons and
    bounding boxes. Coordinates are exact reals (no floating point). */
module Geometry {

  datatype Point = Point(x: real, y: real)

  function Sum(p: Point, q: Point): Point {
    Point(p.x + q.x, p.y + q.y)
  }

  function Diff(p: Point, q: Point): Point {
    Point(p.x - q.x, p.y - q.y)
  }

  datatype Segment = Segment(p1: Point, p2: Point)

  /** The midpoint of a segment. */
  function SegmentCenter(s: Segment): (c: Point)
    ensures Diff(c, s.p1) == Diff(s.p2, c)
  {
    Point((s.p1.x + s.p2.x) / 2.0, (s.p1.y + s.p2.y) / 2.0)
  }

  datatype Poly = Poly(vertexes: seq<Point>)

  datatype BoundingBox = BoundingBox(min: Point, max: Point)

  function BoxCenter(b: BoundingBox): Point {
    Point((b.min.x + b.max.x) / 2.0, (b.min.y + b.max.y) / 2.0)
  }

  /** The box moved by the vector v. */
  function TranslateBox(b: BoundingBox, v: Point): (r: BoundingBox)
    ensures Diff(r.min, b.min) == v && Diff(r.max, b.max) == v
  {
    BoundingBox(Sum(b.min, v), Sum(b.max, v))
  }
}
