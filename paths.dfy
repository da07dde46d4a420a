/** Paths: immutable sequences of points, built by appending points, other
    paths, or moves relative to the last point. */
module Paths {
  import opened Wrappers
  import opened Geometry

  datatype Path = Path(points: seq<Point>)

  const EmptyPathIndex: string := "ArrayIndexOutOfBoundsException: empty path has no last point"

  /** Path(point): the path of one point. */
  function PathOf(p: Point): (r: Path)
    ensures |r.points| == 1 && r.points[0] == p
  {
    Path([p])
  }

  /** add(point): a new path, one longer, with the old points copied in
      front of the new one; the receiver is a value and stays as it was. */
  method Add(path: Path, p: Point) returns (r: Path)
    ensures r.points == path.points + [p]
  {
    var newPoints := new Point[|path.points| + 1](_ => p);
    for k := 0 to |path.points|
      invariant forall m :: 0 <= m < k ==> newPoints[m] == path.points[m]
      invariant newPoints[|path.points|] == p
    {
      newPoints[k] := path.points[k];
    }
    r := Path(newPoints[..]);
  }

  /** add(x, y). */
  method AddXY(path: Path, x: real, y: real) returns (r: Path)
    ensures r.points == path.points + [Point(x, y)]
  {
    r := Add(path, Point(x, y));
  }

  /** add(other): the other path's points appended one by one. */
  method AddPath(path: Path, other: Path) returns (r: Path)
    ensures r.points == path.points + other.points
  {
    r := path;
    for k := 0 to |other.points|
      invariant r.points == path.points + other.points[..k]
    {
      r := Add(r, other.points[k]);
      assert other.points[..k + 1] == other.points[..k] + [other.points[k]];
    }
    assert other.points[..|other.points|] == other.points;
  }

  /** moveBy(point): appends the last point moved by the vector; a path
      without points has no last point. */
  function MoveBy(path: Path, v: Point): (r: Result<Path>)
    ensures r.Err? <==> path.points == []
    ensures r.Ok? ==> r.value.points == path.points + [Sum(path.points[|path.points| - 1], v)]
  {
    if path.points == [] then Err(EmptyPathIndex)
    else Ok(Path(path.points + [Sum(path.points[|path.points| - 1], v)]))
  }

  /** moveBy(x, y): appends the last point moved by (x, y); fails on a path
      without points. */
  function MoveByXY(path: Path, x: real, y: real): (r: Result<Path>)
    ensures r.Err? <==> path.points == []
    ensures r.Ok? ==> r.value.points == path.points + [Sum(path.points[|path.points| - 1], Point(x, y))]
  {
    MoveBy(path, Point(x, y))
  }

  /** The points moveBy(other) appends: every point of the other path moved
      by the receiver's own last point. */
  function Offsets(last: Point, others: seq<Point>): (r: seq<Point>)
    ensures |r| == |others|
    ensures forall k :: 0 <= k < |r| ==> r[k] == Sum(others[k], last)
  {
    seq(|others|, k requires 0 <= k < |others| => Sum(others[k], last))
  }

  /** moveBy(other): appends each point of the other path offset by the
      last point of the receiver as it was before the call (the offsets are
      not cumulative). The last point is looked up once per point of the
      other path, so an empty receiver fails only when there is a point to
      move. */
  method MoveByPath(path: Path, other: Path) returns (r: Result<Path>)
    ensures path.points == [] && other.points != [] <==> r.Err?
    ensures r.Ok? && path.points == [] ==> r.value == path
    ensures r.Ok? && path.points != [] ==>
      r.value.points == path.points + Offsets(path.points[|path.points| - 1], other.points)
  {
    var result := path;
    for k := 0 to |other.points|
      invariant path.points == [] ==> k == 0 && result == path
      invariant path.points != [] ==>
        result.points == path.points + Offsets(path.points[|path.points| - 1], other.points[..k])
    {
      if path.points == [] {
        return Err(EmptyPathIndex);
      }
      var last := path.points[|path.points| - 1];
      result := Add(result, Sum(other.points[k], last));
      assert Offsets(last, other.points[..k + 1]) == Offsets(last, other.points[..k]) + [Sum(other.points[k], last)];
    }
    if path.points != [] {
      assert other.points[..|other.points|] == other.points;
    }
    r := Ok(result);
  }

  /** Moving by a one-point path is moving by that point. */
  lemma MoveByOnePoint(path: Path, v: Point)
    requires path.points != []
    ensures MoveBy(path, v).value.points == path.points + Offsets(path.points[|path.points| - 1], PathOf(v).points)
  {
  }

  /** Every appended point keeps its distance to the receiver's last point,
      whatever its position in the other path. */
  lemma {:induction false} OffsetsNotCumulative(last: Point, others: seq<Point>, k: nat)
    requires k < |others|
    ensures Diff(Offsets(last, others)[k], others[k]) == last
  {
  }

  /** toPoly(): the same points as a polygon. */
  function ToPoly(path: Path): (p: Poly)
    ensures p.vertexes == path.points
  {
    Poly(path.points)
  }
}
