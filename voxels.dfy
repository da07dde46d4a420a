/** The voxel body's closed tables: its four sides and four vertices, the
    material it is made of, and the segment of each side. */
module Voxels {
  import opened Geometry
  import opened Ranges

  /** The sides, declared in the order N, E, W, S. */
  datatype Side = N | E | W | S

  datatype Vertex = NW | NE | SE | SW

  /** Side.values(): the sides in declaration order. */
  const Sides: seq<Side> := [N, E, W, S]

  /** The position of a side in declaration order. */
  function SideIndex(s: Side): (k: nat)
    ensures k < |Sides| && Sides[k] == s
  {
    match s
    case N => 0
    case E => 1
    case W => 2
    case S => 3
  }

  /** The corners of the voxel square as offsets from its centre, in half
      side lengths: x grows to the east and y to the north. */
  function Corner(v: Vertex): (int, int) {
    match v
    case NW => (-1, 1)
    case NE => (1, 1)
    case SE => (1, -1)
    case SW => (-1, -1)
  }

  /** Whether corner v lies on the edge side s names, the edge of the square
      farthest in that compass direction. */
  predicate OnEdge(s: Side, v: Vertex) {
    match s
    case N => Corner(v).1 == 1
    case E => Corner(v).0 == 1
    case W => Corner(v).0 == -1
    case S => Corner(v).1 == -1
  }

  /** The unit vector k quarter turns counter-clockwise from the east. */
  function QuarterTurn(k: int): (int, int) {
    match k % 4
    case 0 => (1, 0)
    case 1 => (0, 1)
    case 2 => (-1, 0)
    case _ => (0, -1)
  }

  function CornerDot(p: (int, int), q: (int, int)): int {
    p.0 * q.0 + p.1 * q.1
  }

  /** Side.getVertex1(): a corner on the side's edge. */
  function Vertex1(s: Side): (v: Vertex)
    ensures OnEdge(s, v)
  {
    match s
    case N => NE
    case E => NE
    case W => NW
    case S => SE
  }

  /** Side.getVertex2(): the other corner on the side's edge. */
  function Vertex2(s: Side): (v: Vertex)
    ensures OnEdge(s, v) && v != Vertex1(s)
  {
    match s
    case N => NW
    case E => SE
    case W => SW
    case S => SW
  }

  /** The outward normal angle of a side, as a number of quarter turns
      (the angle in radians is this number times pi/2): an angle in
      (-pi, pi] whose direction points away from the centre towards exactly
      the corners of the side's edge. */
  function NormalQuarterTurns(s: Side): (k: int)
    ensures -2 < k <= 2
    ensures forall v :: OnEdge(s, v) <==> CornerDot(Corner(v), QuarterTurn(k)) > 0
  {
    match s
    case N => 1
    case E => 0
    case W => 2
    case S => -1
  }

  /** Whether vertex v bounds side s. */
  predicate Bounds(s: Side, v: Vertex) {
    Vertex1(s) == v || Vertex2(s) == v
  }

  /** The sides a vertex bounds. */
  function SidesAt(v: Vertex): set<Side> {
    set s: Side | s in Sides && Bounds(s, v)
  }

  /** Each side is bounded by two distinct vertices. */
  lemma SideVerticesDistinct(s: Side)
    ensures Vertex1(s) != Vertex2(s)
  {
  }

  /** Every vertex bounds exactly two sides, and these are the two sides that
      meet at that corner. */
  lemma {:induction false} EveryVertexOnTwoSides(v: Vertex)
    ensures |SidesAt(v)| == 2
    ensures SidesAt(v) == match v
      case NW => {N, W}
      case NE => {N, E}
      case SE => {E, S}
      case SW => {W, S}
  {
    match v
    case NW => assert SidesAt(v) == {N, W};
    case NE => assert SidesAt(v) == {N, E};
    case SE => assert SidesAt(v) == {E, S};
    case SW => assert SidesAt(v) == {W, S};
  }

  /** No two sides face the same way, and opposite sides face opposite ways. */
  lemma NormalAnglesDistinct(s: Side, t: Side)
    ensures s != t ==> NormalQuarterTurns(s) != NormalQuarterTurns(t)
    ensures (s, t) in {(N, S), (E, W)} ==> NormalQuarterTurns(s) - NormalQuarterTurns(t) in {2, -2}
  {
  }

  /** A material: how soft a voxel is and how much its area may vary. */
  datatype Material = Material(softness: real, areaRatioRange: DoubleRange)

  const DefaultSoftness: real := 0.75
  const DefaultAreaRatioRange: DoubleRange := DoubleRange(0.8, 1.2)

  /** Material(softness, delta): the area ratio may vary by |delta| around 1. */
  function MaterialWithDelta(softness: real, delta: real): (m: Material)
    ensures m.softness == softness
    ensures m.areaRatioRange.min <= 1.0 <= m.areaRatioRange.max
    ensures 1.0 - m.areaRatioRange.min == m.areaRatioRange.max - 1.0 == Abs(delta)
  {
    Material(softness, DoubleRange(1.0 - Abs(delta), 1.0 + Abs(delta)))
  }

  /** The sign of the delta does not matter. */
  lemma MaterialDeltaSign(softness: real, delta: real)
    ensures MaterialWithDelta(softness, -delta) == MaterialWithDelta(softness, delta)
  {
  }

  /** Material(): softness 0.75, area ratio in [0.8, 1.2]. */
  function DefaultMaterial(): (m: Material)
    ensures m.areaRatioRange.min <= 1.0 <= m.areaRatioRange.max
  {
    Material(DefaultSoftness, DefaultAreaRatioRange)
  }

  /** The default material is the one built from the delta 0.2. */
  lemma DefaultMaterialHasDelta()
    ensures DefaultMaterial() == MaterialWithDelta(0.75, 0.2)
    ensures DefaultMaterial() == MaterialWithDelta(0.75, -0.2)
  {
  }

  /** The current shape of a voxel as the engine reports it: the positions of
      its four vertices and the center of its polygon. */
  datatype VoxelShape = VoxelShape(nw: Point, ne: Point, se: Point, sw: Point, center: Point)

  function VertexAt(v: VoxelShape, x: Vertex): Point {
    match x
    case NW => v.nw
    case NE => v.ne
    case SE => v.se
    case SW => v.sw
  }

  /** side(s): the segment between the two vertices of side s. */
  function SideSegment(v: VoxelShape, s: Side): (seg: Segment)
    ensures seg.p1 == VertexAt(v, Vertex1(s)) && seg.p2 == VertexAt(v, Vertex2(s))
  {
    Segment(VertexAt(v, Vertex1(s)), VertexAt(v, Vertex2(s)))
  }

  /** Two sides that meet at a corner share the segment end at that corner. */
  lemma {:induction false} AdjacentSidesMeet(v: VoxelShape, x: Vertex, s: Side, t: Side)
    requires s in SidesAt(x) && t in SidesAt(x)
    ensures VertexAt(v, x) in {SideSegment(v, s).p1, SideSegment(v, s).p2}
    ensures VertexAt(v, x) in {SideSegment(v, t).p1, SideSegment(v, t).p2}
  {
  }
}
