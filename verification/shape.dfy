/** Shapes of the broad phase (include/space_partitioning/shape.hpp): one primitive of any
    kind together with its bounding box, and the shape-level intersection test that asks
    the boxes first and the exact predicate of the two primitive kinds second. */
module Shapes {
  import opened Comparison
  import opened Points
  import opened Vectors
  import opened Segments
  import opened Triangles
  import opened Boxes
  import opened PointPoint
  import opened PointSegment
  import opened PointTriangle
  import opened SegmentSegment
  import opened SegmentTriangle
  import opened TriangleTriangle

  /** The primitive variant: a point, a segment or a triangle. */
  datatype Primitive =
    | PointPrim(pt: Point3)
    | SegmentPrim(seg: Segment<Point3>)
    | TrianglePrim(tr: Triangle<Point3>)
  {
    /** Which alternative of the variant is held: 0, 1 or 2. */
    function Kind(): nat
    {
      match this
      case PointPrim(_) => 0
      case SegmentPrim(_) => 1
      case TrianglePrim(_) => 2
    }
  }

  /** The points a primitive's box is built from. */
  function Vertices(p: Primitive): (vs: seq<Point3>)
    ensures 1 <= |vs| <= 3
  {
    match p
    case PointPrim(pt) => [pt]
    case SegmentPrim(seg) => [seg.P, seg.Q]
    case TrianglePrim(tr) => [tr.P, tr.Q, tr.R]
  }

  datatype Shape = Shape(primitive: Primitive, box: Box)

  /** A shape carrying the position of its primitive in the input. */
  datatype IndexedShape = IndexedShape(shape: Shape, index: nat)

  /** The Shape constructors: a point gets its degenerate box, a segment the box of its two
      endpoints, a triangle the box of its three vertices. In every case the box is proper,
      holds every vertex, and each of its faces passes through a vertex. */
  function MakeShape(p: Primitive): (s: Shape)
    ensures s.primitive == p
    ensures IsBoundingBox(s.box, Vertices(p))
  {
    match p
    case PointPrim(pt) => Shape(p, PointBox(pt))
    case SegmentPrim(seg) =>
      TwoPointBoxBounds(seg.P, seg.Q);
      Shape(p, TwoPointBox(seg.P, seg.Q))
    case TrianglePrim(tr) =>
      RangeBoxBounds([tr.P, tr.Q, tr.R]);
      Shape(p, RangeBox([tr.P, tr.Q, tr.R]))
  }

  /** left_bound: the lower face of the shape's box along axis `i`. */
  function LeftBound(s: Shape, i: nat): real
    requires i < 3
  {
    s.box.Lo(i)
  }

  /** right_bound: the upper face of the shape's box along axis `i`. */
  function RightBound(s: Shape, i: nat): real
    requires i < 3
  {
    s.box.Hi(i)
  }

  /** Along every axis a constructed shape's bounds are ordered, and they are the least
      and the greatest coordinate of the primitive's vertices along that axis. */
  lemma BoundsAreExtremes(p: Primitive, i: nat)
    requires i < 3
    ensures LeftBound(MakeShape(p), i) <= RightBound(MakeShape(p), i)
    ensures forall j | 0 <= j < |Vertices(p)| ::
      LeftBound(MakeShape(p), i) <= Coord(Vertices(p)[j], i) <= RightBound(MakeShape(p), i)
    ensures exists j | 0 <= j < |Vertices(p)| :: LeftBound(MakeShape(p), i) == Coord(Vertices(p)[j], i)
    ensures exists j | 0 <= j < |Vertices(p)| :: RightBound(MakeShape(p), i) == Coord(Vertices(p)[j], i)
  {
    var s := MakeShape(p);
    assert IsBoundingBox(s.box, Vertices(p));
    assert WithinAxis(s.box, Vertices(p)[0], i);
    assert AxisTight(s.box, Vertices(p), i);
  }

  /** The exact predicate for the two primitive kinds, as overload resolution picks it:
      two points meet when they compare equal, and a segment and a triangle, in either
      order, go to the segment-triangle test with the source's endpoint order. */
  function PrimitivesIntersect(dir: Directions, first: Primitive, second: Primitive): (r: bool)
    ensures first.PointPrim? && second.PointPrim? ==> (r <==> Eq3(first.pt, second.pt))
    ensures first.SegmentPrim? && second.TrianglePrim? ==> r == SegmentTriangleIntersectAsWritten(first.seg, second.tr)
    ensures first.TrianglePrim? && second.SegmentPrim? ==> r == SegmentTriangleIntersectAsWritten(second.seg, first.tr)
  {
    match (first, second)
    case (PointPrim(a), PointPrim(b)) => PointPointIntersect(a, b)
    case (PointPrim(a), SegmentPrim(b)) => PointSegmentIntersect(dir, a, b)
    case (PointPrim(a), TrianglePrim(b)) => PointTriangleIntersect(a, b)
    case (SegmentPrim(a), PointPrim(b)) => SegmentPointIntersect(dir, a, b)
    case (SegmentPrim(a), SegmentPrim(b)) => SegmentSegmentIntersect(dir, a, b)
    case (SegmentPrim(a), TrianglePrim(b)) => SegmentTriangleIntersectAsWritten(a, b)
    case (TrianglePrim(a), PointPrim(b)) => TrianglePointIntersect(a, b)
    case (TrianglePrim(a), SegmentPrim(b)) => TriangleSegmentIntersect(a, b)
    case (TrianglePrim(a), TrianglePrim(b)) => TriangleTriangleIntersect(a, b)
  }

  /** are_intersecting on shapes: shapes whose boxes are apart never intersect; otherwise
      the exact predicate of the two primitives decides. */
  function ShapesIntersect(dir: Directions, first: Shape, second: Shape): (r: bool)
    ensures r ==> AreOverlapping(first.box, second.box)
    ensures AreOverlapping(first.box, second.box) ==> r == PrimitivesIntersect(dir, first.primitive, second.primitive)
  {
    if AreOverlapping(first.box, second.box) then
      PrimitivesIntersect(dir, first.primitive, second.primitive)
    else
      false
  }

  /** Two primitives of different kinds, or two points, intersect in either order; so do
      the shapes that hold them. */
  lemma ShapesIntersectSymmetric(dir: Directions, first: Shape, second: Shape)
    requires (first.primitive.PointPrim? && second.primitive.PointPrim?) || first.primitive.Kind() != second.primitive.Kind()
    ensures PrimitivesIntersect(dir, first.primitive, second.primitive) == PrimitivesIntersect(dir, second.primitive, first.primitive)
    ensures ShapesIntersect(dir, first, second) == ShapesIntersect(dir, second, first)
  {
    OverlapSymmetric(first.box, second.box);
    if first.primitive.PointPrim? && second.primitive.PointPrim? {
      PointPointSymmetric(first.primitive.pt, second.primitive.pt);
    }
  }

  /** The box test is exact while point equality is tolerant: two points 0.0000005 apart
      compare equal, yet their boxes are apart, so the shapes do not intersect. */
  lemma BoxTestIsExact(dir: Directions)
    ensures PrimitivesIntersect(dir, PointPrim(Point3(0.0, 0.0, 0.0)), PointPrim(Point3(0.0000005, 0.0, 0.0)))
    ensures !ShapesIntersect(dir, MakeShape(PointPrim(Point3(0.0, 0.0, 0.0))), MakeShape(PointPrim(Point3(0.0000005, 0.0, 0.0))))
  {
  }
}
