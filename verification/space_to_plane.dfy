/** Projection of coplanar primitives onto a coordinate plane
    (include/intersection/space_to_plane.hpp). The dropped axis is the one along which
    the plane's normal is largest, so that the projection does not degenerate. */
module SpaceToPlane {
  import opened Comparison
  import opened Points
  import opened Vectors
  import opened Segments
  import opened Triangles
  import opened MagicProduct

  /** Axises: the coordinate to set to zero. */
  datatype Axis = X | Y | Z

  /** The absolute value of a vector's component along an axis. */
  function AbsComponent(v: Vector, a: Axis): real
  {
    match a
    case X => Abs(v.x)
    case Y => Abs(v.y)
    case Z => Abs(v.z)
  }

  /** deduce_coordinate_to_set_zero: the axis along which the normal of the plane spanned
      by the two vectors is largest. The comparison with the third axis is tolerant only in
      the first test; the second uses the exact order. The source asserts, in debug builds
      only, that the vectors are not collinear; the model has no such precondition and
      picks an axis for collinear vectors too, as a release build does: never X, and Z
      when the normal is exactly zero. */
  function ChooseAxis(first: Vector, second: Vector): (a: Axis)
    ensures var n := VectorProduct(first, second);
      forall b: Axis :: !Greater(AbsComponent(n, b), AbsComponent(n, a))
    ensures AreCollinear(first, second) ==> a != X
    ensures VectorProduct(first, second) == Vector(0.0, 0.0, 0.0) ==> a == Z
  {
    var norm := VectorProduct(first, second);
    var x, y, z := Abs(norm.x), Abs(norm.y), Abs(norm.z);
    LargestUpToTolerance(x, y, z);
    if Greater(x, y) && Greater(x, z) then X
    else if y > z then Y
    else Z
  }

  /** The decision sequence of ChooseAxis picks a value no other value tolerantly exceeds. */
  lemma LargestUpToTolerance(x: real, y: real, z: real)
    requires x >= 0.0 && y >= 0.0 && z >= 0.0
    ensures Greater(x, y) && Greater(x, z) ==> !Greater(y, x) && !Greater(z, x)
    ensures !(Greater(x, y) && Greater(x, z)) && y > z ==> !Greater(x, y) && !Greater(z, y)
    ensures !(Greater(x, y) && Greater(x, z)) && !(y > z) ==> !Greater(x, z) && !Greater(y, z)
  {
    if !(Greater(x, y) && Greater(x, z)) && y > z && Greater(x, y) {
      CloserIsEqual(x, y, z);
    }
    if !(Greater(x, y) && Greater(x, z)) && !(y > z) && Greater(x, z) {
      FartherIsApart(x, y, z);
    }
  }

  /** For non-negative x > y > z, a value equal to x's far neighbour is equal to the near one. */
  lemma CloserIsEqual(x: real, y: real, z: real)
    requires x >= 0.0 && y >= 0.0 && z >= 0.0
    requires x > y > z && AreEqual(x, z)
    ensures AreEqual(x, y)
  {
  }

  /** For non-negative x > z >= y, a value apart from z is apart from y. */
  lemma FartherIsApart(x: real, y: real, z: real)
    requires x >= 0.0 && y >= 0.0 && z >= 0.0
    requires x > z >= y && !AreEqual(x, z)
    ensures !AreEqual(x, y)
  {
  }

  /** Swapping the two spanning vectors does not change the chosen axis. */
  lemma ChooseAxisSymmetric(first: Vector, second: Vector)
    ensures ChooseAxis(second, first) == ChooseAxis(first, second)
  {
    VectorProductAntisymmetric(first, second);
    var n, m := VectorProduct(first, second), VectorProduct(second, first);
    assert Abs(m.x) == Abs(n.x) && Abs(m.y) == Abs(n.y) && Abs(m.z) == Abs(n.z);
  }

  /** The coordinate of a point along an axis: what a projection along it drops. */
  function Dropped(pt: Point3, a: Axis): real
  {
    match a
    case X => pt.x
    case Y => pt.y
    case Z => pt.z
  }

  /** The point of space that projects to `p` along `a` and has coordinate `c` on `a`. */
  function Lift(p: Point2, a: Axis, c: real): Point3
  {
    match a
    case X => Point3(c, p.x, p.y)
    case Y => Point3(p.y, c, p.x)
    case Z => Point3(p.x, p.y, c)
  }

  /** project_point: drop the chosen coordinate, keeping the other two in cyclic order.
      Nothing but the dropped coordinate is lost: lifting back with it restores the point. */
  function ProjectPoint(pt: Point3, a: Axis): (r: Point2)
    ensures Lift(r, a, Dropped(pt, a)) == pt
  {
    match a
    case X => Point2(pt.y, pt.z)
    case Y => Point2(pt.z, pt.x)
    case Z => Point2(pt.x, pt.y)
  }

  /** project_segment: both endpoints, in order. */
  function ProjectSegment(seg: Segment<Point3>, a: Axis): (r: Segment<Point2>)
    ensures Lift(r.P, a, Dropped(seg.P, a)) == seg.P && Lift(r.Q, a, Dropped(seg.Q, a)) == seg.Q
  {
    Segment(ProjectPoint(seg.P, a), ProjectPoint(seg.Q, a))
  }

  /** project_triangle: the three vertices, in order, through the 2D constructor. */
  function ProjectTriangle(tr: Triangle<Point3>, a: Axis): (r: Triangle<Point2>)
    ensures Lift(r.P, a, Dropped(tr.P, a)) == tr.P && Lift(r.Q, a, Dropped(tr.Q, a)) == tr.Q
      && Lift(r.R, a, Dropped(tr.R, a)) == tr.R
    ensures r.kind == Classify2(r.P, r.Q, r.R)
  {
    MakeTriangle2(ProjectPoint(tr.P, a), ProjectPoint(tr.Q, a), ProjectPoint(tr.R, a))
  }

  /** The axis a triangle's own plane chooses: from the edge vectors PQ and PR. */
  function TriangleAxis(tr: Triangle<Point3>): Axis
  {
    ChooseAxis(FromPoints(tr.P, tr.Q), FromPoints(tr.P, tr.R))
  }

  /** space_transformation(pt, tr): both projected along the triangle's axis. */
  function PointTriangleToPlane(pt: Point3, tr: Triangle<Point3>): (r: (Point2, Triangle<Point2>))
    ensures r.0 == ProjectPoint(pt, TriangleAxis(tr))
    ensures r.1.P == ProjectPoint(tr.P, TriangleAxis(tr)) && r.1.Q == ProjectPoint(tr.Q, TriangleAxis(tr))
    ensures r.1.R == ProjectPoint(tr.R, TriangleAxis(tr))
  {
    var a := TriangleAxis(tr);
    (ProjectPoint(pt, a), ProjectTriangle(tr, a))
  }

  /** space_transformation(tr, pt) forwards to the (pt, tr) overload. */
  function TrianglePointToPlane(tr: Triangle<Point3>, pt: Point3): (r: (Point2, Triangle<Point2>))
    ensures r == PointTriangleToPlane(pt, tr)
  {
    PointTriangleToPlane(pt, tr)
  }

  /** space_transformation(seg_1, seg_2): both projected along the axis of the plane
      spanned by their direction vectors. */
  function SegmentsToPlane(first: Segment<Point3>, second: Segment<Point3>): (r: (Segment<Point2>, Segment<Point2>))
    ensures var a := ChooseAxis(FromPoints(first.P, first.Q), FromPoints(second.P, second.Q));
      r == (ProjectSegment(first, a), ProjectSegment(second, a))
  {
    var a := ChooseAxis(FromPoints(first.P, first.Q), FromPoints(second.P, second.Q));
    (ProjectSegment(first, a), ProjectSegment(second, a))
  }

  /** space_transformation(seg, tr): both projected along the triangle's axis. */
  function SegmentTriangleToPlane(seg: Segment<Point3>, tr: Triangle<Point3>): (r: (Segment<Point2>, Triangle<Point2>))
    ensures r.0 == ProjectSegment(seg, TriangleAxis(tr))
    ensures r.1 == ProjectTriangle(tr, TriangleAxis(tr))
  {
    var a := TriangleAxis(tr);
    (ProjectSegment(seg, a), ProjectTriangle(tr, a))
  }

  /** space_transformation(tr, seg) forwards to the (seg, tr) overload. */
  function TriangleSegmentToPlane(tr: Triangle<Point3>, seg: Segment<Point3>): (r: (Segment<Point2>, Triangle<Point2>))
    ensures r == SegmentTriangleToPlane(seg, tr)
  {
    SegmentTriangleToPlane(seg, tr)
  }

  /** space_transformation(tr_1, tr_2): both projected along the first triangle's axis. */
  function TrianglesToPlane(first: Triangle<Point3>, second: Triangle<Point3>): (r: (Triangle<Point2>, Triangle<Point2>))
    ensures r.0 == ProjectTriangle(first, TriangleAxis(first))
    ensures r.1 == ProjectTriangle(second, TriangleAxis(first))
  {
    var a := TriangleAxis(first);
    (ProjectTriangle(first, a), ProjectTriangle(second, a))
  }

  /** Swapping the two segments swaps the projected pair: the axis does not depend on
      their order. */
  lemma SegmentsToPlaneSymmetric(first: Segment<Point3>, second: Segment<Point3>)
    ensures SegmentsToPlane(second, first) == (SegmentsToPlane(first, second).1, SegmentsToPlane(first, second).0)
  {
    ChooseAxisSymmetric(FromPoints(first.P, first.Q), FromPoints(second.P, second.Q));
  }

  /** Exact difference of two points, the reference for the plane normal. */
  function Diff(from: Point3, to: Point3): Vector
  {
    Vector(to.x - from.x, to.y - from.y, to.z - from.z)
  }

  function Component(v: Vector, a: Axis): real
  {
    match a
    case X => v.x
    case Y => v.y
    case Z => v.z
  }

  /** Over exact reals the orientation determinant of a projected triangle is the component
      of its normal along the dropped axis: the cyclic order of the kept coordinates makes
      every projection orientation-preserving when seen from the positive side of that axis. */
  lemma ProjectionKeepsNormalComponent(P: Point3, Q: Point3, R: Point3, a: Axis)
    ensures Det2(ProjectPoint(P, a), ProjectPoint(Q, a), ProjectPoint(R, a))
         == Component(Cross(Diff(P, Q), Diff(P, R)), a)
  {
  }

  /** Projecting commutes with the vertex relabellings. */
  lemma ProjectionCommutesWithRelabelling(tr: Triangle<Point3>, a: Axis)
    ensures var p := ProjectTriangle(tr, a);
      var q := ProjectTriangle(SwapQR(tr), a);
      q.P == p.P && q.Q == p.R && q.R == p.Q
    ensures var p := ProjectTriangle(tr, a);
      var c := ProjectTriangle(SwapClockwise(tr), a);
      c.P == p.R && c.Q == p.P && c.R == p.Q
  {
  }
}
