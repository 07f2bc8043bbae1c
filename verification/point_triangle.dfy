/** Point-triangle intersection (include/intersection/point_triangle.hpp). */
module PointTriangle {
  import opened Comparison
  import opened Points
  import opened Vectors
  import opened Triangles
  import opened MagicProduct
  import opened SpaceToPlane

  /** Pt_Wrt_Tr: where a point lies with respect to a planar triangle. In_R1 and In_R2
      name the two kinds of outer region the 2D algorithm distinguishes: beyond one
      edge only, or beyond two edges (past a vertex). */
  datatype PtWrtTr = Inside | InVertex | OnSide | InR1 | InR2

  /** How many of three locations equal `l`. */
  function CountOf(l: Loc2D, l1: Loc2D, l2: Loc2D, l3: Loc2D): (n: nat)
    ensures n <= 3
  {
    (if l1 == l then 1 else 0) + (if l2 == l then 1 else 0) + (if l3 == l then 1 else 0)
  }

  /** deduce_pt_location: classifies a point by its three edge orientations, through the
      product and the sum of their integer codes. The contract is the same table read as
      counts of each location: inside all three edges, on two edge lines and inside the
      third (a vertex), on one edge line and on one side of both others, beyond one edge
      (or beyond all three, which only a clockwise triangle allows), or the rest. */
  function DeducePtLocation(l1: Loc2D, l2: Loc2D, l3: Loc2D): (loc: PtWrtTr)
    ensures loc == Inside <==> CountOf(Positive, l1, l2, l3) == 3
    ensures loc == InVertex <==> CountOf(Neutral, l1, l2, l3) == 2 && CountOf(Positive, l1, l2, l3) == 1
    ensures loc == OnSide <==>
      (CountOf(Neutral, l1, l2, l3) == 1 && (CountOf(Positive, l1, l2, l3) == 2 || CountOf(Negative, l1, l2, l3) == 2))
      || (CountOf(Neutral, l1, l2, l3) == 2 && CountOf(Negative, l1, l2, l3) == 1)
    ensures loc == InR1 <==>
      (CountOf(Negative, l1, l2, l3) == 1 && CountOf(Positive, l1, l2, l3) == 2)
      || CountOf(Negative, l1, l2, l3) == 3
    ensures loc == InR2 <==>
      (CountOf(Negative, l1, l2, l3) == 2 && CountOf(Positive, l1, l2, l3) == 1)
      || (CountOf(Neutral, l1, l2, l3) == 1 && CountOf(Positive, l1, l2, l3) == 1)
      || CountOf(Neutral, l1, l2, l3) == 3
  {
    if l1 == Positive && l2 == Positive && l3 == Positive then Inside
    else
      var mult := l1.Code() * l2.Code() * l3.Code();
      if mult < 0 then InR1
      else if mult > 0 then InR2
      else
        var sum := l1.Code() + l2.Code() + l3.Code();
        if sum == 0 then InR2
        else if sum == 1 then InVertex
        else OnSide
  }

  /** The classification depends only on how many edges give each location, so any
      relabelling of the edges gives the same answer. */
  lemma DeducePtLocationSymmetric(l1: Loc2D, l2: Loc2D, l3: Loc2D)
    ensures DeducePtLocation(l2, l3, l1) == DeducePtLocation(l1, l2, l3)
    ensures DeducePtLocation(l2, l1, l3) == DeducePtLocation(l1, l2, l3)
  {
    var a, b := DeducePtLocation(l1, l2, l3), DeducePtLocation(l2, l3, l1);
    assert forall l :: CountOf(l, l2, l3, l1) == CountOf(l, l1, l2, l3);
    assert forall l :: CountOf(l, l2, l1, l3) == CountOf(l, l1, l2, l3);
  }

  /** The location of a point in the plane of the triangle, computed on the projection
      along the triangle's axis with the projected triangle taken as it comes (its
      vertices are not reordered to be counter-clockwise). */
  function PlanarLocation(pt: Point3, tr: Triangle<Point3>): PtWrtTr
  {
    var (pt2, tr2) := PointTriangleToPlane(pt, tr);
    DeducePtLocation(Orient2D(tr2.P, tr2.Q, pt2), Orient2D(tr2.Q, tr2.R, pt2), Orient2D(tr2.R, tr2.P, pt2))
  }

  /** are_intersecting(pt, tr): the point must be in the triangle's plane, and its planar
      location must be neither outer region. */
  function PointTriangleIntersect(pt: Point3, tr: Triangle<Point3>): (r: bool)
    ensures Orient3D(tr.P, tr.Q, tr.R, pt) != On ==> !r
    ensures Orient3D(tr.P, tr.Q, tr.R, pt) == On ==>
      (r <==> PlanarLocation(pt, tr) in {Inside, InVertex, OnSide})
  {
    var ptLoc := Orient3D(tr.P, tr.Q, tr.R, pt);
    if ptLoc == On then
      var (pt2, tr2) := PointTriangleToPlane(pt, tr);
      var wrtPQ := Orient2D(tr2.P, tr2.Q, pt2);
      var wrtQR := Orient2D(tr2.Q, tr2.R, pt2);
      var wrtRP := Orient2D(tr2.R, tr2.P, pt2);
      var loc := DeducePtLocation(wrtPQ, wrtQR, wrtRP);
      loc != InR1 && loc != InR2
    else
      false
  }

  /** are_intersecting(tr, pt) forwards to the (pt, tr) overload. */
  function TrianglePointIntersect(tr: Triangle<Point3>, pt: Point3): (r: bool)
    ensures r == PointTriangleIntersect(pt, tr)
  {
    PointTriangleIntersect(pt, tr)
  }

  /** The projected triangle's own orientation. */
  function ProjectedOrientation(tr: Triangle<Point3>): Loc2D
  {
    var t := PointTriangleToPlane(tr.P, tr).1;
    Orient2D(t.P, t.Q, t.R)
  }

  /** A triangle's first vertex intersects it, in either orientation of its projection,
      unless the projection is flat; then all three edge tests are Neutral and the vertex
      is classified as outer. */
  lemma FirstVertexIntersects(tr: Triangle<Point3>)
    ensures PointTriangleIntersect(tr.P, tr) <==> ProjectedOrientation(tr) != Neutral
  {
    var (pt2, tr2) := PointTriangleToPlane(tr.P, tr);
    assert Det3(tr.P, tr.Q, tr.R, tr.P) == 0.0;
    Orient2DDegenerate(tr2.P, tr2.Q);
    Orient2DDegenerate(tr2.R, tr2.P);
    Orient2DSymmetries(tr2.P, tr2.Q, tr2.R);
  }

  /** Assembles the verdict for a point in the triangle's plane from the axis and the
      three edge orientations computed separately. */
  lemma PointTriangleByParts(pt: Point3, tr: Triangle<Point3>, a: Axis, l1: Loc2D, l2: Loc2D, l3: Loc2D)
    requires Orient3D(tr.P, tr.Q, tr.R, pt) == On
    requires TriangleAxis(tr) == a
    requires Orient2D(ProjectPoint(tr.P, a), ProjectPoint(tr.Q, a), ProjectPoint(pt, a)) == l1
    requires Orient2D(ProjectPoint(tr.Q, a), ProjectPoint(tr.R, a), ProjectPoint(pt, a)) == l2
    requires Orient2D(ProjectPoint(tr.R, a), ProjectPoint(tr.P, a), ProjectPoint(pt, a)) == l3
    ensures PointTriangleIntersect(pt, tr) <==> DeducePtLocation(l1, l2, l3) !in {InR1, InR2}
  {
  }

  /** The axis of a triangle lying in the plane z = 0 is z whenever the triangle is
      not flat. */
  lemma GroundTriangleAxis(tr: Triangle<Point3>)
    requires tr.P.z == 0.0 && tr.Q.z == 0.0 && tr.R.z == 0.0
    requires !IsZero(VectorProduct(FromPoints(tr.P, tr.Q), FromPoints(tr.P, tr.R)).z)
    ensures TriangleAxis(tr) == Z
  {
    var n := VectorProduct(FromPoints(tr.P, tr.Q), FromPoints(tr.P, tr.R));
    assert n.x == 0.0 && n.y == 0.0;
  }

  /** A point of the plane z = 0 is On the plane of a triangle lying in it. */
  lemma GroundPointIsOn(tr: Triangle<Point3>, pt: Point3)
    requires tr.P.z == 0.0 && tr.Q.z == 0.0 && tr.R.z == 0.0 && pt.z == 0.0
    ensures Orient3D(tr.P, tr.Q, tr.R, pt) == On
  {
    assert Det3(tr.P, tr.Q, tr.R, pt) == 0.0;
  }

  /** The verdict for a point and a non-flat triangle all lying in the plane z = 0 follows
      from the three edge orientations of the plain (x, y) coordinates. */
  lemma GroundVerdict(pt: Point3, tr: Triangle<Point3>, l1: Loc2D, l2: Loc2D, l3: Loc2D)
    requires tr.P.z == 0.0 && tr.Q.z == 0.0 && tr.R.z == 0.0 && pt.z == 0.0
    requires !IsZero(VectorProduct(FromPoints(tr.P, tr.Q), FromPoints(tr.P, tr.R)).z)
    requires Orient2D(Point2(tr.P.x, tr.P.y), Point2(tr.Q.x, tr.Q.y), Point2(pt.x, pt.y)) == l1
    requires Orient2D(Point2(tr.Q.x, tr.Q.y), Point2(tr.R.x, tr.R.y), Point2(pt.x, pt.y)) == l2
    requires Orient2D(Point2(tr.R.x, tr.R.y), Point2(tr.P.x, tr.P.y), Point2(pt.x, pt.y)) == l3
    ensures PointTriangleIntersect(pt, tr) <==> DeducePtLocation(l1, l2, l3) !in {InR1, InR2}
  {
    GroundTriangleAxis(tr);
    GroundPointIsOn(tr, pt);
    PointTriangleByParts(pt, tr, Z, l1, l2, l3);
  }

  /** The classifications the examples below rely on. */
  lemma DeduceExamples()
    ensures DeducePtLocation(Positive, Negative, Negative) == InR2
    ensures DeducePtLocation(Positive, Positive, Positive) == Inside
    ensures DeducePtLocation(Neutral, Positive, Neutral) == InVertex
    ensures DeducePtLocation(Neutral, Negative, Negative) == OnSide
    ensures DeducePtLocation(Negative, Negative, Negative) == InR1
  {
  }

  /** Test vectors of test/algorithm/src/point_triangle.cpp with the origin as the point,
      stated for every species since the predicate does not read it: out of the plane. */
  lemma PointOutOfPlaneExample(k: Species)
    ensures !PointTriangleIntersect(Point3(0.0, 0.0, 0.0),
      Triangle(Point3(1.0, 0.0, 0.0), Point3(0.0, 1.0, 0.0), Point3(1.0, 1.0, 5.0), k))
  {
    var tr := Triangle(Point3(1.0, 0.0, 0.0), Point3(0.0, 1.0, 0.0), Point3(1.0, 1.0, 5.0), k);
    assert Det3(tr.P, tr.Q, tr.R, Point3(0.0, 0.0, 0.0)) == -5.0;
  }

  /** In the plane but outside: beyond the edges QR and RP, in In_R2. */
  lemma PointOutsideExample(k: Species)
    ensures !PointTriangleIntersect(Point3(0.0, 0.0, 0.0),
      Triangle(Point3(1.0, 0.0, 0.0), Point3(0.0, 1.0, 0.0), Point3(1.0, 1.0, 0.0), k))
  {
    var tr := Triangle(Point3(1.0, 0.0, 0.0), Point3(0.0, 1.0, 0.0), Point3(1.0, 1.0, 0.0), k);
    assert FromPoints(tr.P, tr.Q) == Vector(-1.0, 1.0, 0.0);
    assert FromPoints(tr.P, tr.R) == Vector(0.0, 1.0, 0.0);
    assert VectorProduct(Vector(-1.0, 1.0, 0.0), Vector(0.0, 1.0, 0.0)).z == -1.0;
    assert Det2(Point2(1.0, 0.0), Point2(0.0, 1.0), Point2(0.0, 0.0)) == 1.0;
    assert Det2(Point2(0.0, 1.0), Point2(1.0, 1.0), Point2(0.0, 0.0)) == -1.0;
    assert Det2(Point2(1.0, 1.0), Point2(1.0, 0.0), Point2(0.0, 0.0)) == -1.0;
    DeduceExamples();
    GroundVerdict(Point3(0.0, 0.0, 0.0), tr, Positive, Negative, Negative);
  }

  /** In the interior of a counter-clockwise triangle. */
  lemma PointInteriorExample(k: Species)
    ensures PointTriangleIntersect(Point3(0.0, 0.0, 0.0),
      Triangle(Point3(3.0, 3.0, 0.0), Point3(-4.0, 4.0, 0.0), Point3(0.0, -11.0, 0.0), k))
  {
    var tr := Triangle(Point3(3.0, 3.0, 0.0), Point3(-4.0, 4.0, 0.0), Point3(0.0, -11.0, 0.0), k);
    assert FromPoints(tr.P, tr.Q) == Vector(-7.0, 1.0, 0.0);
    assert FromPoints(tr.P, tr.R) == Vector(-3.0, -14.0, 0.0);
    assert VectorProduct(Vector(-7.0, 1.0, 0.0), Vector(-3.0, -14.0, 0.0)).z == 101.0;
    assert Det2(Point2(3.0, 3.0), Point2(-4.0, 4.0), Point2(0.0, 0.0)) == 24.0;
    assert Det2(Point2(-4.0, 4.0), Point2(0.0, -11.0), Point2(0.0, 0.0)) == 44.0;
    assert Det2(Point2(0.0, -11.0), Point2(3.0, 3.0), Point2(0.0, 0.0)) == 33.0;
    DeduceExamples();
    GroundVerdict(Point3(0.0, 0.0, 0.0), tr, Positive, Positive, Positive);
  }

  /** The origin as the first vertex of a counter-clockwise triangle is In_Vertex. */
  lemma PointAtVertexExample(k: Species)
    ensures PointTriangleIntersect(Point3(0.0, 0.0, 0.0),
      Triangle(Point3(0.0, 0.0, 0.0), Point3(4.0, 12.0, 0.0), Point3(-2.0, 7.0, 0.0), k))
  {
    var tr := Triangle(Point3(0.0, 0.0, 0.0), Point3(4.0, 12.0, 0.0), Point3(-2.0, 7.0, 0.0), k);
    assert FromPoints(tr.P, tr.Q) == Vector(4.0, 12.0, 0.0);
    assert FromPoints(tr.P, tr.R) == Vector(-2.0, 7.0, 0.0);
    assert VectorProduct(Vector(4.0, 12.0, 0.0), Vector(-2.0, 7.0, 0.0)).z == 52.0;
    assert Det2(Point2(0.0, 0.0), Point2(4.0, 12.0), Point2(0.0, 0.0)) == 0.0;
    assert Det2(Point2(4.0, 12.0), Point2(-2.0, 7.0), Point2(0.0, 0.0)) == 52.0;
    assert Det2(Point2(-2.0, 7.0), Point2(0.0, 0.0), Point2(0.0, 0.0)) == 0.0;
    DeduceExamples();
    GroundVerdict(Point3(0.0, 0.0, 0.0), tr, Neutral, Positive, Neutral);
  }

  /** The origin on the edge PQ of a clockwise triangle: two Negative edges and one Neutral
      classify as On_Side, so the test's expectation holds despite the orientation. */
  lemma PointOnSideExample(k: Species)
    ensures PointTriangleIntersect(Point3(0.0, 0.0, 0.0),
      Triangle(Point3(-1.0, -1.0, 0.0), Point3(1.0, 1.0, 0.0), Point3(1.0, -1.0, 0.0), k))
  {
    var tr := Triangle(Point3(-1.0, -1.0, 0.0), Point3(1.0, 1.0, 0.0), Point3(1.0, -1.0, 0.0), k);
    assert FromPoints(tr.P, tr.Q) == Vector(2.0, 2.0, 0.0);
    assert FromPoints(tr.P, tr.R) == Vector(2.0, 0.0, 0.0);
    assert VectorProduct(Vector(2.0, 2.0, 0.0), Vector(2.0, 0.0, 0.0)).z == -4.0;
    DeduceExamples();
    OnSideOrientations();
    GroundVerdict(Point3(0.0, 0.0, 0.0), tr, Neutral, Negative, Negative);
  }

  /** The three edge orientations of the origin in the on-side example. */
  lemma OnSideOrientations()
    ensures Orient2D(Point2(-1.0, -1.0), Point2(1.0, 1.0), Point2(0.0, 0.0)) == Neutral
    ensures Orient2D(Point2(1.0, 1.0), Point2(1.0, -1.0), Point2(0.0, 0.0)) == Negative
    ensures Orient2D(Point2(1.0, -1.0), Point2(-1.0, -1.0), Point2(0.0, 0.0)) == Negative
  {
    Orient2DIs(-1.0, -1.0, 1.0, 1.0, 0.0, 0.0, Neutral);
    Orient2DIs(1.0, 1.0, 1.0, -1.0, 0.0, 0.0, Negative);
    Orient2DIs(1.0, -1.0, -1.0, -1.0, 0.0, 0.0, Negative);
  }

  /** The as-written behaviour for clockwise projections: a point strictly inside a
      triangle whose projection turns clockwise sees all three edges Negative, lands in
      In_R1 and is reported as not intersecting. */
  lemma ClockwiseInteriorIsRejected(k: Species)
    ensures !PointTriangleIntersect(Point3(0.0, 0.0, 0.0),
      Triangle(Point3(3.0, 3.0, 0.0), Point3(0.0, -11.0, 0.0), Point3(-4.0, 4.0, 0.0), k))
  {
    var tr := Triangle(Point3(3.0, 3.0, 0.0), Point3(0.0, -11.0, 0.0), Point3(-4.0, 4.0, 0.0), k);
    assert FromPoints(tr.P, tr.Q) == Vector(-3.0, -14.0, 0.0);
    assert FromPoints(tr.P, tr.R) == Vector(-7.0, 1.0, 0.0);
    assert VectorProduct(Vector(-3.0, -14.0, 0.0), Vector(-7.0, 1.0, 0.0)).z == -101.0;
    assert Det2(Point2(3.0, 3.0), Point2(0.0, -11.0), Point2(0.0, 0.0)) == -33.0;
    assert Det2(Point2(0.0, -11.0), Point2(-4.0, 4.0), Point2(0.0, 0.0)) == -44.0;
    assert Det2(Point2(-4.0, 4.0), Point2(3.0, 3.0), Point2(0.0, 0.0)) == -24.0;
    DeduceExamples();
    GroundVerdict(Point3(0.0, 0.0, 0.0), tr, Negative, Negative, Negative);
  }
}
