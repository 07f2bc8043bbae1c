/** Segment-triangle intersection (include/intersection/segment_triangle.hpp). */
module SegmentTriangle {
  import opened Comparison
  import opened Points
  import opened Vectors
  import opened Segments
  import opened Triangles
  import opened MagicProduct
  import opened SpaceToPlane
  import opened PointTriangle
  import opened Intersection2D

  /** Where the segment's endpoints lie with respect to the triangle's plane. */
  function EndLocations(seg: Segment<Point3>, tr: Triangle<Point3>): (Loc3D, Loc3D)
  {
    (Orient3D(tr.P, tr.Q, tr.R, seg.P), Orient3D(tr.P, tr.Q, tr.R, seg.Q))
  }

  /** The coplanar case: both primitives projected along the triangle's axis, the
      triangle made counter-clockwise, then the planar test. The source passes the two
      projections to are_intersecting_2D in the order (triangle, segment), which does not
      match that template's (other, triangle) parameters; the model takes the order the
      template declares. */
  function CoplanarIntersect(seg: Segment<Point3>, tr: Triangle<Point3>): (r: bool)
    ensures var (s2, t2) := SegmentTriangleToPlane(seg, tr);
      r == SegmentIntersect2D(s2, MakeCounterclockwise(t2))
  {
    var (s2, t2) := SegmentTriangleToPlane(seg, tr);
    SegmentIntersect2D(s2, MakeCounterclockwise(t2))
  }

  /** The crossing test: with `seg.P` on the upper side and `seg.Q` on the lower side of
      the plane, the segment meets the triangle when it passes on the inner side of every
      edge, that is when no edge sees the segment turning Above. */
  predicate CrossesInside(seg: Segment<Point3>, tr: Triangle<Point3>)
  {
    Orient3D(seg.P, tr.P, tr.Q, seg.Q) != Above
    && Orient3D(seg.P, tr.Q, tr.R, seg.Q) != Above
    && Orient3D(seg.P, tr.R, tr.P, seg.Q) != Above
  }

  /** The endpoint order the crossing test needs, as the source chooses it: the points
      are exchanged whenever Q is not Below. */
  function CrossingOrderAsWritten(seg: Segment<Point3>, tr: Triangle<Point3>): (s: Segment<Point3>)
    ensures s == seg || s == SwapPoints(seg)
    ensures EndLocations(seg, tr).1 == Below ==> s == seg
    ensures EndLocations(seg, tr).1 != Below ==> s == SwapPoints(seg)
  {
    if Orient3D(tr.P, tr.Q, tr.R, seg.Q) != Below then SwapPoints(seg) else seg
  }

  /** The endpoint order the crossing test needs: the higher endpoint first. Exchanging
      the points exactly when Q lies strictly higher than P achieves it. */
  function CrossingOrder(seg: Segment<Point3>, tr: Triangle<Point3>): (s: Segment<Point3>)
    ensures s == seg || s == SwapPoints(seg)
    ensures EndLocations(s, tr).0.Code() >= EndLocations(s, tr).1.Code()
  {
    var (lp, lq) := EndLocations(seg, tr);
    if lq.Code() > lp.Code() then SwapPoints(seg) else seg
  }

  /** are_intersecting(seg, tr) as written: endpoints strictly on one side miss the
      triangle, two endpoints on its plane go to the planar test, and otherwise the
      crossing test runs on the reordered segment. */
  function SegmentTriangleIntersectAsWritten(seg: Segment<Point3>, tr: Triangle<Point3>): (r: bool)
    ensures var (lp, lq) := EndLocations(seg, tr); lp == lq && lp != On ==> !r
    ensures var (lp, lq) := EndLocations(seg, tr); lp == lq == On ==> r == CoplanarIntersect(seg, tr)
    ensures var (lp, lq) := EndLocations(seg, tr); lp != lq ==> r == CrossesInside(CrossingOrderAsWritten(seg, tr), tr)
  {
    var (lp, lq) := EndLocations(seg, tr);
    if lp == lq then
      if lp == On then CoplanarIntersect(seg, tr) else false
    else CrossesInside(CrossingOrderAsWritten(seg, tr), tr)
  }

  /** are_intersecting(seg, tr) with the corrected endpoint order. */
  function SegmentTriangleIntersect(seg: Segment<Point3>, tr: Triangle<Point3>): (r: bool)
    ensures var (lp, lq) := EndLocations(seg, tr); lp == lq && lp != On ==> !r
    ensures var (lp, lq) := EndLocations(seg, tr); lp == lq == On ==> r == CoplanarIntersect(seg, tr)
    ensures var (lp, lq) := EndLocations(seg, tr); lp != lq ==> r == CrossesInside(CrossingOrder(seg, tr), tr)
  {
    var (lp, lq) := EndLocations(seg, tr);
    if lp == lq then
      if lp == On then CoplanarIntersect(seg, tr) else false
    else CrossesInside(CrossingOrder(seg, tr), tr)
  }

  /** are_intersecting(tr, seg) forwards to the (seg, tr) overload, as written; it
      agrees with the corrected order except for a segment running from above the plane
      to a point on it. */
  function TriangleSegmentIntersect(tr: Triangle<Point3>, seg: Segment<Point3>): (r: bool)
    ensures r == SegmentTriangleIntersectAsWritten(seg, tr)
    ensures EndLocations(seg, tr) != (Above, On) ==> r == SegmentTriangleIntersect(seg, tr)
  {
    SegmentTriangleIntersectAsWritten(seg, tr)
  }

  /** With the corrected order, a segment that reaches the triangle's plane from one
      side gets the same answer whichever endpoint is named first. */
  lemma CrossingIgnoresEndpointOrder(seg: Segment<Point3>, tr: Triangle<Point3>)
    requires EndLocations(seg, tr).0 != EndLocations(seg, tr).1
    ensures SegmentTriangleIntersect(SwapPoints(seg), tr) == SegmentTriangleIntersect(seg, tr)
  {
    SwapPointsInvolution(seg);
  }

  /** The source's order agrees with the corrected one except when P lies Above the
      plane and Q on it. */
  lemma AsWrittenDiffersOnlyAboveOn(seg: Segment<Point3>, tr: Triangle<Point3>)
    requires EndLocations(seg, tr) != (Above, On)
    ensures SegmentTriangleIntersectAsWritten(seg, tr) == SegmentTriangleIntersect(seg, tr)
  {
  }

  /** The triangle and the segment seg_3 of test/algorithm/src/segment_triangle.cpp,
      with the segment's endpoints named in the other order: the segment ends at the
      triangle's vertex R, yet the source's order puts that endpoint first, the crossing
      test reads the plane upside down, and the answer is no intersection. */
  lemma AsWrittenMissesTouchFromAbove()
    ensures var tr := Triangle(Point3(0.0, 1.0, 0.0), Point3(1.0, 0.0, 0.0), Point3(0.0, 0.0, 0.0), TriangleSpecies);
      var seg := Segment(Point3(1.0, -13.0, -6.0), Point3(0.0, 0.0, 0.0));
      seg.Q == tr.R
      && !SegmentTriangleIntersectAsWritten(seg, tr)
      && SegmentTriangleIntersectAsWritten(SwapPoints(seg), tr)
      && SegmentTriangleIntersect(seg, tr) && SegmentTriangleIntersect(SwapPoints(seg), tr)
  {
    var tr := Triangle(Point3(0.0, 1.0, 0.0), Point3(1.0, 0.0, 0.0), Point3(0.0, 0.0, 0.0), TriangleSpecies);
    var seg := Segment(Point3(1.0, -13.0, -6.0), Point3(0.0, 0.0, 0.0));
    TouchFromAboveLocations();
    assert EndLocations(seg, tr) == (Above, On);
    assert CrossingOrderAsWritten(seg, tr) == SwapPoints(seg);
    assert CrossingOrder(seg, tr) == seg;
  }

  /** The locations the touching example and seg_3 read. */
  lemma TouchFromAboveLocations()
    ensures Orient3D(Point3(0.0, 1.0, 0.0), Point3(1.0, 0.0, 0.0), Point3(0.0, 0.0, 0.0), Point3(1.0, -13.0, -6.0)) == Above
    ensures Orient3D(Point3(0.0, 1.0, 0.0), Point3(1.0, 0.0, 0.0), Point3(0.0, 0.0, 0.0), Point3(0.0, 0.0, 0.0)) == On
    ensures Orient3D(Point3(0.0, 0.0, 0.0), Point3(0.0, 1.0, 0.0), Point3(1.0, 0.0, 0.0), Point3(1.0, -13.0, -6.0)) == Above
    ensures Orient3D(Point3(1.0, -13.0, -6.0), Point3(0.0, 1.0, 0.0), Point3(1.0, 0.0, 0.0), Point3(0.0, 0.0, 0.0)) == Below
    ensures Orient3D(Point3(1.0, -13.0, -6.0), Point3(1.0, 0.0, 0.0), Point3(0.0, 0.0, 0.0), Point3(0.0, 0.0, 0.0)) == On
    ensures Orient3D(Point3(1.0, -13.0, -6.0), Point3(0.0, 0.0, 0.0), Point3(0.0, 1.0, 0.0), Point3(0.0, 0.0, 0.0)) == On
  {
    Orient3DIs(0.0, 1.0, 0.0, 1.0, 0.0, 0.0, 0.0, 0.0, 0.0, 1.0, -13.0, -6.0, Above);
    Orient3DIs(0.0, 1.0, 0.0, 1.0, 0.0, 0.0, 0.0, 0.0, 0.0, 0.0, 0.0, 0.0, On);
    Orient3DIs(0.0, 0.0, 0.0, 0.0, 1.0, 0.0, 1.0, 0.0, 0.0, 1.0, -13.0, -6.0, Above);
    Orient3DIs(1.0, -13.0, -6.0, 0.0, 1.0, 0.0, 1.0, 0.0, 0.0, 0.0, 0.0, 0.0, Below);
    Orient3DIs(1.0, -13.0, -6.0, 1.0, 0.0, 0.0, 0.0, 0.0, 0.0, 0.0, 0.0, 0.0, On);
    Orient3DIs(1.0, -13.0, -6.0, 0.0, 0.0, 0.0, 0.0, 1.0, 0.0, 0.0, 0.0, 0.0, On);
  }

  /** A segment and a non-flat triangle lying in the plane z = 0 are coplanar, and the
      planar test sees their plain (x, y) coordinates. */
  lemma GroundCoplanar(seg: Segment<Point3>, tr: Triangle<Point3>)
    requires seg.P.z == 0.0 && seg.Q.z == 0.0
    requires tr.P.z == 0.0 && tr.Q.z == 0.0 && tr.R.z == 0.0
    requires !IsZero(VectorProduct(FromPoints(tr.P, tr.Q), FromPoints(tr.P, tr.R)).z)
    ensures EndLocations(seg, tr) == (On, On)
    ensures SegmentTriangleIntersect(seg, tr)
      == SegmentIntersect2D(Segment(Point2(seg.P.x, seg.P.y), Point2(seg.Q.x, seg.Q.y)),
           MakeCounterclockwise(MakeTriangle2(Point2(tr.P.x, tr.P.y), Point2(tr.Q.x, tr.Q.y), Point2(tr.R.x, tr.R.y))))
  {
    GroundPointIsOn(tr, seg.P);
    GroundPointIsOn(tr, seg.Q);
    GroundTriangleAxis(tr);
  }

  /** The test triangle's normal points along z. */
  lemma TestTriangleNormal()
    ensures VectorProduct(FromPoints(Point3(0.0, 1.0, 0.0), Point3(1.0, 0.0, 0.0)),
                          FromPoints(Point3(0.0, 1.0, 0.0), Point3(0.0, 0.0, 0.0))).z == -1.0
  {
    assert FromPoints(Point3(0.0, 1.0, 0.0), Point3(1.0, 0.0, 0.0)) == Vector(1.0, -1.0, 0.0);
    assert FromPoints(Point3(0.0, 1.0, 0.0), Point3(0.0, 0.0, 0.0)) == Vector(0.0, -1.0, 0.0);
  }

  /** The projection of the test triangle is a proper triangle. */
  lemma TestTriangleProjectionKind()
    ensures Classify2(Point2(0.0, 1.0), Point2(1.0, 0.0), Point2(0.0, 0.0)) == TriangleSpecies
  {
    assert !AreEqual(0.0, 1.0);
    assert FromPoints2(Point2(0.0, 1.0), Point2(1.0, 0.0)) == Vector(1.0, -1.0, 0.0);
    assert FromPoints2(Point2(0.0, 1.0), Point2(0.0, 0.0)) == Vector(0.0, -1.0, 0.0);
    assert VectorProduct(Vector(1.0, -1.0, 0.0), Vector(0.0, -1.0, 0.0)).z == -1.0;
  }

  /** The projection of the test triangle, relabelled counter-clockwise. */
  lemma TestTriangleCounterclockwise()
    ensures MakeCounterclockwise(MakeTriangle2(Point2(0.0, 1.0), Point2(1.0, 0.0), Point2(0.0, 0.0)))
         == Triangle(Point2(0.0, 1.0), Point2(0.0, 0.0), Point2(1.0, 0.0), TriangleSpecies)
  {
    TestTriangleProjectionKind();
    Orient2DIs(0.0, 1.0, 1.0, 0.0, 0.0, 0.0, Negative);
  }

  /** The triangle of test/algorithm/src/segment_triangle.cpp is clockwise in the plane
      z = 0, so a segment of that plane is tested against its counter-clockwise relabelling. */
  lemma TestTriangleCoplanar(seg: Segment<Point3>)
    requires seg.P.z == 0.0 && seg.Q.z == 0.0
    ensures TriangleSegmentIntersect(Triangle(Point3(0.0, 1.0, 0.0), Point3(1.0, 0.0, 0.0), Point3(0.0, 0.0, 0.0), TriangleSpecies), seg)
      == SegmentIntersect2D(Segment(Point2(seg.P.x, seg.P.y), Point2(seg.Q.x, seg.Q.y)),
           Triangle(Point2(0.0, 1.0), Point2(0.0, 0.0), Point2(1.0, 0.0), TriangleSpecies))
  {
    var tr := Triangle(Point3(0.0, 1.0, 0.0), Point3(1.0, 0.0, 0.0), Point3(0.0, 0.0, 0.0), TriangleSpecies);
    var t2 := MakeTriangle2(Point2(0.0, 1.0), Point2(1.0, 0.0), Point2(0.0, 0.0));
    var s2 := Segment(Point2(seg.P.x, seg.P.y), Point2(seg.Q.x, seg.Q.y));
    assert SegmentTriangleIntersect(seg, tr) == SegmentIntersect2D(s2, MakeCounterclockwise(t2)) by {
      TestTriangleNormal();
      GroundCoplanar(seg, tr);
    }
    TestTriangleCounterclockwise();
  }

  /** test/algorithm/src/segment_triangle.cpp, seg_1: the segment lies on one side of the triangle's plane. */
  lemma AboveThePlaneExample()
    ensures !TriangleSegmentIntersect(Triangle(Point3(0.0, 1.0, 0.0), Point3(1.0, 0.0, 0.0), Point3(0.0, 0.0, 0.0), TriangleSpecies),
      Segment(Point3(0.3, 0.3, 1.0), Point3(0.3, 0.0, 2.0)))
  {
    AboveThePlaneLocations();
  }

  /** The locations the seg_1 example reads. */
  lemma AboveThePlaneLocations()
    ensures Orient3D(Point3(0.0, 1.0, 0.0), Point3(1.0, 0.0, 0.0), Point3(0.0, 0.0, 0.0), Point3(0.3, 0.3, 1.0)) == Below
    ensures Orient3D(Point3(0.0, 1.0, 0.0), Point3(1.0, 0.0, 0.0), Point3(0.0, 0.0, 0.0), Point3(0.3, 0.0, 2.0)) == Below
  {
    Orient3DIs(0.0, 1.0, 0.0, 1.0, 0.0, 0.0, 0.0, 0.0, 0.0, 0.3, 0.3, 1.0, Below);
    Orient3DIs(0.0, 1.0, 0.0, 1.0, 0.0, 0.0, 0.0, 0.0, 0.0, 0.3, 0.0, 2.0, Below);
  }

  /** test/algorithm/src/segment_triangle.cpp, seg_2: one end of the segment lies inside the triangle. */
  lemma EndInsideExample()
    ensures TriangleSegmentIntersect(Triangle(Point3(0.0, 1.0, 0.0), Point3(1.0, 0.0, 0.0), Point3(0.0, 0.0, 0.0), TriangleSpecies),
      Segment(Point3(0.1, 0.2, 0.0), Point3(4.0, -3.0, 2.0)))
  {
    EndInsideLocations();
  }

  /** The locations the seg_2 example reads. */
  lemma EndInsideLocations()
    ensures Orient3D(Point3(0.0, 1.0, 0.0), Point3(1.0, 0.0, 0.0), Point3(0.0, 0.0, 0.0), Point3(0.1, 0.2, 0.0)) == On
    ensures Orient3D(Point3(0.0, 1.0, 0.0), Point3(1.0, 0.0, 0.0), Point3(0.0, 0.0, 0.0), Point3(4.0, -3.0, 2.0)) == Below
    ensures Orient3D(Point3(0.1, 0.2, 0.0), Point3(0.0, 1.0, 0.0), Point3(1.0, 0.0, 0.0), Point3(4.0, -3.0, 2.0)) == Below
    ensures Orient3D(Point3(0.1, 0.2, 0.0), Point3(1.0, 0.0, 0.0), Point3(0.0, 0.0, 0.0), Point3(4.0, -3.0, 2.0)) == Below
    ensures Orient3D(Point3(0.1, 0.2, 0.0), Point3(0.0, 0.0, 0.0), Point3(0.0, 1.0, 0.0), Point3(4.0, -3.0, 2.0)) == Below
  {
    Orient3DIs(0.0, 1.0, 0.0, 1.0, 0.0, 0.0, 0.0, 0.0, 0.0, 0.1, 0.2, 0.0, On);
    Orient3DIs(0.0, 1.0, 0.0, 1.0, 0.0, 0.0, 0.0, 0.0, 0.0, 4.0, -3.0, 2.0, Below);
    Orient3DIs(0.1, 0.2, 0.0, 0.0, 1.0, 0.0, 1.0, 0.0, 0.0, 4.0, -3.0, 2.0, Below);
    Orient3DIs(0.1, 0.2, 0.0, 1.0, 0.0, 0.0, 0.0, 0.0, 0.0, 4.0, -3.0, 2.0, Below);
    Orient3DIs(0.1, 0.2, 0.0, 0.0, 0.0, 0.0, 0.0, 1.0, 0.0, 4.0, -3.0, 2.0, Below);
  }

  /** test/algorithm/src/segment_triangle.cpp, seg_3: one end of the segment is a vertex of the triangle. */
  lemma EndAtVertexExample()
    ensures TriangleSegmentIntersect(Triangle(Point3(0.0, 1.0, 0.0), Point3(1.0, 0.0, 0.0), Point3(0.0, 0.0, 0.0), TriangleSpecies),
      Segment(Point3(0.0, 0.0, 0.0), Point3(1.0, -13.0, -6.0)))
  {
    TouchFromAboveLocations();
  }

  /** test/algorithm/src/segment_triangle.cpp, seg_4: one end of the segment lies on a side of the triangle. */
  lemma EndOnSideExample()
    ensures TriangleSegmentIntersect(Triangle(Point3(0.0, 1.0, 0.0), Point3(1.0, 0.0, 0.0), Point3(0.0, 0.0, 0.0), TriangleSpecies),
      Segment(Point3(0.5, 0.0, 0.0), Point3(4.0, 11.3, 0.7)))
  {
    EndOnSideLocations();
  }

  /** The locations the seg_4 example reads. */
  lemma EndOnSideLocations()
    ensures Orient3D(Point3(0.0, 1.0, 0.0), Point3(1.0, 0.0, 0.0), Point3(0.0, 0.0, 0.0), Point3(0.5, 0.0, 0.0)) == On
    ensures Orient3D(Point3(0.0, 1.0, 0.0), Point3(1.0, 0.0, 0.0), Point3(0.0, 0.0, 0.0), Point3(4.0, 11.3, 0.7)) == Below
    ensures Orient3D(Point3(0.5, 0.0, 0.0), Point3(0.0, 1.0, 0.0), Point3(1.0, 0.0, 0.0), Point3(4.0, 11.3, 0.7)) == Below
    ensures Orient3D(Point3(0.5, 0.0, 0.0), Point3(1.0, 0.0, 0.0), Point3(0.0, 0.0, 0.0), Point3(4.0, 11.3, 0.7)) == On
    ensures Orient3D(Point3(0.5, 0.0, 0.0), Point3(0.0, 0.0, 0.0), Point3(0.0, 1.0, 0.0), Point3(4.0, 11.3, 0.7)) == Below
  {
    Orient3DIs(0.0, 1.0, 0.0, 1.0, 0.0, 0.0, 0.0, 0.0, 0.0, 0.5, 0.0, 0.0, On);
    Orient3DIs(0.0, 1.0, 0.0, 1.0, 0.0, 0.0, 0.0, 0.0, 0.0, 4.0, 11.3, 0.7, Below);
    Orient3DIs(0.5, 0.0, 0.0, 0.0, 1.0, 0.0, 1.0, 0.0, 0.0, 4.0, 11.3, 0.7, Below);
    Orient3DIs(0.5, 0.0, 0.0, 1.0, 0.0, 0.0, 0.0, 0.0, 0.0, 4.0, 11.3, 0.7, On);
    Orient3DIs(0.5, 0.0, 0.0, 0.0, 0.0, 0.0, 0.0, 1.0, 0.0, 4.0, 11.3, 0.7, Below);
  }

  /** test/algorithm/src/segment_triangle.cpp, seg_5: a vertex of the triangle lies inside the segment. */
  lemma VertexInsideSegmentExample()
    ensures TriangleSegmentIntersect(Triangle(Point3(0.0, 1.0, 0.0), Point3(1.0, 0.0, 0.0), Point3(0.0, 0.0, 0.0), TriangleSpecies),
      Segment(Point3(0.0, 0.0, -1.0), Point3(0.0, 0.0, 1.0)))
  {
    VertexInsideSegmentLocations();
  }

  /** The locations the seg_5 example reads. */
  lemma VertexInsideSegmentLocations()
    ensures Orient3D(Point3(0.0, 1.0, 0.0), Point3(1.0, 0.0, 0.0), Point3(0.0, 0.0, 0.0), Point3(0.0, 0.0, -1.0)) == Above
    ensures Orient3D(Point3(0.0, 1.0, 0.0), Point3(1.0, 0.0, 0.0), Point3(0.0, 0.0, 0.0), Point3(0.0, 0.0, 1.0)) == Below
    ensures Orient3D(Point3(0.0, 0.0, -1.0), Point3(0.0, 1.0, 0.0), Point3(1.0, 0.0, 0.0), Point3(0.0, 0.0, 1.0)) == Below
    ensures Orient3D(Point3(0.0, 0.0, -1.0), Point3(1.0, 0.0, 0.0), Point3(0.0, 0.0, 0.0), Point3(0.0, 0.0, 1.0)) == On
    ensures Orient3D(Point3(0.0, 0.0, -1.0), Point3(0.0, 0.0, 0.0), Point3(0.0, 1.0, 0.0), Point3(0.0, 0.0, 1.0)) == On
  {
    Orient3DIs(0.0, 1.0, 0.0, 1.0, 0.0, 0.0, 0.0, 0.0, 0.0, 0.0, 0.0, -1.0, Above);
    Orient3DIs(0.0, 1.0, 0.0, 1.0, 0.0, 0.0, 0.0, 0.0, 0.0, 0.0, 0.0, 1.0, Below);
    Orient3DIs(0.0, 0.0, -1.0, 0.0, 1.0, 0.0, 1.0, 0.0, 0.0, 0.0, 0.0, 1.0, Below);
    Orient3DIs(0.0, 0.0, -1.0, 1.0, 0.0, 0.0, 0.0, 0.0, 0.0, 0.0, 0.0, 1.0, On);
    Orient3DIs(0.0, 0.0, -1.0, 0.0, 0.0, 0.0, 0.0, 1.0, 0.0, 0.0, 0.0, 1.0, On);
  }

  /** test/algorithm/src/segment_triangle.cpp, seg_6: a side of the triangle crosses the inside of the segment. */
  lemma SideCrossesSegmentExample()
    ensures TriangleSegmentIntersect(Triangle(Point3(0.0, 1.0, 0.0), Point3(1.0, 0.0, 0.0), Point3(0.0, 0.0, 0.0), TriangleSpecies),
      Segment(Point3(0.5, 0.0, -1.0), Point3(0.5, 0.0, 1.0)))
  {
    SideCrossesSegmentLocations();
  }

  /** The locations the seg_6 example reads. */
  lemma SideCrossesSegmentLocations()
    ensures Orient3D(Point3(0.0, 1.0, 0.0), Point3(1.0, 0.0, 0.0), Point3(0.0, 0.0, 0.0), Point3(0.5, 0.0, -1.0)) == Above
    ensures Orient3D(Point3(0.0, 1.0, 0.0), Point3(1.0, 0.0, 0.0), Point3(0.0, 0.0, 0.0), Point3(0.5, 0.0, 1.0)) == Below
    ensures Orient3D(Point3(0.5, 0.0, -1.0), Point3(0.0, 1.0, 0.0), Point3(1.0, 0.0, 0.0), Point3(0.5, 0.0, 1.0)) == Below
    ensures Orient3D(Point3(0.5, 0.0, -1.0), Point3(1.0, 0.0, 0.0), Point3(0.0, 0.0, 0.0), Point3(0.5, 0.0, 1.0)) == On
    ensures Orient3D(Point3(0.5, 0.0, -1.0), Point3(0.0, 0.0, 0.0), Point3(0.0, 1.0, 0.0), Point3(0.5, 0.0, 1.0)) == Below
  {
    Orient3DIs(0.0, 1.0, 0.0, 1.0, 0.0, 0.0, 0.0, 0.0, 0.0, 0.5, 0.0, -1.0, Above);
    Orient3DIs(0.0, 1.0, 0.0, 1.0, 0.0, 0.0, 0.0, 0.0, 0.0, 0.5, 0.0, 1.0, Below);
    Orient3DIs(0.5, 0.0, -1.0, 0.0, 1.0, 0.0, 1.0, 0.0, 0.0, 0.5, 0.0, 1.0, Below);
    Orient3DIs(0.5, 0.0, -1.0, 1.0, 0.0, 0.0, 0.0, 0.0, 0.0, 0.5, 0.0, 1.0, On);
    Orient3DIs(0.5, 0.0, -1.0, 0.0, 0.0, 0.0, 0.0, 1.0, 0.0, 0.5, 0.0, 1.0, Below);
  }

  /** test/algorithm/src/segment_triangle.cpp, seg_7: the segment crosses the inside of the triangle. */
  lemma InteriorsCrossExample()
    ensures TriangleSegmentIntersect(Triangle(Point3(0.0, 1.0, 0.0), Point3(1.0, 0.0, 0.0), Point3(0.0, 0.0, 0.0), TriangleSpecies),
      Segment(Point3(0.3, 0.3, -1.0), Point3(0.3, 0.3, 1.0)))
  {
    InteriorsCrossLocations();
  }

  /** The locations the seg_7 example reads. */
  lemma InteriorsCrossLocations()
    ensures Orient3D(Point3(0.0, 1.0, 0.0), Point3(1.0, 0.0, 0.0), Point3(0.0, 0.0, 0.0), Point3(0.3, 0.3, -1.0)) == Above
    ensures Orient3D(Point3(0.0, 1.0, 0.0), Point3(1.0, 0.0, 0.0), Point3(0.0, 0.0, 0.0), Point3(0.3, 0.3, 1.0)) == Below
    ensures Orient3D(Point3(0.3, 0.3, -1.0), Point3(0.0, 1.0, 0.0), Point3(1.0, 0.0, 0.0), Point3(0.3, 0.3, 1.0)) == Below
    ensures Orient3D(Point3(0.3, 0.3, -1.0), Point3(1.0, 0.0, 0.0), Point3(0.0, 0.0, 0.0), Point3(0.3, 0.3, 1.0)) == Below
    ensures Orient3D(Point3(0.3, 0.3, -1.0), Point3(0.0, 0.0, 0.0), Point3(0.0, 1.0, 0.0), Point3(0.3, 0.3, 1.0)) == Below
  {
    Orient3DIs(0.0, 1.0, 0.0, 1.0, 0.0, 0.0, 0.0, 0.0, 0.0, 0.3, 0.3, -1.0, Above);
    Orient3DIs(0.0, 1.0, 0.0, 1.0, 0.0, 0.0, 0.0, 0.0, 0.0, 0.3, 0.3, 1.0, Below);
    Orient3DIs(0.3, 0.3, -1.0, 0.0, 1.0, 0.0, 1.0, 0.0, 0.0, 0.3, 0.3, 1.0, Below);
    Orient3DIs(0.3, 0.3, -1.0, 1.0, 0.0, 0.0, 0.0, 0.0, 0.0, 0.3, 0.3, 1.0, Below);
    Orient3DIs(0.3, 0.3, -1.0, 0.0, 0.0, 0.0, 0.0, 1.0, 0.0, 0.3, 0.3, 1.0, Below);
  }

  /** test/algorithm/src/segment_triangle.cpp, seg_8: coplanar, one end inside the triangle. */
  lemma CoplanarEndInsideExample()
    ensures TriangleSegmentIntersect(Triangle(Point3(0.0, 1.0, 0.0), Point3(1.0, 0.0, 0.0), Point3(0.0, 0.0, 0.0), TriangleSpecies),
      Segment(Point3(0.3, 0.3, 0.0), Point3(2.0, 2.0, 0.0)))
  {
    TestTriangleCoplanar(Segment(Point3(0.3, 0.3, 0.0), Point3(2.0, 2.0, 0.0)));
    CoplanarEndInsideOrientations();
  }

  /** The orientations the seg_8 example reads. */
  lemma CoplanarEndInsideOrientations()
    ensures Orient2D(Point2(0.0, 1.0), Point2(0.0, 0.0), Point2(0.3, 0.3)) == Positive
    ensures Orient2D(Point2(0.0, 0.0), Point2(1.0, 0.0), Point2(0.3, 0.3)) == Positive
    ensures Orient2D(Point2(1.0, 0.0), Point2(0.0, 1.0), Point2(0.3, 0.3)) == Positive
  {
    Orient2DIs(0.0, 1.0, 0.0, 0.0, 0.3, 0.3, Positive);
    Orient2DIs(0.0, 0.0, 1.0, 0.0, 0.3, 0.3, Positive);
    Orient2DIs(1.0, 0.0, 0.0, 1.0, 0.3, 0.3, Positive);
  }

  /** test/algorithm/src/segment_triangle.cpp, seg_9: coplanar, one end on a side. */
  lemma CoplanarEndOnSideExample()
    ensures TriangleSegmentIntersect(Triangle(Point3(0.0, 1.0, 0.0), Point3(1.0, 0.0, 0.0), Point3(0.0, 0.0, 0.0), TriangleSpecies),
      Segment(Point3(0.5, 0.0, 0.0), Point3(0.5, -2.0, 0.0)))
  {
    TestTriangleCoplanar(Segment(Point3(0.5, 0.0, 0.0), Point3(0.5, -2.0, 0.0)));
    CoplanarEndOnSideOrientations();
  }

  /** The orientations the seg_9 example reads. */
  lemma CoplanarEndOnSideOrientations()
    ensures Orient2D(Point2(0.0, 1.0), Point2(0.0, 0.0), Point2(0.5, 0.0)) == Positive
    ensures Orient2D(Point2(0.0, 0.0), Point2(1.0, 0.0), Point2(0.5, 0.0)) == Neutral
    ensures Orient2D(Point2(1.0, 0.0), Point2(0.0, 1.0), Point2(0.5, 0.0)) == Positive
  {
    Orient2DIs(0.0, 0.0, 1.0, 0.0, 0.5, 0.0, Neutral);
    Orient2DIs(0.0, 1.0, 0.0, 0.0, 0.5, 0.0, Positive);
    Orient2DIs(1.0, 0.0, 0.0, 1.0, 0.5, 0.0, Positive);
  }

  /** test/algorithm/src/segment_triangle.cpp, seg_10: coplanar, one end at a vertex. */
  lemma CoplanarEndAtVertexExample()
    ensures TriangleSegmentIntersect(Triangle(Point3(0.0, 1.0, 0.0), Point3(1.0, 0.0, 0.0), Point3(0.0, 0.0, 0.0), TriangleSpecies),
      Segment(Point3(1.0, 0.0, 0.0), Point3(2.0, 0.0, 0.0)))
  {
    TestTriangleCoplanar(Segment(Point3(1.0, 0.0, 0.0), Point3(2.0, 0.0, 0.0)));
    CoplanarEndAtVertexOrientations();
  }

  /** The orientations the seg_10 example reads. */
  lemma CoplanarEndAtVertexOrientations()
    ensures Orient2D(Point2(0.0, 1.0), Point2(0.0, 0.0), Point2(1.0, 0.0)) == Positive
    ensures Orient2D(Point2(0.0, 0.0), Point2(1.0, 0.0), Point2(1.0, 0.0)) == Neutral
    ensures Orient2D(Point2(1.0, 0.0), Point2(0.0, 1.0), Point2(1.0, 0.0)) == Neutral
  {
    Orient2DIs(0.0, 1.0, 0.0, 0.0, 1.0, 0.0, Positive);
    Orient2DIs(0.0, 0.0, 1.0, 0.0, 1.0, 0.0, Neutral);
    Orient2DIs(1.0, 0.0, 0.0, 1.0, 1.0, 0.0, Neutral);
  }

  /** test/algorithm/src/segment_triangle.cpp, seg_11: coplanar, both ends in region R1 of one edge. */
  lemma CoplanarBothInR1Example()
    ensures !TriangleSegmentIntersect(Triangle(Point3(0.0, 1.0, 0.0), Point3(1.0, 0.0, 0.0), Point3(0.0, 0.0, 0.0), TriangleSpecies),
      Segment(Point3(1.0, 1.0, 0.0), Point3(2.0, 2.0, 0.0)))
  {
    TestTriangleCoplanar(Segment(Point3(1.0, 1.0, 0.0), Point3(2.0, 2.0, 0.0)));
    CoplanarBothInR1Orientations();
  }

  /** The orientations the seg_11 example reads. */
  lemma CoplanarBothInR1Orientations()
    ensures Orient2D(Point2(0.0, 1.0), Point2(0.0, 0.0), Point2(1.0, 1.0)) == Positive
    ensures Orient2D(Point2(0.0, 0.0), Point2(1.0, 0.0), Point2(1.0, 1.0)) == Positive
    ensures Orient2D(Point2(1.0, 0.0), Point2(0.0, 1.0), Point2(1.0, 1.0)) == Negative
    ensures Orient2D(Point2(1.0, 0.0), Point2(0.0, 1.0), Point2(2.0, 2.0)) == Negative
  {
    Orient2DIs(0.0, 1.0, 0.0, 0.0, 1.0, 1.0, Positive);
    Orient2DIs(0.0, 0.0, 1.0, 0.0, 1.0, 1.0, Positive);
    Orient2DIs(1.0, 0.0, 0.0, 1.0, 1.0, 1.0, Negative);
    Orient2DIs(1.0, 0.0, 0.0, 1.0, 2.0, 2.0, Negative);
  }

  /** test/algorithm/src/segment_triangle.cpp, seg_12: coplanar, from region R1 to the side RP. */
  lemma CoplanarR1ToSideExample()
    ensures TriangleSegmentIntersect(Triangle(Point3(0.0, 1.0, 0.0), Point3(1.0, 0.0, 0.0), Point3(0.0, 0.0, 0.0), TriangleSpecies),
      Segment(Point3(1.0, 1.0, 0.0), Point3(0.5, 0.5, 0.0)))
  {
    TestTriangleCoplanar(Segment(Point3(1.0, 1.0, 0.0), Point3(0.5, 0.5, 0.0)));
    CoplanarR1ToSideOrientations();
  }

  /** The orientations the seg_12 example reads. */
  lemma CoplanarR1ToSideOrientations()
    ensures Orient2D(Point2(0.0, 1.0), Point2(0.0, 0.0), Point2(1.0, 1.0)) == Positive
    ensures Orient2D(Point2(0.0, 0.0), Point2(1.0, 0.0), Point2(1.0, 1.0)) == Positive
    ensures Orient2D(Point2(1.0, 0.0), Point2(0.0, 1.0), Point2(1.0, 1.0)) == Negative
    ensures Orient2D(Point2(1.0, 0.0), Point2(0.0, 1.0), Point2(0.5, 0.5)) == Neutral
    ensures Orient2D(Point2(1.0, 1.0), Point2(0.0, 1.0), Point2(0.5, 0.5)) == Positive
    ensures Orient2D(Point2(1.0, 1.0), Point2(1.0, 0.0), Point2(0.5, 0.5)) == Negative
  {
    Orient2DIs(0.0, 1.0, 0.0, 0.0, 1.0, 1.0, Positive);
    Orient2DIs(0.0, 0.0, 1.0, 0.0, 1.0, 1.0, Positive);
    Orient2DIs(1.0, 0.0, 0.0, 1.0, 1.0, 1.0, Negative);
    Orient2DIs(1.0, 0.0, 0.0, 1.0, 0.5, 0.5, Neutral);
    Orient2DIs(1.0, 1.0, 0.0, 1.0, 0.5, 0.5, Positive);
    Orient2DIs(1.0, 1.0, 1.0, 0.0, 0.5, 0.5, Negative);
  }

  /** test/algorithm/src/segment_triangle.cpp, seg_13: coplanar, from region R1 to region R12. */
  lemma CoplanarR1ToR12Example()
    ensures !TriangleSegmentIntersect(Triangle(Point3(0.0, 1.0, 0.0), Point3(1.0, 0.0, 0.0), Point3(0.0, 0.0, 0.0), TriangleSpecies),
      Segment(Point3(1.0, 1.0, 0.0), Point3(1.5, -1.0, 0.0)))
  {
    TestTriangleCoplanar(Segment(Point3(1.0, 1.0, 0.0), Point3(1.5, -1.0, 0.0)));
    CoplanarR1ToR12Orientations();
  }

  /** The orientations the seg_13 example reads. */
  lemma CoplanarR1ToR12Orientations()
    ensures Orient2D(Point2(0.0, 1.0), Point2(0.0, 0.0), Point2(1.0, 1.0)) == Positive
    ensures Orient2D(Point2(0.0, 0.0), Point2(1.0, 0.0), Point2(1.0, 1.0)) == Positive
    ensures Orient2D(Point2(1.0, 0.0), Point2(0.0, 1.0), Point2(1.0, 1.0)) == Negative
    ensures Orient2D(Point2(1.0, 0.0), Point2(0.0, 1.0), Point2(1.5, -1.0)) == Positive
    ensures Orient2D(Point2(1.0, 1.0), Point2(0.0, 1.0), Point2(1.5, -1.0)) == Positive
    ensures Orient2D(Point2(1.0, 1.0), Point2(1.0, 0.0), Point2(1.5, -1.0)) == Positive
  {
    Orient2DIs(0.0, 1.0, 0.0, 0.0, 1.0, 1.0, Positive);
    Orient2DIs(0.0, 0.0, 1.0, 0.0, 1.0, 1.0, Positive);
    Orient2DIs(1.0, 0.0, 0.0, 1.0, 1.0, 1.0, Negative);
    Orient2DIs(1.0, 0.0, 0.0, 1.0, 1.5, -1.0, Positive);
    Orient2DIs(1.0, 1.0, 0.0, 1.0, 1.5, -1.0, Positive);
    Orient2DIs(1.0, 1.0, 1.0, 0.0, 1.5, -1.0, Positive);
  }

  /** test/algorithm/src/segment_triangle.cpp, seg_14: coplanar, from region R1 across to region R13. */
  lemma CoplanarR1AcrossToR13Example()
    ensures TriangleSegmentIntersect(Triangle(Point3(0.0, 1.0, 0.0), Point3(1.0, 0.0, 0.0), Point3(0.0, 0.0, 0.0), TriangleSpecies),
      Segment(Point3(1.0, 1.0, 0.0), Point3(-1.0, -1.0, 0.0)))
  {
    TestTriangleCoplanar(Segment(Point3(1.0, 1.0, 0.0), Point3(-1.0, -1.0, 0.0)));
    CoplanarR1AcrossToR13Orientations();
  }

  /** The orientations the seg_14 example reads. */
  lemma CoplanarR1AcrossToR13Orientations()
    ensures Orient2D(Point2(0.0, 1.0), Point2(0.0, 0.0), Point2(1.0, 1.0)) == Positive
    ensures Orient2D(Point2(0.0, 0.0), Point2(1.0, 0.0), Point2(1.0, 1.0)) == Positive
    ensures Orient2D(Point2(1.0, 0.0), Point2(0.0, 1.0), Point2(1.0, 1.0)) == Negative
    ensures Orient2D(Point2(1.0, 0.0), Point2(0.0, 1.0), Point2(-1.0, -1.0)) == Positive
    ensures Orient2D(Point2(1.0, 1.0), Point2(0.0, 1.0), Point2(-1.0, -1.0)) == Positive
    ensures Orient2D(Point2(1.0, 1.0), Point2(1.0, 0.0), Point2(-1.0, -1.0)) == Negative
  {
    Orient2DIs(0.0, 1.0, 0.0, 0.0, 1.0, 1.0, Positive);
    Orient2DIs(0.0, 0.0, 1.0, 0.0, 1.0, 1.0, Positive);
    Orient2DIs(1.0, 0.0, 0.0, 1.0, 1.0, 1.0, Negative);
    Orient2DIs(1.0, 0.0, 0.0, 1.0, -1.0, -1.0, Positive);
    Orient2DIs(1.0, 1.0, 0.0, 1.0, -1.0, -1.0, Positive);
    Orient2DIs(1.0, 1.0, 1.0, 0.0, -1.0, -1.0, Negative);
  }

  /** test/algorithm/src/segment_triangle.cpp, seg_15: coplanar, from region R1 to region R14. */
  lemma CoplanarR1ToR14Example()
    ensures !TriangleSegmentIntersect(Triangle(Point3(0.0, 1.0, 0.0), Point3(1.0, 0.0, 0.0), Point3(0.0, 0.0, 0.0), TriangleSpecies),
      Segment(Point3(1.0, 1.0, 0.0), Point3(-1.0, 1.5, 0.0)))
  {
    TestTriangleCoplanar(Segment(Point3(1.0, 1.0, 0.0), Point3(-1.0, 1.5, 0.0)));
    CoplanarR1ToR14Orientations();
  }

  /** The orientations the seg_15 example reads. */
  lemma CoplanarR1ToR14Orientations()
    ensures Orient2D(Point2(0.0, 1.0), Point2(0.0, 0.0), Point2(1.0, 1.0)) == Positive
    ensures Orient2D(Point2(0.0, 0.0), Point2(1.0, 0.0), Point2(1.0, 1.0)) == Positive
    ensures Orient2D(Point2(1.0, 0.0), Point2(0.0, 1.0), Point2(1.0, 1.0)) == Negative
    ensures Orient2D(Point2(1.0, 0.0), Point2(0.0, 1.0), Point2(-1.0, 1.5)) == Positive
    ensures Orient2D(Point2(1.0, 1.0), Point2(0.0, 1.0), Point2(-1.0, 1.5)) == Negative
  {
    Orient2DIs(0.0, 1.0, 0.0, 0.0, 1.0, 1.0, Positive);
    Orient2DIs(0.0, 0.0, 1.0, 0.0, 1.0, 1.0, Positive);
    Orient2DIs(1.0, 0.0, 0.0, 1.0, 1.0, 1.0, Negative);
    Orient2DIs(1.0, 0.0, 0.0, 1.0, -1.0, 1.5, Positive);
    Orient2DIs(1.0, 1.0, 0.0, 1.0, -1.0, 1.5, Negative);
  }
}
