/** Point-segment intersection (include/intersection/point_segment.hpp). */
module PointSegment {
  import opened Points
  import opened Vectors
  import opened Segments

  /** A point lies on a segment when it is on the segment's line (PM collinear with PQ)
      and the vectors from the two endpoints to it point in opposite directions. */
  function PointSegmentIntersect(dir: Directions, pt: Point3, seg: Segment<Point3>): (r: bool)
    ensures !AreCollinear(FromPoints(seg.P, seg.Q), FromPoints(seg.P, pt)) ==> !r
    ensures AreCollinear(FromPoints(seg.P, seg.Q), FromPoints(seg.P, pt))
            ==> (r <==> dir.opposite(FromPoints(seg.P, pt), FromPoints(seg.Q, pt)))
  {
    var PQ := FromPoints(seg.P, seg.Q);
    var PM := FromPoints(seg.P, pt);
    if AreCollinear(PQ, PM) then
      var QM := FromPoints(seg.Q, pt);
      dir.opposite(PM, QM)
    else
      false
  }

  /** are_intersecting(seg, pt) forwards to the (pt, seg) overload. */
  function SegmentPointIntersect(dir: Directions, seg: Segment<Point3>, pt: Point3): (r: bool)
    ensures r == PointSegmentIntersect(dir, pt, seg)
  {
    PointSegmentIntersect(dir, pt, seg)
  }

  /** A point whose vector from P is tolerantly zero is on the segment's line, so only the
      direction test decides. */
  lemma EndpointDecidedByDirection(dir: Directions, pt: Point3, seg: Segment<Point3>)
    requires Eq3(seg.P, pt)
    ensures PointSegmentIntersect(dir, pt, seg) == dir.opposite(Zero, FromPoints(seg.Q, pt))
  {
    CollinearWithSelfAndZero(FromPoints(seg.P, seg.Q));
  }

  /** Test vectors of test/algorithm/src/point_segment.cpp with the origin as the point:
      off the line it is rejected for any direction helpers. */
  lemma PointOffLineExample(dir: Directions)
    ensures !PointSegmentIntersect(dir, Point3(0.0, 0.0, 0.0),
                                   Segment(Point3(1.0, 0.0, 0.0), Point3(0.0, -1.0, 0.0)))
  {
    var seg := Segment(Point3(1.0, 0.0, 0.0), Point3(0.0, -1.0, 0.0));
    assert FromPoints(seg.P, seg.Q) == Vector(-1.0, -1.0, 0.0);
    assert FromPoints(seg.P, Point3(0.0, 0.0, 0.0)) == Vector(-1.0, 0.0, 0.0);
    assert VectorProduct(Vector(-1.0, -1.0, 0.0), Vector(-1.0, 0.0, 0.0)).z == -1.0;
  }

  /** On the line, the verdict is the direction helper's on the two endpoint vectors
      (the segment through the origin, and the one beyond it). */
  lemma PointOnLineExamples(dir: Directions)
    ensures PointSegmentIntersect(dir, Point3(0.0, 0.0, 0.0),
                                  Segment(Point3(1.0, 1.0, 0.0), Point3(3.0, 3.0, 0.0)))
            == dir.opposite(Vector(-1.0, -1.0, 0.0), Vector(-3.0, -3.0, 0.0))
    ensures PointSegmentIntersect(dir, Point3(0.0, 0.0, 0.0),
                                  Segment(Point3(-6.0, -6.0, 0.0), Point3(3.0, 3.0, 0.0)))
            == dir.opposite(Vector(6.0, 6.0, 0.0), Vector(-3.0, -3.0, 0.0))
  {
    var o := Point3(0.0, 0.0, 0.0);
    assert FromPoints(Point3(1.0, 1.0, 0.0), Point3(3.0, 3.0, 0.0)) == Vector(2.0, 2.0, 0.0);
    assert FromPoints(Point3(1.0, 1.0, 0.0), o) == Vector(-1.0, -1.0, 0.0);
    assert FromPoints(Point3(3.0, 3.0, 0.0), o) == Vector(-3.0, -3.0, 0.0);
    CollinearIfProductsEqual(Vector(2.0, 2.0, 0.0), Vector(-1.0, -1.0, 0.0));
    assert FromPoints(Point3(-6.0, -6.0, 0.0), Point3(3.0, 3.0, 0.0)) == Vector(9.0, 9.0, 0.0);
    assert FromPoints(Point3(-6.0, -6.0, 0.0), o) == Vector(6.0, 6.0, 0.0);
    CollinearIfProductsEqual(Vector(9.0, 9.0, 0.0), Vector(6.0, 6.0, 0.0));
  }
}
