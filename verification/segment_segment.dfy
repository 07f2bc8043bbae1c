/** Segment-segment intersection (include/intersection/segment_segment.hpp). */
module SegmentSegment {
  import opened Comparison
  import opened Points
  import opened Vectors
  import opened Segments
  import opened MagicProduct
  import opened SpaceToPlane

  /** Both endpoints of `b` lie strictly on the same side of the line through `a`. */
  predicate OneSide(a: Segment<Point2>, b: Segment<Point2>)
  {
    var lp, lq := Orient2D(a.P, a.Q, b.P), Orient2D(a.P, a.Q, b.Q);
    (lp == Positive && lq == Positive) || (lp == Negative && lq == Negative)
  }

  /** The product of two location codes is positive exactly when both are the same
      strict side. */
  lemma CodeProductPositive(l1: Loc2D, l2: Loc2D)
    ensures l1.Code() * l2.Code() > 0 <==>
      (l1 == Positive && l2 == Positive) || (l1 == Negative && l2 == Negative)
  {
  }

  /** The planar part of are_intersecting(seg, seg): each segment's endpoints must not be
      strictly on one side of the other's line. The source tests this through the product
      of the two orientation codes. */
  function Intersect2D(a: Segment<Point2>, b: Segment<Point2>): (r: bool)
    ensures r <==> !OneSide(a, b) && !OneSide(b, a)
  {
    var mult1 := Orient2D(a.P, a.Q, b.P).Code() * Orient2D(a.P, a.Q, b.Q).Code();
    CodeProductPositive(Orient2D(a.P, a.Q, b.P), Orient2D(a.P, a.Q, b.Q));
    if mult1 > 0 then false
    else
      var mult2 := Orient2D(b.P, b.Q, a.P).Code() * Orient2D(b.P, b.Q, a.Q).Code();
      CodeProductPositive(Orient2D(b.P, b.Q, a.P), Orient2D(b.P, b.Q, a.Q));
      mult2 <= 0
  }

  /** The test is symmetric in its two segments. */
  lemma Intersect2DSymmetric(a: Segment<Point2>, b: Segment<Point2>)
    ensures Intersect2D(a, b) == Intersect2D(b, a)
  {
  }

  /** Segments sharing an endpoint pass the planar test, whichever endpoints coincide. */
  lemma SharedEndpointIntersects2D(a: Segment<Point2>, b: Segment<Point2>)
    requires a.P == b.P || a.P == b.Q || a.Q == b.P || a.Q == b.Q
    ensures Intersect2D(a, b)
  {
    Orient2DDegenerate(a.P, a.Q);
    Orient2DDegenerate(b.P, b.Q);
  }

  /** The coplanarity test of the source: P1Q1, P2Q2 and P1Q2 are coplanar. */
  predicate Coplanar(first: Segment<Point3>, second: Segment<Point3>)
  {
    AreCoplanar(FromPoints(first.P, first.Q), FromPoints(second.P, second.Q),
                FromPoints(first.P, second.Q))
  }

  /** The two segments lie on parallel lines. */
  predicate Parallel(first: Segment<Point3>, second: Segment<Point3>)
  {
    AreCollinear(FromPoints(first.P, first.Q), FromPoints(second.P, second.Q))
  }

  /** The decision on a common line, from the directions of P1Q1, P2Q2, P1Q2 and P2Q1:
      for equally directed segments P1Q2 and P2Q1 must be equally directed, otherwise
      opposite. */
  predicate OverlapOnLine(dir: Directions, first: Segment<Point3>, second: Segment<Point3>)
  {
    var p1q1, p2q2 := FromPoints(first.P, first.Q), FromPoints(second.P, second.Q);
    var p1q2, p2q1 := FromPoints(first.P, second.Q), FromPoints(second.P, first.Q);
    if dir.codirectional(p1q1, p2q2) then dir.codirectional(p1q2, p2q1)
    else dir.opposite(p1q2, p2q1)
  }

  /** are_intersecting(seg, seg): segments off a common plane never intersect; segments
      on parallel lines intersect only when the lines coincide and the direction test
      says they overlap; otherwise the projections onto the chosen plane decide. */
  function SegmentSegmentIntersect(dir: Directions, first: Segment<Point3>, second: Segment<Point3>): (r: bool)
    ensures !Coplanar(first, second) ==> !r
    ensures Coplanar(first, second) && Parallel(first, second) ==>
      (r <==> AreCollinear(FromPoints(first.P, first.Q), FromPoints(first.P, second.Q))
              && OverlapOnLine(dir, first, second))
    ensures Coplanar(first, second) && !Parallel(first, second) ==>
      (r <==> var (a, b) := SegmentsToPlane(first, second); !OneSide(a, b) && !OneSide(b, a))
  {
    var p1q1 := FromPoints(first.P, first.Q);
    var p2q2 := FromPoints(second.P, second.Q);
    var p1q2 := FromPoints(first.P, second.Q);
    if !AreCoplanar(p1q1, p2q2, p1q2) then false
    else if AreCollinear(p1q1, p2q2) then
      if AreCollinear(p1q1, p1q2) then
        var p2q1 := FromPoints(second.P, first.Q);
        if dir.codirectional(p1q1, p2q2) then dir.codirectional(p1q2, p2q1)
        else dir.opposite(p1q2, p2q1)
      else false
    else
      var (a, b) := SegmentsToPlane(first, second);
      Intersect2D(a, b)
  }

  /** When the segments are not parallel and pass the coplanarity test in both orders,
      the answer does not depend on their order: both calls project onto the same plane
      and the planar test is symmetric. */
  lemma SegmentSegmentSymmetric(dir: Directions, first: Segment<Point3>, second: Segment<Point3>)
    requires Coplanar(first, second) && Coplanar(second, first)
    requires !Parallel(first, second)
    ensures SegmentSegmentIntersect(dir, first, second) == SegmentSegmentIntersect(dir, second, first)
  {
    VectorProductAntisymmetric(FromPoints(first.P, first.Q), FromPoints(second.P, second.Q));
    SegmentsToPlaneSymmetric(first, second);
    var (a, b) := SegmentsToPlane(first, second);
    Intersect2DSymmetric(a, b);
  }

  /** Non-parallel coplanar segments with a common endpoint intersect. */
  lemma SharedEndpointIntersects(dir: Directions, first: Segment<Point3>, second: Segment<Point3>)
    requires Coplanar(first, second) && !Parallel(first, second)
    requires first.P == second.P || first.P == second.Q || first.Q == second.P || first.Q == second.Q
    ensures SegmentSegmentIntersect(dir, first, second)
  {
    var (a, b) := SegmentsToPlane(first, second);
    SharedEndpointIntersects2D(a, b);
  }

  /** For segments in the plane z = 0 whose directions are not parallel up to tolerance,
      the verdict is the planar test on the plain (x, y) coordinates. */
  lemma GroundSegments(dir: Directions, first: Segment<Point3>, second: Segment<Point3>)
    requires first.P.z == 0.0 && first.Q.z == 0.0 && second.P.z == 0.0 && second.Q.z == 0.0
    requires !IsZero(VectorProduct(FromPoints(first.P, first.Q), FromPoints(second.P, second.Q)).z)
    ensures SegmentSegmentIntersect(dir, first, second) <==>
      Intersect2D(Segment(Point2(first.P.x, first.P.y), Point2(first.Q.x, first.Q.y)),
                  Segment(Point2(second.P.x, second.P.y), Point2(second.Q.x, second.Q.y)))
  {
    var p1q1 := FromPoints(first.P, first.Q);
    var p2q2 := FromPoints(second.P, second.Q);
    var p1q2 := FromPoints(first.P, second.Q);
    var n := VectorProduct(p2q2, p1q2);
    assert n.x == 0.0 && n.y == 0.0;
    assert TripleProduct(p1q1, p2q2, p1q2) == 0.0;
    var m := VectorProduct(p1q1, p2q2);
    assert m.x == 0.0 && m.y == 0.0;
    assert ChooseAxis(p1q1, p2q2) == Z;
  }

  /** test/algorithm/src/segment_segment.cpp, seg_1: segments on skew lines. */
  lemma SkewLinesExample(dir: Directions)
    ensures !SegmentSegmentIntersect(dir, Segment(Point3(-1.0, 0.0, 0.0), Point3(1.0, 0.0, 0.0)),
      Segment(Point3(0.0, -1.0, 2.0), Point3(0.0, 1.0, 2.0)))
    ensures !SegmentSegmentIntersect(dir, Segment(Point3(0.0, -1.0, 2.0), Point3(0.0, 1.0, 2.0)),
      Segment(Point3(-1.0, 0.0, 0.0), Point3(1.0, 0.0, 0.0)))
  {
    var s, t := Segment(Point3(-1.0, 0.0, 0.0), Point3(1.0, 0.0, 0.0)),
      Segment(Point3(0.0, -1.0, 2.0), Point3(0.0, 1.0, 2.0));
    assert FromPoints(s.P, s.Q) == Vector(2.0, 0.0, 0.0);
    assert FromPoints(t.P, t.Q) == Vector(0.0, 2.0, 0.0);
    assert FromPoints(s.P, t.Q) == Vector(1.0, 1.0, 2.0);
    assert FromPoints(t.P, s.Q) == Vector(1.0, 1.0, -2.0);
    assert VectorProduct(Vector(0.0, 2.0, 0.0), Vector(1.0, 1.0, 2.0)) == Vector(4.0, 0.0, -2.0);
    assert VectorProduct(Vector(2.0, 0.0, 0.0), Vector(1.0, 1.0, -2.0)) == Vector(0.0, 4.0, 2.0);
    assert ScalarProduct(Vector(2.0, 0.0, 0.0), Vector(4.0, 0.0, -2.0)) == 8.0;
    assert ScalarProduct(Vector(0.0, 2.0, 0.0), Vector(0.0, 4.0, 2.0)) == 8.0;
  }

  /** test/algorithm/src/segment_segment.cpp, seg_7: segments on distinct parallel lines,
      rejected before any direction test. */
  lemma ParallelLinesExample(dir: Directions)
    ensures !SegmentSegmentIntersect(dir, Segment(Point3(-1.0, 0.0, 0.0), Point3(1.0, 0.0, 0.0)),
      Segment(Point3(-6.0, -9.0, 0.0), Point3(3.0, -9.0, 0.0)))
    ensures !SegmentSegmentIntersect(dir, Segment(Point3(-6.0, -9.0, 0.0), Point3(3.0, -9.0, 0.0)),
      Segment(Point3(-1.0, 0.0, 0.0), Point3(1.0, 0.0, 0.0)))
  {
    var s, t := Segment(Point3(-1.0, 0.0, 0.0), Point3(1.0, 0.0, 0.0)),
      Segment(Point3(-6.0, -9.0, 0.0), Point3(3.0, -9.0, 0.0));
    assert FromPoints(s.P, s.Q) == Vector(2.0, 0.0, 0.0);
    assert FromPoints(t.P, t.Q) == Vector(9.0, 0.0, 0.0);
    assert FromPoints(s.P, t.Q) == Vector(4.0, -9.0, 0.0);
    assert FromPoints(t.P, s.Q) == Vector(7.0, 9.0, 0.0);
    assert VectorProduct(Vector(9.0, 0.0, 0.0), Vector(4.0, -9.0, 0.0)) == Vector(0.0, 0.0, -81.0);
    assert VectorProduct(Vector(2.0, 0.0, 0.0), Vector(7.0, 9.0, 0.0)) == Vector(0.0, 0.0, 18.0);
    assert VectorProduct(Vector(2.0, 0.0, 0.0), Vector(9.0, 0.0, 0.0)) == Zero;
    assert VectorProduct(Vector(9.0, 0.0, 0.0), Vector(2.0, 0.0, 0.0)) == Zero;
    assert VectorProduct(Vector(2.0, 0.0, 0.0), Vector(4.0, -9.0, 0.0)).z == -18.0;
    assert VectorProduct(Vector(9.0, 0.0, 0.0), Vector(7.0, 9.0, 0.0)).z == 81.0;
  }

  /** test/algorithm/src/segment_segment.cpp, seg_2: one segment holds the lines' common point, the other does not. */
  lemma LinesMeetOutsideExample(dir: Directions)
    ensures !SegmentSegmentIntersect(dir, Segment(Point3(-1.0, 0.0, 0.0), Point3(1.0, 0.0, 0.0)),
      Segment(Point3(6.0, -5.0, 0.0), Point3(0.0, 5.0, 0.0)))
    ensures !SegmentSegmentIntersect(dir, Segment(Point3(6.0, -5.0, 0.0), Point3(0.0, 5.0, 0.0)),
      Segment(Point3(-1.0, 0.0, 0.0), Point3(1.0, 0.0, 0.0)))
  {
    var s, t := Segment(Point3(-1.0, 0.0, 0.0), Point3(1.0, 0.0, 0.0)),
      Segment(Point3(6.0, -5.0, 0.0), Point3(0.0, 5.0, 0.0));
    assert FromPoints(s.P, s.Q) == Vector(2.0, 0.0, 0.0);
    assert FromPoints(t.P, t.Q) == Vector(-6.0, 10.0, 0.0);
    assert VectorProduct(Vector(2.0, 0.0, 0.0), Vector(-6.0, 10.0, 0.0)).z == 20.0;
    assert VectorProduct(Vector(-6.0, 10.0, 0.0), Vector(2.0, 0.0, 0.0)).z == -20.0;
    GroundSegments(dir, s, t);
    GroundSegments(dir, t, s);
    LinesMeetOutsideOrientations();
  }

  /** The four orientations of the seg_2 example. */
  lemma LinesMeetOutsideOrientations()
    ensures Orient2D(Point2(-1.0, 0.0), Point2(1.0, 0.0), Point2(6.0, -5.0)) == Negative
    ensures Orient2D(Point2(-1.0, 0.0), Point2(1.0, 0.0), Point2(0.0, 5.0)) == Positive
    ensures Orient2D(Point2(6.0, -5.0), Point2(0.0, 5.0), Point2(-1.0, 0.0)) == Positive
    ensures Orient2D(Point2(6.0, -5.0), Point2(0.0, 5.0), Point2(1.0, 0.0)) == Positive
  {
    Orient2DIs(-1.0, 0.0, 1.0, 0.0, 6.0, -5.0, Negative);
    Orient2DIs(-1.0, 0.0, 1.0, 0.0, 0.0, 5.0, Positive);
    Orient2DIs(6.0, -5.0, 0.0, 5.0, -1.0, 0.0, Positive);
    Orient2DIs(6.0, -5.0, 0.0, 5.0, 1.0, 0.0, Positive);
  }

  /** test/algorithm/src/segment_segment.cpp, seg_3: neither segment holds the lines' common point. */
  lemma LinesMeetBeyondBothExample(dir: Directions)
    ensures !SegmentSegmentIntersect(dir, Segment(Point3(-1.0, 0.0, 0.0), Point3(1.0, 0.0, 0.0)),
      Segment(Point3(3.0, 1.0, 0.0), Point3(0.0, 6.0, 0.0)))
    ensures !SegmentSegmentIntersect(dir, Segment(Point3(3.0, 1.0, 0.0), Point3(0.0, 6.0, 0.0)),
      Segment(Point3(-1.0, 0.0, 0.0), Point3(1.0, 0.0, 0.0)))
  {
    var s, t := Segment(Point3(-1.0, 0.0, 0.0), Point3(1.0, 0.0, 0.0)),
      Segment(Point3(3.0, 1.0, 0.0), Point3(0.0, 6.0, 0.0));
    assert FromPoints(s.P, s.Q) == Vector(2.0, 0.0, 0.0);
    assert FromPoints(t.P, t.Q) == Vector(-3.0, 5.0, 0.0);
    assert VectorProduct(Vector(2.0, 0.0, 0.0), Vector(-3.0, 5.0, 0.0)).z == 10.0;
    assert VectorProduct(Vector(-3.0, 5.0, 0.0), Vector(2.0, 0.0, 0.0)).z == -10.0;
    GroundSegments(dir, s, t);
    GroundSegments(dir, t, s);
    LinesMeetBeyondBothOrientations();
  }

  /** The four orientations of the seg_3 example. */
  lemma LinesMeetBeyondBothOrientations()
    ensures Orient2D(Point2(-1.0, 0.0), Point2(1.0, 0.0), Point2(3.0, 1.0)) == Positive
    ensures Orient2D(Point2(-1.0, 0.0), Point2(1.0, 0.0), Point2(0.0, 6.0)) == Positive
    ensures Orient2D(Point2(3.0, 1.0), Point2(0.0, 6.0), Point2(-1.0, 0.0)) == Positive
    ensures Orient2D(Point2(3.0, 1.0), Point2(0.0, 6.0), Point2(1.0, 0.0)) == Positive
  {
    Orient2DIs(-1.0, 0.0, 1.0, 0.0, 3.0, 1.0, Positive);
    Orient2DIs(-1.0, 0.0, 1.0, 0.0, 0.0, 6.0, Positive);
    Orient2DIs(3.0, 1.0, 0.0, 6.0, -1.0, 0.0, Positive);
    Orient2DIs(3.0, 1.0, 0.0, 6.0, 1.0, 0.0, Positive);
  }

  /** test/algorithm/src/segment_segment.cpp, seg_4: an end of one segment is an end of the other. */
  lemma CommonEndExample(dir: Directions)
    ensures SegmentSegmentIntersect(dir, Segment(Point3(-1.0, 0.0, 0.0), Point3(1.0, 0.0, 0.0)),
      Segment(Point3(1.0, 0.0, 0.0), Point3(1.0, 7.0, 0.0)))
    ensures SegmentSegmentIntersect(dir, Segment(Point3(1.0, 0.0, 0.0), Point3(1.0, 7.0, 0.0)),
      Segment(Point3(-1.0, 0.0, 0.0), Point3(1.0, 0.0, 0.0)))
  {
    var s, t := Segment(Point3(-1.0, 0.0, 0.0), Point3(1.0, 0.0, 0.0)),
      Segment(Point3(1.0, 0.0, 0.0), Point3(1.0, 7.0, 0.0));
    assert FromPoints(s.P, s.Q) == Vector(2.0, 0.0, 0.0);
    assert FromPoints(t.P, t.Q) == Vector(0.0, 7.0, 0.0);
    assert VectorProduct(Vector(2.0, 0.0, 0.0), Vector(0.0, 7.0, 0.0)).z == 14.0;
    assert VectorProduct(Vector(0.0, 7.0, 0.0), Vector(2.0, 0.0, 0.0)).z == -14.0;
    GroundSegments(dir, s, t);
    GroundSegments(dir, t, s);
    CommonEndOrientations();
  }

  /** The four orientations of the seg_4 example. */
  lemma CommonEndOrientations()
    ensures Orient2D(Point2(-1.0, 0.0), Point2(1.0, 0.0), Point2(1.0, 0.0)) == Neutral
    ensures Orient2D(Point2(-1.0, 0.0), Point2(1.0, 0.0), Point2(1.0, 7.0)) == Positive
    ensures Orient2D(Point2(1.0, 0.0), Point2(1.0, 7.0), Point2(-1.0, 0.0)) == Positive
    ensures Orient2D(Point2(1.0, 0.0), Point2(1.0, 7.0), Point2(1.0, 0.0)) == Neutral
  {
    Orient2DIs(-1.0, 0.0, 1.0, 0.0, 1.0, 0.0, Neutral);
    Orient2DIs(-1.0, 0.0, 1.0, 0.0, 1.0, 7.0, Positive);
    Orient2DIs(1.0, 0.0, 1.0, 7.0, -1.0, 0.0, Positive);
    Orient2DIs(1.0, 0.0, 1.0, 7.0, 1.0, 0.0, Neutral);
  }

  /** test/algorithm/src/segment_segment.cpp, seg_5: an end of one segment lies inside the other. */
  lemma EndInInteriorExample(dir: Directions)
    ensures SegmentSegmentIntersect(dir, Segment(Point3(-1.0, 0.0, 0.0), Point3(1.0, 0.0, 0.0)),
      Segment(Point3(0.5, 0.0, 0.0), Point3(0.5, 9.0, 0.0)))
    ensures SegmentSegmentIntersect(dir, Segment(Point3(0.5, 0.0, 0.0), Point3(0.5, 9.0, 0.0)),
      Segment(Point3(-1.0, 0.0, 0.0), Point3(1.0, 0.0, 0.0)))
  {
    var s, t := Segment(Point3(-1.0, 0.0, 0.0), Point3(1.0, 0.0, 0.0)),
      Segment(Point3(0.5, 0.0, 0.0), Point3(0.5, 9.0, 0.0));
    assert FromPoints(s.P, s.Q) == Vector(2.0, 0.0, 0.0);
    assert FromPoints(t.P, t.Q) == Vector(0.0, 9.0, 0.0);
    assert VectorProduct(Vector(2.0, 0.0, 0.0), Vector(0.0, 9.0, 0.0)).z == 18.0;
    assert VectorProduct(Vector(0.0, 9.0, 0.0), Vector(2.0, 0.0, 0.0)).z == -18.0;
    GroundSegments(dir, s, t);
    GroundSegments(dir, t, s);
    EndInInteriorOrientations();
  }

  /** The four orientations of the seg_5 example. */
  lemma EndInInteriorOrientations()
    ensures Orient2D(Point2(-1.0, 0.0), Point2(1.0, 0.0), Point2(0.5, 0.0)) == Neutral
    ensures Orient2D(Point2(-1.0, 0.0), Point2(1.0, 0.0), Point2(0.5, 9.0)) == Positive
    ensures Orient2D(Point2(0.5, 0.0), Point2(0.5, 9.0), Point2(-1.0, 0.0)) == Positive
    ensures Orient2D(Point2(0.5, 0.0), Point2(0.5, 9.0), Point2(1.0, 0.0)) == Negative
  {
    Orient2DIs(-1.0, 0.0, 1.0, 0.0, 0.5, 0.0, Neutral);
    Orient2DIs(-1.0, 0.0, 1.0, 0.0, 0.5, 9.0, Positive);
    Orient2DIs(0.5, 0.0, 0.5, 9.0, -1.0, 0.0, Positive);
    Orient2DIs(0.5, 0.0, 0.5, 9.0, 1.0, 0.0, Negative);
  }

  /** test/algorithm/src/segment_segment.cpp, seg_6: the segments cross inside both. */
  lemma InteriorsCrossExample(dir: Directions)
    ensures SegmentSegmentIntersect(dir, Segment(Point3(-1.0, 0.0, 0.0), Point3(1.0, 0.0, 0.0)),
      Segment(Point3(-0.4, 2.0, 0.0), Point3(-0.4, -2.0, 0.0)))
    ensures SegmentSegmentIntersect(dir, Segment(Point3(-0.4, 2.0, 0.0), Point3(-0.4, -2.0, 0.0)),
      Segment(Point3(-1.0, 0.0, 0.0), Point3(1.0, 0.0, 0.0)))
  {
    var s, t := Segment(Point3(-1.0, 0.0, 0.0), Point3(1.0, 0.0, 0.0)),
      Segment(Point3(-0.4, 2.0, 0.0), Point3(-0.4, -2.0, 0.0));
    assert FromPoints(s.P, s.Q) == Vector(2.0, 0.0, 0.0);
    assert FromPoints(t.P, t.Q) == Vector(0.0, -4.0, 0.0);
    assert VectorProduct(Vector(2.0, 0.0, 0.0), Vector(0.0, -4.0, 0.0)).z == -8.0;
    assert VectorProduct(Vector(0.0, -4.0, 0.0), Vector(2.0, 0.0, 0.0)).z == 8.0;
    GroundSegments(dir, s, t);
    GroundSegments(dir, t, s);
    InteriorsCrossOrientations();
  }

  /** The four orientations of the seg_6 example. */
  lemma InteriorsCrossOrientations()
    ensures Orient2D(Point2(-1.0, 0.0), Point2(1.0, 0.0), Point2(-0.4, 2.0)) == Positive
    ensures Orient2D(Point2(-1.0, 0.0), Point2(1.0, 0.0), Point2(-0.4, -2.0)) == Negative
    ensures Orient2D(Point2(-0.4, 2.0), Point2(-0.4, -2.0), Point2(-1.0, 0.0)) == Negative
    ensures Orient2D(Point2(-0.4, 2.0), Point2(-0.4, -2.0), Point2(1.0, 0.0)) == Positive
  {
    Orient2DIs(-1.0, 0.0, 1.0, 0.0, -0.4, 2.0, Positive);
    Orient2DIs(-1.0, 0.0, 1.0, 0.0, -0.4, -2.0, Negative);
    Orient2DIs(-0.4, 2.0, -0.4, -2.0, -1.0, 0.0, Negative);
    Orient2DIs(-0.4, 2.0, -0.4, -2.0, 1.0, 0.0, Positive);
  }
}
