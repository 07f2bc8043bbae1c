/** The planar tests of include/intersection/intersection_2D.hpp: a segment or a triangle
    against a triangle, decided by the region of the plane that holds the other
    primitive's first point P1. The callers hand in counter-clockwise triangles. */
module Intersection2D {
  import opened Points
  import opened Segments
  import opened Triangles
  import opened MagicProduct
  import opened PointTriangle

  /** The location of `p` with respect to the three edges PQ, QR and RP of `tr`. */
  function EdgeLocation(tr: Triangle<Point2>, p: Point2): PtWrtTr
  {
    DeducePtLocation(Orient2D(tr.P, tr.Q, p), Orient2D(tr.Q, tr.R, p), Orient2D(tr.R, tr.P, p))
  }

  /** The number of edges of `tr` against which `p` has location `l`. */
  function EdgeCount(l: Loc2D, tr: Triangle<Point2>, p: Point2): nat
  {
    CountOf(l, Orient2D(tr.P, tr.Q, p), Orient2D(tr.Q, tr.R, p), Orient2D(tr.R, tr.P, p))
  }

  /** The three cyclic relabellings of a triangle. */
  predicate IsRotation(r: Triangle<Point2>, tr: Triangle<Point2>)
  {
    r == tr || r == SwapClockwise(tr) || r == SwapCounterclockwise(tr)
  }

  /** The relabelling of are_intersecting_2D before the region tests: in In_R1 the edge
      that P1 lies beyond becomes RP; in In_R2 the edge that P1 lies inside becomes PQ. */
  function Normalized(tr: Triangle<Point2>, p: Point2): (r: Triangle<Point2>)
    ensures IsRotation(r, tr)
    ensures EdgeLocation(tr, p) == InR1 && EdgeCount(Negative, tr, p) == 1 ==>
      Orient2D(r.R, r.P, p) == Negative && Orient2D(r.P, r.Q, p) == Positive
      && Orient2D(r.Q, r.R, p) == Positive
    ensures EdgeLocation(tr, p) == InR2 && EdgeCount(Positive, tr, p) == 1 ==>
      Orient2D(r.P, r.Q, p) == Positive && Orient2D(r.Q, r.R, p) != Positive
      && Orient2D(r.R, r.P, p) != Positive
  {
    var l1, l2, l3 := Orient2D(tr.P, tr.Q, p), Orient2D(tr.Q, tr.R, p), Orient2D(tr.R, tr.P, p);
    match DeducePtLocation(l1, l2, l3)
    case InR1 =>
      if l1 == Negative then SwapCounterclockwise(tr)
      else if l2 == Negative then SwapClockwise(tr)
      else tr
    case InR2 =>
      if l3 == Positive then SwapClockwise(tr)
      else if l2 == Positive then SwapCounterclockwise(tr)
      else tr
    case _ => tr
  }

  /** The callers' preparation of a projected triangle: when it does not turn
      counter-clockwise, Q and R are exchanged. Only a flat projection stays
      non-counter-clockwise. */
  function MakeCounterclockwise(t: Triangle<Point2>): (r: Triangle<Point2>)
    ensures r == t || r == SwapQR(t)
    ensures Orient2D(t.P, t.Q, t.R) != Neutral ==> Orient2D(r.P, r.Q, r.R) == Positive
    ensures Orient2D(t.P, t.Q, t.R) == Neutral ==> Orient2D(r.P, r.Q, r.R) == Neutral
  {
    Orient2DSymmetries(t.P, t.Q, t.R);
    Orient2DSymmetries(t.R, t.P, t.Q);
    if Orient2D(t.P, t.Q, t.R) != Positive then SwapQR(t) else t
  }

  /** `x` lies in the closed wedge at `apex` that turns counter-clockwise from the ray
      towards `a` to the ray towards `b`. Every accepting branch of the region tests is
      such a wedge test. */
  predicate InWedge(apex: Point2, a: Point2, b: Point2, x: Point2)
  {
    Orient2D(apex, a, x) != Negative && Orient2D(apex, b, x) != Positive
  }

  /** test_intersection_R1(seg, tr): with seg.P beyond the edge RP only. An end Q on the
      far side of RP's line keeps the segment out; otherwise the segment meets the
      triangle exactly when Q lies in the wedge that seg.P sees the edge RP in. */
  function SegmentTestR1(seg: Segment<Point2>, tr: Triangle<Point2>): (r: bool)
    ensures Orient2D(tr.R, tr.P, seg.Q) == Negative ==> !r
    ensures Orient2D(tr.R, tr.P, seg.Q) != Negative ==> (r <==> InWedge(seg.P, tr.P, tr.R, seg.Q))
  {
    if Orient2D(tr.R, tr.P, seg.Q) == Negative then false
    else Orient2D(seg.P, tr.P, seg.Q) != Negative && Orient2D(seg.P, tr.R, seg.Q) != Positive
  }

  /** test_intersection_R2(seg, tr): with seg.P inside the edge PQ only. Q must not lie
      beyond RP's line, must lie in the wedge that seg.P sees the vertices P and Q in, and
      must not lie beyond the edge QR. */
  function SegmentTestR2(seg: Segment<Point2>, tr: Triangle<Point2>): (r: bool)
    ensures Orient2D(tr.R, tr.P, seg.Q) == Negative ==> !r
    ensures Orient2D(tr.Q, tr.R, seg.Q) == Negative ==> !r
    ensures Orient2D(tr.R, tr.P, seg.Q) != Negative ==>
      (r <==> InWedge(seg.P, tr.P, tr.Q, seg.Q) && Orient2D(tr.Q, tr.R, seg.Q) != Negative)
  {
    if Orient2D(tr.R, tr.P, seg.Q) == Negative then false
    else
      Orient2D(seg.P, tr.P, seg.Q) != Negative && Orient2D(seg.P, tr.Q, seg.Q) != Positive
      && Orient2D(tr.Q, tr.R, seg.Q) != Negative
  }

  /** A segment from beyond the edge RP that ends at one of that edge's vertices meets
      the triangle. */
  lemma SegmentR1EndingAtEdge(seg: Segment<Point2>, tr: Triangle<Point2>)
    requires Orient2D(tr.R, tr.P, seg.P) == Negative
    requires seg.Q == tr.P || seg.Q == tr.R
    ensures SegmentTestR1(seg, tr)
  {
    Orient2DDegenerate(tr.R, tr.P);
    Orient2DDegenerate(seg.P, seg.Q);
    Orient2DSymmetries(tr.R, tr.P, seg.P);
    Orient2DSymmetries(tr.P, seg.P, tr.R);
  }

  /** A segment from the R2 region of the vertex R that ends at R meets the triangle. */
  lemma SegmentR2EndingAtVertex(seg: Segment<Point2>, tr: Triangle<Point2>)
    requires Orient2D(tr.P, tr.Q, seg.P) == Positive
    requires Orient2D(tr.Q, tr.R, seg.P) != Positive && Orient2D(tr.R, tr.P, seg.P) != Positive
    requires seg.Q == tr.R
    ensures SegmentTestR2(seg, tr)
  {
    Orient2DDegenerate(tr.R, tr.P);
    Orient2DDegenerate(tr.Q, tr.R);
    Orient2DSymmetries(tr.R, tr.P, seg.P);
    Orient2DSymmetries(tr.P, seg.P, tr.R);
    Orient2DSymmetries(tr.Q, tr.R, seg.P);
  }

  /** test_intersection_R1(tr_1, tr_2): with P1 beyond the edge RP of tr_2 only; the
      regions R11 to R14 are those the source's comments name for Q1. Q1 and R1 both
      beyond RP's line (R11) keep tr_1 out; Q1 beyond it alone leaves the edge Q1R1 to
      cross RP; Q1 in R12 keeps it out, Q1 in R13, the wedge P1 sees RP in, lets it in,
      and Q1 in R14 leaves the edge Q1R1 to reach P2. */
  function TriangleTestR1(t1: Triangle<Point2>, t2: Triangle<Point2>): (r: bool)
    ensures Orient2D(t2.R, t2.P, t1.Q) == Negative && Orient2D(t2.R, t2.P, t1.R) == Negative ==> !r
    ensures Orient2D(t2.R, t2.P, t1.Q) == Negative && Orient2D(t2.R, t2.P, t1.R) != Negative ==>
      (r <==> Orient2D(t1.Q, t2.R, t1.R) != Positive && Orient2D(t1.P, t2.P, t1.R) != Negative)
    ensures Orient2D(t2.R, t2.P, t1.Q) != Negative ==>
      (r <==> (InWedge(t1.P, t2.P, t2.R, t1.Q)
                || (Orient2D(t1.P, t2.R, t1.Q) != Positive && Orient2D(t1.P, t2.P, t1.R) != Negative
                    && Orient2D(t1.Q, t2.P, t1.R) != Positive)))
  {
    if Orient2D(t2.R, t2.P, t1.Q) == Negative then
      if Orient2D(t2.R, t2.P, t1.R) == Negative then false
      else Orient2D(t1.Q, t2.R, t1.R) != Positive && Orient2D(t1.P, t2.P, t1.R) != Negative
    else if Orient2D(t1.P, t2.R, t1.Q) == Positive then false
    else if Orient2D(t1.P, t2.P, t1.Q) != Negative then true
    else Orient2D(t1.P, t2.P, t1.R) != Negative && Orient2D(t1.Q, t2.P, t1.R) != Positive
  }

  /** A triangle whose P1 lies beyond the edge RP of tr_2 and whose Q1 is a vertex of
      that edge meets tr_2. */
  lemma TriangleR1TouchingEdge(t1: Triangle<Point2>, t2: Triangle<Point2>)
    requires Orient2D(t2.R, t2.P, t1.P) == Negative
    requires t1.Q == t2.P || t1.Q == t2.R
    ensures TriangleTestR1(t1, t2)
  {
    Orient2DDegenerate(t2.R, t2.P);
    Orient2DDegenerate(t1.P, t1.Q);
    Orient2DSymmetries(t2.R, t2.P, t1.P);
    Orient2DSymmetries(t2.P, t1.P, t2.R);
  }

  /** test_intersection_R2(tr_1, tr_2): with P1 inside the edge PQ of tr_2 only; the
      regions R21 to R25 are those the source's comments name for Q1. With Q1 beyond RP's
      line (R21 to R23) R1 decides: beyond RP as well, tr_1 stays out; otherwise the
      side of the edge Q1R1 chooses which of two wedges R1 must lie in. With Q1 beyond QR
      (R24) tr_1 meets tr_2 only when P1 sees Q1 past Q2 and R1 reaches back. Otherwise Q1
      is in R22 or R25 and the wedges at P1 decide. */
  function TriangleTestR2(t1: Triangle<Point2>, t2: Triangle<Point2>): (r: bool)
    ensures Orient2D(t2.R, t2.P, t1.Q) == Negative && Orient2D(t2.R, t2.P, t1.R) == Negative ==> !r
    ensures Orient2D(t2.R, t2.P, t1.Q) == Negative && Orient2D(t2.R, t2.P, t1.R) != Negative ==>
      (r <==> if Orient2D(t2.R, t1.Q, t1.R) != Negative then Orient2D(t1.P, t2.P, t1.R) != Negative
              else Orient2D(t2.Q, t1.Q, t1.R) != Negative && Orient2D(t2.Q, t2.R, t1.R) != Negative)
    ensures Orient2D(t2.R, t2.P, t1.Q) != Negative && Orient2D(t2.Q, t2.R, t1.Q) == Negative ==>
      (r <==> (Orient2D(t1.P, t2.Q, t1.Q) == Negative
                && Orient2D(t2.Q, t2.R, t1.R) != Negative && Orient2D(t2.Q, t1.Q, t1.R) != Negative))
    ensures Orient2D(t2.R, t2.P, t1.Q) != Negative && Orient2D(t2.Q, t2.R, t1.Q) != Negative ==>
      (r <==> if Orient2D(t1.P, t2.P, t1.Q) == Negative
              then Orient2D(t1.P, t2.P, t1.R) != Negative && Orient2D(t1.Q, t2.P, t1.R) != Positive
              else Orient2D(t1.P, t2.Q, t1.Q) != Positive)
  {
    if Orient2D(t2.R, t2.P, t1.Q) == Negative then
      if Orient2D(t2.R, t2.P, t1.R) == Negative then false
      else if Orient2D(t2.R, t1.Q, t1.R) != Negative then Orient2D(t1.P, t2.P, t1.R) != Negative
      else Orient2D(t2.Q, t1.Q, t1.R) != Negative && Orient2D(t2.Q, t2.R, t1.R) != Negative
    else if Orient2D(t2.Q, t2.R, t1.Q) == Negative then
      if Orient2D(t1.P, t2.Q, t1.Q) == Negative then
        Orient2D(t2.Q, t2.R, t1.R) != Negative && Orient2D(t2.Q, t1.Q, t1.R) != Negative
      else false
    else if Orient2D(t1.P, t2.P, t1.Q) == Negative then
      Orient2D(t1.P, t2.P, t1.R) != Negative && Orient2D(t1.Q, t2.P, t1.R) != Positive
    else Orient2D(t1.P, t2.Q, t1.Q) != Positive
  }

  /** A triangle whose P1 lies in the R2 region of the vertex R of tr_2 and whose Q1 is
      that vertex meets tr_2. */
  lemma TriangleR2TouchingVertex(t1: Triangle<Point2>, t2: Triangle<Point2>)
    requires Orient2D(t2.P, t2.Q, t1.P) == Positive
    requires Orient2D(t2.Q, t2.R, t1.P) != Positive && Orient2D(t2.R, t2.P, t1.P) != Positive
    requires t1.Q == t2.R
    ensures TriangleTestR2(t1, t2)
  {
    Orient2DDegenerate(t2.R, t2.P);
    Orient2DDegenerate(t2.Q, t2.R);
    Orient2DSymmetries(t2.R, t2.P, t1.P);
    Orient2DSymmetries(t2.P, t1.P, t2.R);
    Orient2DSymmetries(t2.Q, t2.R, t1.P);
  }

  /** are_intersecting_2D(seg, tr): a first point inside or on the triangle decides at
      once; otherwise the triangle is relabelled and the region test decides. */
  function SegmentIntersect2D(seg: Segment<Point2>, tr: Triangle<Point2>): (r: bool)
    ensures EdgeLocation(tr, seg.P) in {Inside, InVertex, OnSide} ==> r
    ensures EdgeLocation(tr, seg.P) == InR1 ==> r == SegmentTestR1(seg, Normalized(tr, seg.P))
    ensures EdgeLocation(tr, seg.P) == InR2 ==> r == SegmentTestR2(seg, Normalized(tr, seg.P))
  {
    match EdgeLocation(tr, seg.P)
    case InR1 => SegmentTestR1(seg, Normalized(tr, seg.P))
    case InR2 => SegmentTestR2(seg, Normalized(tr, seg.P))
    case _ => true
  }

  /** are_intersecting_2D(tr_1, tr_2), the same scheme with the triangle tests. */
  function TriangleIntersect2D(t1: Triangle<Point2>, t2: Triangle<Point2>): (r: bool)
    ensures EdgeLocation(t2, t1.P) in {Inside, InVertex, OnSide} ==> r
    ensures EdgeLocation(t2, t1.P) == InR1 ==> r == TriangleTestR1(t1, Normalized(t2, t1.P))
    ensures EdgeLocation(t2, t1.P) == InR2 ==> r == TriangleTestR2(t1, Normalized(t2, t1.P))
  {
    match EdgeLocation(t2, t1.P)
    case InR1 => TriangleTestR1(t1, Normalized(t2, t1.P))
    case InR2 => TriangleTestR2(t1, Normalized(t2, t1.P))
    case _ => true
  }

  /** The three edge determinants of a point sum to the triangle's own determinant. */
  lemma AreaIdentity(P: Point2, Q: Point2, R: Point2, M: Point2)
    ensures Det2(P, Q, M) + Det2(Q, R, M) + Det2(R, P, M) == Det2(P, Q, R)
  {
  }

  /** No point lies beyond all three edges of a counter-clockwise triangle, so for the
      triangles the callers pass In_R1 always means beyond exactly one edge. */
  lemma CounterclockwiseBoundsNegatives(tr: Triangle<Point2>, p: Point2)
    requires Orient2D(tr.P, tr.Q, tr.R) == Positive
    ensures EdgeCount(Negative, tr, p) < 3
    ensures EdgeLocation(tr, p) == InR1 ==> EdgeCount(Negative, tr, p) == 1
  {
    AreaIdentity(tr.P, tr.Q, tr.R, p);
  }

  /** Outside the all-Neutral case, In_R2 means inside exactly one edge. */
  lemma InR2HasOnePositive(tr: Triangle<Point2>, p: Point2)
    requires EdgeLocation(tr, p) == InR2 && EdgeCount(Neutral, tr, p) < 3
    ensures EdgeCount(Positive, tr, p) == 1
  {
  }

  /** Relabelling the vertices cyclically permutes the three edge orientations. */
  lemma RotationPermutesEdges(tr: Triangle<Point2>, p: Point2)
    ensures var c := SwapClockwise(tr);
      Orient2D(c.P, c.Q, p) == Orient2D(tr.R, tr.P, p) && Orient2D(c.Q, c.R, p) == Orient2D(tr.P, tr.Q, p)
      && Orient2D(c.R, c.P, p) == Orient2D(tr.Q, tr.R, p)
    ensures EdgeLocation(SwapClockwise(tr), p) == EdgeLocation(tr, p)
    ensures forall l :: EdgeCount(l, SwapClockwise(tr), p) == EdgeCount(l, tr, p)
  {
    var l1, l2, l3 := Orient2D(tr.P, tr.Q, p), Orient2D(tr.Q, tr.R, p), Orient2D(tr.R, tr.P, p);
    DeducePtLocationSymmetric(l3, l1, l2);
  }

  /** For a counter-clockwise triangle the relabelling is canonical: it does not depend on
      which vertex the triangle starts from, unless P1 is Neutral to all three edges. */
  lemma NormalizedIsCanonical(tr: Triangle<Point2>, p: Point2)
    requires Orient2D(tr.P, tr.Q, tr.R) == Positive
    requires EdgeCount(Neutral, tr, p) < 3
    requires EdgeLocation(tr, p) in {InR1, InR2}
    ensures Normalized(SwapClockwise(tr), p) == Normalized(tr, p)
  {
    RotationPermutesEdges(tr, p);
    CounterclockwiseBoundsNegatives(tr, p);
    if EdgeLocation(tr, p) == InR2 {
      InR2HasOnePositive(tr, p);
    }
  }

  /** The planar segment verdict does not depend on which vertex of a counter-clockwise
      triangle is labelled P, outside the all-Neutral case. */
  lemma SegmentIntersect2DRotationInvariant(seg: Segment<Point2>, tr: Triangle<Point2>)
    requires Orient2D(tr.P, tr.Q, tr.R) == Positive
    requires EdgeCount(Neutral, tr, seg.P) < 3
    ensures SegmentIntersect2D(seg, SwapClockwise(tr)) == SegmentIntersect2D(seg, tr)
  {
    RotationPermutesEdges(tr, seg.P);
    if EdgeLocation(tr, seg.P) in {InR1, InR2} {
      NormalizedIsCanonical(tr, seg.P);
    }
  }

  /** The same for the planar triangle verdict. */
  lemma TriangleIntersect2DRotationInvariant(t1: Triangle<Point2>, t2: Triangle<Point2>)
    requires Orient2D(t2.P, t2.Q, t2.R) == Positive
    requires EdgeCount(Neutral, t2, t1.P) < 3
    ensures TriangleIntersect2D(t1, SwapClockwise(t2)) == TriangleIntersect2D(t1, t2)
  {
    RotationPermutesEdges(t2, t1.P);
    if EdgeLocation(t2, t1.P) in {InR1, InR2} {
      NormalizedIsCanonical(t2, t1.P);
    }
  }

  /** test/algorithm/src/intersection_2D_test.cpp, Intersection_R1, T1_1 against T2. */
  lemma RegionR1Case1Example()
    ensures !TriangleIntersect2D(Triangle(Point2(-1.0, 2.0), Point2(0.0, 1.0), Point2(1.0, 1.0), TriangleSpecies),
      Triangle(Point2(2.0, 0.0), Point2(2.0, 3.0), Point2(0.0, 3.0), TriangleSpecies))
  {
    RegionR1Case1Orientations();
  }

  /** The orientations the Intersection_R1 T1_1 example reads. */
  lemma RegionR1Case1Orientations()
    ensures Orient2D(Point2(2.0, 0.0), Point2(2.0, 3.0), Point2(-1.0, 2.0)) == Positive
    ensures Orient2D(Point2(2.0, 3.0), Point2(0.0, 3.0), Point2(-1.0, 2.0)) == Positive
    ensures Orient2D(Point2(0.0, 3.0), Point2(2.0, 0.0), Point2(-1.0, 2.0)) == Negative
    ensures Orient2D(Point2(0.0, 3.0), Point2(2.0, 0.0), Point2(0.0, 1.0)) == Negative
    ensures Orient2D(Point2(0.0, 3.0), Point2(2.0, 0.0), Point2(1.0, 1.0)) == Negative
  {
    Orient2DIs(2.0, 0.0, 2.0, 3.0, -1.0, 2.0, Positive);
    Orient2DIs(2.0, 3.0, 0.0, 3.0, -1.0, 2.0, Positive);
    Orient2DIs(0.0, 3.0, 2.0, 0.0, -1.0, 2.0, Negative);
    Orient2DIs(0.0, 3.0, 2.0, 0.0, 0.0, 1.0, Negative);
    Orient2DIs(0.0, 3.0, 2.0, 0.0, 1.0, 1.0, Negative);
  }

  /** test/algorithm/src/intersection_2D_test.cpp, Intersection_R1, T1_4 against T2. */
  lemma RegionR1Case4Example()
    ensures TriangleIntersect2D(Triangle(Point2(-1.0, 2.0), Point2(0.0, 1.0), Point2(3.0, 1.0), TriangleSpecies),
      Triangle(Point2(2.0, 0.0), Point2(2.0, 3.0), Point2(0.0, 3.0), TriangleSpecies))
  {
    RegionR1Case4Orientations();
  }

  /** The orientations the Intersection_R1 T1_4 example reads. */
  lemma RegionR1Case4Orientations()
    ensures Orient2D(Point2(2.0, 0.0), Point2(2.0, 3.0), Point2(-1.0, 2.0)) == Positive
    ensures Orient2D(Point2(2.0, 3.0), Point2(0.0, 3.0), Point2(-1.0, 2.0)) == Positive
    ensures Orient2D(Point2(0.0, 3.0), Point2(2.0, 0.0), Point2(-1.0, 2.0)) == Negative
    ensures Orient2D(Point2(0.0, 3.0), Point2(2.0, 0.0), Point2(0.0, 1.0)) == Negative
    ensures Orient2D(Point2(0.0, 3.0), Point2(2.0, 0.0), Point2(3.0, 1.0)) == Positive
    ensures Orient2D(Point2(0.0, 1.0), Point2(0.0, 3.0), Point2(3.0, 1.0)) == Negative
    ensures Orient2D(Point2(-1.0, 2.0), Point2(2.0, 0.0), Point2(3.0, 1.0)) == Positive
  {
    Orient2DIs(2.0, 0.0, 2.0, 3.0, -1.0, 2.0, Positive);
    Orient2DIs(2.0, 3.0, 0.0, 3.0, -1.0, 2.0, Positive);
    Orient2DIs(0.0, 3.0, 2.0, 0.0, -1.0, 2.0, Negative);
    Orient2DIs(0.0, 3.0, 2.0, 0.0, 0.0, 1.0, Negative);
    Orient2DIs(0.0, 3.0, 2.0, 0.0, 3.0, 1.0, Positive);
    Orient2DIs(0.0, 1.0, 0.0, 3.0, 3.0, 1.0, Negative);
    Orient2DIs(-1.0, 2.0, 2.0, 0.0, 3.0, 1.0, Positive);
  }

  /** test/algorithm/src/intersection_2D_test.cpp, Intersection_R1, T1_9 against T2. */
  lemma RegionR1Case9Example()
    ensures TriangleIntersect2D(Triangle(Point2(-1.0, 1.0), Point2(4.0, -2.0), Point2(2.0, 10.0), TriangleSpecies),
      Triangle(Point2(2.0, 0.0), Point2(2.0, 3.0), Point2(0.0, 3.0), TriangleSpecies))
  {
    RegionR1Case9Orientations();
  }

  /** The orientations the Intersection_R1 T1_9 example reads. */
  lemma RegionR1Case9Orientations()
    ensures Orient2D(Point2(2.0, 0.0), Point2(2.0, 3.0), Point2(-1.0, 1.0)) == Positive
    ensures Orient2D(Point2(2.0, 3.0), Point2(0.0, 3.0), Point2(-1.0, 1.0)) == Positive
    ensures Orient2D(Point2(0.0, 3.0), Point2(2.0, 0.0), Point2(-1.0, 1.0)) == Negative
    ensures Orient2D(Point2(0.0, 3.0), Point2(2.0, 0.0), Point2(4.0, -2.0)) == Positive
    ensures Orient2D(Point2(-1.0, 1.0), Point2(0.0, 3.0), Point2(4.0, -2.0)) == Negative
    ensures Orient2D(Point2(-1.0, 1.0), Point2(2.0, 0.0), Point2(4.0, -2.0)) == Negative
    ensures Orient2D(Point2(-1.0, 1.0), Point2(2.0, 0.0), Point2(2.0, 10.0)) == Positive
    ensures Orient2D(Point2(4.0, -2.0), Point2(2.0, 0.0), Point2(2.0, 10.0)) == Negative
  {
    Orient2DIs(2.0, 0.0, 2.0, 3.0, -1.0, 1.0, Positive);
    Orient2DIs(2.0, 3.0, 0.0, 3.0, -1.0, 1.0, Positive);
    Orient2DIs(0.0, 3.0, 2.0, 0.0, -1.0, 1.0, Negative);
    Orient2DIs(0.0, 3.0, 2.0, 0.0, 4.0, -2.0, Positive);
    Orient2DIs(-1.0, 1.0, 0.0, 3.0, 4.0, -2.0, Negative);
    Orient2DIs(-1.0, 1.0, 2.0, 0.0, 4.0, -2.0, Negative);
    Orient2DIs(-1.0, 1.0, 2.0, 0.0, 2.0, 10.0, Positive);
    Orient2DIs(4.0, -2.0, 2.0, 0.0, 2.0, 10.0, Negative);
  }

  /** test/algorithm/src/intersection_2D_test.cpp, Intersection_R2, T1_3 against T2. */
  lemma RegionR2Case3Example()
    ensures TriangleIntersect2D(Triangle(Point2(-1.0, -2.0), Point2(3.0, -2.0), Point2(-1.0, 2.0), TriangleSpecies),
      Triangle(Point2(2.0, 0.0), Point2(0.0, 3.0), Point2(0.0, 0.0), TriangleSpecies))
  {
    RegionR2Case3Orientations();
  }

  /** The orientations the Intersection_R2 T1_3 example reads. */
  lemma RegionR2Case3Orientations()
    ensures Orient2D(Point2(2.0, 0.0), Point2(0.0, 3.0), Point2(-1.0, -2.0)) == Positive
    ensures Orient2D(Point2(0.0, 3.0), Point2(0.0, 0.0), Point2(-1.0, -2.0)) == Negative
    ensures Orient2D(Point2(0.0, 0.0), Point2(2.0, 0.0), Point2(-1.0, -2.0)) == Negative
    ensures Orient2D(Point2(0.0, 0.0), Point2(2.0, 0.0), Point2(3.0, -2.0)) == Negative
    ensures Orient2D(Point2(0.0, 0.0), Point2(2.0, 0.0), Point2(-1.0, 2.0)) == Positive
    ensures Orient2D(Point2(0.0, 0.0), Point2(3.0, -2.0), Point2(-1.0, 2.0)) == Positive
    ensures Orient2D(Point2(-1.0, -2.0), Point2(2.0, 0.0), Point2(-1.0, 2.0)) == Positive
  {
    Orient2DIs(2.0, 0.0, 0.0, 3.0, -1.0, -2.0, Positive);
    Orient2DIs(0.0, 3.0, 0.0, 0.0, -1.0, -2.0, Negative);
    Orient2DIs(0.0, 0.0, 2.0, 0.0, -1.0, -2.0, Negative);
    Orient2DIs(0.0, 0.0, 2.0, 0.0, 3.0, -2.0, Negative);
    Orient2DIs(0.0, 0.0, 2.0, 0.0, -1.0, 2.0, Positive);
    Orient2DIs(0.0, 0.0, 3.0, -2.0, -1.0, 2.0, Positive);
    Orient2DIs(-1.0, -2.0, 2.0, 0.0, -1.0, 2.0, Positive);
  }

  /** test/algorithm/src/intersection_2D_test.cpp, Intersection_R2, T1_11 against T2. */
  lemma RegionR2Case11Example()
    ensures !TriangleIntersect2D(Triangle(Point2(-2.0, -1.0), Point2(1.0, 6.0), Point2(-2.0, 4.0), TriangleSpecies),
      Triangle(Point2(2.0, 0.0), Point2(0.0, 3.0), Point2(0.0, 0.0), TriangleSpecies))
  {
    RegionR2Case11Orientations();
  }

  /** The orientations the Intersection_R2 T1_11 example reads. */
  lemma RegionR2Case11Orientations()
    ensures Orient2D(Point2(2.0, 0.0), Point2(0.0, 3.0), Point2(-2.0, -1.0)) == Positive
    ensures Orient2D(Point2(0.0, 3.0), Point2(0.0, 0.0), Point2(-2.0, -1.0)) == Negative
    ensures Orient2D(Point2(0.0, 0.0), Point2(2.0, 0.0), Point2(-2.0, -1.0)) == Negative
    ensures Orient2D(Point2(0.0, 0.0), Point2(2.0, 0.0), Point2(1.0, 6.0)) == Positive
    ensures Orient2D(Point2(0.0, 3.0), Point2(0.0, 0.0), Point2(1.0, 6.0)) == Positive
    ensures Orient2D(Point2(-2.0, -1.0), Point2(2.0, 0.0), Point2(1.0, 6.0)) == Positive
    ensures Orient2D(Point2(-2.0, -1.0), Point2(0.0, 3.0), Point2(1.0, 6.0)) == Positive
  {
    Orient2DIs(2.0, 0.0, 0.0, 3.0, -2.0, -1.0, Positive);
    Orient2DIs(0.0, 3.0, 0.0, 0.0, -2.0, -1.0, Negative);
    Orient2DIs(0.0, 0.0, 2.0, 0.0, -2.0, -1.0, Negative);
    Orient2DIs(0.0, 0.0, 2.0, 0.0, 1.0, 6.0, Positive);
    Orient2DIs(0.0, 3.0, 0.0, 0.0, 1.0, 6.0, Positive);
    Orient2DIs(-2.0, -1.0, 2.0, 0.0, 1.0, 6.0, Positive);
    Orient2DIs(-2.0, -1.0, 0.0, 3.0, 1.0, 6.0, Positive);
  }

  /** test/algorithm/src/intersection_2D_test.cpp, Intersection_R2, T1_15 against T2. */
  lemma RegionR2Case15Example()
    ensures TriangleIntersect2D(Triangle(Point2(-1.0, -2.0), Point2(5.0, 1.0), Point2(2.0, 2.0), TriangleSpecies),
      Triangle(Point2(2.0, 0.0), Point2(0.0, 3.0), Point2(0.0, 0.0), TriangleSpecies))
  {
    RegionR2Case15Orientations();
  }

  /** The orientations the Intersection_R2 T1_15 example reads. */
  lemma RegionR2Case15Orientations()
    ensures Orient2D(Point2(2.0, 0.0), Point2(0.0, 3.0), Point2(-1.0, -2.0)) == Positive
    ensures Orient2D(Point2(0.0, 3.0), Point2(0.0, 0.0), Point2(-1.0, -2.0)) == Negative
    ensures Orient2D(Point2(0.0, 0.0), Point2(2.0, 0.0), Point2(-1.0, -2.0)) == Negative
    ensures Orient2D(Point2(0.0, 0.0), Point2(2.0, 0.0), Point2(5.0, 1.0)) == Positive
    ensures Orient2D(Point2(0.0, 3.0), Point2(0.0, 0.0), Point2(5.0, 1.0)) == Positive
    ensures Orient2D(Point2(-1.0, -2.0), Point2(2.0, 0.0), Point2(5.0, 1.0)) == Negative
    ensures Orient2D(Point2(-1.0, -2.0), Point2(2.0, 0.0), Point2(2.0, 2.0)) == Positive
    ensures Orient2D(Point2(5.0, 1.0), Point2(2.0, 0.0), Point2(2.0, 2.0)) == Negative
  {
    Orient2DIs(2.0, 0.0, 0.0, 3.0, -1.0, -2.0, Positive);
    Orient2DIs(0.0, 3.0, 0.0, 0.0, -1.0, -2.0, Negative);
    Orient2DIs(0.0, 0.0, 2.0, 0.0, -1.0, -2.0, Negative);
    Orient2DIs(0.0, 0.0, 2.0, 0.0, 5.0, 1.0, Positive);
    Orient2DIs(0.0, 3.0, 0.0, 0.0, 5.0, 1.0, Positive);
    Orient2DIs(-1.0, -2.0, 2.0, 0.0, 5.0, 1.0, Negative);
    Orient2DIs(-1.0, -2.0, 2.0, 0.0, 2.0, 2.0, Positive);
    Orient2DIs(5.0, 1.0, 2.0, 0.0, 2.0, 2.0, Negative);
  }
}
