/** Axis-aligned bounding boxes (include/space_partitioning/axis_aligned_bounding_box.hpp):
    a centre and three half-widths, built around one point, two points or a non-empty
    range of points, and the overlap test the broad phase relies on. Box arithmetic is
    exact: unlike the intersection predicates it uses no tolerance. */
module Boxes {
  import opened Comparison
  import opened Points

  /** Coordinate `i` of a point: 0, 1 and 2 stand for x, y and z. */
  function Coord(p: Point3, i: nat): real
    requires i < 3
  {
    if i == 0 then p.x else if i == 1 then p.y else p.z
  }

  datatype Box = Box(center: Point3, hx: real, hy: real, hz: real)
  {
    function Halfwidth(i: nat): real
      requires i < 3
    {
      if i == 0 then hx else if i == 1 then hy else hz
    }

    /** The lower face of the box along axis `i`. */
    function Lo(i: nat): real
      requires i < 3
    {
      Coord(center, i) - Halfwidth(i)
    }

    /** The upper face of the box along axis `i`. */
    function Hi(i: nat): real
      requires i < 3
    {
      Coord(center, i) + Halfwidth(i)
    }
  }

  /** The corner of the box where every coordinate is smallest: its lower face along
      every axis. */
  function LowerCorner(b: Box): Point3
  {
    Point3(b.center.x - b.hx, b.center.y - b.hy, b.center.z - b.hz)
  }

  /** The corner of the box where every coordinate is largest: its upper face along
      every axis. */
  function UpperCorner(b: Box): Point3
  {
    Point3(b.center.x + b.hx, b.center.y + b.hy, b.center.z + b.hz)
  }

  /** Every half-width is non-negative, as for every box the constructors below build. */
  predicate Proper(b: Box)
  {
    b.hx >= 0.0 && b.hy >= 0.0 && b.hz >= 0.0
  }

  /** Along axis `i` the point lies between the faces of the box. */
  predicate WithinAxis(b: Box, p: Point3, i: nat)
    requires i < 3
  {
    b.Lo(i) <= Coord(p, i) <= b.Hi(i)
  }

  predicate Contains(b: Box, p: Point3)
  {
    WithinAxis(b, p, 0) && WithinAxis(b, p, 1) && WithinAxis(b, p, 2)
  }

  /** Along axis `i` both faces of the box pass through one of the points. */
  predicate AxisTight(b: Box, pts: seq<Point3>, i: nat)
    requires i < 3
  {
    (exists j | 0 <= j < |pts| :: b.Lo(i) == Coord(pts[j], i))
    && (exists j | 0 <= j < |pts| :: b.Hi(i) == Coord(pts[j], i))
  }

  /** `b` is the smallest box holding every point of `pts`: it holds them all, and each
      face passes through one of them. */
  predicate IsBoundingBox(b: Box, pts: seq<Point3>)
  {
    Proper(b) && (forall j | 0 <= j < |pts| :: Contains(b, pts[j]))
    && AxisTight(b, pts, 0) && AxisTight(b, pts, 1) && AxisTight(b, pts, 2)
  }

  /** The box of a single point: the point itself, with zero half-widths. */
  function PointBox(pt: Point3): (b: Box)
    ensures Proper(b)
    ensures forall i: nat | i < 3 :: b.Lo(i) == Coord(pt, i) == b.Hi(i)
    ensures IsBoundingBox(b, [pt])
  {
    var b := Box(pt, 0.0, 0.0, 0.0);
    assert b.Lo(0) == Coord([pt][0], 0) && b.Lo(1) == Coord([pt][0], 1) && b.Lo(2) == Coord([pt][0], 2);
    assert b.Hi(0) == Coord([pt][0], 0) && b.Hi(1) == Coord([pt][0], 1) && b.Hi(2) == Coord([pt][0], 2);
    b
  }

  /** Along axis `i` the faces of the box are the smaller and the larger of `u` and `v`. */
  predicate FacesAt(b: Box, i: nat, u: real, v: real)
    requires i < 3
  {
    b.Lo(i) == (if u < v then u else v) && b.Hi(i) == (if u < v then v else u)
  }

  /** The box spanned by two opposite corners: centred at their midpoint, with half the
      absolute differences as half-widths. Along every axis its faces are the smaller
      and the larger of the two coordinates. */
  function TwoPointBox(p1: Point3, p2: Point3): (b: Box)
    ensures Proper(b)
    ensures FacesAt(b, 0, p1.x, p2.x) && FacesAt(b, 1, p1.y, p2.y) && FacesAt(b, 2, p1.z, p2.z)
  {
    Box(Point3((p1.x + p2.x) * 0.5, (p1.y + p2.y) * 0.5, (p1.z + p2.z) * 0.5),
        Abs(p1.x - p2.x) * 0.5, Abs(p1.y - p2.y) * 0.5, Abs(p1.z - p2.z) * 0.5)
  }

  /** The two-point box is the bounding box of its two corners. */
  lemma TwoPointBoxBounds(p1: Point3, p2: Point3)
    ensures IsBoundingBox(TwoPointBox(p1, p2), [p1, p2])
  {
    var b := TwoPointBox(p1, p2);
    var pts := [p1, p2];
    forall i: nat | i < 3
      ensures AxisTight(b, pts, i)
    {
      assert FacesAt(b, i, Coord(p1, i), Coord(p2, i));
      assert Coord(pts[0], i) == Coord(p1, i) && Coord(pts[1], i) == Coord(p2, i);
    }
    assert Contains(b, pts[0]) && Contains(b, pts[1]);
  }

  /** When the first corner is below the second along every axis, the two-point box is
      centred at their midpoint with half their differences as half-widths. */
  lemma TwoPointBoxOrdered(lo: Point3, hi: Point3)
    requires lo.x <= hi.x && lo.y <= hi.y && lo.z <= hi.z
    ensures TwoPointBox(lo, hi) == Box(Point3((lo.x + hi.x) * 0.5, (lo.y + hi.y) * 0.5, (lo.z + hi.z) * 0.5),
                                       (hi.x - lo.x) * 0.5, (hi.y - lo.y) * 0.5, (hi.z - lo.z) * 0.5)
  {
  }

  /** std::min_element by coordinate `i`: the earliest point whose coordinate is smallest. */
  function MinElement(pts: seq<Point3>, i: nat): (k: nat)
    requires |pts| > 0 && i < 3
    ensures k < |pts|
    ensures forall j | 0 <= j < |pts| :: Coord(pts[k], i) <= Coord(pts[j], i)
    ensures forall j | 0 <= j < k :: Coord(pts[j], i) > Coord(pts[k], i)
  {
    if |pts| == 1 then 0
    else
      var best := MinElement(pts[..|pts| - 1], i);
      if Coord(pts[|pts| - 1], i) < Coord(pts[best], i) then |pts| - 1 else best
  }

  /** std::max_element by coordinate `i`: the earliest point whose coordinate is largest. */
  function MaxElement(pts: seq<Point3>, i: nat): (k: nat)
    requires |pts| > 0 && i < 3
    ensures k < |pts|
    ensures forall j | 0 <= j < |pts| :: Coord(pts[k], i) >= Coord(pts[j], i)
    ensures forall j | 0 <= j < k :: Coord(pts[j], i) < Coord(pts[k], i)
  {
    if |pts| == 1 then 0
    else
      var best := MaxElement(pts[..|pts| - 1], i);
      if Coord(pts[best], i) < Coord(pts[|pts| - 1], i) then |pts| - 1 else best
  }

  /** The box of a range of points: the two-point box of the coordinate-wise minimum and
      maximum, so each face is the extreme coordinate MinElement or MaxElement finds. */
  function RangeBox(pts: seq<Point3>): (b: Box)
    requires |pts| > 0
    ensures Proper(b)
    ensures b.Lo(0) == pts[MinElement(pts, 0)].x && b.Hi(0) == pts[MaxElement(pts, 0)].x
    ensures b.Lo(1) == pts[MinElement(pts, 1)].y && b.Hi(1) == pts[MaxElement(pts, 1)].y
    ensures b.Lo(2) == pts[MinElement(pts, 2)].z && b.Hi(2) == pts[MaxElement(pts, 2)].z
  {
    var lo := Point3(pts[MinElement(pts, 0)].x, pts[MinElement(pts, 1)].y, pts[MinElement(pts, 2)].z);
    var hi := Point3(pts[MaxElement(pts, 0)].x, pts[MaxElement(pts, 1)].y, pts[MaxElement(pts, 2)].z);
    var b := TwoPointBox(lo, hi);
    assert b.Lo(0) == lo.x && b.Hi(0) == hi.x;
    assert b.Lo(1) == lo.y && b.Hi(1) == hi.y;
    assert b.Lo(2) == lo.z && b.Hi(2) == hi.z;
    b
  }

  /** The range box is the bounding box of its points: no point sticks out, and no
      smaller box would do. */
  lemma RangeBoxBounds(pts: seq<Point3>)
    requires |pts| > 0
    ensures IsBoundingBox(RangeBox(pts), pts)
  {
    RangeBoxHolds(pts);
    RangeBoxTight(pts, 0);
    RangeBoxTight(pts, 1);
    RangeBoxTight(pts, 2);
  }

  /** No point of the range sticks out of its box. */
  lemma RangeBoxHolds(pts: seq<Point3>)
    requires |pts| > 0
    ensures forall j | 0 <= j < |pts| :: Contains(RangeBox(pts), pts[j])
  {
    var b := RangeBox(pts);
    forall j | 0 <= j < |pts|
      ensures Contains(b, pts[j])
    {
      assert WithinAxis(b, pts[j], 0) && WithinAxis(b, pts[j], 1) && WithinAxis(b, pts[j], 2);
    }
  }

  /** Along axis `i` both faces of the range box pass through a point of the range. */
  lemma RangeBoxTight(pts: seq<Point3>, i: nat)
    requires |pts| > 0 && i < 3
    ensures AxisTight(RangeBox(pts), pts, i)
  {
    var b := RangeBox(pts);
    var lo, hi := MinElement(pts, i), MaxElement(pts, i);
    if i == 0 {
      assert b.Lo(0) == Coord(pts[lo], 0) && b.Hi(0) == Coord(pts[hi], 0);
    } else if i == 1 {
      assert b.Lo(1) == Coord(pts[lo], 1) && b.Hi(1) == Coord(pts[hi], 1);
    } else {
      assert b.Lo(2) == Coord(pts[lo], 2) && b.Hi(2) == Coord(pts[hi], 2);
    }
  }

  /** Along axis `i` the centres are no farther apart than the two half-widths together. */
  predicate AxisOverlap(first: Box, second: Box, i: nat)
    requires i < 3
  {
    Abs(Coord(first.center, i) - Coord(second.center, i)) <= first.Halfwidth(i) + second.Halfwidth(i)
  }

  /** are_overlapping: the boxes are apart exactly when, along some axis, their centres
      are farther apart than the two half-widths together. */
  function AreOverlapping(first: Box, second: Box): (r: bool)
    ensures r <==> AxisOverlap(first, second, 0) && AxisOverlap(first, second, 1) && AxisOverlap(first, second, 2)
  {
    if Abs(first.center.x - second.center.x) > first.hx + second.hx
       || Abs(first.center.y - second.center.y) > first.hy + second.hy
       || Abs(first.center.z - second.center.z) > first.hz + second.hz
    then false
    else true
  }

  /** The larger of the two lower faces along each axis: the corner of the common part. */
  function MeetingCorner(first: Box, second: Box): (p: Point3)
    ensures forall i: nat | i < 3 :: Coord(p, i) == Max(first.Lo(i), second.Lo(i))
  {
    Point3(Max(first.Lo(0), second.Lo(0)), Max(first.Lo(1), second.Lo(1)), Max(first.Lo(2), second.Lo(2)))
  }

  /** Two proper boxes overlap exactly when some point lies in both: the meeting corner
      when they overlap, and any common point forces the overlap. */
  lemma OverlapIffCommonPoint(first: Box, second: Box, p: Point3)
    requires Proper(first) && Proper(second)
    ensures AreOverlapping(first, second) <==> Contains(first, MeetingCorner(first, second)) && Contains(second, MeetingCorner(first, second))
    ensures Contains(first, p) && Contains(second, p) ==> AreOverlapping(first, second)
  {
    var m := MeetingCorner(first, second);
    assert Coord(m, 0) == Max(first.Lo(0), second.Lo(0));
    assert Coord(m, 1) == Max(first.Lo(1), second.Lo(1));
    assert Coord(m, 2) == Max(first.Lo(2), second.Lo(2));
  }

  /** Overlap does not depend on the order of the boxes, and a proper box overlaps itself. */
  lemma OverlapSymmetric(first: Box, second: Box)
    ensures AreOverlapping(first, second) == AreOverlapping(second, first)
    ensures Proper(first) ==> AreOverlapping(first, first)
  {
    assert Abs(first.center.x - second.center.x) == Abs(second.center.x - first.center.x);
    assert Abs(first.center.y - second.center.y) == Abs(second.center.y - first.center.y);
    assert Abs(first.center.z - second.center.z) == Abs(second.center.z - first.center.z);
  }
}
