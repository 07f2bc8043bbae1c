/** Intersection of two vertex triples of any species (include/intersection/intersection.hpp):
    the pair of species selects the predicate, and the lower-dimensional triples are first
    reduced to the point or segment they degenerate to. */
module Intersection {
  import opened Points
  import opened Vectors
  import opened Segments
  import opened Triangles
  import opened MagicProduct
  import opened PointPoint
  import opened PointSegment
  import opened PointTriangle
  import opened SegmentSegment
  import opened SegmentTriangle
  import opened TriangleTriangle

  /** The predicate a pair of species calls for. */
  datatype Kind = PointPointKind | PointSegmentKind | PointTriangleKind
                | SegmentSegmentKind | SegmentTriangleKind | TriangleTriangleKind

  /** deduce_intersection_type: by the sum of the species codes, a zero sum being split by
      the square of the second code. A sum outside -2..2 cannot occur. */
  function DeduceIntersectionType(first: Species, second: Species): (k: Kind)
    ensures k == PointPointKind <==> first == PointSpecies && second == PointSpecies
    ensures k == PointSegmentKind <==> {first, second} == {PointSpecies, SegmentSpecies}
    ensures k == PointTriangleKind <==> {first, second} == {PointSpecies, TriangleSpecies}
    ensures k == SegmentSegmentKind <==> first == SegmentSpecies && second == SegmentSpecies
    ensures k == SegmentTriangleKind <==> {first, second} == {SegmentSpecies, TriangleSpecies}
    ensures k == TriangleTriangleKind <==> first == TriangleSpecies && second == TriangleSpecies
  {
    var sum := first.Code() + second.Code();
    if sum == -2 then PointPointKind
    else if sum == -1 then PointSegmentKind
    else if sum == 0 then
      var mult := second.Code() * second.Code();
      if mult == 0 then SegmentSegmentKind else PointTriangleKind
    else if sum == 1 then SegmentTriangleKind
    else TriangleTriangleKind
  }

  /** The choice triangle_to_segment makes from the vectors PR and QR: when they point
      apart R lies between P and Q and the segment is PQ; otherwise it is the longer of PR
      and QR (squared lengths compared), the tie going to QR. */
  function SpanningSegment(dir: Directions, P: Point3, Q: Point3, R: Point3, pr: Vector, qr: Vector): (s: Segment<Point3>)
    ensures dir.opposite(pr, qr) ==> s == Segment(P, Q)
    ensures !dir.opposite(pr, qr) ==>
      (s == Segment(P, R) && Norm(pr) > Norm(qr)) || (s == Segment(Q, R) && Norm(qr) >= Norm(pr))
  {
    if dir.opposite(pr, qr) then Segment(P, Q)
    else if Norm(pr) > Norm(qr) then Segment(P, R)
    else Segment(Q, R)
  }

  /** triangle_to_segment: the segment a collinear triple spans, always joining two of its
      vertices in vertex order, and ending at R unless PR and QR point apart. */
  function TriangleToSegment(dir: Directions, tr: Triangle<Point3>): (s: Segment<Point3>)
    ensures dir.opposite(FromPoints(tr.P, tr.R), FromPoints(tr.Q, tr.R)) ==> s == Segment(tr.P, tr.Q)
    ensures !dir.opposite(FromPoints(tr.P, tr.R), FromPoints(tr.Q, tr.R)) ==>
      s == Segment(tr.P, tr.R) || s == Segment(tr.Q, tr.R)
  {
    SpanningSegment(dir, tr.P, tr.Q, tr.R, FromPoints(tr.P, tr.R), FromPoints(tr.Q, tr.R))
  }

  /** are_intersecting on two triples: the species pair picks the predicate, and each
      argument is passed as the primitive its species stands for. */
  function AreIntersecting(dir: Directions, tr1: Triangle<Point3>, tr2: Triangle<Point3>): (r: bool)
    ensures tr1.kind == PointSpecies && tr2.kind == PointSpecies ==> r == PointPointIntersect(tr1.P, tr2.P)
    ensures tr1.kind == SegmentSpecies && tr2.kind == PointSpecies ==>
      r == SegmentPointIntersect(dir, TriangleToSegment(dir, tr1), tr2.P)
    ensures tr1.kind == PointSpecies && tr2.kind == SegmentSpecies ==>
      r == SegmentPointIntersect(dir, TriangleToSegment(dir, tr2), tr1.P)
    ensures tr1.kind == TriangleSpecies && tr2.kind == PointSpecies ==> r == TrianglePointIntersect(tr1, tr2.P)
    ensures tr1.kind == PointSpecies && tr2.kind == TriangleSpecies ==> r == TrianglePointIntersect(tr2, tr1.P)
    ensures tr1.kind == SegmentSpecies && tr2.kind == SegmentSpecies ==>
      r == SegmentSegmentIntersect(dir, TriangleToSegment(dir, tr1), TriangleToSegment(dir, tr2))
    ensures tr1.kind == SegmentSpecies && tr2.kind == TriangleSpecies ==>
      r == SegmentTriangleIntersectAsWritten(TriangleToSegment(dir, tr1), tr2)
    ensures tr1.kind == TriangleSpecies && tr2.kind == SegmentSpecies ==>
      r == SegmentTriangleIntersectAsWritten(TriangleToSegment(dir, tr2), tr1)
    ensures tr1.kind == TriangleSpecies && tr2.kind == TriangleSpecies ==> r == TriangleTriangleIntersect(tr1, tr2)
  {
    match DeduceIntersectionType(tr1.kind, tr2.kind)
    case PointPointKind => PointPointIntersect(tr1.P, tr2.P)
    case PointSegmentKind =>
      if tr1.kind == SegmentSpecies then SegmentPointIntersect(dir, TriangleToSegment(dir, tr1), tr2.P)
      else SegmentPointIntersect(dir, TriangleToSegment(dir, tr2), tr1.P)
    case PointTriangleKind =>
      if tr1.kind == TriangleSpecies then TrianglePointIntersect(tr1, tr2.P)
      else TrianglePointIntersect(tr2, tr1.P)
    case SegmentSegmentKind =>
      SegmentSegmentIntersect(dir, TriangleToSegment(dir, tr1), TriangleToSegment(dir, tr2))
    case SegmentTriangleKind =>
      if tr1.kind == SegmentSpecies then SegmentTriangleIntersectAsWritten(TriangleToSegment(dir, tr1), tr2)
      else SegmentTriangleIntersectAsWritten(TriangleToSegment(dir, tr2), tr1)
    case TriangleTriangleKind => TriangleTriangleIntersect(tr1, tr2)
  }

  /** Whenever the two triples have different species, or are both points, the answer
      does not depend on their order. */
  lemma AreIntersectingSymmetric(dir: Directions, tr1: Triangle<Point3>, tr2: Triangle<Point3>)
    requires tr1.kind != tr2.kind || tr1.kind == PointSpecies
    ensures AreIntersecting(dir, tr1, tr2) == AreIntersecting(dir, tr2, tr1)
  {
    PointPointSymmetric(tr1.P, tr2.P);
  }

  /** The same dispatch with the corrected endpoint order of the segment-triangle test.
      Only a segment paired with a triangle is decided differently. */
  function AreIntersectingCorrected(dir: Directions, tr1: Triangle<Point3>, tr2: Triangle<Point3>): (r: bool)
    ensures tr1.kind == SegmentSpecies && tr2.kind == TriangleSpecies ==>
      r == SegmentTriangleIntersect(TriangleToSegment(dir, tr1), tr2)
    ensures tr1.kind == TriangleSpecies && tr2.kind == SegmentSpecies ==>
      r == SegmentTriangleIntersect(TriangleToSegment(dir, tr2), tr1)
  {
    if tr1.kind == SegmentSpecies && tr2.kind == TriangleSpecies then
      SegmentTriangleIntersect(TriangleToSegment(dir, tr1), tr2)
    else if tr1.kind == TriangleSpecies && tr2.kind == SegmentSpecies then
      SegmentTriangleIntersect(TriangleToSegment(dir, tr2), tr1)
    else AreIntersecting(dir, tr1, tr2)
  }

  /** The dispatch as written and the corrected one disagree at most on a segment whose
      first endpoint lies above the triangle's plane and whose second lies on it. */
  lemma CorrectedDiffersOnlyAboveOn(dir: Directions, tr1: Triangle<Point3>, tr2: Triangle<Point3>)
    requires tr1.kind == SegmentSpecies && tr2.kind == TriangleSpecies ==>
      EndLocations(TriangleToSegment(dir, tr1), tr2) != (Above, On)
    requires tr1.kind == TriangleSpecies && tr2.kind == SegmentSpecies ==>
      EndLocations(TriangleToSegment(dir, tr2), tr1) != (Above, On)
    ensures AreIntersectingCorrected(dir, tr1, tr2) == AreIntersecting(dir, tr1, tr2)
  {
    if tr1.kind == SegmentSpecies && tr2.kind == TriangleSpecies {
      AsWrittenDiffersOnlyAboveOn(TriangleToSegment(dir, tr1), tr2);
    } else if tr1.kind == TriangleSpecies && tr2.kind == SegmentSpecies {
      AsWrittenDiffersOnlyAboveOn(TriangleToSegment(dir, tr2), tr1);
    }
  }
}
