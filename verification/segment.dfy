/** Segments between two points (include/primitives/segment.hpp). */
module Segments {
  import opened Points

  datatype Segment<T> = Segment(P: T, Q: T)

  /** swap_points: the same segment traversed the other way. */
  function SwapPoints<T>(seg: Segment<T>): (r: Segment<T>)
    ensures r.P == seg.Q && r.Q == seg.P
  {
    Segment(seg.Q, seg.P)
  }

  /** operator== on 3D segments: endpoint-wise, in order. */
  predicate SegEq3(lhs: Segment<Point3>, rhs: Segment<Point3>)
    ensures lhs == rhs ==> SegEq3(lhs, rhs)
  {
    Eq3(lhs.P, rhs.P) && Eq3(lhs.Q, rhs.Q)
  }

  /** Swapping twice restores the segment; a segment equals itself
      (test/basic_tests/src/segment.cpp). */
  lemma SwapPointsInvolution<T>(seg: Segment<T>)
    ensures SwapPoints(SwapPoints(seg)) == seg
  {
  }

  lemma SegEqReflexive(seg: Segment<Point3>)
    ensures SegEq3(seg, seg)
  {
    EqReflexiveSymmetric(seg.P, seg.Q, Point2(0.0, 0.0), Point2(0.0, 0.0));
    EqReflexiveSymmetric(seg.Q, seg.P, Point2(0.0, 0.0), Point2(0.0, 0.0));
  }
}
