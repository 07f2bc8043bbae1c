/** Point-point intersection (include/intersection/point_point.hpp). */
module PointPoint {
  import opened Comparison
  import opened Points

  /** Two points intersect exactly when they compare equal under the tolerance, so in
      particular when they are identical. */
  function PointPointIntersect(first: Point3, second: Point3): (r: bool)
    ensures r <==> Eq3(first, second)
    ensures first == second ==> r
  {
    Eq3(first, second)
  }

  /** The predicate is reflexive and symmetric. */
  lemma PointPointSymmetric(first: Point3, second: Point3)
    ensures PointPointIntersect(first, first)
    ensures PointPointIntersect(first, second) == PointPointIntersect(second, first)
  {
    EqReflexiveSymmetric(first, second, Point2(0.0, 0.0), Point2(0.0, 0.0));
  }

  /** The points of test/basic_tests/src/point.cpp: (1, 2, 3) meets (1.000001, 2.000002,
      3.000003), which agrees with it only through the relative branch, and misses
      (2, 3, 4), in either order. */
  lemma PointPointExample()
    ensures PointPointIntersect(Point3(1.0, 2.0, 3.0), Point3(1.000001, 2.000002, 3.000003))
    ensures PointPointIntersect(Point3(1.000001, 2.000002, 3.000003), Point3(1.0, 2.0, 3.0))
    ensures !PointPointIntersect(Point3(1.0, 2.0, 3.0), Point3(2.0, 3.0, 4.0))
    ensures !PointPointIntersect(Point3(2.0, 3.0, 4.0), Point3(1.0, 2.0, 3.0))
  {
    assert AreEqual(1.0, 1.000001) && AreEqual(2.0, 2.000002) && AreEqual(3.0, 3.000003);
    PointPointSymmetric(Point3(1.0, 2.0, 3.0), Point3(1.000001, 2.000002, 3.000003));
  }
}
