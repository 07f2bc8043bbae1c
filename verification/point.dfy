/** Points in the plane and in space (include/primitives/point.hpp). */
module Points {
  import opened Comparison

  datatype Point2 = Point2(x: real, y: real)

  datatype Point3 = Point3(x: real, y: real, z: real)

  /** operator== on 2D points: every coordinate tolerantly equal. */
  predicate Eq2(first: Point2, second: Point2)
    ensures first == second ==> Eq2(first, second)
  {
    AreEqual(first.x, second.x) && AreEqual(first.y, second.y)
  }

  /** operator== on 3D points: every coordinate tolerantly equal. */
  predicate Eq3(first: Point3, second: Point3)
    ensures first == second ==> Eq3(first, second)
    ensures Eq3(first, second) ==> Eq2(Point2(first.x, first.y), Point2(second.x, second.y))
  {
    AreEqual(first.x, second.x) && AreEqual(first.y, second.y) && AreEqual(first.z, second.z)
  }

  /** Point equality inherits reflexivity and symmetry from the coordinate test. */
  lemma EqReflexiveSymmetric(a: Point3, b: Point3, c: Point2, d: Point2)
    ensures Eq3(a, a) && Eq2(c, c)
    ensures Eq3(a, b) <==> Eq3(b, a)
    ensures Eq2(c, d) <==> Eq2(d, c)
  {
    AreEqualSymmetric(a.x, b.x);
    AreEqualSymmetric(a.y, b.y);
    AreEqualSymmetric(a.z, b.z);
    AreEqualSymmetric(c.x, d.x);
    AreEqualSymmetric(c.y, d.y);
  }

  function SquaredDistance2(first: Point2, second: Point2): real
  {
    (first.x - second.x) * (first.x - second.x) + (first.y - second.y) * (first.y - second.y)
  }

  function SquaredDistance3(first: Point3, second: Point3): real
  {
    (first.x - second.x) * (first.x - second.x)
    + (first.y - second.y) * (first.y - second.y)
    + (first.z - second.z) * (first.z - second.z)
  }

  /** distance between 2D points; the square root is a parameter. Points that compare
      equal are at distance exactly zero, whatever the square root returns. */
  function Distance2(first: Point2, second: Point2, sqrt: real -> real): (d: real)
    ensures Eq2(first, second) ==> d == 0.0
    ensures !Eq2(first, second) ==> d == sqrt(SquaredDistance2(first, second))
  {
    if Eq2(first, second) then 0.0 else sqrt(SquaredDistance2(first, second))
  }

  /** distance between 3D points; the square root is a parameter. */
  function Distance3(first: Point3, second: Point3, sqrt: real -> real): (d: real)
    ensures Eq3(first, second) ==> d == 0.0
    ensures !Eq3(first, second) ==> d == sqrt(SquaredDistance3(first, second))
  {
    if Eq3(first, second) then 0.0 else sqrt(SquaredDistance3(first, second))
  }

  /** Test vectors of test/basic_tests/src/point.cpp: nearby points compare equal, distinct ones do not,
      and the distance between two large nearby points is zero for any square root. */
  lemma PointExamples(sqrt: real -> real)
    ensures Eq3(Point3(1.0, 2.0, 3.0), Point3(1.0, 2.0, 3.0))
    ensures !Eq3(Point3(1.0, 2.0, 3.0), Point3(2.0, 3.0, 4.0))
    ensures !Eq3(Point3(2.0, 3.0, 4.0), Point3(1.0, 2.0, 3.0))
    ensures Eq3(Point3(1.0, 2.0, 3.0), Point3(1.000001, 2.000002, 3.000003))
    ensures Eq3(Point3(1.000001, 2.000002, 3.000003), Point3(1.0, 2.0, 3.0))
    ensures Distance3(Point3(10000000.0, 0.0, 0.0), Point3(10000001.0, 0.0, 0.0), sqrt) == 0.0
  {
  }
}
