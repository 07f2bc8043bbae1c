/** Triangles and their degeneracy class (include/primitives/triangle.hpp). */
module Triangles {
  import opened Comparison
  import opened Points
  import opened Vectors

  /** Tr_Species: what a vertex triple degenerates to, with the source's integer codes. */
  datatype Species = PointSpecies | SegmentSpecies | TriangleSpecies
  {
    function Code(): (c: int)
      ensures -1 <= c <= 1
    {
      match this
      case PointSpecies => -1
      case SegmentSpecies => 0
      case TriangleSpecies => 1
    }
  }

  /** A triangle's vertices and its species, which the constructor fixes and no
      relabelling changes. */
  datatype Triangle<T> = Triangle(P: T, Q: T, R: T, kind: Species)

  /** Species of a 3D vertex triple: a point when the vertices compare equal pairwise in
      order, else a segment when the two edge vectors from P are collinear. */
  function Classify3(P: Point3, Q: Point3, R: Point3): (s: Species)
    ensures s == PointSpecies <==> Eq3(P, Q) && Eq3(Q, R)
    ensures s == TriangleSpecies ==> !AreCollinear(FromPoints(P, Q), FromPoints(P, R))
    ensures s == SegmentSpecies ==> AreCollinear(FromPoints(P, Q), FromPoints(P, R))
  {
    if Eq3(P, Q) && Eq3(Q, R) then PointSpecies
    else if AreCollinear(FromPoints(P, Q), FromPoints(P, R)) then SegmentSpecies
    else TriangleSpecies
  }

  /** Species of a 2D vertex triple, by the same rule with planar vectors. */
  function Classify2(P: Point2, Q: Point2, R: Point2): (s: Species)
    ensures s == PointSpecies <==> Eq2(P, Q) && Eq2(Q, R)
    ensures s == TriangleSpecies ==> !AreCollinear(FromPoints2(P, Q), FromPoints2(P, R))
    ensures s == SegmentSpecies ==> AreCollinear(FromPoints2(P, Q), FromPoints2(P, R))
  {
    if Eq2(P, Q) && Eq2(Q, R) then PointSpecies
    else if AreCollinear(FromPoints2(P, Q), FromPoints2(P, R)) then SegmentSpecies
    else TriangleSpecies
  }

  /** The 3D constructor. */
  function MakeTriangle3(P: Point3, Q: Point3, R: Point3): (t: Triangle<Point3>)
    ensures t.P == P && t.Q == Q && t.R == R
    ensures t.kind == Classify3(P, Q, R)
  {
    Triangle(P, Q, R, Classify3(P, Q, R))
  }

  /** The 2D constructor. */
  function MakeTriangle2(P: Point2, Q: Point2, R: Point2): (t: Triangle<Point2>)
    ensures t.P == P && t.Q == Q && t.R == R
    ensures t.kind == Classify2(P, Q, R)
  {
    Triangle(P, Q, R, Classify2(P, Q, R))
  }

  /** swap_QR: (P, Q, R) becomes (P, R, Q). */
  function SwapQR<T>(t: Triangle<T>): (r: Triangle<T>)
    ensures r.P == t.P && r.Q == t.R && r.R == t.Q && r.kind == t.kind
  {
    t.(Q := t.R, R := t.Q)
  }

  /** swap_clockwise: swap(P, R) then swap(Q, R), so (P, Q, R) becomes (R, P, Q). */
  function SwapClockwise<T>(t: Triangle<T>): (r: Triangle<T>)
    ensures r.P == t.R && r.Q == t.P && r.R == t.Q && r.kind == t.kind
  {
    var afterFirst := t.(P := t.R, R := t.P);
    afterFirst.(Q := afterFirst.R, R := afterFirst.Q)
  }

  /** swap_counterclockwise: swap(P, Q) then swap(R, Q), so (P, Q, R) becomes (Q, R, P). */
  function SwapCounterclockwise<T>(t: Triangle<T>): (r: Triangle<T>)
    ensures r.P == t.Q && r.Q == t.R && r.R == t.P && r.kind == t.kind
  {
    var afterFirst := t.(P := t.Q, Q := t.P);
    afterFirst.(R := afterFirst.Q, Q := afterFirst.R)
  }

  /** operator== on 3D triangles: vertex-wise, in order. */
  predicate TriEq3(lhs: Triangle<Point3>, rhs: Triangle<Point3>)
    ensures lhs.P == rhs.P && lhs.Q == rhs.Q && lhs.R == rhs.R ==> TriEq3(lhs, rhs)
  {
    Eq3(lhs.P, rhs.P) && Eq3(lhs.Q, rhs.Q) && Eq3(lhs.R, rhs.R)
  }

  /** The relabellings form the rotation group of the vertex cycle plus one reflection:
      the two rotations are inverse, each has order three, and swap_QR is an involution. */
  lemma RelabellingAlgebra<T>(t: Triangle<T>)
    ensures SwapClockwise(SwapCounterclockwise(t)) == t
    ensures SwapCounterclockwise(SwapClockwise(t)) == t
    ensures SwapClockwise(SwapClockwise(SwapClockwise(t))) == t
    ensures SwapQR(SwapQR(t)) == t
    ensures SwapClockwise(SwapClockwise(t)) == SwapCounterclockwise(t)
  {
  }

  /** A triple whose first vertex compares equal to another vertex, or whose last two
      vertices coincide, never classifies as a proper triangle. */
  lemma RepeatedVertexIsDegenerate(P: Point3, Q: Point3, R: Point3)
    requires Eq3(P, Q) || Eq3(P, R) || Q == R
    ensures Classify3(P, Q, R) != TriangleSpecies
  {
    if Eq3(P, Q) {
      CollinearWithSelfAndZero(FromPoints(P, R));
    } else if Eq3(P, R) {
      CollinearWithSelfAndZero(FromPoints(P, Q));
    } else {
      CollinearWithSelfAndZero(FromPoints(P, Q));
    }
  }

  /** A triple of pairwise-equal points is also collinear, so species are nested. */
  lemma PointSpeciesIsCollinear(P: Point3, Q: Point3, R: Point3)
    requires Classify3(P, Q, R) == PointSpecies
    ensures AreCollinear(FromPoints(P, Q), FromPoints(P, R))
  {
    CollinearWithSelfAndZero(FromPoints(P, R));
  }

  /** Test vector of test/basic_tests/src/triangle.cpp: swap_QR exchanges Q and R. */
  lemma SwapQRExample()
    ensures var t := MakeTriangle3(Point3(872892.0, 15231284.0, 0.000024578),
                                   Point3(1635.98561, 337618.98, -8841.0),
                                   Point3(-8374.61, -0.387491, 0.01367));
      SwapQR(t).Q == t.R && SwapQR(t).R == t.Q
  {
  }

  /** Test vector of test/basic_tests/src/triangle.cpp: a triple whose coordinates agree
      only up to the tolerance, partly through its relative branch, classifies as a point. */
  lemma RelativePointExample()
    ensures Classify3(Point3(0.000000253201, 493193.712904, 238710.0830),
                      Point3(0.000000253202, 493193.812904, 238710.1829),
                      Point3(0.000000353200, 493193.912904, 238710.2831)) == PointSpecies
  {
    assert AreEqual(0.000000253201, 0.000000253202);
    assert AreEqual(0.000000253202, 0.000000353200);
    assert AreEqual(493193.712904, 493193.812904);
    assert AreEqual(493193.812904, 493193.912904);
    assert AreEqual(238710.0830, 238710.1829);
    assert AreEqual(238710.1829, 238710.2831);
  }

  /** Test vector of test/basic_tests/src/triangle.cpp: a generic triple is not a point. */
  lemma GenericTripleExample()
    ensures Classify3(Point3(48752.0, -104581.25, 8502.1924),
                      Point3(0.00014, -582.561, 523.154),
                      Point3(671.1581, 0.0, 98714.051)) != PointSpecies
  {
    assert !AreEqual(48752.0, 0.00014);
  }

  /** Test vectors of test/basic_tests/src/triangle.cpp for segments: exactly proportional
      vertices, and every placement of a repeated vertex. */
  lemma ProportionalSpeciesExample()
    ensures var p := Point3(73240.874, -127.7935, 12597.987124);
      Classify3(p, Point3(p.x / 2.0, p.y / 2.0, p.z / 2.0),
                Point3(p.x / 3.0, p.y / 3.0, p.z / 3.0)) == SegmentSpecies
  {
    var p := Point3(73240.874, -127.7935, 12597.987124);
    var q, r := Point3(p.x / 2.0, p.y / 2.0, p.z / 2.0), Point3(p.x / 3.0, p.y / 3.0, p.z / 3.0);
    var u := Vector(p.x, p.y, p.z);
    assert FromPoints(p, q) == Scale(u, -0.5);
    assert FromPoints(p, r) == Scale(u, -2.0 / 3.0);
    ScaledAreCollinear(u, -0.5, -2.0 / 3.0);
  }
}
