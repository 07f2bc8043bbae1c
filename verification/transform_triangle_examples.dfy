/** The test vectors of transform_triangle: every first triangle is placed against the
    plane z = 0 spanned by (1,0,0), (0,1,0), (0,0,0), and the relabelled pair is compared
    vertex by vertex with the expected one. */
module TransformTriangleExamples {
  import opened Points
  import opened Triangles
  import opened MagicProduct
  import opened TriangleTriangle

  /** The plane triangle shared by every test vector. */
  function Ground(): Triangle<Point3>
  {
    Triangle(Point3(1.0, 0.0, 0.0), Point3(0.0, 1.0, 0.0), Point3(0.0, 0.0, 0.0), TriangleSpecies)
  }

  /** The relabelling the tests inspect: the first triangle's locations against the
      plane feed transform_triangle, as in the tests' common part. */
  function Transformed(tr: Triangle<Point3>, q2: Loc3D, r2: Loc3D): Relabelled
  {
    var (p1, q1, r1) := Locations(tr, Ground());
    TransformTriangle(tr, p1, q1, r1, Ground(), q2, r2)
  }

  /** Against the plane z = 0 a vertex's location is the tolerant sign of its height. */
  lemma GroundLocations(tr: Triangle<Point3>)
    ensures Locations(tr, Ground()) == (Sign3(tr.P.z), Sign3(tr.Q.z), Sign3(tr.R.z))
  {
    Orient3DAgainstGroundPlane(tr.P);
    Orient3DAgainstGroundPlane(tr.Q);
    Orient3DAgainstGroundPlane(tr.R);
  }

  /** P Above, Q Above, R On: the first triangle is turned clockwise to (R, P, Q); the plane triangle is reflected by swap_QR. */
  lemma AboveAboveOnExample(kind: Species, q2: Loc3D, r2: Loc3D)
    ensures var tr := Triangle(Point3(-12.0, 13.0, 4.0), Point3(8.0, -5.0, 3.0), Point3(5.0, -7.0, 0.0), kind);
      && Locations(tr, Ground()) == (Above, Above, On)
      && Transformed(tr, q2, r2).first == Triangle(tr.R, tr.P, tr.Q, kind)
      && Transformed(tr, q2, r2).second == Triangle(Ground().P, Ground().R, Ground().Q, TriangleSpecies)
  {
    GroundLocations(Triangle(Point3(-12.0, 13.0, 4.0), Point3(8.0, -5.0, 3.0), Point3(5.0, -7.0, 0.0), kind));
  }

  /** P Above, Q Above, R Below: the first triangle is turned clockwise to (R, P, Q); the plane triangle is reflected by swap_QR. */
  lemma AboveAboveBelowExample(kind: Species, q2: Loc3D, r2: Loc3D)
    ensures var tr := Triangle(Point3(71.0, 5.0, 10.0), Point3(-2.0, 1.0, 14.0), Point3(8.0, -20.0, -9.0), kind);
      && Locations(tr, Ground()) == (Above, Above, Below)
      && Transformed(tr, q2, r2).first == Triangle(tr.R, tr.P, tr.Q, kind)
      && Transformed(tr, q2, r2).second == Triangle(Ground().P, Ground().R, Ground().Q, TriangleSpecies)
  {
    GroundLocations(Triangle(Point3(71.0, 5.0, 10.0), Point3(-2.0, 1.0, 14.0), Point3(8.0, -20.0, -9.0), kind));
  }

  /** P Above, Q On, R Above: the first triangle is turned counter-clockwise to (Q, R, P); the plane triangle is reflected by swap_QR. */
  lemma AboveOnAboveExample(kind: Species, q2: Loc3D, r2: Loc3D)
    ensures var tr := Triangle(Point3(7.0, -9.0, 11.0), Point3(-34.0, 16.0, 0.0), Point3(-28.0, 3.0, 8.0), kind);
      && Locations(tr, Ground()) == (Above, On, Above)
      && Transformed(tr, q2, r2).first == Triangle(tr.Q, tr.R, tr.P, kind)
      && Transformed(tr, q2, r2).second == Triangle(Ground().P, Ground().R, Ground().Q, TriangleSpecies)
  {
    GroundLocations(Triangle(Point3(7.0, -9.0, 11.0), Point3(-34.0, 16.0, 0.0), Point3(-28.0, 3.0, 8.0), kind));
  }

  /** P Above, Q On, R On: the first triangle is kept; the plane triangle is kept. */
  lemma AboveOnOnExample(kind: Species, q2: Loc3D, r2: Loc3D)
    ensures var tr := Triangle(Point3(-1.0, 7.0, 5.0), Point3(-22.0, 15.0, 0.0), Point3(18.0, 6.0, 0.0), kind);
      && Locations(tr, Ground()) == (Above, On, On)
      && Transformed(tr, q2, r2).first == Triangle(tr.P, tr.Q, tr.R, kind)
      && Transformed(tr, q2, r2).second == Triangle(Ground().P, Ground().Q, Ground().R, TriangleSpecies)
  {
    GroundLocations(Triangle(Point3(-1.0, 7.0, 5.0), Point3(-22.0, 15.0, 0.0), Point3(18.0, 6.0, 0.0), kind));
  }

  /** P Above, Q On, R Below: the first triangle is kept; the plane triangle is kept. */
  lemma AboveOnBelowExample(kind: Species, q2: Loc3D, r2: Loc3D)
    ensures var tr := Triangle(Point3(17.0, -2.0, 37.0), Point3(4.0, 12.0, 0.0), Point3(0.0, 10.0, -56.0), kind);
      && Locations(tr, Ground()) == (Above, On, Below)
      && Transformed(tr, q2, r2).first == Triangle(tr.P, tr.Q, tr.R, kind)
      && Transformed(tr, q2, r2).second == Triangle(Ground().P, Ground().Q, Ground().R, TriangleSpecies)
  {
    GroundLocations(Triangle(Point3(17.0, -2.0, 37.0), Point3(4.0, 12.0, 0.0), Point3(0.0, 10.0, -56.0), kind));
  }

  /** P Above, Q Below, R Above: the first triangle is turned counter-clockwise to (Q, R, P); the plane triangle is reflected by swap_QR. */
  lemma AboveBelowAboveExample(kind: Species, q2: Loc3D, r2: Loc3D)
    ensures var tr := Triangle(Point3(13.0, -24.0, 11.0), Point3(3.0, -46.0, -25.0), Point3(9.0, -4.0, 8.0), kind);
      && Locations(tr, Ground()) == (Above, Below, Above)
      && Transformed(tr, q2, r2).first == Triangle(tr.Q, tr.R, tr.P, kind)
      && Transformed(tr, q2, r2).second == Triangle(Ground().P, Ground().R, Ground().Q, TriangleSpecies)
  {
    GroundLocations(Triangle(Point3(13.0, -24.0, 11.0), Point3(3.0, -46.0, -25.0), Point3(9.0, -4.0, 8.0), kind));
  }

  /** P Above, Q Below, R On: the first triangle is kept; the plane triangle is kept. */
  lemma AboveBelowOnExample(kind: Species, q2: Loc3D, r2: Loc3D)
    ensures var tr := Triangle(Point3(-38.0, 41.0, 67.0), Point3(-1.0, -8.0, -31.0), Point3(5.0, 9.0, 0.0), kind);
      && Locations(tr, Ground()) == (Above, Below, On)
      && Transformed(tr, q2, r2).first == Triangle(tr.P, tr.Q, tr.R, kind)
      && Transformed(tr, q2, r2).second == Triangle(Ground().P, Ground().Q, Ground().R, TriangleSpecies)
  {
    GroundLocations(Triangle(Point3(-38.0, 41.0, 67.0), Point3(-1.0, -8.0, -31.0), Point3(5.0, 9.0, 0.0), kind));
  }

  /** P Above, Q Below, R Below: the first triangle is kept; the plane triangle is kept. */
  lemma AboveBelowBelowExample(kind: Species, q2: Loc3D, r2: Loc3D)
    ensures var tr := Triangle(Point3(4.0, 14.0, 13.0), Point3(71.0, -35.0, -15.0), Point3(-16.0, 23.0, -18.0), kind);
      && Locations(tr, Ground()) == (Above, Below, Below)
      && Transformed(tr, q2, r2).first == Triangle(tr.P, tr.Q, tr.R, kind)
      && Transformed(tr, q2, r2).second == Triangle(Ground().P, Ground().Q, Ground().R, TriangleSpecies)
  {
    GroundLocations(Triangle(Point3(4.0, 14.0, 13.0), Point3(71.0, -35.0, -15.0), Point3(-16.0, 23.0, -18.0), kind));
  }

  /** P On, Q Above, R Above: the first triangle is kept; the plane triangle is reflected by swap_QR. */
  lemma OnAboveAboveExample(kind: Species, q2: Loc3D, r2: Loc3D)
    ensures var tr := Triangle(Point3(-18.0, 71.0, 0.0), Point3(1.0, 5.0, 35.0), Point3(9.0, -43.0, 11.0), kind);
      && Locations(tr, Ground()) == (On, Above, Above)
      && Transformed(tr, q2, r2).first == Triangle(tr.P, tr.Q, tr.R, kind)
      && Transformed(tr, q2, r2).second == Triangle(Ground().P, Ground().R, Ground().Q, TriangleSpecies)
  {
    GroundLocations(Triangle(Point3(-18.0, 71.0, 0.0), Point3(1.0, 5.0, 35.0), Point3(9.0, -43.0, 11.0), kind));
  }

  /** P On, Q Above, R On: the first triangle is turned counter-clockwise to (Q, R, P); the plane triangle is kept. */
  lemma OnAboveOnExample(kind: Species, q2: Loc3D, r2: Loc3D)
    ensures var tr := Triangle(Point3(4.0, -6.0, 0.0), Point3(52.0, -37.0, 15.0), Point3(91.0, -21.0, 0.0), kind);
      && Locations(tr, Ground()) == (On, Above, On)
      && Transformed(tr, q2, r2).first == Triangle(tr.Q, tr.R, tr.P, kind)
      && Transformed(tr, q2, r2).second == Triangle(Ground().P, Ground().Q, Ground().R, TriangleSpecies)
  {
    GroundLocations(Triangle(Point3(4.0, -6.0, 0.0), Point3(52.0, -37.0, 15.0), Point3(91.0, -21.0, 0.0), kind));
  }

  /** P On, Q Above, R Below: the first triangle is turned counter-clockwise to (Q, R, P); the plane triangle is kept. */
  lemma OnAboveBelowExample(kind: Species, q2: Loc3D, r2: Loc3D)
    ensures var tr := Triangle(Point3(44.0, 55.0, 0.0), Point3(-13.0, 42.0, 12.0), Point3(66.0, -74.0, -33.0), kind);
      && Locations(tr, Ground()) == (On, Above, Below)
      && Transformed(tr, q2, r2).first == Triangle(tr.Q, tr.R, tr.P, kind)
      && Transformed(tr, q2, r2).second == Triangle(Ground().P, Ground().Q, Ground().R, TriangleSpecies)
  {
    GroundLocations(Triangle(Point3(44.0, 55.0, 0.0), Point3(-13.0, 42.0, 12.0), Point3(66.0, -74.0, -33.0), kind));
  }

  /** P On, Q On, R Above: the first triangle is turned clockwise to (R, P, Q); the plane triangle is kept. */
  lemma OnOnAboveExample(kind: Species, q2: Loc3D, r2: Loc3D)
    ensures var tr := Triangle(Point3(31.0, -26.0, 0.0), Point3(83.0, -38.0, 0.0), Point3(-22.0, 74.0, 37.0), kind);
      && Locations(tr, Ground()) == (On, On, Above)
      && Transformed(tr, q2, r2).first == Triangle(tr.R, tr.P, tr.Q, kind)
      && Transformed(tr, q2, r2).second == Triangle(Ground().P, Ground().Q, Ground().R, TriangleSpecies)
  {
    GroundLocations(Triangle(Point3(31.0, -26.0, 0.0), Point3(83.0, -38.0, 0.0), Point3(-22.0, 74.0, 37.0), kind));
  }

  /** P On, Q On, R Below: the first triangle is turned clockwise to (R, P, Q); the plane triangle is reflected by swap_QR. */
  lemma OnOnBelowExample(kind: Species, q2: Loc3D, r2: Loc3D)
    ensures var tr := Triangle(Point3(41.0, -62.0, 0.0), Point3(-59.0, 41.0, 0.0), Point3(73.0, 26.0, -29.0), kind);
      && Locations(tr, Ground()) == (On, On, Below)
      && Transformed(tr, q2, r2).first == Triangle(tr.R, tr.P, tr.Q, kind)
      && Transformed(tr, q2, r2).second == Triangle(Ground().P, Ground().R, Ground().Q, TriangleSpecies)
  {
    GroundLocations(Triangle(Point3(41.0, -62.0, 0.0), Point3(-59.0, 41.0, 0.0), Point3(73.0, 26.0, -29.0), kind));
  }

  /** P On, Q Below, R Above: the first triangle is turned clockwise to (R, P, Q); the plane triangle is kept. */
  lemma OnBelowAboveExample(kind: Species, q2: Loc3D, r2: Loc3D)
    ensures var tr := Triangle(Point3(37.0, 20.0, 0.0), Point3(-12.0, 77.0, -49.0), Point3(40.0, -31.0, 16.0), kind);
      && Locations(tr, Ground()) == (On, Below, Above)
      && Transformed(tr, q2, r2).first == Triangle(tr.R, tr.P, tr.Q, kind)
      && Transformed(tr, q2, r2).second == Triangle(Ground().P, Ground().Q, Ground().R, TriangleSpecies)
  {
    GroundLocations(Triangle(Point3(37.0, 20.0, 0.0), Point3(-12.0, 77.0, -49.0), Point3(40.0, -31.0, 16.0), kind));
  }

  /** P On, Q Below, R On: the first triangle is turned counter-clockwise to (Q, R, P); the plane triangle is reflected by swap_QR. */
  lemma OnBelowOnExample(kind: Species, q2: Loc3D, r2: Loc3D)
    ensures var tr := Triangle(Point3(76.0, -38.0, 0.0), Point3(92.0, 17.0, -50.0), Point3(5.0, -6.0, 0.0), kind);
      && Locations(tr, Ground()) == (On, Below, On)
      && Transformed(tr, q2, r2).first == Triangle(tr.Q, tr.R, tr.P, kind)
      && Transformed(tr, q2, r2).second == Triangle(Ground().P, Ground().R, Ground().Q, TriangleSpecies)
  {
    GroundLocations(Triangle(Point3(76.0, -38.0, 0.0), Point3(92.0, 17.0, -50.0), Point3(5.0, -6.0, 0.0), kind));
  }

  /** P On, Q Below, R Below: the first triangle is kept; the plane triangle is kept. */
  lemma OnBelowBelowExample(kind: Species, q2: Loc3D, r2: Loc3D)
    ensures var tr := Triangle(Point3(24.0, -53.0, 0.0), Point3(10.0, 35.0, -23.0), Point3(73.0, -27.0, -61.0), kind);
      && Locations(tr, Ground()) == (On, Below, Below)
      && Transformed(tr, q2, r2).first == Triangle(tr.P, tr.Q, tr.R, kind)
      && Transformed(tr, q2, r2).second == Triangle(Ground().P, Ground().Q, Ground().R, TriangleSpecies)
  {
    GroundLocations(Triangle(Point3(24.0, -53.0, 0.0), Point3(10.0, 35.0, -23.0), Point3(73.0, -27.0, -61.0), kind));
  }

  /** P Below, Q Above, R Above: the first triangle is kept; the plane triangle is reflected by swap_QR. */
  lemma BelowAboveAboveExample(kind: Species, q2: Loc3D, r2: Loc3D)
    ensures var tr := Triangle(Point3(14.0, -63.0, -39.0), Point3(95.0, 88.0, 18.0), Point3(2.0, 8.0, 1.0), kind);
      && Locations(tr, Ground()) == (Below, Above, Above)
      && Transformed(tr, q2, r2).first == Triangle(tr.P, tr.Q, tr.R, kind)
      && Transformed(tr, q2, r2).second == Triangle(Ground().P, Ground().R, Ground().Q, TriangleSpecies)
  {
    GroundLocations(Triangle(Point3(14.0, -63.0, -39.0), Point3(95.0, 88.0, 18.0), Point3(2.0, 8.0, 1.0), kind));
  }

  /** P Below, Q Above, R On: the first triangle is kept; the plane triangle is reflected by swap_QR. */
  lemma BelowAboveOnExample(kind: Species, q2: Loc3D, r2: Loc3D)
    ensures var tr := Triangle(Point3(67.0, -32.0, -56.0), Point3(0.0, -14.0, 26.0), Point3(19.0, -21.0, 0.0), kind);
      && Locations(tr, Ground()) == (Below, Above, On)
      && Transformed(tr, q2, r2).first == Triangle(tr.P, tr.Q, tr.R, kind)
      && Transformed(tr, q2, r2).second == Triangle(Ground().P, Ground().R, Ground().Q, TriangleSpecies)
  {
    GroundLocations(Triangle(Point3(67.0, -32.0, -56.0), Point3(0.0, -14.0, 26.0), Point3(19.0, -21.0, 0.0), kind));
  }

  /** P Below, Q Above, R Below: the first triangle is turned counter-clockwise to (Q, R, P); the plane triangle is kept. */
  lemma BelowAboveBelowExample(kind: Species, q2: Loc3D, r2: Loc3D)
    ensures var tr := Triangle(Point3(64.0, -24.0, -23.0), Point3(11.0, 15.0, 55.0), Point3(-83.0, 43.0, -73.0), kind);
      && Locations(tr, Ground()) == (Below, Above, Below)
      && Transformed(tr, q2, r2).first == Triangle(tr.Q, tr.R, tr.P, kind)
      && Transformed(tr, q2, r2).second == Triangle(Ground().P, Ground().Q, Ground().R, TriangleSpecies)
  {
    GroundLocations(Triangle(Point3(64.0, -24.0, -23.0), Point3(11.0, 15.0, 55.0), Point3(-83.0, 43.0, -73.0), kind));
  }

  /** P Below, Q On, R Above: the first triangle is kept; the plane triangle is reflected by swap_QR. */
  lemma BelowOnAboveExample(kind: Species, q2: Loc3D, r2: Loc3D)
    ensures var tr := Triangle(Point3(13.0, 53.0, -56.0), Point3(-94.0, 26.0, 0.0), Point3(82.0, -74.0, 81.0), kind);
      && Locations(tr, Ground()) == (Below, On, Above)
      && Transformed(tr, q2, r2).first == Triangle(tr.P, tr.Q, tr.R, kind)
      && Transformed(tr, q2, r2).second == Triangle(Ground().P, Ground().R, Ground().Q, TriangleSpecies)
  {
    GroundLocations(Triangle(Point3(13.0, 53.0, -56.0), Point3(-94.0, 26.0, 0.0), Point3(82.0, -74.0, 81.0), kind));
  }

  /** P Below, Q On, R On: the first triangle is kept; the plane triangle is reflected by swap_QR. */
  lemma BelowOnOnExample(kind: Species, q2: Loc3D, r2: Loc3D)
    ensures var tr := Triangle(Point3(23.0, 74.0, -59.0), Point3(-25.0, 63.0, 0.0), Point3(-86.0, 61.0, 0.0), kind);
      && Locations(tr, Ground()) == (Below, On, On)
      && Transformed(tr, q2, r2).first == Triangle(tr.P, tr.Q, tr.R, kind)
      && Transformed(tr, q2, r2).second == Triangle(Ground().P, Ground().R, Ground().Q, TriangleSpecies)
  {
    GroundLocations(Triangle(Point3(23.0, 74.0, -59.0), Point3(-25.0, 63.0, 0.0), Point3(-86.0, 61.0, 0.0), kind));
  }

  /** P Below, Q On, R Below: the first triangle is turned counter-clockwise to (Q, R, P); the plane triangle is kept. */
  lemma BelowOnBelowExample(kind: Species, q2: Loc3D, r2: Loc3D)
    ensures var tr := Triangle(Point3(24.0, 60.0, -73.0), Point3(34.0, -73.0, 0.0), Point3(-92.0, 10.0, -20.0), kind);
      && Locations(tr, Ground()) == (Below, On, Below)
      && Transformed(tr, q2, r2).first == Triangle(tr.Q, tr.R, tr.P, kind)
      && Transformed(tr, q2, r2).second == Triangle(Ground().P, Ground().Q, Ground().R, TriangleSpecies)
  {
    GroundLocations(Triangle(Point3(24.0, 60.0, -73.0), Point3(34.0, -73.0, 0.0), Point3(-92.0, 10.0, -20.0), kind));
  }

  /** P Below, Q Below, R Above: the first triangle is turned clockwise to (R, P, Q); the plane triangle is kept. */
  lemma BelowBelowAboveExample(kind: Species, q2: Loc3D, r2: Loc3D)
    ensures var tr := Triangle(Point3(61.0, 93.0, -27.0), Point3(14.0, 25.0, -80.0), Point3(7.0, -2.0, 23.0), kind);
      && Locations(tr, Ground()) == (Below, Below, Above)
      && Transformed(tr, q2, r2).first == Triangle(tr.R, tr.P, tr.Q, kind)
      && Transformed(tr, q2, r2).second == Triangle(Ground().P, Ground().Q, Ground().R, TriangleSpecies)
  {
    GroundLocations(Triangle(Point3(61.0, 93.0, -27.0), Point3(14.0, 25.0, -80.0), Point3(7.0, -2.0, 23.0), kind));
  }

  /** P Below, Q Below, R On: the first triangle is turned clockwise to (R, P, Q); the plane triangle is kept. */
  lemma BelowBelowOnExample(kind: Species, q2: Loc3D, r2: Loc3D)
    ensures var tr := Triangle(Point3(75.0, 12.0, -27.0), Point3(-9.0, 32.0, -80.0), Point3(75.0, -1.0, 0.0), kind);
      && Locations(tr, Ground()) == (Below, Below, On)
      && Transformed(tr, q2, r2).first == Triangle(tr.R, tr.P, tr.Q, kind)
      && Transformed(tr, q2, r2).second == Triangle(Ground().P, Ground().Q, Ground().R, TriangleSpecies)
  {
    GroundLocations(Triangle(Point3(75.0, 12.0, -27.0), Point3(-9.0, 32.0, -80.0), Point3(75.0, -1.0, 0.0), kind));
  }
}
