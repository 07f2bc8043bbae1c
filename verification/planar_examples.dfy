/** The planar test vectors of test/algorithm/src/triangle_triangle.cpp: every triangle of
    the tests Triangle_Triangle_2D_Easy_Cases, _R1, _R21, _R22_or_R25, _R24 and _R22_or_R23
    against tr = (0,1,0), (0,0,0), (1,0,0), in both orders. Each one runs through the
    region tests of the planar algorithm; the two vectors already stated in
    TriangleTriangleExamples are not repeated. */
module PlanarExamples {
  import opened Points
  import opened Vectors
  import opened Triangles
  import opened MagicProduct
  import opened TriangleTriangle

  /** test/algorithm/src/triangle_triangle.cpp, Triangle_Triangle_2D_Easy_Cases, are_intersecting (tr_2, tr). */
  lemma PlanarEasyCase2Example()
    ensures TriangleTriangleIntersect(Triangle(Point3(0.5, 0.5, 0.0), Point3(1.5, 0.5, 0.0), Point3(0.5, 1.5, 0.0), TriangleSpecies),
      Triangle(Point3(0.0, 1.0, 0.0), Point3(0.0, 0.0, 0.0), Point3(1.0, 0.0, 0.0), TriangleSpecies))
  {
    assert FromPoints(Point3(0.5, 0.5, 0.0), Point3(1.5, 0.5, 0.0)) == Vector(1.0, 0.0, 0.0);
    assert FromPoints(Point3(0.5, 0.5, 0.0), Point3(0.5, 1.5, 0.0)) == Vector(0.0, 1.0, 0.0);
    assert VectorProduct(Vector(1.0, 0.0, 0.0), Vector(0.0, 1.0, 0.0)).z == 1.0;
    GroundCoplanar(Triangle(Point3(0.5, 0.5, 0.0), Point3(1.5, 0.5, 0.0), Point3(0.5, 1.5, 0.0), TriangleSpecies),
      Triangle(Point3(0.0, 1.0, 0.0), Point3(0.0, 0.0, 0.0), Point3(1.0, 0.0, 0.0), TriangleSpecies));
    PlanarEasyCase2Orientations1();
    PlanarEasyCase2Orientations2();
    PlanarEasyCase2Orientations3();
  }

  /** The orientations the example above reads, part 1. */
  lemma PlanarEasyCase2Orientations1()
    ensures Orient2D(Point2(0.5, 0.5), Point2(1.5, 0.5), Point2(0.5, 1.5)) == Positive
    ensures Orient2D(Point2(0.0, 1.0), Point2(0.0, 0.0), Point2(1.0, 0.0)) == Positive
  {
    Orient2DIs(0.5, 0.5, 1.5, 0.5, 0.5, 1.5, Positive);
    Orient2DIs(0.0, 1.0, 0.0, 0.0, 1.0, 0.0, Positive);
  }

  /** The orientations the example above reads, part 2. */
  lemma PlanarEasyCase2Orientations2()
    ensures Orient2D(Point2(0.0, 1.0), Point2(0.0, 0.0), Point2(0.5, 0.5)) == Positive
    ensures Orient2D(Point2(0.0, 0.0), Point2(1.0, 0.0), Point2(0.5, 0.5)) == Positive
  {
    Orient2DIs(0.0, 1.0, 0.0, 0.0, 0.5, 0.5, Positive);
    Orient2DIs(0.0, 0.0, 1.0, 0.0, 0.5, 0.5, Positive);
  }

  /** The orientations the example above reads, part 3. */
  lemma PlanarEasyCase2Orientations3()
    ensures Orient2D(Point2(1.0, 0.0), Point2(0.0, 1.0), Point2(0.5, 0.5)) == Neutral
  {
    Orient2DIs(1.0, 0.0, 0.0, 1.0, 0.5, 0.5, Neutral);
  }

  /** test/algorithm/src/triangle_triangle.cpp, Triangle_Triangle_2D_Easy_Cases, are_intersecting (tr, tr_2). */
  lemma PlanarEasyCase2SwappedExample()
    ensures TriangleTriangleIntersect(Triangle(Point3(0.0, 1.0, 0.0), Point3(0.0, 0.0, 0.0), Point3(1.0, 0.0, 0.0), TriangleSpecies),
      Triangle(Point3(0.5, 0.5, 0.0), Point3(1.5, 0.5, 0.0), Point3(0.5, 1.5, 0.0), TriangleSpecies))
  {
    assert FromPoints(Point3(0.0, 1.0, 0.0), Point3(0.0, 0.0, 0.0)) == Vector(0.0, -1.0, 0.0);
    assert FromPoints(Point3(0.0, 1.0, 0.0), Point3(1.0, 0.0, 0.0)) == Vector(1.0, -1.0, 0.0);
    assert VectorProduct(Vector(0.0, -1.0, 0.0), Vector(1.0, -1.0, 0.0)).z == 1.0;
    GroundCoplanar(Triangle(Point3(0.0, 1.0, 0.0), Point3(0.0, 0.0, 0.0), Point3(1.0, 0.0, 0.0), TriangleSpecies),
      Triangle(Point3(0.5, 0.5, 0.0), Point3(1.5, 0.5, 0.0), Point3(0.5, 1.5, 0.0), TriangleSpecies));
    PlanarEasyCase2SwappedOrientations1();
    PlanarEasyCase2SwappedOrientations2();
    PlanarEasyCase2SwappedOrientations3();
    PlanarEasyCase2SwappedOrientations4();
    PlanarEasyCase2SwappedOrientations5();
  }

  /** The orientations the example above reads, part 1. */
  lemma PlanarEasyCase2SwappedOrientations1()
    ensures Orient2D(Point2(0.0, 1.0), Point2(0.0, 0.0), Point2(1.0, 0.0)) == Positive
    ensures Orient2D(Point2(0.5, 0.5), Point2(1.5, 0.5), Point2(0.5, 1.5)) == Positive
  {
    Orient2DIs(0.0, 1.0, 0.0, 0.0, 1.0, 0.0, Positive);
    Orient2DIs(0.5, 0.5, 1.5, 0.5, 0.5, 1.5, Positive);
  }

  /** The orientations the example above reads, part 2. */
  lemma PlanarEasyCase2SwappedOrientations2()
    ensures Orient2D(Point2(0.5, 0.5), Point2(1.5, 0.5), Point2(0.0, 1.0)) == Positive
    ensures Orient2D(Point2(1.5, 0.5), Point2(0.5, 1.5), Point2(0.0, 1.0)) == Positive
  {
    Orient2DIs(0.5, 0.5, 1.5, 0.5, 0.0, 1.0, Positive);
    Orient2DIs(1.5, 0.5, 0.5, 1.5, 0.0, 1.0, Positive);
  }

  /** The orientations the example above reads, part 3. */
  lemma PlanarEasyCase2SwappedOrientations3()
    ensures Orient2D(Point2(0.5, 1.5), Point2(0.5, 0.5), Point2(0.0, 1.0)) == Negative
    ensures Orient2D(Point2(0.5, 1.5), Point2(0.5, 0.5), Point2(0.0, 0.0)) == Negative
  {
    Orient2DIs(0.5, 1.5, 0.5, 0.5, 0.0, 1.0, Negative);
    Orient2DIs(0.5, 1.5, 0.5, 0.5, 0.0, 0.0, Negative);
  }

  /** The orientations the example above reads, part 4. */
  lemma PlanarEasyCase2SwappedOrientations4()
    ensures Orient2D(Point2(0.5, 1.5), Point2(0.5, 0.5), Point2(1.0, 0.0)) == Positive
    ensures Orient2D(Point2(0.0, 0.0), Point2(0.5, 1.5), Point2(1.0, 0.0)) == Negative
  {
    Orient2DIs(0.5, 1.5, 0.5, 0.5, 1.0, 0.0, Positive);
    Orient2DIs(0.0, 0.0, 0.5, 1.5, 1.0, 0.0, Negative);
  }

  /** The orientations the example above reads, part 5. */
  lemma PlanarEasyCase2SwappedOrientations5()
    ensures Orient2D(Point2(0.0, 1.0), Point2(0.5, 0.5), Point2(1.0, 0.0)) == Neutral
  {
    Orient2DIs(0.0, 1.0, 0.5, 0.5, 1.0, 0.0, Neutral);
  }

  /** test/algorithm/src/triangle_triangle.cpp, Triangle_Triangle_2D_Easy_Cases, are_intersecting (tr_3, tr). */
  lemma PlanarEasyCase3Example()
    ensures TriangleTriangleIntersect(Triangle(Point3(0.5, 0.0, 0.0), Point3(0.5, -1.0, 0.0), Point3(1.5, -1.0, 0.0), TriangleSpecies),
      Triangle(Point3(0.0, 1.0, 0.0), Point3(0.0, 0.0, 0.0), Point3(1.0, 0.0, 0.0), TriangleSpecies))
  {
    assert FromPoints(Point3(0.5, 0.0, 0.0), Point3(0.5, -1.0, 0.0)) == Vector(0.0, -1.0, 0.0);
    assert FromPoints(Point3(0.5, 0.0, 0.0), Point3(1.5, -1.0, 0.0)) == Vector(1.0, -1.0, 0.0);
    assert VectorProduct(Vector(0.0, -1.0, 0.0), Vector(1.0, -1.0, 0.0)).z == 1.0;
    GroundCoplanar(Triangle(Point3(0.5, 0.0, 0.0), Point3(0.5, -1.0, 0.0), Point3(1.5, -1.0, 0.0), TriangleSpecies),
      Triangle(Point3(0.0, 1.0, 0.0), Point3(0.0, 0.0, 0.0), Point3(1.0, 0.0, 0.0), TriangleSpecies));
    PlanarEasyCase3Orientations1();
    PlanarEasyCase3Orientations2();
    PlanarEasyCase3Orientations3();
  }

  /** The orientations the example above reads, part 1. */
  lemma PlanarEasyCase3Orientations1()
    ensures Orient2D(Point2(0.5, 0.0), Point2(0.5, -1.0), Point2(1.5, -1.0)) == Positive
    ensures Orient2D(Point2(0.0, 1.0), Point2(0.0, 0.0), Point2(1.0, 0.0)) == Positive
  {
    Orient2DIs(0.5, 0.0, 0.5, -1.0, 1.5, -1.0, Positive);
    Orient2DIs(0.0, 1.0, 0.0, 0.0, 1.0, 0.0, Positive);
  }

  /** The orientations the example above reads, part 2. */
  lemma PlanarEasyCase3Orientations2()
    ensures Orient2D(Point2(0.0, 1.0), Point2(0.0, 0.0), Point2(0.5, 0.0)) == Positive
    ensures Orient2D(Point2(0.0, 0.0), Point2(1.0, 0.0), Point2(0.5, 0.0)) == Neutral
  {
    Orient2DIs(0.0, 1.0, 0.0, 0.0, 0.5, 0.0, Positive);
    Orient2DIs(0.0, 0.0, 1.0, 0.0, 0.5, 0.0, Neutral);
  }

  /** The orientations the example above reads, part 3. */
  lemma PlanarEasyCase3Orientations3()
    ensures Orient2D(Point2(1.0, 0.0), Point2(0.0, 1.0), Point2(0.5, 0.0)) == Positive
  {
    Orient2DIs(1.0, 0.0, 0.0, 1.0, 0.5, 0.0, Positive);
  }

  /** test/algorithm/src/triangle_triangle.cpp, Triangle_Triangle_2D_Easy_Cases, are_intersecting (tr, tr_3). */
  lemma PlanarEasyCase3SwappedExample()
    ensures TriangleTriangleIntersect(Triangle(Point3(0.0, 1.0, 0.0), Point3(0.0, 0.0, 0.0), Point3(1.0, 0.0, 0.0), TriangleSpecies),
      Triangle(Point3(0.5, 0.0, 0.0), Point3(0.5, -1.0, 0.0), Point3(1.5, -1.0, 0.0), TriangleSpecies))
  {
    assert FromPoints(Point3(0.0, 1.0, 0.0), Point3(0.0, 0.0, 0.0)) == Vector(0.0, -1.0, 0.0);
    assert FromPoints(Point3(0.0, 1.0, 0.0), Point3(1.0, 0.0, 0.0)) == Vector(1.0, -1.0, 0.0);
    assert VectorProduct(Vector(0.0, -1.0, 0.0), Vector(1.0, -1.0, 0.0)).z == 1.0;
    GroundCoplanar(Triangle(Point3(0.0, 1.0, 0.0), Point3(0.0, 0.0, 0.0), Point3(1.0, 0.0, 0.0), TriangleSpecies),
      Triangle(Point3(0.5, 0.0, 0.0), Point3(0.5, -1.0, 0.0), Point3(1.5, -1.0, 0.0), TriangleSpecies));
    PlanarEasyCase3SwappedOrientations1();
    PlanarEasyCase3SwappedOrientations2();
    PlanarEasyCase3SwappedOrientations3();
    PlanarEasyCase3SwappedOrientations4();
    PlanarEasyCase3SwappedOrientations5();
  }

  /** The orientations the example above reads, part 1. */
  lemma PlanarEasyCase3SwappedOrientations1()
    ensures Orient2D(Point2(0.0, 1.0), Point2(0.0, 0.0), Point2(1.0, 0.0)) == Positive
    ensures Orient2D(Point2(0.5, 0.0), Point2(0.5, -1.0), Point2(1.5, -1.0)) == Positive
  {
    Orient2DIs(0.0, 1.0, 0.0, 0.0, 1.0, 0.0, Positive);
    Orient2DIs(0.5, 0.0, 0.5, -1.0, 1.5, -1.0, Positive);
  }

  /** The orientations the example above reads, part 2. */
  lemma PlanarEasyCase3SwappedOrientations2()
    ensures Orient2D(Point2(0.5, 0.0), Point2(0.5, -1.0), Point2(0.0, 1.0)) == Negative
    ensures Orient2D(Point2(0.5, -1.0), Point2(1.5, -1.0), Point2(0.0, 1.0)) == Positive
  {
    Orient2DIs(0.5, 0.0, 0.5, -1.0, 0.0, 1.0, Negative);
    Orient2DIs(0.5, -1.0, 1.5, -1.0, 0.0, 1.0, Positive);
  }

  /** The orientations the example above reads, part 3. */
  lemma PlanarEasyCase3SwappedOrientations3()
    ensures Orient2D(Point2(1.5, -1.0), Point2(0.5, 0.0), Point2(0.0, 1.0)) == Negative
    ensures Orient2D(Point2(0.5, 0.0), Point2(0.5, -1.0), Point2(0.0, 0.0)) == Negative
  {
    Orient2DIs(1.5, -1.0, 0.5, 0.0, 0.0, 1.0, Negative);
    Orient2DIs(0.5, 0.0, 0.5, -1.0, 0.0, 0.0, Negative);
  }

  /** The orientations the example above reads, part 4. */
  lemma PlanarEasyCase3SwappedOrientations4()
    ensures Orient2D(Point2(0.5, 0.0), Point2(0.5, -1.0), Point2(1.0, 0.0)) == Positive
    ensures Orient2D(Point2(0.5, 0.0), Point2(0.0, 0.0), Point2(1.0, 0.0)) == Neutral
  {
    Orient2DIs(0.5, 0.0, 0.5, -1.0, 1.0, 0.0, Positive);
    Orient2DIs(0.5, 0.0, 0.0, 0.0, 1.0, 0.0, Neutral);
  }

  /** The orientations the example above reads, part 5. */
  lemma PlanarEasyCase3SwappedOrientations5()
    ensures Orient2D(Point2(0.0, 1.0), Point2(0.5, -1.0), Point2(1.0, 0.0)) == Positive
  {
    Orient2DIs(0.0, 1.0, 0.5, -1.0, 1.0, 0.0, Positive);
  }

  /** test/algorithm/src/triangle_triangle.cpp, Triangle_Triangle_2D_Easy_Cases, are_intersecting (tr_4, tr). */
  lemma PlanarEasyCase4Example()
    ensures TriangleTriangleIntersect(Triangle(Point3(0.0, 0.5, 0.0), Point3(-1.0, 0.5, 0.0), Point3(-1.0, 1.5, 0.0), TriangleSpecies),
      Triangle(Point3(0.0, 1.0, 0.0), Point3(0.0, 0.0, 0.0), Point3(1.0, 0.0, 0.0), TriangleSpecies))
  {
    assert FromPoints(Point3(0.0, 0.5, 0.0), Point3(-1.0, 0.5, 0.0)) == Vector(-1.0, 0.0, 0.0);
    assert FromPoints(Point3(0.0, 0.5, 0.0), Point3(-1.0, 1.5, 0.0)) == Vector(-1.0, 1.0, 0.0);
    assert VectorProduct(Vector(-1.0, 0.0, 0.0), Vector(-1.0, 1.0, 0.0)).z == -1.0;
    GroundCoplanar(Triangle(Point3(0.0, 0.5, 0.0), Point3(-1.0, 0.5, 0.0), Point3(-1.0, 1.5, 0.0), TriangleSpecies),
      Triangle(Point3(0.0, 1.0, 0.0), Point3(0.0, 0.0, 0.0), Point3(1.0, 0.0, 0.0), TriangleSpecies));
    PlanarEasyCase4Orientations1();
    PlanarEasyCase4Orientations2();
    PlanarEasyCase4Orientations3();
  }

  /** The orientations the example above reads, part 1. */
  lemma PlanarEasyCase4Orientations1()
    ensures Orient2D(Point2(0.0, 0.5), Point2(-1.0, 0.5), Point2(-1.0, 1.5)) == Negative
    ensures Orient2D(Point2(0.0, 1.0), Point2(0.0, 0.0), Point2(1.0, 0.0)) == Positive
  {
    Orient2DIs(0.0, 0.5, -1.0, 0.5, -1.0, 1.5, Negative);
    Orient2DIs(0.0, 1.0, 0.0, 0.0, 1.0, 0.0, Positive);
  }

  /** The orientations the example above reads, part 2. */
  lemma PlanarEasyCase4Orientations2()
    ensures Orient2D(Point2(0.0, 1.0), Point2(0.0, 0.0), Point2(0.0, 0.5)) == Neutral
    ensures Orient2D(Point2(0.0, 0.0), Point2(1.0, 0.0), Point2(0.0, 0.5)) == Positive
  {
    Orient2DIs(0.0, 1.0, 0.0, 0.0, 0.0, 0.5, Neutral);
    Orient2DIs(0.0, 0.0, 1.0, 0.0, 0.0, 0.5, Positive);
  }

  /** The orientations the example above reads, part 3. */
  lemma PlanarEasyCase4Orientations3()
    ensures Orient2D(Point2(1.0, 0.0), Point2(0.0, 1.0), Point2(0.0, 0.5)) == Positive
  {
    Orient2DIs(1.0, 0.0, 0.0, 1.0, 0.0, 0.5, Positive);
  }

  /** test/algorithm/src/triangle_triangle.cpp, Triangle_Triangle_2D_Easy_Cases, are_intersecting (tr, tr_4). */
  lemma PlanarEasyCase4SwappedExample()
    ensures TriangleTriangleIntersect(Triangle(Point3(0.0, 1.0, 0.0), Point3(0.0, 0.0, 0.0), Point3(1.0, 0.0, 0.0), TriangleSpecies),
      Triangle(Point3(0.0, 0.5, 0.0), Point3(-1.0, 0.5, 0.0), Point3(-1.0, 1.5, 0.0), TriangleSpecies))
  {
    assert FromPoints(Point3(0.0, 1.0, 0.0), Point3(0.0, 0.0, 0.0)) == Vector(0.0, -1.0, 0.0);
    assert FromPoints(Point3(0.0, 1.0, 0.0), Point3(1.0, 0.0, 0.0)) == Vector(1.0, -1.0, 0.0);
    assert VectorProduct(Vector(0.0, -1.0, 0.0), Vector(1.0, -1.0, 0.0)).z == 1.0;
    GroundCoplanar(Triangle(Point3(0.0, 1.0, 0.0), Point3(0.0, 0.0, 0.0), Point3(1.0, 0.0, 0.0), TriangleSpecies),
      Triangle(Point3(0.0, 0.5, 0.0), Point3(-1.0, 0.5, 0.0), Point3(-1.0, 1.5, 0.0), TriangleSpecies));
    PlanarEasyCase4SwappedOrientations1();
    PlanarEasyCase4SwappedOrientations2();
    PlanarEasyCase4SwappedOrientations3();
    PlanarEasyCase4SwappedOrientations4();
  }

  /** The orientations the example above reads, part 1. */
  lemma PlanarEasyCase4SwappedOrientations1()
    ensures Orient2D(Point2(0.0, 1.0), Point2(0.0, 0.0), Point2(1.0, 0.0)) == Positive
    ensures Orient2D(Point2(0.0, 0.5), Point2(-1.0, 0.5), Point2(-1.0, 1.5)) == Negative
  {
    Orient2DIs(0.0, 1.0, 0.0, 0.0, 1.0, 0.0, Positive);
    Orient2DIs(0.0, 0.5, -1.0, 0.5, -1.0, 1.5, Negative);
  }

  /** The orientations the example above reads, part 2. */
  lemma PlanarEasyCase4SwappedOrientations2()
    ensures Orient2D(Point2(0.0, 0.5), Point2(-1.0, 1.5), Point2(0.0, 1.0)) == Negative
    ensures Orient2D(Point2(-1.0, 1.5), Point2(-1.0, 0.5), Point2(0.0, 1.0)) == Positive
  {
    Orient2DIs(0.0, 0.5, -1.0, 1.5, 0.0, 1.0, Negative);
    Orient2DIs(-1.0, 1.5, -1.0, 0.5, 0.0, 1.0, Positive);
  }

  /** The orientations the example above reads, part 3. */
  lemma PlanarEasyCase4SwappedOrientations3()
    ensures Orient2D(Point2(-1.0, 0.5), Point2(0.0, 0.5), Point2(0.0, 1.0)) == Positive
    ensures Orient2D(Point2(0.0, 0.5), Point2(-1.0, 1.5), Point2(0.0, 0.0)) == Positive
  {
    Orient2DIs(-1.0, 0.5, 0.0, 0.5, 0.0, 1.0, Positive);
    Orient2DIs(0.0, 0.5, -1.0, 1.5, 0.0, 0.0, Positive);
  }

  /** The orientations the example above reads, part 4. */
  lemma PlanarEasyCase4SwappedOrientations4()
    ensures Orient2D(Point2(0.0, 1.0), Point2(0.0, 0.5), Point2(0.0, 0.0)) == Neutral
    ensures Orient2D(Point2(0.0, 1.0), Point2(-1.0, 1.5), Point2(0.0, 0.0)) == Positive
  {
    Orient2DIs(0.0, 1.0, 0.0, 0.5, 0.0, 0.0, Neutral);
    Orient2DIs(0.0, 1.0, -1.0, 1.5, 0.0, 0.0, Positive);
  }

  /** test/algorithm/src/triangle_triangle.cpp, Triangle_Triangle_2D_Easy_Cases, are_intersecting (tr_5, tr). */
  lemma PlanarEasyCase5Example()
    ensures TriangleTriangleIntersect(Triangle(Point3(0.0, 1.0, 0.0), Point3(1.0, 1.0, 0.0), Point3(0.0, 2.0, 0.0), TriangleSpecies),
      Triangle(Point3(0.0, 1.0, 0.0), Point3(0.0, 0.0, 0.0), Point3(1.0, 0.0, 0.0), TriangleSpecies))
  {
    assert FromPoints(Point3(0.0, 1.0, 0.0), Point3(1.0, 1.0, 0.0)) == Vector(1.0, 0.0, 0.0);
    assert FromPoints(Point3(0.0, 1.0, 0.0), Point3(0.0, 2.0, 0.0)) == Vector(0.0, 1.0, 0.0);
    assert VectorProduct(Vector(1.0, 0.0, 0.0), Vector(0.0, 1.0, 0.0)).z == 1.0;
    GroundCoplanar(Triangle(Point3(0.0, 1.0, 0.0), Point3(1.0, 1.0, 0.0), Point3(0.0, 2.0, 0.0), TriangleSpecies),
      Triangle(Point3(0.0, 1.0, 0.0), Point3(0.0, 0.0, 0.0), Point3(1.0, 0.0, 0.0), TriangleSpecies));
    PlanarEasyCase5Orientations1();
    PlanarEasyCase5Orientations2();
    PlanarEasyCase5Orientations3();
  }

  /** The orientations the example above reads, part 1. */
  lemma PlanarEasyCase5Orientations1()
    ensures Orient2D(Point2(0.0, 1.0), Point2(1.0, 1.0), Point2(0.0, 2.0)) == Positive
    ensures Orient2D(Point2(0.0, 1.0), Point2(0.0, 0.0), Point2(1.0, 0.0)) == Positive
  {
    Orient2DIs(0.0, 1.0, 1.0, 1.0, 0.0, 2.0, Positive);
    Orient2DIs(0.0, 1.0, 0.0, 0.0, 1.0, 0.0, Positive);
  }

  /** The orientations the example above reads, part 2. */
  lemma PlanarEasyCase5Orientations2()
    ensures Orient2D(Point2(0.0, 1.0), Point2(0.0, 0.0), Point2(0.0, 1.0)) == Neutral
    ensures Orient2D(Point2(0.0, 0.0), Point2(1.0, 0.0), Point2(0.0, 1.0)) == Positive
  {
    Orient2DIs(0.0, 1.0, 0.0, 0.0, 0.0, 1.0, Neutral);
    Orient2DIs(0.0, 0.0, 1.0, 0.0, 0.0, 1.0, Positive);
  }

  /** The orientations the example above reads, part 3. */
  lemma PlanarEasyCase5Orientations3()
    ensures Orient2D(Point2(1.0, 0.0), Point2(0.0, 1.0), Point2(0.0, 1.0)) == Neutral
  {
    Orient2DIs(1.0, 0.0, 0.0, 1.0, 0.0, 1.0, Neutral);
  }

  /** test/algorithm/src/triangle_triangle.cpp, Triangle_Triangle_2D_Easy_Cases, are_intersecting (tr, tr_5). */
  lemma PlanarEasyCase5SwappedExample()
    ensures TriangleTriangleIntersect(Triangle(Point3(0.0, 1.0, 0.0), Point3(0.0, 0.0, 0.0), Point3(1.0, 0.0, 0.0), TriangleSpecies),
      Triangle(Point3(0.0, 1.0, 0.0), Point3(1.0, 1.0, 0.0), Point3(0.0, 2.0, 0.0), TriangleSpecies))
  {
    assert FromPoints(Point3(0.0, 1.0, 0.0), Point3(0.0, 0.0, 0.0)) == Vector(0.0, -1.0, 0.0);
    assert FromPoints(Point3(0.0, 1.0, 0.0), Point3(1.0, 0.0, 0.0)) == Vector(1.0, -1.0, 0.0);
    assert VectorProduct(Vector(0.0, -1.0, 0.0), Vector(1.0, -1.0, 0.0)).z == 1.0;
    GroundCoplanar(Triangle(Point3(0.0, 1.0, 0.0), Point3(0.0, 0.0, 0.0), Point3(1.0, 0.0, 0.0), TriangleSpecies),
      Triangle(Point3(0.0, 1.0, 0.0), Point3(1.0, 1.0, 0.0), Point3(0.0, 2.0, 0.0), TriangleSpecies));
    PlanarEasyCase5SwappedOrientations1();
    PlanarEasyCase5SwappedOrientations2();
    PlanarEasyCase5SwappedOrientations3();
  }

  /** The orientations the example above reads, part 1. */
  lemma PlanarEasyCase5SwappedOrientations1()
    ensures Orient2D(Point2(0.0, 1.0), Point2(0.0, 0.0), Point2(1.0, 0.0)) == Positive
    ensures Orient2D(Point2(0.0, 1.0), Point2(1.0, 1.0), Point2(0.0, 2.0)) == Positive
  {
    Orient2DIs(0.0, 1.0, 0.0, 0.0, 1.0, 0.0, Positive);
    Orient2DIs(0.0, 1.0, 1.0, 1.0, 0.0, 2.0, Positive);
  }

  /** The orientations the example above reads, part 2. */
  lemma PlanarEasyCase5SwappedOrientations2()
    ensures Orient2D(Point2(0.0, 1.0), Point2(1.0, 1.0), Point2(0.0, 1.0)) == Neutral
    ensures Orient2D(Point2(1.0, 1.0), Point2(0.0, 2.0), Point2(0.0, 1.0)) == Positive
  {
    Orient2DIs(0.0, 1.0, 1.0, 1.0, 0.0, 1.0, Neutral);
    Orient2DIs(1.0, 1.0, 0.0, 2.0, 0.0, 1.0, Positive);
  }

  /** The orientations the example above reads, part 3. */
  lemma PlanarEasyCase5SwappedOrientations3()
    ensures Orient2D(Point2(0.0, 2.0), Point2(0.0, 1.0), Point2(0.0, 1.0)) == Neutral
  {
    Orient2DIs(0.0, 2.0, 0.0, 1.0, 0.0, 1.0, Neutral);
  }

  /** test/algorithm/src/triangle_triangle.cpp, Triangle_Triangle_2D_Easy_Cases, are_intersecting (tr_6, tr). */
  lemma PlanarEasyCase6Example()
    ensures TriangleTriangleIntersect(Triangle(Point3(1.0, 0.0, 0.0), Point3(2.0, 0.0, 0.0), Point3(1.0, 1.0, 0.0), TriangleSpecies),
      Triangle(Point3(0.0, 1.0, 0.0), Point3(0.0, 0.0, 0.0), Point3(1.0, 0.0, 0.0), TriangleSpecies))
  {
    assert FromPoints(Point3(1.0, 0.0, 0.0), Point3(2.0, 0.0, 0.0)) == Vector(1.0, 0.0, 0.0);
    assert FromPoints(Point3(1.0, 0.0, 0.0), Point3(1.0, 1.0, 0.0)) == Vector(0.0, 1.0, 0.0);
    assert VectorProduct(Vector(1.0, 0.0, 0.0), Vector(0.0, 1.0, 0.0)).z == 1.0;
    GroundCoplanar(Triangle(Point3(1.0, 0.0, 0.0), Point3(2.0, 0.0, 0.0), Point3(1.0, 1.0, 0.0), TriangleSpecies),
      Triangle(Point3(0.0, 1.0, 0.0), Point3(0.0, 0.0, 0.0), Point3(1.0, 0.0, 0.0), TriangleSpecies));
    PlanarEasyCase6Orientations1();
    PlanarEasyCase6Orientations2();
  }

  /** The orientations the example above reads, part 1. */
  lemma PlanarEasyCase6Orientations1()
    ensures Orient2D(Point2(1.0, 0.0), Point2(2.0, 0.0), Point2(1.0, 1.0)) == Positive
    ensures Orient2D(Point2(0.0, 1.0), Point2(0.0, 0.0), Point2(1.0, 0.0)) == Positive
  {
    Orient2DIs(1.0, 0.0, 2.0, 0.0, 1.0, 1.0, Positive);
    Orient2DIs(0.0, 1.0, 0.0, 0.0, 1.0, 0.0, Positive);
  }

  /** The orientations the example above reads, part 2. */
  lemma PlanarEasyCase6Orientations2()
    ensures Orient2D(Point2(0.0, 0.0), Point2(1.0, 0.0), Point2(1.0, 0.0)) == Neutral
    ensures Orient2D(Point2(1.0, 0.0), Point2(0.0, 1.0), Point2(1.0, 0.0)) == Neutral
  {
    Orient2DIs(0.0, 0.0, 1.0, 0.0, 1.0, 0.0, Neutral);
    Orient2DIs(1.0, 0.0, 0.0, 1.0, 1.0, 0.0, Neutral);
  }

  /** test/algorithm/src/triangle_triangle.cpp, Triangle_Triangle_2D_Easy_Cases, are_intersecting (tr, tr_6). */
  lemma PlanarEasyCase6SwappedExample()
    ensures TriangleTriangleIntersect(Triangle(Point3(0.0, 1.0, 0.0), Point3(0.0, 0.0, 0.0), Point3(1.0, 0.0, 0.0), TriangleSpecies),
      Triangle(Point3(1.0, 0.0, 0.0), Point3(2.0, 0.0, 0.0), Point3(1.0, 1.0, 0.0), TriangleSpecies))
  {
    assert FromPoints(Point3(0.0, 1.0, 0.0), Point3(0.0, 0.0, 0.0)) == Vector(0.0, -1.0, 0.0);
    assert FromPoints(Point3(0.0, 1.0, 0.0), Point3(1.0, 0.0, 0.0)) == Vector(1.0, -1.0, 0.0);
    assert VectorProduct(Vector(0.0, -1.0, 0.0), Vector(1.0, -1.0, 0.0)).z == 1.0;
    GroundCoplanar(Triangle(Point3(0.0, 1.0, 0.0), Point3(0.0, 0.0, 0.0), Point3(1.0, 0.0, 0.0), TriangleSpecies),
      Triangle(Point3(1.0, 0.0, 0.0), Point3(2.0, 0.0, 0.0), Point3(1.0, 1.0, 0.0), TriangleSpecies));
    PlanarEasyCase6SwappedOrientations1();
    PlanarEasyCase6SwappedOrientations2();
    PlanarEasyCase6SwappedOrientations3();
    PlanarEasyCase6SwappedOrientations4();
    PlanarEasyCase6SwappedOrientations5();
  }

  /** The orientations the example above reads, part 1. */
  lemma PlanarEasyCase6SwappedOrientations1()
    ensures Orient2D(Point2(0.0, 1.0), Point2(0.0, 0.0), Point2(1.0, 0.0)) == Positive
    ensures Orient2D(Point2(1.0, 0.0), Point2(2.0, 0.0), Point2(1.0, 1.0)) == Positive
  {
    Orient2DIs(0.0, 1.0, 0.0, 0.0, 1.0, 0.0, Positive);
    Orient2DIs(1.0, 0.0, 2.0, 0.0, 1.0, 1.0, Positive);
  }

  /** The orientations the example above reads, part 2. */
  lemma PlanarEasyCase6SwappedOrientations2()
    ensures Orient2D(Point2(1.0, 0.0), Point2(2.0, 0.0), Point2(0.0, 1.0)) == Positive
    ensures Orient2D(Point2(2.0, 0.0), Point2(1.0, 1.0), Point2(0.0, 1.0)) == Positive
  {
    Orient2DIs(1.0, 0.0, 2.0, 0.0, 0.0, 1.0, Positive);
    Orient2DIs(2.0, 0.0, 1.0, 1.0, 0.0, 1.0, Positive);
  }

  /** The orientations the example above reads, part 3. */
  lemma PlanarEasyCase6SwappedOrientations3()
    ensures Orient2D(Point2(1.0, 1.0), Point2(1.0, 0.0), Point2(0.0, 1.0)) == Negative
    ensures Orient2D(Point2(1.0, 1.0), Point2(1.0, 0.0), Point2(0.0, 0.0)) == Negative
  {
    Orient2DIs(1.0, 1.0, 1.0, 0.0, 0.0, 1.0, Negative);
    Orient2DIs(1.0, 1.0, 1.0, 0.0, 0.0, 0.0, Negative);
  }

  /** The orientations the example above reads, part 4. */
  lemma PlanarEasyCase6SwappedOrientations4()
    ensures Orient2D(Point2(1.0, 1.0), Point2(1.0, 0.0), Point2(1.0, 0.0)) == Neutral
    ensures Orient2D(Point2(0.0, 0.0), Point2(1.0, 1.0), Point2(1.0, 0.0)) == Negative
  {
    Orient2DIs(1.0, 1.0, 1.0, 0.0, 1.0, 0.0, Neutral);
    Orient2DIs(0.0, 0.0, 1.0, 1.0, 1.0, 0.0, Negative);
  }

  /** The orientations the example above reads, part 5. */
  lemma PlanarEasyCase6SwappedOrientations5()
    ensures Orient2D(Point2(0.0, 1.0), Point2(1.0, 0.0), Point2(1.0, 0.0)) == Neutral
  {
    Orient2DIs(0.0, 1.0, 1.0, 0.0, 1.0, 0.0, Neutral);
  }

  /** test/algorithm/src/triangle_triangle.cpp, Triangle_Triangle_2D_Easy_Cases, are_intersecting (tr_7, tr). */
  lemma PlanarEasyCase7Example()
    ensures TriangleTriangleIntersect(Triangle(Point3(0.0, 0.0, 0.0), Point3(-1.0, 0.0, 0.0), Point3(0.0, -1.0, 0.0), TriangleSpecies),
      Triangle(Point3(0.0, 1.0, 0.0), Point3(0.0, 0.0, 0.0), Point3(1.0, 0.0, 0.0), TriangleSpecies))
  {
    assert FromPoints(Point3(0.0, 0.0, 0.0), Point3(-1.0, 0.0, 0.0)) == Vector(-1.0, 0.0, 0.0);
    assert FromPoints(Point3(0.0, 0.0, 0.0), Point3(0.0, -1.0, 0.0)) == Vector(0.0, -1.0, 0.0);
    assert VectorProduct(Vector(-1.0, 0.0, 0.0), Vector(0.0, -1.0, 0.0)).z == 1.0;
    GroundCoplanar(Triangle(Point3(0.0, 0.0, 0.0), Point3(-1.0, 0.0, 0.0), Point3(0.0, -1.0, 0.0), TriangleSpecies),
      Triangle(Point3(0.0, 1.0, 0.0), Point3(0.0, 0.0, 0.0), Point3(1.0, 0.0, 0.0), TriangleSpecies));
    PlanarEasyCase7Orientations1();
    PlanarEasyCase7Orientations2();
    PlanarEasyCase7Orientations3();
  }

  /** The orientations the example above reads, part 1. */
  lemma PlanarEasyCase7Orientations1()
    ensures Orient2D(Point2(0.0, 0.0), Point2(-1.0, 0.0), Point2(0.0, -1.0)) == Positive
    ensures Orient2D(Point2(0.0, 1.0), Point2(0.0, 0.0), Point2(1.0, 0.0)) == Positive
  {
    Orient2DIs(0.0, 0.0, -1.0, 0.0, 0.0, -1.0, Positive);
    Orient2DIs(0.0, 1.0, 0.0, 0.0, 1.0, 0.0, Positive);
  }

  /** The orientations the example above reads, part 2. */
  lemma PlanarEasyCase7Orientations2()
    ensures Orient2D(Point2(0.0, 1.0), Point2(0.0, 0.0), Point2(0.0, 0.0)) == Neutral
    ensures Orient2D(Point2(0.0, 0.0), Point2(1.0, 0.0), Point2(0.0, 0.0)) == Neutral
  {
    Orient2DIs(0.0, 1.0, 0.0, 0.0, 0.0, 0.0, Neutral);
    Orient2DIs(0.0, 0.0, 1.0, 0.0, 0.0, 0.0, Neutral);
  }

  /** The orientations the example above reads, part 3. */
  lemma PlanarEasyCase7Orientations3()
    ensures Orient2D(Point2(1.0, 0.0), Point2(0.0, 1.0), Point2(0.0, 0.0)) == Positive
  {
    Orient2DIs(1.0, 0.0, 0.0, 1.0, 0.0, 0.0, Positive);
  }

  /** test/algorithm/src/triangle_triangle.cpp, Triangle_Triangle_2D_Easy_Cases, are_intersecting (tr, tr_7). */
  lemma PlanarEasyCase7SwappedExample()
    ensures TriangleTriangleIntersect(Triangle(Point3(0.0, 1.0, 0.0), Point3(0.0, 0.0, 0.0), Point3(1.0, 0.0, 0.0), TriangleSpecies),
      Triangle(Point3(0.0, 0.0, 0.0), Point3(-1.0, 0.0, 0.0), Point3(0.0, -1.0, 0.0), TriangleSpecies))
  {
    assert FromPoints(Point3(0.0, 1.0, 0.0), Point3(0.0, 0.0, 0.0)) == Vector(0.0, -1.0, 0.0);
    assert FromPoints(Point3(0.0, 1.0, 0.0), Point3(1.0, 0.0, 0.0)) == Vector(1.0, -1.0, 0.0);
    assert VectorProduct(Vector(0.0, -1.0, 0.0), Vector(1.0, -1.0, 0.0)).z == 1.0;
    GroundCoplanar(Triangle(Point3(0.0, 1.0, 0.0), Point3(0.0, 0.0, 0.0), Point3(1.0, 0.0, 0.0), TriangleSpecies),
      Triangle(Point3(0.0, 0.0, 0.0), Point3(-1.0, 0.0, 0.0), Point3(0.0, -1.0, 0.0), TriangleSpecies));
    PlanarEasyCase7SwappedOrientations1();
    PlanarEasyCase7SwappedOrientations2();
    PlanarEasyCase7SwappedOrientations3();
    PlanarEasyCase7SwappedOrientations4();
    PlanarEasyCase7SwappedOrientations5();
  }

  /** The orientations the example above reads, part 1. */
  lemma PlanarEasyCase7SwappedOrientations1()
    ensures Orient2D(Point2(0.0, 1.0), Point2(0.0, 0.0), Point2(1.0, 0.0)) == Positive
    ensures Orient2D(Point2(0.0, 0.0), Point2(-1.0, 0.0), Point2(0.0, -1.0)) == Positive
  {
    Orient2DIs(0.0, 1.0, 0.0, 0.0, 1.0, 0.0, Positive);
    Orient2DIs(0.0, 0.0, -1.0, 0.0, 0.0, -1.0, Positive);
  }

  /** The orientations the example above reads, part 2. */
  lemma PlanarEasyCase7SwappedOrientations2()
    ensures Orient2D(Point2(0.0, 0.0), Point2(-1.0, 0.0), Point2(0.0, 1.0)) == Negative
    ensures Orient2D(Point2(-1.0, 0.0), Point2(0.0, -1.0), Point2(0.0, 1.0)) == Positive
  {
    Orient2DIs(0.0, 0.0, -1.0, 0.0, 0.0, 1.0, Negative);
    Orient2DIs(-1.0, 0.0, 0.0, -1.0, 0.0, 1.0, Positive);
  }

  /** The orientations the example above reads, part 3. */
  lemma PlanarEasyCase7SwappedOrientations3()
    ensures Orient2D(Point2(0.0, -1.0), Point2(0.0, 0.0), Point2(0.0, 1.0)) == Neutral
    ensures Orient2D(Point2(0.0, 0.0), Point2(-1.0, 0.0), Point2(0.0, 0.0)) == Neutral
  {
    Orient2DIs(0.0, -1.0, 0.0, 0.0, 0.0, 1.0, Neutral);
    Orient2DIs(0.0, 0.0, -1.0, 0.0, 0.0, 0.0, Neutral);
  }

  /** The orientations the example above reads, part 4. */
  lemma PlanarEasyCase7SwappedOrientations4()
    ensures Orient2D(Point2(0.0, -1.0), Point2(0.0, 0.0), Point2(0.0, 0.0)) == Neutral
    ensures Orient2D(Point2(0.0, 1.0), Point2(-1.0, 0.0), Point2(0.0, 0.0)) == Positive
  {
    Orient2DIs(0.0, -1.0, 0.0, 0.0, 0.0, 0.0, Neutral);
    Orient2DIs(0.0, 1.0, -1.0, 0.0, 0.0, 0.0, Positive);
  }

  /** The orientations the example above reads, part 5. */
  lemma PlanarEasyCase7SwappedOrientations5()
    ensures Orient2D(Point2(0.0, 1.0), Point2(0.0, -1.0), Point2(0.0, 0.0)) == Neutral
  {
    Orient2DIs(0.0, 1.0, 0.0, -1.0, 0.0, 0.0, Neutral);
  }

  /** test/algorithm/src/triangle_triangle.cpp, Triangle_Triangle_2D_R1, are_intersecting (tr_2, tr). */
  lemma PlanarR1Case2Example()
    ensures TriangleTriangleIntersect(Triangle(Point3(1.0, 1.0, 0.0), Point3(0.5, 1.5, 0.0), Point3(0.5, 0.5, 0.0), TriangleSpecies),
      Triangle(Point3(0.0, 1.0, 0.0), Point3(0.0, 0.0, 0.0), Point3(1.0, 0.0, 0.0), TriangleSpecies))
  {
    assert FromPoints(Point3(1.0, 1.0, 0.0), Point3(0.5, 1.5, 0.0)) == Vector(-0.5, 0.5, 0.0);
    assert FromPoints(Point3(1.0, 1.0, 0.0), Point3(0.5, 0.5, 0.0)) == Vector(-0.5, -0.5, 0.0);
    assert VectorProduct(Vector(-0.5, 0.5, 0.0), Vector(-0.5, -0.5, 0.0)).z == 0.5;
    GroundCoplanar(Triangle(Point3(1.0, 1.0, 0.0), Point3(0.5, 1.5, 0.0), Point3(0.5, 0.5, 0.0), TriangleSpecies),
      Triangle(Point3(0.0, 1.0, 0.0), Point3(0.0, 0.0, 0.0), Point3(1.0, 0.0, 0.0), TriangleSpecies));
    PlanarR1Case2Orientations1();
    PlanarR1Case2Orientations2();
    PlanarR1Case2Orientations3();
    PlanarR1Case2Orientations4();
    PlanarR1Case2Orientations5();
  }

  /** The orientations the example above reads, part 1. */
  lemma PlanarR1Case2Orientations1()
    ensures Orient2D(Point2(1.0, 1.0), Point2(0.5, 1.5), Point2(0.5, 0.5)) == Positive
    ensures Orient2D(Point2(0.0, 1.0), Point2(0.0, 0.0), Point2(1.0, 0.0)) == Positive
  {
    Orient2DIs(1.0, 1.0, 0.5, 1.5, 0.5, 0.5, Positive);
    Orient2DIs(0.0, 1.0, 0.0, 0.0, 1.0, 0.0, Positive);
  }

  /** The orientations the example above reads, part 2. */
  lemma PlanarR1Case2Orientations2()
    ensures Orient2D(Point2(0.0, 1.0), Point2(0.0, 0.0), Point2(1.0, 1.0)) == Positive
    ensures Orient2D(Point2(0.0, 0.0), Point2(1.0, 0.0), Point2(1.0, 1.0)) == Positive
  {
    Orient2DIs(0.0, 1.0, 0.0, 0.0, 1.0, 1.0, Positive);
    Orient2DIs(0.0, 0.0, 1.0, 0.0, 1.0, 1.0, Positive);
  }

  /** The orientations the example above reads, part 3. */
  lemma PlanarR1Case2Orientations3()
    ensures Orient2D(Point2(1.0, 0.0), Point2(0.0, 1.0), Point2(1.0, 1.0)) == Negative
    ensures Orient2D(Point2(1.0, 0.0), Point2(0.0, 1.0), Point2(0.5, 1.5)) == Negative
  {
    Orient2DIs(1.0, 0.0, 0.0, 1.0, 1.0, 1.0, Negative);
    Orient2DIs(1.0, 0.0, 0.0, 1.0, 0.5, 1.5, Negative);
  }

  /** The orientations the example above reads, part 4. */
  lemma PlanarR1Case2Orientations4()
    ensures Orient2D(Point2(1.0, 0.0), Point2(0.0, 1.0), Point2(0.5, 0.5)) == Neutral
    ensures Orient2D(Point2(0.5, 1.5), Point2(1.0, 0.0), Point2(0.5, 0.5)) == Negative
  {
    Orient2DIs(1.0, 0.0, 0.0, 1.0, 0.5, 0.5, Neutral);
    Orient2DIs(0.5, 1.5, 1.0, 0.0, 0.5, 0.5, Negative);
  }

  /** The orientations the example above reads, part 5. */
  lemma PlanarR1Case2Orientations5()
    ensures Orient2D(Point2(1.0, 1.0), Point2(0.0, 1.0), Point2(0.5, 0.5)) == Positive
  {
    Orient2DIs(1.0, 1.0, 0.0, 1.0, 0.5, 0.5, Positive);
  }

  /** test/algorithm/src/triangle_triangle.cpp, Triangle_Triangle_2D_R1, are_intersecting (tr, tr_2). */
  lemma PlanarR1Case2SwappedExample()
    ensures TriangleTriangleIntersect(Triangle(Point3(0.0, 1.0, 0.0), Point3(0.0, 0.0, 0.0), Point3(1.0, 0.0, 0.0), TriangleSpecies),
      Triangle(Point3(1.0, 1.0, 0.0), Point3(0.5, 1.5, 0.0), Point3(0.5, 0.5, 0.0), TriangleSpecies))
  {
    assert FromPoints(Point3(0.0, 1.0, 0.0), Point3(0.0, 0.0, 0.0)) == Vector(0.0, -1.0, 0.0);
    assert FromPoints(Point3(0.0, 1.0, 0.0), Point3(1.0, 0.0, 0.0)) == Vector(1.0, -1.0, 0.0);
    assert VectorProduct(Vector(0.0, -1.0, 0.0), Vector(1.0, -1.0, 0.0)).z == 1.0;
    GroundCoplanar(Triangle(Point3(0.0, 1.0, 0.0), Point3(0.0, 0.0, 0.0), Point3(1.0, 0.0, 0.0), TriangleSpecies),
      Triangle(Point3(1.0, 1.0, 0.0), Point3(0.5, 1.5, 0.0), Point3(0.5, 0.5, 0.0), TriangleSpecies));
    PlanarR1Case2SwappedOrientations1();
    PlanarR1Case2SwappedOrientations2();
    PlanarR1Case2SwappedOrientations3();
    PlanarR1Case2SwappedOrientations4();
    PlanarR1Case2SwappedOrientations5();
  }

  /** The orientations the example above reads, part 1. */
  lemma PlanarR1Case2SwappedOrientations1()
    ensures Orient2D(Point2(0.0, 1.0), Point2(0.0, 0.0), Point2(1.0, 0.0)) == Positive
    ensures Orient2D(Point2(1.0, 1.0), Point2(0.5, 1.5), Point2(0.5, 0.5)) == Positive
  {
    Orient2DIs(0.0, 1.0, 0.0, 0.0, 1.0, 0.0, Positive);
    Orient2DIs(1.0, 1.0, 0.5, 1.5, 0.5, 0.5, Positive);
  }

  /** The orientations the example above reads, part 2. */
  lemma PlanarR1Case2SwappedOrientations2()
    ensures Orient2D(Point2(1.0, 1.0), Point2(0.5, 1.5), Point2(0.0, 1.0)) == Positive
    ensures Orient2D(Point2(0.5, 1.5), Point2(0.5, 0.5), Point2(0.0, 1.0)) == Negative
  {
    Orient2DIs(1.0, 1.0, 0.5, 1.5, 0.0, 1.0, Positive);
    Orient2DIs(0.5, 1.5, 0.5, 0.5, 0.0, 1.0, Negative);
  }

  /** The orientations the example above reads, part 3. */
  lemma PlanarR1Case2SwappedOrientations3()
    ensures Orient2D(Point2(0.5, 0.5), Point2(1.0, 1.0), Point2(0.0, 1.0)) == Positive
    ensures Orient2D(Point2(0.5, 1.5), Point2(0.5, 0.5), Point2(0.0, 0.0)) == Negative
  {
    Orient2DIs(0.5, 0.5, 1.0, 1.0, 0.0, 1.0, Positive);
    Orient2DIs(0.5, 1.5, 0.5, 0.5, 0.0, 0.0, Negative);
  }

  /** The orientations the example above reads, part 4. */
  lemma PlanarR1Case2SwappedOrientations4()
    ensures Orient2D(Point2(0.5, 1.5), Point2(0.5, 0.5), Point2(1.0, 0.0)) == Positive
    ensures Orient2D(Point2(0.0, 0.0), Point2(0.5, 1.5), Point2(1.0, 0.0)) == Negative
  {
    Orient2DIs(0.5, 1.5, 0.5, 0.5, 1.0, 0.0, Positive);
    Orient2DIs(0.0, 0.0, 0.5, 1.5, 1.0, 0.0, Negative);
  }

  /** The orientations the example above reads, part 5. */
  lemma PlanarR1Case2SwappedOrientations5()
    ensures Orient2D(Point2(0.0, 1.0), Point2(0.5, 0.5), Point2(1.0, 0.0)) == Neutral
  {
    Orient2DIs(0.0, 1.0, 0.5, 0.5, 1.0, 0.0, Neutral);
  }

  /** test/algorithm/src/triangle_triangle.cpp, Triangle_Triangle_2D_R1, are_intersecting (tr_3, tr). */
  lemma PlanarR1Case3Example()
    ensures TriangleTriangleIntersect(Triangle(Point3(1.0, 1.0, 0.0), Point3(0.5, 1.5, 0.0), Point3(0.25, 0.25, 0.0), TriangleSpecies),
      Triangle(Point3(0.0, 1.0, 0.0), Point3(0.0, 0.0, 0.0), Point3(1.0, 0.0, 0.0), TriangleSpecies))
  {
    assert FromPoints(Point3(1.0, 1.0, 0.0), Point3(0.5, 1.5, 0.0)) == Vector(-0.5, 0.5, 0.0);
    assert FromPoints(Point3(1.0, 1.0, 0.0), Point3(0.25, 0.25, 0.0)) == Vector(-0.75, -0.75, 0.0);
    assert VectorProduct(Vector(-0.5, 0.5, 0.0), Vector(-0.75, -0.75, 0.0)).z == 0.75;
    GroundCoplanar(Triangle(Point3(1.0, 1.0, 0.0), Point3(0.5, 1.5, 0.0), Point3(0.25, 0.25, 0.0), TriangleSpecies),
      Triangle(Point3(0.0, 1.0, 0.0), Point3(0.0, 0.0, 0.0), Point3(1.0, 0.0, 0.0), TriangleSpecies));
    PlanarR1Case3Orientations1();
    PlanarR1Case3Orientations2();
    PlanarR1Case3Orientations3();
    PlanarR1Case3Orientations4();
    PlanarR1Case3Orientations5();
  }

  /** The orientations the example above reads, part 1. */
  lemma PlanarR1Case3Orientations1()
    ensures Orient2D(Point2(1.0, 1.0), Point2(0.5, 1.5), Point2(0.25, 0.25)) == Positive
    ensures Orient2D(Point2(0.0, 1.0), Point2(0.0, 0.0), Point2(1.0, 0.0)) == Positive
  {
    Orient2DIs(1.0, 1.0, 0.5, 1.5, 0.25, 0.25, Positive);
    Orient2DIs(0.0, 1.0, 0.0, 0.0, 1.0, 0.0, Positive);
  }

  /** The orientations the example above reads, part 2. */
  lemma PlanarR1Case3Orientations2()
    ensures Orient2D(Point2(0.0, 1.0), Point2(0.0, 0.0), Point2(1.0, 1.0)) == Positive
    ensures Orient2D(Point2(0.0, 0.0), Point2(1.0, 0.0), Point2(1.0, 1.0)) == Positive
  {
    Orient2DIs(0.0, 1.0, 0.0, 0.0, 1.0, 1.0, Positive);
    Orient2DIs(0.0, 0.0, 1.0, 0.0, 1.0, 1.0, Positive);
  }

  /** The orientations the example above reads, part 3. */
  lemma PlanarR1Case3Orientations3()
    ensures Orient2D(Point2(1.0, 0.0), Point2(0.0, 1.0), Point2(1.0, 1.0)) == Negative
    ensures Orient2D(Point2(1.0, 0.0), Point2(0.0, 1.0), Point2(0.5, 1.5)) == Negative
  {
    Orient2DIs(1.0, 0.0, 0.0, 1.0, 1.0, 1.0, Negative);
    Orient2DIs(1.0, 0.0, 0.0, 1.0, 0.5, 1.5, Negative);
  }

  /** The orientations the example above reads, part 4. */
  lemma PlanarR1Case3Orientations4()
    ensures Orient2D(Point2(1.0, 0.0), Point2(0.0, 1.0), Point2(0.25, 0.25)) == Positive
    ensures Orient2D(Point2(0.5, 1.5), Point2(1.0, 0.0), Point2(0.25, 0.25)) == Negative
  {
    Orient2DIs(1.0, 0.0, 0.0, 1.0, 0.25, 0.25, Positive);
    Orient2DIs(0.5, 1.5, 1.0, 0.0, 0.25, 0.25, Negative);
  }

  /** The orientations the example above reads, part 5. */
  lemma PlanarR1Case3Orientations5()
    ensures Orient2D(Point2(1.0, 1.0), Point2(0.0, 1.0), Point2(0.25, 0.25)) == Positive
  {
    Orient2DIs(1.0, 1.0, 0.0, 1.0, 0.25, 0.25, Positive);
  }

  /** test/algorithm/src/triangle_triangle.cpp, Triangle_Triangle_2D_R1, are_intersecting (tr, tr_3). */
  lemma PlanarR1Case3SwappedExample()
    ensures TriangleTriangleIntersect(Triangle(Point3(0.0, 1.0, 0.0), Point3(0.0, 0.0, 0.0), Point3(1.0, 0.0, 0.0), TriangleSpecies),
      Triangle(Point3(1.0, 1.0, 0.0), Point3(0.5, 1.5, 0.0), Point3(0.25, 0.25, 0.0), TriangleSpecies))
  {
    assert FromPoints(Point3(0.0, 1.0, 0.0), Point3(0.0, 0.0, 0.0)) == Vector(0.0, -1.0, 0.0);
    assert FromPoints(Point3(0.0, 1.0, 0.0), Point3(1.0, 0.0, 0.0)) == Vector(1.0, -1.0, 0.0);
    assert VectorProduct(Vector(0.0, -1.0, 0.0), Vector(1.0, -1.0, 0.0)).z == 1.0;
    GroundCoplanar(Triangle(Point3(0.0, 1.0, 0.0), Point3(0.0, 0.0, 0.0), Point3(1.0, 0.0, 0.0), TriangleSpecies),
      Triangle(Point3(1.0, 1.0, 0.0), Point3(0.5, 1.5, 0.0), Point3(0.25, 0.25, 0.0), TriangleSpecies));
    PlanarR1Case3SwappedOrientations1();
    PlanarR1Case3SwappedOrientations2();
    PlanarR1Case3SwappedOrientations3();
    PlanarR1Case3SwappedOrientations4();
    PlanarR1Case3SwappedOrientations5();
  }

  /** The orientations the example above reads, part 1. */
  lemma PlanarR1Case3SwappedOrientations1()
    ensures Orient2D(Point2(0.0, 1.0), Point2(0.0, 0.0), Point2(1.0, 0.0)) == Positive
    ensures Orient2D(Point2(1.0, 1.0), Point2(0.5, 1.5), Point2(0.25, 0.25)) == Positive
  {
    Orient2DIs(0.0, 1.0, 0.0, 0.0, 1.0, 0.0, Positive);
    Orient2DIs(1.0, 1.0, 0.5, 1.5, 0.25, 0.25, Positive);
  }

  /** The orientations the example above reads, part 2. */
  lemma PlanarR1Case3SwappedOrientations2()
    ensures Orient2D(Point2(1.0, 1.0), Point2(0.5, 1.5), Point2(0.0, 1.0)) == Positive
    ensures Orient2D(Point2(0.5, 1.5), Point2(0.25, 0.25), Point2(0.0, 1.0)) == Negative
  {
    Orient2DIs(1.0, 1.0, 0.5, 1.5, 0.0, 1.0, Positive);
    Orient2DIs(0.5, 1.5, 0.25, 0.25, 0.0, 1.0, Negative);
  }

  /** The orientations the example above reads, part 3. */
  lemma PlanarR1Case3SwappedOrientations3()
    ensures Orient2D(Point2(0.25, 0.25), Point2(1.0, 1.0), Point2(0.0, 1.0)) == Positive
    ensures Orient2D(Point2(0.5, 1.5), Point2(0.25, 0.25), Point2(0.0, 0.0)) == Negative
  {
    Orient2DIs(0.25, 0.25, 1.0, 1.0, 0.0, 1.0, Positive);
    Orient2DIs(0.5, 1.5, 0.25, 0.25, 0.0, 0.0, Negative);
  }

  /** The orientations the example above reads, part 4. */
  lemma PlanarR1Case3SwappedOrientations4()
    ensures Orient2D(Point2(0.5, 1.5), Point2(0.25, 0.25), Point2(1.0, 0.0)) == Positive
    ensures Orient2D(Point2(0.0, 0.0), Point2(0.5, 1.5), Point2(1.0, 0.0)) == Negative
  {
    Orient2DIs(0.5, 1.5, 0.25, 0.25, 1.0, 0.0, Positive);
    Orient2DIs(0.0, 0.0, 0.5, 1.5, 1.0, 0.0, Negative);
  }

  /** The orientations the example above reads, part 5. */
  lemma PlanarR1Case3SwappedOrientations5()
    ensures Orient2D(Point2(0.0, 1.0), Point2(0.25, 0.25), Point2(1.0, 0.0)) == Positive
  {
    Orient2DIs(0.0, 1.0, 0.25, 0.25, 1.0, 0.0, Positive);
  }

  /** test/algorithm/src/triangle_triangle.cpp, Triangle_Triangle_2D_R1, are_intersecting (tr_4, tr). */
  lemma PlanarR1Case4Example()
    ensures TriangleTriangleIntersect(Triangle(Point3(1.0, 1.0, 0.0), Point3(0.5, 1.5, 0.0), Point3(-0.5, 0.5, 0.0), TriangleSpecies),
      Triangle(Point3(0.0, 1.0, 0.0), Point3(0.0, 0.0, 0.0), Point3(1.0, 0.0, 0.0), TriangleSpecies))
  {
    assert FromPoints(Point3(1.0, 1.0, 0.0), Point3(0.5, 1.5, 0.0)) == Vector(-0.5, 0.5, 0.0);
    assert FromPoints(Point3(1.0, 1.0, 0.0), Point3(-0.5, 0.5, 0.0)) == Vector(-1.5, -0.5, 0.0);
    assert VectorProduct(Vector(-0.5, 0.5, 0.0), Vector(-1.5, -0.5, 0.0)).z == 1.0;
    GroundCoplanar(Triangle(Point3(1.0, 1.0, 0.0), Point3(0.5, 1.5, 0.0), Point3(-0.5, 0.5, 0.0), TriangleSpecies),
      Triangle(Point3(0.0, 1.0, 0.0), Point3(0.0, 0.0, 0.0), Point3(1.0, 0.0, 0.0), TriangleSpecies));
    PlanarR1Case4Orientations1();
    PlanarR1Case4Orientations2();
    PlanarR1Case4Orientations3();
    PlanarR1Case4Orientations4();
    PlanarR1Case4Orientations5();
  }

  /** The orientations the example above reads, part 1. */
  lemma PlanarR1Case4Orientations1()
    ensures Orient2D(Point2(1.0, 1.0), Point2(0.5, 1.5), Point2(-0.5, 0.5)) == Positive
    ensures Orient2D(Point2(0.0, 1.0), Point2(0.0, 0.0), Point2(1.0, 0.0)) == Positive
  {
    Orient2DIs(1.0, 1.0, 0.5, 1.5, -0.5, 0.5, Positive);
    Orient2DIs(0.0, 1.0, 0.0, 0.0, 1.0, 0.0, Positive);
  }

  /** The orientations the example above reads, part 2. */
  lemma PlanarR1Case4Orientations2()
    ensures Orient2D(Point2(0.0, 1.0), Point2(0.0, 0.0), Point2(1.0, 1.0)) == Positive
    ensures Orient2D(Point2(0.0, 0.0), Point2(1.0, 0.0), Point2(1.0, 1.0)) == Positive
  {
    Orient2DIs(0.0, 1.0, 0.0, 0.0, 1.0, 1.0, Positive);
    Orient2DIs(0.0, 0.0, 1.0, 0.0, 1.0, 1.0, Positive);
  }

  /** The orientations the example above reads, part 3. */
  lemma PlanarR1Case4Orientations3()
    ensures Orient2D(Point2(1.0, 0.0), Point2(0.0, 1.0), Point2(1.0, 1.0)) == Negative
    ensures Orient2D(Point2(1.0, 0.0), Point2(0.0, 1.0), Point2(0.5, 1.5)) == Negative
  {
    Orient2DIs(1.0, 0.0, 0.0, 1.0, 1.0, 1.0, Negative);
    Orient2DIs(1.0, 0.0, 0.0, 1.0, 0.5, 1.5, Negative);
  }

  /** The orientations the example above reads, part 4. */
  lemma PlanarR1Case4Orientations4()
    ensures Orient2D(Point2(1.0, 0.0), Point2(0.0, 1.0), Point2(-0.5, 0.5)) == Positive
    ensures Orient2D(Point2(0.5, 1.5), Point2(1.0, 0.0), Point2(-0.5, 0.5)) == Negative
  {
    Orient2DIs(1.0, 0.0, 0.0, 1.0, -0.5, 0.5, Positive);
    Orient2DIs(0.5, 1.5, 1.0, 0.0, -0.5, 0.5, Negative);
  }

  /** The orientations the example above reads, part 5. */
  lemma PlanarR1Case4Orientations5()
    ensures Orient2D(Point2(1.0, 1.0), Point2(0.0, 1.0), Point2(-0.5, 0.5)) == Positive
  {
    Orient2DIs(1.0, 1.0, 0.0, 1.0, -0.5, 0.5, Positive);
  }

  /** test/algorithm/src/triangle_triangle.cpp, Triangle_Triangle_2D_R1, are_intersecting (tr, tr_4). */
  lemma PlanarR1Case4SwappedExample()
    ensures TriangleTriangleIntersect(Triangle(Point3(0.0, 1.0, 0.0), Point3(0.0, 0.0, 0.0), Point3(1.0, 0.0, 0.0), TriangleSpecies),
      Triangle(Point3(1.0, 1.0, 0.0), Point3(0.5, 1.5, 0.0), Point3(-0.5, 0.5, 0.0), TriangleSpecies))
  {
    assert FromPoints(Point3(0.0, 1.0, 0.0), Point3(0.0, 0.0, 0.0)) == Vector(0.0, -1.0, 0.0);
    assert FromPoints(Point3(0.0, 1.0, 0.0), Point3(1.0, 0.0, 0.0)) == Vector(1.0, -1.0, 0.0);
    assert VectorProduct(Vector(0.0, -1.0, 0.0), Vector(1.0, -1.0, 0.0)).z == 1.0;
    GroundCoplanar(Triangle(Point3(0.0, 1.0, 0.0), Point3(0.0, 0.0, 0.0), Point3(1.0, 0.0, 0.0), TriangleSpecies),
      Triangle(Point3(1.0, 1.0, 0.0), Point3(0.5, 1.5, 0.0), Point3(-0.5, 0.5, 0.0), TriangleSpecies));
    PlanarR1Case4SwappedOrientations1();
    PlanarR1Case4SwappedOrientations2();
    PlanarR1Case4SwappedOrientations3();
  }

  /** The orientations the example above reads, part 1. */
  lemma PlanarR1Case4SwappedOrientations1()
    ensures Orient2D(Point2(0.0, 1.0), Point2(0.0, 0.0), Point2(1.0, 0.0)) == Positive
    ensures Orient2D(Point2(1.0, 1.0), Point2(0.5, 1.5), Point2(-0.5, 0.5)) == Positive
  {
    Orient2DIs(0.0, 1.0, 0.0, 0.0, 1.0, 0.0, Positive);
    Orient2DIs(1.0, 1.0, 0.5, 1.5, -0.5, 0.5, Positive);
  }

  /** The orientations the example above reads, part 2. */
  lemma PlanarR1Case4SwappedOrientations2()
    ensures Orient2D(Point2(1.0, 1.0), Point2(0.5, 1.5), Point2(0.0, 1.0)) == Positive
    ensures Orient2D(Point2(0.5, 1.5), Point2(-0.5, 0.5), Point2(0.0, 1.0)) == Neutral
  {
    Orient2DIs(1.0, 1.0, 0.5, 1.5, 0.0, 1.0, Positive);
    Orient2DIs(0.5, 1.5, -0.5, 0.5, 0.0, 1.0, Neutral);
  }

  /** The orientations the example above reads, part 3. */
  lemma PlanarR1Case4SwappedOrientations3()
    ensures Orient2D(Point2(-0.5, 0.5), Point2(1.0, 1.0), Point2(0.0, 1.0)) == Positive
  {
    Orient2DIs(-0.5, 0.5, 1.0, 1.0, 0.0, 1.0, Positive);
  }

  /** test/algorithm/src/triangle_triangle.cpp, Triangle_Triangle_2D_R1, are_intersecting (tr_5, tr). */
  lemma PlanarR1Case5Example()
    ensures !TriangleTriangleIntersect(Triangle(Point3(1.0, 1.0, 0.0), Point3(1.5, -1.0, 0.0), Point3(2.0, 0.0, 0.0), TriangleSpecies),
      Triangle(Point3(0.0, 1.0, 0.0), Point3(0.0, 0.0, 0.0), Point3(1.0, 0.0, 0.0), TriangleSpecies))
  {
    assert FromPoints(Point3(1.0, 1.0, 0.0), Point3(1.5, -1.0, 0.0)) == Vector(0.5, -2.0, 0.0);
    assert FromPoints(Point3(1.0, 1.0, 0.0), Point3(2.0, 0.0, 0.0)) == Vector(1.0, -1.0, 0.0);
    assert VectorProduct(Vector(0.5, -2.0, 0.0), Vector(1.0, -1.0, 0.0)).z == 1.5;
    GroundCoplanar(Triangle(Point3(1.0, 1.0, 0.0), Point3(1.5, -1.0, 0.0), Point3(2.0, 0.0, 0.0), TriangleSpecies),
      Triangle(Point3(0.0, 1.0, 0.0), Point3(0.0, 0.0, 0.0), Point3(1.0, 0.0, 0.0), TriangleSpecies));
    PlanarR1Case5Orientations1();
    PlanarR1Case5Orientations2();
    PlanarR1Case5Orientations3();
    PlanarR1Case5Orientations4();
  }

  /** The orientations the example above reads, part 1. */
  lemma PlanarR1Case5Orientations1()
    ensures Orient2D(Point2(1.0, 1.0), Point2(1.5, -1.0), Point2(2.0, 0.0)) == Positive
    ensures Orient2D(Point2(0.0, 1.0), Point2(0.0, 0.0), Point2(1.0, 0.0)) == Positive
  {
    Orient2DIs(1.0, 1.0, 1.5, -1.0, 2.0, 0.0, Positive);
    Orient2DIs(0.0, 1.0, 0.0, 0.0, 1.0, 0.0, Positive);
  }

  /** The orientations the example above reads, part 2. */
  lemma PlanarR1Case5Orientations2()
    ensures Orient2D(Point2(0.0, 1.0), Point2(0.0, 0.0), Point2(1.0, 1.0)) == Positive
    ensures Orient2D(Point2(0.0, 0.0), Point2(1.0, 0.0), Point2(1.0, 1.0)) == Positive
  {
    Orient2DIs(0.0, 1.0, 0.0, 0.0, 1.0, 1.0, Positive);
    Orient2DIs(0.0, 0.0, 1.0, 0.0, 1.0, 1.0, Positive);
  }

  /** The orientations the example above reads, part 3. */
  lemma PlanarR1Case5Orientations3()
    ensures Orient2D(Point2(1.0, 0.0), Point2(0.0, 1.0), Point2(1.0, 1.0)) == Negative
    ensures Orient2D(Point2(1.0, 0.0), Point2(0.0, 1.0), Point2(1.5, -1.0)) == Positive
  {
    Orient2DIs(1.0, 0.0, 0.0, 1.0, 1.0, 1.0, Negative);
    Orient2DIs(1.0, 0.0, 0.0, 1.0, 1.5, -1.0, Positive);
  }

  /** The orientations the example above reads, part 4. */
  lemma PlanarR1Case5Orientations4()
    ensures Orient2D(Point2(1.0, 1.0), Point2(1.0, 0.0), Point2(1.5, -1.0)) == Positive
  {
    Orient2DIs(1.0, 1.0, 1.0, 0.0, 1.5, -1.0, Positive);
  }

  /** test/algorithm/src/triangle_triangle.cpp, Triangle_Triangle_2D_R1, are_intersecting (tr, tr_5). */
  lemma PlanarR1Case5SwappedExample()
    ensures !TriangleTriangleIntersect(Triangle(Point3(0.0, 1.0, 0.0), Point3(0.0, 0.0, 0.0), Point3(1.0, 0.0, 0.0), TriangleSpecies),
      Triangle(Point3(1.0, 1.0, 0.0), Point3(1.5, -1.0, 0.0), Point3(2.0, 0.0, 0.0), TriangleSpecies))
  {
    assert FromPoints(Point3(0.0, 1.0, 0.0), Point3(0.0, 0.0, 0.0)) == Vector(0.0, -1.0, 0.0);
    assert FromPoints(Point3(0.0, 1.0, 0.0), Point3(1.0, 0.0, 0.0)) == Vector(1.0, -1.0, 0.0);
    assert VectorProduct(Vector(0.0, -1.0, 0.0), Vector(1.0, -1.0, 0.0)).z == 1.0;
    GroundCoplanar(Triangle(Point3(0.0, 1.0, 0.0), Point3(0.0, 0.0, 0.0), Point3(1.0, 0.0, 0.0), TriangleSpecies),
      Triangle(Point3(1.0, 1.0, 0.0), Point3(1.5, -1.0, 0.0), Point3(2.0, 0.0, 0.0), TriangleSpecies));
    PlanarR1Case5SwappedOrientations1();
    PlanarR1Case5SwappedOrientations2();
    PlanarR1Case5SwappedOrientations3();
    PlanarR1Case5SwappedOrientations4();
  }

  /** The orientations the example above reads, part 1. */
  lemma PlanarR1Case5SwappedOrientations1()
    ensures Orient2D(Point2(0.0, 1.0), Point2(0.0, 0.0), Point2(1.0, 0.0)) == Positive
    ensures Orient2D(Point2(1.0, 1.0), Point2(1.5, -1.0), Point2(2.0, 0.0)) == Positive
  {
    Orient2DIs(0.0, 1.0, 0.0, 0.0, 1.0, 0.0, Positive);
    Orient2DIs(1.0, 1.0, 1.5, -1.0, 2.0, 0.0, Positive);
  }

  /** The orientations the example above reads, part 2. */
  lemma PlanarR1Case5SwappedOrientations2()
    ensures Orient2D(Point2(1.0, 1.0), Point2(1.5, -1.0), Point2(0.0, 1.0)) == Negative
    ensures Orient2D(Point2(1.5, -1.0), Point2(2.0, 0.0), Point2(0.0, 1.0)) == Positive
  {
    Orient2DIs(1.0, 1.0, 1.5, -1.0, 0.0, 1.0, Negative);
    Orient2DIs(1.5, -1.0, 2.0, 0.0, 0.0, 1.0, Positive);
  }

  /** The orientations the example above reads, part 3. */
  lemma PlanarR1Case5SwappedOrientations3()
    ensures Orient2D(Point2(2.0, 0.0), Point2(1.0, 1.0), Point2(0.0, 1.0)) == Positive
    ensures Orient2D(Point2(1.0, 1.0), Point2(1.5, -1.0), Point2(0.0, 0.0)) == Negative
  {
    Orient2DIs(2.0, 0.0, 1.0, 1.0, 0.0, 1.0, Positive);
    Orient2DIs(1.0, 1.0, 1.5, -1.0, 0.0, 0.0, Negative);
  }

  /** The orientations the example above reads, part 4. */
  lemma PlanarR1Case5SwappedOrientations4()
    ensures Orient2D(Point2(1.0, 1.0), Point2(1.5, -1.0), Point2(1.0, 0.0)) == Negative
  {
    Orient2DIs(1.0, 1.0, 1.5, -1.0, 1.0, 0.0, Negative);
  }

  /** test/algorithm/src/triangle_triangle.cpp, Triangle_Triangle_2D_R1, are_intersecting (tr_6, tr). */
  lemma PlanarR1Case6Example()
    ensures TriangleTriangleIntersect(Triangle(Point3(1.0, 1.0, 0.0), Point3(0.5, 0.5, 0.0), Point3(0.0, 2.0, 0.0), TriangleSpecies),
      Triangle(Point3(0.0, 1.0, 0.0), Point3(0.0, 0.0, 0.0), Point3(1.0, 0.0, 0.0), TriangleSpecies))
  {
    assert FromPoints(Point3(1.0, 1.0, 0.0), Point3(0.5, 0.5, 0.0)) == Vector(-0.5, -0.5, 0.0);
    assert FromPoints(Point3(1.0, 1.0, 0.0), Point3(0.0, 2.0, 0.0)) == Vector(-1.0, 1.0, 0.0);
    assert VectorProduct(Vector(-0.5, -0.5, 0.0), Vector(-1.0, 1.0, 0.0)).z == -1.0;
    GroundCoplanar(Triangle(Point3(1.0, 1.0, 0.0), Point3(0.5, 0.5, 0.0), Point3(0.0, 2.0, 0.0), TriangleSpecies),
      Triangle(Point3(0.0, 1.0, 0.0), Point3(0.0, 0.0, 0.0), Point3(1.0, 0.0, 0.0), TriangleSpecies));
    PlanarR1Case6Orientations1();
    PlanarR1Case6Orientations2();
    PlanarR1Case6Orientations3();
    PlanarR1Case6Orientations4();
    PlanarR1Case6Orientations5();
  }

  /** The orientations the example above reads, part 1. */
  lemma PlanarR1Case6Orientations1()
    ensures Orient2D(Point2(1.0, 1.0), Point2(0.5, 0.5), Point2(0.0, 2.0)) == Negative
    ensures Orient2D(Point2(0.0, 1.0), Point2(0.0, 0.0), Point2(1.0, 0.0)) == Positive
  {
    Orient2DIs(1.0, 1.0, 0.5, 0.5, 0.0, 2.0, Negative);
    Orient2DIs(0.0, 1.0, 0.0, 0.0, 1.0, 0.0, Positive);
  }

  /** The orientations the example above reads, part 2. */
  lemma PlanarR1Case6Orientations2()
    ensures Orient2D(Point2(0.0, 1.0), Point2(0.0, 0.0), Point2(1.0, 1.0)) == Positive
    ensures Orient2D(Point2(0.0, 0.0), Point2(1.0, 0.0), Point2(1.0, 1.0)) == Positive
  {
    Orient2DIs(0.0, 1.0, 0.0, 0.0, 1.0, 1.0, Positive);
    Orient2DIs(0.0, 0.0, 1.0, 0.0, 1.0, 1.0, Positive);
  }

  /** The orientations the example above reads, part 3. */
  lemma PlanarR1Case6Orientations3()
    ensures Orient2D(Point2(1.0, 0.0), Point2(0.0, 1.0), Point2(1.0, 1.0)) == Negative
    ensures Orient2D(Point2(1.0, 0.0), Point2(0.0, 1.0), Point2(0.0, 2.0)) == Negative
  {
    Orient2DIs(1.0, 0.0, 0.0, 1.0, 1.0, 1.0, Negative);
    Orient2DIs(1.0, 0.0, 0.0, 1.0, 0.0, 2.0, Negative);
  }

  /** The orientations the example above reads, part 4. */
  lemma PlanarR1Case6Orientations4()
    ensures Orient2D(Point2(1.0, 0.0), Point2(0.0, 1.0), Point2(0.5, 0.5)) == Neutral
    ensures Orient2D(Point2(0.0, 2.0), Point2(1.0, 0.0), Point2(0.5, 0.5)) == Negative
  {
    Orient2DIs(1.0, 0.0, 0.0, 1.0, 0.5, 0.5, Neutral);
    Orient2DIs(0.0, 2.0, 1.0, 0.0, 0.5, 0.5, Negative);
  }

  /** The orientations the example above reads, part 5. */
  lemma PlanarR1Case6Orientations5()
    ensures Orient2D(Point2(1.0, 1.0), Point2(0.0, 1.0), Point2(0.5, 0.5)) == Positive
  {
    Orient2DIs(1.0, 1.0, 0.0, 1.0, 0.5, 0.5, Positive);
  }

  /** test/algorithm/src/triangle_triangle.cpp, Triangle_Triangle_2D_R1, are_intersecting (tr, tr_6). */
  lemma PlanarR1Case6SwappedExample()
    ensures TriangleTriangleIntersect(Triangle(Point3(0.0, 1.0, 0.0), Point3(0.0, 0.0, 0.0), Point3(1.0, 0.0, 0.0), TriangleSpecies),
      Triangle(Point3(1.0, 1.0, 0.0), Point3(0.5, 0.5, 0.0), Point3(0.0, 2.0, 0.0), TriangleSpecies))
  {
    assert FromPoints(Point3(0.0, 1.0, 0.0), Point3(0.0, 0.0, 0.0)) == Vector(0.0, -1.0, 0.0);
    assert FromPoints(Point3(0.0, 1.0, 0.0), Point3(1.0, 0.0, 0.0)) == Vector(1.0, -1.0, 0.0);
    assert VectorProduct(Vector(0.0, -1.0, 0.0), Vector(1.0, -1.0, 0.0)).z == 1.0;
    GroundCoplanar(Triangle(Point3(0.0, 1.0, 0.0), Point3(0.0, 0.0, 0.0), Point3(1.0, 0.0, 0.0), TriangleSpecies),
      Triangle(Point3(1.0, 1.0, 0.0), Point3(0.5, 0.5, 0.0), Point3(0.0, 2.0, 0.0), TriangleSpecies));
    PlanarR1Case6SwappedOrientations1();
    PlanarR1Case6SwappedOrientations2();
    PlanarR1Case6SwappedOrientations3();
    PlanarR1Case6SwappedOrientations4();
    PlanarR1Case6SwappedOrientations5();
  }

  /** The orientations the example above reads, part 1. */
  lemma PlanarR1Case6SwappedOrientations1()
    ensures Orient2D(Point2(0.0, 1.0), Point2(0.0, 0.0), Point2(1.0, 0.0)) == Positive
    ensures Orient2D(Point2(1.0, 1.0), Point2(0.5, 0.5), Point2(0.0, 2.0)) == Negative
  {
    Orient2DIs(0.0, 1.0, 0.0, 0.0, 1.0, 0.0, Positive);
    Orient2DIs(1.0, 1.0, 0.5, 0.5, 0.0, 2.0, Negative);
  }

  /** The orientations the example above reads, part 2. */
  lemma PlanarR1Case6SwappedOrientations2()
    ensures Orient2D(Point2(1.0, 1.0), Point2(0.0, 2.0), Point2(0.0, 1.0)) == Positive
    ensures Orient2D(Point2(0.0, 2.0), Point2(0.5, 0.5), Point2(0.0, 1.0)) == Negative
  {
    Orient2DIs(1.0, 1.0, 0.0, 2.0, 0.0, 1.0, Positive);
    Orient2DIs(0.0, 2.0, 0.5, 0.5, 0.0, 1.0, Negative);
  }

  /** The orientations the example above reads, part 3. */
  lemma PlanarR1Case6SwappedOrientations3()
    ensures Orient2D(Point2(0.5, 0.5), Point2(1.0, 1.0), Point2(0.0, 1.0)) == Positive
    ensures Orient2D(Point2(0.0, 2.0), Point2(0.5, 0.5), Point2(0.0, 0.0)) == Negative
  {
    Orient2DIs(0.5, 0.5, 1.0, 1.0, 0.0, 1.0, Positive);
    Orient2DIs(0.0, 2.0, 0.5, 0.5, 0.0, 0.0, Negative);
  }

  /** The orientations the example above reads, part 4. */
  lemma PlanarR1Case6SwappedOrientations4()
    ensures Orient2D(Point2(0.0, 2.0), Point2(0.5, 0.5), Point2(1.0, 0.0)) == Positive
    ensures Orient2D(Point2(0.0, 0.0), Point2(0.0, 2.0), Point2(1.0, 0.0)) == Negative
  {
    Orient2DIs(0.0, 2.0, 0.5, 0.5, 1.0, 0.0, Positive);
    Orient2DIs(0.0, 0.0, 0.0, 2.0, 1.0, 0.0, Negative);
  }

  /** The orientations the example above reads, part 5. */
  lemma PlanarR1Case6SwappedOrientations5()
    ensures Orient2D(Point2(0.0, 1.0), Point2(0.5, 0.5), Point2(1.0, 0.0)) == Neutral
  {
    Orient2DIs(0.0, 1.0, 0.5, 0.5, 1.0, 0.0, Neutral);
  }

  /** test/algorithm/src/triangle_triangle.cpp, Triangle_Triangle_2D_R1, are_intersecting (tr_7, tr). */
  lemma PlanarR1Case7Example()
    ensures TriangleTriangleIntersect(Triangle(Point3(1.0, 1.0, 0.0), Point3(0.25, 0.25, 0.0), Point3(0.0, 2.0, 0.0), TriangleSpecies),
      Triangle(Point3(0.0, 1.0, 0.0), Point3(0.0, 0.0, 0.0), Point3(1.0, 0.0, 0.0), TriangleSpecies))
  {
    assert FromPoints(Point3(1.0, 1.0, 0.0), Point3(0.25, 0.25, 0.0)) == Vector(-0.75, -0.75, 0.0);
    assert FromPoints(Point3(1.0, 1.0, 0.0), Point3(0.0, 2.0, 0.0)) == Vector(-1.0, 1.0, 0.0);
    assert VectorProduct(Vector(-0.75, -0.75, 0.0), Vector(-1.0, 1.0, 0.0)).z == -1.5;
    GroundCoplanar(Triangle(Point3(1.0, 1.0, 0.0), Point3(0.25, 0.25, 0.0), Point3(0.0, 2.0, 0.0), TriangleSpecies),
      Triangle(Point3(0.0, 1.0, 0.0), Point3(0.0, 0.0, 0.0), Point3(1.0, 0.0, 0.0), TriangleSpecies));
    PlanarR1Case7Orientations1();
    PlanarR1Case7Orientations2();
    PlanarR1Case7Orientations3();
    PlanarR1Case7Orientations4();
    PlanarR1Case7Orientations5();
  }

  /** The orientations the example above reads, part 1. */
  lemma PlanarR1Case7Orientations1()
    ensures Orient2D(Point2(1.0, 1.0), Point2(0.25, 0.25), Point2(0.0, 2.0)) == Negative
    ensures Orient2D(Point2(0.0, 1.0), Point2(0.0, 0.0), Point2(1.0, 0.0)) == Positive
  {
    Orient2DIs(1.0, 1.0, 0.25, 0.25, 0.0, 2.0, Negative);
    Orient2DIs(0.0, 1.0, 0.0, 0.0, 1.0, 0.0, Positive);
  }

  /** The orientations the example above reads, part 2. */
  lemma PlanarR1Case7Orientations2()
    ensures Orient2D(Point2(0.0, 1.0), Point2(0.0, 0.0), Point2(1.0, 1.0)) == Positive
    ensures Orient2D(Point2(0.0, 0.0), Point2(1.0, 0.0), Point2(1.0, 1.0)) == Positive
  {
    Orient2DIs(0.0, 1.0, 0.0, 0.0, 1.0, 1.0, Positive);
    Orient2DIs(0.0, 0.0, 1.0, 0.0, 1.0, 1.0, Positive);
  }

  /** The orientations the example above reads, part 3. */
  lemma PlanarR1Case7Orientations3()
    ensures Orient2D(Point2(1.0, 0.0), Point2(0.0, 1.0), Point2(1.0, 1.0)) == Negative
    ensures Orient2D(Point2(1.0, 0.0), Point2(0.0, 1.0), Point2(0.0, 2.0)) == Negative
  {
    Orient2DIs(1.0, 0.0, 0.0, 1.0, 1.0, 1.0, Negative);
    Orient2DIs(1.0, 0.0, 0.0, 1.0, 0.0, 2.0, Negative);
  }

  /** The orientations the example above reads, part 4. */
  lemma PlanarR1Case7Orientations4()
    ensures Orient2D(Point2(1.0, 0.0), Point2(0.0, 1.0), Point2(0.25, 0.25)) == Positive
    ensures Orient2D(Point2(0.0, 2.0), Point2(1.0, 0.0), Point2(0.25, 0.25)) == Negative
  {
    Orient2DIs(1.0, 0.0, 0.0, 1.0, 0.25, 0.25, Positive);
    Orient2DIs(0.0, 2.0, 1.0, 0.0, 0.25, 0.25, Negative);
  }

  /** The orientations the example above reads, part 5. */
  lemma PlanarR1Case7Orientations5()
    ensures Orient2D(Point2(1.0, 1.0), Point2(0.0, 1.0), Point2(0.25, 0.25)) == Positive
  {
    Orient2DIs(1.0, 1.0, 0.0, 1.0, 0.25, 0.25, Positive);
  }

  /** test/algorithm/src/triangle_triangle.cpp, Triangle_Triangle_2D_R1, are_intersecting (tr, tr_7). */
  lemma PlanarR1Case7SwappedExample()
    ensures TriangleTriangleIntersect(Triangle(Point3(0.0, 1.0, 0.0), Point3(0.0, 0.0, 0.0), Point3(1.0, 0.0, 0.0), TriangleSpecies),
      Triangle(Point3(1.0, 1.0, 0.0), Point3(0.25, 0.25, 0.0), Point3(0.0, 2.0, 0.0), TriangleSpecies))
  {
    assert FromPoints(Point3(0.0, 1.0, 0.0), Point3(0.0, 0.0, 0.0)) == Vector(0.0, -1.0, 0.0);
    assert FromPoints(Point3(0.0, 1.0, 0.0), Point3(1.0, 0.0, 0.0)) == Vector(1.0, -1.0, 0.0);
    assert VectorProduct(Vector(0.0, -1.0, 0.0), Vector(1.0, -1.0, 0.0)).z == 1.0;
    GroundCoplanar(Triangle(Point3(0.0, 1.0, 0.0), Point3(0.0, 0.0, 0.0), Point3(1.0, 0.0, 0.0), TriangleSpecies),
      Triangle(Point3(1.0, 1.0, 0.0), Point3(0.25, 0.25, 0.0), Point3(0.0, 2.0, 0.0), TriangleSpecies));
    PlanarR1Case7SwappedOrientations1();
    PlanarR1Case7SwappedOrientations2();
    PlanarR1Case7SwappedOrientations3();
    PlanarR1Case7SwappedOrientations4();
    PlanarR1Case7SwappedOrientations5();
  }

  /** The orientations the example above reads, part 1. */
  lemma PlanarR1Case7SwappedOrientations1()
    ensures Orient2D(Point2(0.0, 1.0), Point2(0.0, 0.0), Point2(1.0, 0.0)) == Positive
    ensures Orient2D(Point2(1.0, 1.0), Point2(0.25, 0.25), Point2(0.0, 2.0)) == Negative
  {
    Orient2DIs(0.0, 1.0, 0.0, 0.0, 1.0, 0.0, Positive);
    Orient2DIs(1.0, 1.0, 0.25, 0.25, 0.0, 2.0, Negative);
  }

  /** The orientations the example above reads, part 2. */
  lemma PlanarR1Case7SwappedOrientations2()
    ensures Orient2D(Point2(1.0, 1.0), Point2(0.0, 2.0), Point2(0.0, 1.0)) == Positive
    ensures Orient2D(Point2(0.0, 2.0), Point2(0.25, 0.25), Point2(0.0, 1.0)) == Negative
  {
    Orient2DIs(1.0, 1.0, 0.0, 2.0, 0.0, 1.0, Positive);
    Orient2DIs(0.0, 2.0, 0.25, 0.25, 0.0, 1.0, Negative);
  }

  /** The orientations the example above reads, part 3. */
  lemma PlanarR1Case7SwappedOrientations3()
    ensures Orient2D(Point2(0.25, 0.25), Point2(1.0, 1.0), Point2(0.0, 1.0)) == Positive
    ensures Orient2D(Point2(0.0, 2.0), Point2(0.25, 0.25), Point2(0.0, 0.0)) == Negative
  {
    Orient2DIs(0.25, 0.25, 1.0, 1.0, 0.0, 1.0, Positive);
    Orient2DIs(0.0, 2.0, 0.25, 0.25, 0.0, 0.0, Negative);
  }

  /** The orientations the example above reads, part 4. */
  lemma PlanarR1Case7SwappedOrientations4()
    ensures Orient2D(Point2(0.0, 2.0), Point2(0.25, 0.25), Point2(1.0, 0.0)) == Positive
    ensures Orient2D(Point2(0.0, 0.0), Point2(0.0, 2.0), Point2(1.0, 0.0)) == Negative
  {
    Orient2DIs(0.0, 2.0, 0.25, 0.25, 1.0, 0.0, Positive);
    Orient2DIs(0.0, 0.0, 0.0, 2.0, 1.0, 0.0, Negative);
  }

  /** The orientations the example above reads, part 5. */
  lemma PlanarR1Case7SwappedOrientations5()
    ensures Orient2D(Point2(0.0, 1.0), Point2(0.25, 0.25), Point2(1.0, 0.0)) == Positive
  {
    Orient2DIs(0.0, 1.0, 0.25, 0.25, 1.0, 0.0, Positive);
  }

  /** test/algorithm/src/triangle_triangle.cpp, Triangle_Triangle_2D_R1, are_intersecting (tr_8, tr). */
  lemma PlanarR1Case8Example()
    ensures TriangleTriangleIntersect(Triangle(Point3(1.0, 1.0, 0.0), Point3(-1.0, -1.0, 0.0), Point3(0.0, 2.0, 0.0), TriangleSpecies),
      Triangle(Point3(0.0, 1.0, 0.0), Point3(0.0, 0.0, 0.0), Point3(1.0, 0.0, 0.0), TriangleSpecies))
  {
    assert FromPoints(Point3(1.0, 1.0, 0.0), Point3(-1.0, -1.0, 0.0)) == Vector(-2.0, -2.0, 0.0);
    assert FromPoints(Point3(1.0, 1.0, 0.0), Point3(0.0, 2.0, 0.0)) == Vector(-1.0, 1.0, 0.0);
    assert VectorProduct(Vector(-2.0, -2.0, 0.0), Vector(-1.0, 1.0, 0.0)).z == -4.0;
    GroundCoplanar(Triangle(Point3(1.0, 1.0, 0.0), Point3(-1.0, -1.0, 0.0), Point3(0.0, 2.0, 0.0), TriangleSpecies),
      Triangle(Point3(0.0, 1.0, 0.0), Point3(0.0, 0.0, 0.0), Point3(1.0, 0.0, 0.0), TriangleSpecies));
    PlanarR1Case8Orientations1();
    PlanarR1Case8Orientations2();
    PlanarR1Case8Orientations3();
    PlanarR1Case8Orientations4();
    PlanarR1Case8Orientations5();
  }

  /** The orientations the example above reads, part 1. */
  lemma PlanarR1Case8Orientations1()
    ensures Orient2D(Point2(1.0, 1.0), Point2(-1.0, -1.0), Point2(0.0, 2.0)) == Negative
    ensures Orient2D(Point2(0.0, 1.0), Point2(0.0, 0.0), Point2(1.0, 0.0)) == Positive
  {
    Orient2DIs(1.0, 1.0, -1.0, -1.0, 0.0, 2.0, Negative);
    Orient2DIs(0.0, 1.0, 0.0, 0.0, 1.0, 0.0, Positive);
  }

  /** The orientations the example above reads, part 2. */
  lemma PlanarR1Case8Orientations2()
    ensures Orient2D(Point2(0.0, 1.0), Point2(0.0, 0.0), Point2(1.0, 1.0)) == Positive
    ensures Orient2D(Point2(0.0, 0.0), Point2(1.0, 0.0), Point2(1.0, 1.0)) == Positive
  {
    Orient2DIs(0.0, 1.0, 0.0, 0.0, 1.0, 1.0, Positive);
    Orient2DIs(0.0, 0.0, 1.0, 0.0, 1.0, 1.0, Positive);
  }

  /** The orientations the example above reads, part 3. */
  lemma PlanarR1Case8Orientations3()
    ensures Orient2D(Point2(1.0, 0.0), Point2(0.0, 1.0), Point2(1.0, 1.0)) == Negative
    ensures Orient2D(Point2(1.0, 0.0), Point2(0.0, 1.0), Point2(0.0, 2.0)) == Negative
  {
    Orient2DIs(1.0, 0.0, 0.0, 1.0, 1.0, 1.0, Negative);
    Orient2DIs(1.0, 0.0, 0.0, 1.0, 0.0, 2.0, Negative);
  }

  /** The orientations the example above reads, part 4. */
  lemma PlanarR1Case8Orientations4()
    ensures Orient2D(Point2(1.0, 0.0), Point2(0.0, 1.0), Point2(-1.0, -1.0)) == Positive
    ensures Orient2D(Point2(0.0, 2.0), Point2(1.0, 0.0), Point2(-1.0, -1.0)) == Negative
  {
    Orient2DIs(1.0, 0.0, 0.0, 1.0, -1.0, -1.0, Positive);
    Orient2DIs(0.0, 2.0, 1.0, 0.0, -1.0, -1.0, Negative);
  }

  /** The orientations the example above reads, part 5. */
  lemma PlanarR1Case8Orientations5()
    ensures Orient2D(Point2(1.0, 1.0), Point2(0.0, 1.0), Point2(-1.0, -1.0)) == Positive
  {
    Orient2DIs(1.0, 1.0, 0.0, 1.0, -1.0, -1.0, Positive);
  }

  /** test/algorithm/src/triangle_triangle.cpp, Triangle_Triangle_2D_R1, are_intersecting (tr, tr_8). */
  lemma PlanarR1Case8SwappedExample()
    ensures TriangleTriangleIntersect(Triangle(Point3(0.0, 1.0, 0.0), Point3(0.0, 0.0, 0.0), Point3(1.0, 0.0, 0.0), TriangleSpecies),
      Triangle(Point3(1.0, 1.0, 0.0), Point3(-1.0, -1.0, 0.0), Point3(0.0, 2.0, 0.0), TriangleSpecies))
  {
    assert FromPoints(Point3(0.0, 1.0, 0.0), Point3(0.0, 0.0, 0.0)) == Vector(0.0, -1.0, 0.0);
    assert FromPoints(Point3(0.0, 1.0, 0.0), Point3(1.0, 0.0, 0.0)) == Vector(1.0, -1.0, 0.0);
    assert VectorProduct(Vector(0.0, -1.0, 0.0), Vector(1.0, -1.0, 0.0)).z == 1.0;
    GroundCoplanar(Triangle(Point3(0.0, 1.0, 0.0), Point3(0.0, 0.0, 0.0), Point3(1.0, 0.0, 0.0), TriangleSpecies),
      Triangle(Point3(1.0, 1.0, 0.0), Point3(-1.0, -1.0, 0.0), Point3(0.0, 2.0, 0.0), TriangleSpecies));
    PlanarR1Case8SwappedOrientations1();
    PlanarR1Case8SwappedOrientations2();
    PlanarR1Case8SwappedOrientations3();
  }

  /** The orientations the example above reads, part 1. */
  lemma PlanarR1Case8SwappedOrientations1()
    ensures Orient2D(Point2(0.0, 1.0), Point2(0.0, 0.0), Point2(1.0, 0.0)) == Positive
    ensures Orient2D(Point2(1.0, 1.0), Point2(-1.0, -1.0), Point2(0.0, 2.0)) == Negative
  {
    Orient2DIs(0.0, 1.0, 0.0, 0.0, 1.0, 0.0, Positive);
    Orient2DIs(1.0, 1.0, -1.0, -1.0, 0.0, 2.0, Negative);
  }

  /** The orientations the example above reads, part 2. */
  lemma PlanarR1Case8SwappedOrientations2()
    ensures Orient2D(Point2(1.0, 1.0), Point2(0.0, 2.0), Point2(0.0, 1.0)) == Positive
    ensures Orient2D(Point2(0.0, 2.0), Point2(-1.0, -1.0), Point2(0.0, 1.0)) == Positive
  {
    Orient2DIs(1.0, 1.0, 0.0, 2.0, 0.0, 1.0, Positive);
    Orient2DIs(0.0, 2.0, -1.0, -1.0, 0.0, 1.0, Positive);
  }

  /** The orientations the example above reads, part 3. */
  lemma PlanarR1Case8SwappedOrientations3()
    ensures Orient2D(Point2(-1.0, -1.0), Point2(1.0, 1.0), Point2(0.0, 1.0)) == Positive
  {
    Orient2DIs(-1.0, -1.0, 1.0, 1.0, 0.0, 1.0, Positive);
  }

  /** test/algorithm/src/triangle_triangle.cpp, Triangle_Triangle_2D_R1, are_intersecting (tr_9, tr). */
  lemma PlanarR1Case9Example()
    ensures TriangleTriangleIntersect(Triangle(Point3(1.0, 1.0, 0.0), Point3(1.0, -1.0, 0.0), Point3(2.0, 0.0, 0.0), TriangleSpecies),
      Triangle(Point3(0.0, 1.0, 0.0), Point3(0.0, 0.0, 0.0), Point3(1.0, 0.0, 0.0), TriangleSpecies))
  {
    assert FromPoints(Point3(1.0, 1.0, 0.0), Point3(1.0, -1.0, 0.0)) == Vector(0.0, -2.0, 0.0);
    assert FromPoints(Point3(1.0, 1.0, 0.0), Point3(2.0, 0.0, 0.0)) == Vector(1.0, -1.0, 0.0);
    assert VectorProduct(Vector(0.0, -2.0, 0.0), Vector(1.0, -1.0, 0.0)).z == 2.0;
    GroundCoplanar(Triangle(Point3(1.0, 1.0, 0.0), Point3(1.0, -1.0, 0.0), Point3(2.0, 0.0, 0.0), TriangleSpecies),
      Triangle(Point3(0.0, 1.0, 0.0), Point3(0.0, 0.0, 0.0), Point3(1.0, 0.0, 0.0), TriangleSpecies));
    PlanarR1Case9Orientations1();
    PlanarR1Case9Orientations2();
    PlanarR1Case9Orientations3();
    PlanarR1Case9Orientations4();
  }

  /** The orientations the example above reads, part 1. */
  lemma PlanarR1Case9Orientations1()
    ensures Orient2D(Point2(1.0, 1.0), Point2(1.0, -1.0), Point2(2.0, 0.0)) == Positive
    ensures Orient2D(Point2(0.0, 1.0), Point2(0.0, 0.0), Point2(1.0, 0.0)) == Positive
  {
    Orient2DIs(1.0, 1.0, 1.0, -1.0, 2.0, 0.0, Positive);
    Orient2DIs(0.0, 1.0, 0.0, 0.0, 1.0, 0.0, Positive);
  }

  /** The orientations the example above reads, part 2. */
  lemma PlanarR1Case9Orientations2()
    ensures Orient2D(Point2(0.0, 1.0), Point2(0.0, 0.0), Point2(1.0, 1.0)) == Positive
    ensures Orient2D(Point2(0.0, 0.0), Point2(1.0, 0.0), Point2(1.0, 1.0)) == Positive
  {
    Orient2DIs(0.0, 1.0, 0.0, 0.0, 1.0, 1.0, Positive);
    Orient2DIs(0.0, 0.0, 1.0, 0.0, 1.0, 1.0, Positive);
  }

  /** The orientations the example above reads, part 3. */
  lemma PlanarR1Case9Orientations3()
    ensures Orient2D(Point2(1.0, 0.0), Point2(0.0, 1.0), Point2(1.0, 1.0)) == Negative
    ensures Orient2D(Point2(1.0, 0.0), Point2(0.0, 1.0), Point2(1.0, -1.0)) == Positive
  {
    Orient2DIs(1.0, 0.0, 0.0, 1.0, 1.0, 1.0, Negative);
    Orient2DIs(1.0, 0.0, 0.0, 1.0, 1.0, -1.0, Positive);
  }

  /** The orientations the example above reads, part 4. */
  lemma PlanarR1Case9Orientations4()
    ensures Orient2D(Point2(1.0, 1.0), Point2(1.0, 0.0), Point2(1.0, -1.0)) == Neutral
    ensures Orient2D(Point2(1.0, 1.0), Point2(0.0, 1.0), Point2(1.0, -1.0)) == Positive
  {
    Orient2DIs(1.0, 1.0, 1.0, 0.0, 1.0, -1.0, Neutral);
    Orient2DIs(1.0, 1.0, 0.0, 1.0, 1.0, -1.0, Positive);
  }

  /** test/algorithm/src/triangle_triangle.cpp, Triangle_Triangle_2D_R1, are_intersecting (tr, tr_9). */
  lemma PlanarR1Case9SwappedExample()
    ensures TriangleTriangleIntersect(Triangle(Point3(0.0, 1.0, 0.0), Point3(0.0, 0.0, 0.0), Point3(1.0, 0.0, 0.0), TriangleSpecies),
      Triangle(Point3(1.0, 1.0, 0.0), Point3(1.0, -1.0, 0.0), Point3(2.0, 0.0, 0.0), TriangleSpecies))
  {
    assert FromPoints(Point3(0.0, 1.0, 0.0), Point3(0.0, 0.0, 0.0)) == Vector(0.0, -1.0, 0.0);
    assert FromPoints(Point3(0.0, 1.0, 0.0), Point3(1.0, 0.0, 0.0)) == Vector(1.0, -1.0, 0.0);
    assert VectorProduct(Vector(0.0, -1.0, 0.0), Vector(1.0, -1.0, 0.0)).z == 1.0;
    GroundCoplanar(Triangle(Point3(0.0, 1.0, 0.0), Point3(0.0, 0.0, 0.0), Point3(1.0, 0.0, 0.0), TriangleSpecies),
      Triangle(Point3(1.0, 1.0, 0.0), Point3(1.0, -1.0, 0.0), Point3(2.0, 0.0, 0.0), TriangleSpecies));
    PlanarR1Case9SwappedOrientations1();
    PlanarR1Case9SwappedOrientations2();
    PlanarR1Case9SwappedOrientations3();
    PlanarR1Case9SwappedOrientations4();
    PlanarR1Case9SwappedOrientations5();
  }

  /** The orientations the example above reads, part 1. */
  lemma PlanarR1Case9SwappedOrientations1()
    ensures Orient2D(Point2(0.0, 1.0), Point2(0.0, 0.0), Point2(1.0, 0.0)) == Positive
    ensures Orient2D(Point2(1.0, 1.0), Point2(1.0, -1.0), Point2(2.0, 0.0)) == Positive
  {
    Orient2DIs(0.0, 1.0, 0.0, 0.0, 1.0, 0.0, Positive);
    Orient2DIs(1.0, 1.0, 1.0, -1.0, 2.0, 0.0, Positive);
  }

  /** The orientations the example above reads, part 2. */
  lemma PlanarR1Case9SwappedOrientations2()
    ensures Orient2D(Point2(1.0, 1.0), Point2(1.0, -1.0), Point2(0.0, 1.0)) == Negative
    ensures Orient2D(Point2(1.0, -1.0), Point2(2.0, 0.0), Point2(0.0, 1.0)) == Positive
  {
    Orient2DIs(1.0, 1.0, 1.0, -1.0, 0.0, 1.0, Negative);
    Orient2DIs(1.0, -1.0, 2.0, 0.0, 0.0, 1.0, Positive);
  }

  /** The orientations the example above reads, part 3. */
  lemma PlanarR1Case9SwappedOrientations3()
    ensures Orient2D(Point2(2.0, 0.0), Point2(1.0, 1.0), Point2(0.0, 1.0)) == Positive
    ensures Orient2D(Point2(1.0, 1.0), Point2(1.0, -1.0), Point2(0.0, 0.0)) == Negative
  {
    Orient2DIs(2.0, 0.0, 1.0, 1.0, 0.0, 1.0, Positive);
    Orient2DIs(1.0, 1.0, 1.0, -1.0, 0.0, 0.0, Negative);
  }

  /** The orientations the example above reads, part 4. */
  lemma PlanarR1Case9SwappedOrientations4()
    ensures Orient2D(Point2(1.0, 1.0), Point2(1.0, -1.0), Point2(1.0, 0.0)) == Neutral
    ensures Orient2D(Point2(0.0, 0.0), Point2(1.0, 1.0), Point2(1.0, 0.0)) == Negative
  {
    Orient2DIs(1.0, 1.0, 1.0, -1.0, 1.0, 0.0, Neutral);
    Orient2DIs(0.0, 0.0, 1.0, 1.0, 1.0, 0.0, Negative);
  }

  /** The orientations the example above reads, part 5. */
  lemma PlanarR1Case9SwappedOrientations5()
    ensures Orient2D(Point2(0.0, 1.0), Point2(1.0, -1.0), Point2(1.0, 0.0)) == Positive
  {
    Orient2DIs(0.0, 1.0, 1.0, -1.0, 1.0, 0.0, Positive);
  }

  /** test/algorithm/src/triangle_triangle.cpp, Triangle_Triangle_2D_R1, are_intersecting (tr_10, tr). */
  lemma PlanarR1Case10Example()
    ensures TriangleTriangleIntersect(Triangle(Point3(1.0, 1.0, 0.0), Point3(-1.0, 1.0, 0.0), Point3(0.0, 2.0, 0.0), TriangleSpecies),
      Triangle(Point3(0.0, 1.0, 0.0), Point3(0.0, 0.0, 0.0), Point3(1.0, 0.0, 0.0), TriangleSpecies))
  {
    assert FromPoints(Point3(1.0, 1.0, 0.0), Point3(-1.0, 1.0, 0.0)) == Vector(-2.0, 0.0, 0.0);
    assert FromPoints(Point3(1.0, 1.0, 0.0), Point3(0.0, 2.0, 0.0)) == Vector(-1.0, 1.0, 0.0);
    assert VectorProduct(Vector(-2.0, 0.0, 0.0), Vector(-1.0, 1.0, 0.0)).z == -2.0;
    GroundCoplanar(Triangle(Point3(1.0, 1.0, 0.0), Point3(-1.0, 1.0, 0.0), Point3(0.0, 2.0, 0.0), TriangleSpecies),
      Triangle(Point3(0.0, 1.0, 0.0), Point3(0.0, 0.0, 0.0), Point3(1.0, 0.0, 0.0), TriangleSpecies));
    PlanarR1Case10Orientations1();
    PlanarR1Case10Orientations2();
    PlanarR1Case10Orientations3();
    PlanarR1Case10Orientations4();
    PlanarR1Case10Orientations5();
  }

  /** The orientations the example above reads, part 1. */
  lemma PlanarR1Case10Orientations1()
    ensures Orient2D(Point2(1.0, 1.0), Point2(-1.0, 1.0), Point2(0.0, 2.0)) == Negative
    ensures Orient2D(Point2(0.0, 1.0), Point2(0.0, 0.0), Point2(1.0, 0.0)) == Positive
  {
    Orient2DIs(1.0, 1.0, -1.0, 1.0, 0.0, 2.0, Negative);
    Orient2DIs(0.0, 1.0, 0.0, 0.0, 1.0, 0.0, Positive);
  }

  /** The orientations the example above reads, part 2. */
  lemma PlanarR1Case10Orientations2()
    ensures Orient2D(Point2(0.0, 1.0), Point2(0.0, 0.0), Point2(1.0, 1.0)) == Positive
    ensures Orient2D(Point2(0.0, 0.0), Point2(1.0, 0.0), Point2(1.0, 1.0)) == Positive
  {
    Orient2DIs(0.0, 1.0, 0.0, 0.0, 1.0, 1.0, Positive);
    Orient2DIs(0.0, 0.0, 1.0, 0.0, 1.0, 1.0, Positive);
  }

  /** The orientations the example above reads, part 3. */
  lemma PlanarR1Case10Orientations3()
    ensures Orient2D(Point2(1.0, 0.0), Point2(0.0, 1.0), Point2(1.0, 1.0)) == Negative
    ensures Orient2D(Point2(1.0, 0.0), Point2(0.0, 1.0), Point2(0.0, 2.0)) == Negative
  {
    Orient2DIs(1.0, 0.0, 0.0, 1.0, 1.0, 1.0, Negative);
    Orient2DIs(1.0, 0.0, 0.0, 1.0, 0.0, 2.0, Negative);
  }

  /** The orientations the example above reads, part 4. */
  lemma PlanarR1Case10Orientations4()
    ensures Orient2D(Point2(1.0, 0.0), Point2(0.0, 1.0), Point2(-1.0, 1.0)) == Positive
    ensures Orient2D(Point2(0.0, 2.0), Point2(1.0, 0.0), Point2(-1.0, 1.0)) == Negative
  {
    Orient2DIs(1.0, 0.0, 0.0, 1.0, -1.0, 1.0, Positive);
    Orient2DIs(0.0, 2.0, 1.0, 0.0, -1.0, 1.0, Negative);
  }

  /** The orientations the example above reads, part 5. */
  lemma PlanarR1Case10Orientations5()
    ensures Orient2D(Point2(1.0, 1.0), Point2(0.0, 1.0), Point2(-1.0, 1.0)) == Neutral
  {
    Orient2DIs(1.0, 1.0, 0.0, 1.0, -1.0, 1.0, Neutral);
  }

  /** test/algorithm/src/triangle_triangle.cpp, Triangle_Triangle_2D_R1, are_intersecting (tr, tr_10). */
  lemma PlanarR1Case10SwappedExample()
    ensures TriangleTriangleIntersect(Triangle(Point3(0.0, 1.0, 0.0), Point3(0.0, 0.0, 0.0), Point3(1.0, 0.0, 0.0), TriangleSpecies),
      Triangle(Point3(1.0, 1.0, 0.0), Point3(-1.0, 1.0, 0.0), Point3(0.0, 2.0, 0.0), TriangleSpecies))
  {
    assert FromPoints(Point3(0.0, 1.0, 0.0), Point3(0.0, 0.0, 0.0)) == Vector(0.0, -1.0, 0.0);
    assert FromPoints(Point3(0.0, 1.0, 0.0), Point3(1.0, 0.0, 0.0)) == Vector(1.0, -1.0, 0.0);
    assert VectorProduct(Vector(0.0, -1.0, 0.0), Vector(1.0, -1.0, 0.0)).z == 1.0;
    GroundCoplanar(Triangle(Point3(0.0, 1.0, 0.0), Point3(0.0, 0.0, 0.0), Point3(1.0, 0.0, 0.0), TriangleSpecies),
      Triangle(Point3(1.0, 1.0, 0.0), Point3(-1.0, 1.0, 0.0), Point3(0.0, 2.0, 0.0), TriangleSpecies));
    PlanarR1Case10SwappedOrientations1();
    PlanarR1Case10SwappedOrientations2();
    PlanarR1Case10SwappedOrientations3();
  }

  /** The orientations the example above reads, part 1. */
  lemma PlanarR1Case10SwappedOrientations1()
    ensures Orient2D(Point2(0.0, 1.0), Point2(0.0, 0.0), Point2(1.0, 0.0)) == Positive
    ensures Orient2D(Point2(1.0, 1.0), Point2(-1.0, 1.0), Point2(0.0, 2.0)) == Negative
  {
    Orient2DIs(0.0, 1.0, 0.0, 0.0, 1.0, 0.0, Positive);
    Orient2DIs(1.0, 1.0, -1.0, 1.0, 0.0, 2.0, Negative);
  }

  /** The orientations the example above reads, part 2. */
  lemma PlanarR1Case10SwappedOrientations2()
    ensures Orient2D(Point2(1.0, 1.0), Point2(0.0, 2.0), Point2(0.0, 1.0)) == Positive
    ensures Orient2D(Point2(0.0, 2.0), Point2(-1.0, 1.0), Point2(0.0, 1.0)) == Positive
  {
    Orient2DIs(1.0, 1.0, 0.0, 2.0, 0.0, 1.0, Positive);
    Orient2DIs(0.0, 2.0, -1.0, 1.0, 0.0, 1.0, Positive);
  }

  /** The orientations the example above reads, part 3. */
  lemma PlanarR1Case10SwappedOrientations3()
    ensures Orient2D(Point2(-1.0, 1.0), Point2(1.0, 1.0), Point2(0.0, 1.0)) == Neutral
  {
    Orient2DIs(-1.0, 1.0, 1.0, 1.0, 0.0, 1.0, Neutral);
  }

  /** test/algorithm/src/triangle_triangle.cpp, Triangle_Triangle_2D_R1, are_intersecting (tr_11, tr). */
  lemma PlanarR1Case11Example()
    ensures TriangleTriangleIntersect(Triangle(Point3(1.0, 1.0, 0.0), Point3(-1.0, 1.5, 0.0), Point3(-1.0, 1.0, 0.0), TriangleSpecies),
      Triangle(Point3(0.0, 1.0, 0.0), Point3(0.0, 0.0, 0.0), Point3(1.0, 0.0, 0.0), TriangleSpecies))
  {
    assert FromPoints(Point3(1.0, 1.0, 0.0), Point3(-1.0, 1.5, 0.0)) == Vector(-2.0, 0.5, 0.0);
    assert FromPoints(Point3(1.0, 1.0, 0.0), Point3(-1.0, 1.0, 0.0)) == Vector(-2.0, 0.0, 0.0);
    assert VectorProduct(Vector(-2.0, 0.5, 0.0), Vector(-2.0, 0.0, 0.0)).z == 1.0;
    GroundCoplanar(Triangle(Point3(1.0, 1.0, 0.0), Point3(-1.0, 1.5, 0.0), Point3(-1.0, 1.0, 0.0), TriangleSpecies),
      Triangle(Point3(0.0, 1.0, 0.0), Point3(0.0, 0.0, 0.0), Point3(1.0, 0.0, 0.0), TriangleSpecies));
    PlanarR1Case11Orientations1();
    PlanarR1Case11Orientations2();
    PlanarR1Case11Orientations3();
    PlanarR1Case11Orientations4();
    PlanarR1Case11Orientations5();
  }

  /** The orientations the example above reads, part 1. */
  lemma PlanarR1Case11Orientations1()
    ensures Orient2D(Point2(1.0, 1.0), Point2(-1.0, 1.5), Point2(-1.0, 1.0)) == Positive
    ensures Orient2D(Point2(0.0, 1.0), Point2(0.0, 0.0), Point2(1.0, 0.0)) == Positive
  {
    Orient2DIs(1.0, 1.0, -1.0, 1.5, -1.0, 1.0, Positive);
    Orient2DIs(0.0, 1.0, 0.0, 0.0, 1.0, 0.0, Positive);
  }

  /** The orientations the example above reads, part 2. */
  lemma PlanarR1Case11Orientations2()
    ensures Orient2D(Point2(0.0, 1.0), Point2(0.0, 0.0), Point2(1.0, 1.0)) == Positive
    ensures Orient2D(Point2(0.0, 0.0), Point2(1.0, 0.0), Point2(1.0, 1.0)) == Positive
  {
    Orient2DIs(0.0, 1.0, 0.0, 0.0, 1.0, 1.0, Positive);
    Orient2DIs(0.0, 0.0, 1.0, 0.0, 1.0, 1.0, Positive);
  }

  /** The orientations the example above reads, part 3. */
  lemma PlanarR1Case11Orientations3()
    ensures Orient2D(Point2(1.0, 0.0), Point2(0.0, 1.0), Point2(1.0, 1.0)) == Negative
    ensures Orient2D(Point2(1.0, 0.0), Point2(0.0, 1.0), Point2(-1.0, 1.5)) == Positive
  {
    Orient2DIs(1.0, 0.0, 0.0, 1.0, 1.0, 1.0, Negative);
    Orient2DIs(1.0, 0.0, 0.0, 1.0, -1.0, 1.5, Positive);
  }

  /** The orientations the example above reads, part 4. */
  lemma PlanarR1Case11Orientations4()
    ensures Orient2D(Point2(1.0, 1.0), Point2(1.0, 0.0), Point2(-1.0, 1.5)) == Negative
    ensures Orient2D(Point2(1.0, 1.0), Point2(0.0, 1.0), Point2(-1.0, 1.5)) == Negative
  {
    Orient2DIs(1.0, 1.0, 1.0, 0.0, -1.0, 1.5, Negative);
    Orient2DIs(1.0, 1.0, 0.0, 1.0, -1.0, 1.5, Negative);
  }

  /** The orientations the example above reads, part 5. */
  lemma PlanarR1Case11Orientations5()
    ensures Orient2D(Point2(1.0, 1.0), Point2(0.0, 1.0), Point2(-1.0, 1.0)) == Neutral
    ensures Orient2D(Point2(-1.0, 1.5), Point2(0.0, 1.0), Point2(-1.0, 1.0)) == Negative
  {
    Orient2DIs(1.0, 1.0, 0.0, 1.0, -1.0, 1.0, Neutral);
    Orient2DIs(-1.0, 1.5, 0.0, 1.0, -1.0, 1.0, Negative);
  }

  /** test/algorithm/src/triangle_triangle.cpp, Triangle_Triangle_2D_R1, are_intersecting (tr, tr_11). */
  lemma PlanarR1Case11SwappedExample()
    ensures TriangleTriangleIntersect(Triangle(Point3(0.0, 1.0, 0.0), Point3(0.0, 0.0, 0.0), Point3(1.0, 0.0, 0.0), TriangleSpecies),
      Triangle(Point3(1.0, 1.0, 0.0), Point3(-1.0, 1.5, 0.0), Point3(-1.0, 1.0, 0.0), TriangleSpecies))
  {
    assert FromPoints(Point3(0.0, 1.0, 0.0), Point3(0.0, 0.0, 0.0)) == Vector(0.0, -1.0, 0.0);
    assert FromPoints(Point3(0.0, 1.0, 0.0), Point3(1.0, 0.0, 0.0)) == Vector(1.0, -1.0, 0.0);
    assert VectorProduct(Vector(0.0, -1.0, 0.0), Vector(1.0, -1.0, 0.0)).z == 1.0;
    GroundCoplanar(Triangle(Point3(0.0, 1.0, 0.0), Point3(0.0, 0.0, 0.0), Point3(1.0, 0.0, 0.0), TriangleSpecies),
      Triangle(Point3(1.0, 1.0, 0.0), Point3(-1.0, 1.5, 0.0), Point3(-1.0, 1.0, 0.0), TriangleSpecies));
    PlanarR1Case11SwappedOrientations1();
    PlanarR1Case11SwappedOrientations2();
    PlanarR1Case11SwappedOrientations3();
  }

  /** The orientations the example above reads, part 1. */
  lemma PlanarR1Case11SwappedOrientations1()
    ensures Orient2D(Point2(0.0, 1.0), Point2(0.0, 0.0), Point2(1.0, 0.0)) == Positive
    ensures Orient2D(Point2(1.0, 1.0), Point2(-1.0, 1.5), Point2(-1.0, 1.0)) == Positive
  {
    Orient2DIs(0.0, 1.0, 0.0, 0.0, 1.0, 0.0, Positive);
    Orient2DIs(1.0, 1.0, -1.0, 1.5, -1.0, 1.0, Positive);
  }

  /** The orientations the example above reads, part 2. */
  lemma PlanarR1Case11SwappedOrientations2()
    ensures Orient2D(Point2(1.0, 1.0), Point2(-1.0, 1.5), Point2(0.0, 1.0)) == Positive
    ensures Orient2D(Point2(-1.0, 1.5), Point2(-1.0, 1.0), Point2(0.0, 1.0)) == Positive
  {
    Orient2DIs(1.0, 1.0, -1.0, 1.5, 0.0, 1.0, Positive);
    Orient2DIs(-1.0, 1.5, -1.0, 1.0, 0.0, 1.0, Positive);
  }

  /** The orientations the example above reads, part 3. */
  lemma PlanarR1Case11SwappedOrientations3()
    ensures Orient2D(Point2(-1.0, 1.0), Point2(1.0, 1.0), Point2(0.0, 1.0)) == Neutral
  {
    Orient2DIs(-1.0, 1.0, 1.0, 1.0, 0.0, 1.0, Neutral);
  }

  /** test/algorithm/src/triangle_triangle.cpp, Triangle_Triangle_2D_R1, are_intersecting (tr_12, tr). */
  lemma PlanarR1Case12Example()
    ensures TriangleTriangleIntersect(Triangle(Point3(1.0, 1.0, 0.0), Point3(-1.0, 1.5, 0.0), Point3(1.0, 0.5, 0.0), TriangleSpecies),
      Triangle(Point3(0.0, 1.0, 0.0), Point3(0.0, 0.0, 0.0), Point3(1.0, 0.0, 0.0), TriangleSpecies))
  {
    assert FromPoints(Point3(1.0, 1.0, 0.0), Point3(-1.0, 1.5, 0.0)) == Vector(-2.0, 0.5, 0.0);
    assert FromPoints(Point3(1.0, 1.0, 0.0), Point3(1.0, 0.5, 0.0)) == Vector(0.0, -0.5, 0.0);
    assert VectorProduct(Vector(-2.0, 0.5, 0.0), Vector(0.0, -0.5, 0.0)).z == 1.0;
    GroundCoplanar(Triangle(Point3(1.0, 1.0, 0.0), Point3(-1.0, 1.5, 0.0), Point3(1.0, 0.5, 0.0), TriangleSpecies),
      Triangle(Point3(0.0, 1.0, 0.0), Point3(0.0, 0.0, 0.0), Point3(1.0, 0.0, 0.0), TriangleSpecies));
    PlanarR1Case12Orientations1();
    PlanarR1Case12Orientations2();
    PlanarR1Case12Orientations3();
    PlanarR1Case12Orientations4();
    PlanarR1Case12Orientations5();
  }

  /** The orientations the example above reads, part 1. */
  lemma PlanarR1Case12Orientations1()
    ensures Orient2D(Point2(1.0, 1.0), Point2(-1.0, 1.5), Point2(1.0, 0.5)) == Positive
    ensures Orient2D(Point2(0.0, 1.0), Point2(0.0, 0.0), Point2(1.0, 0.0)) == Positive
  {
    Orient2DIs(1.0, 1.0, -1.0, 1.5, 1.0, 0.5, Positive);
    Orient2DIs(0.0, 1.0, 0.0, 0.0, 1.0, 0.0, Positive);
  }

  /** The orientations the example above reads, part 2. */
  lemma PlanarR1Case12Orientations2()
    ensures Orient2D(Point2(0.0, 1.0), Point2(0.0, 0.0), Point2(1.0, 1.0)) == Positive
    ensures Orient2D(Point2(0.0, 0.0), Point2(1.0, 0.0), Point2(1.0, 1.0)) == Positive
  {
    Orient2DIs(0.0, 1.0, 0.0, 0.0, 1.0, 1.0, Positive);
    Orient2DIs(0.0, 0.0, 1.0, 0.0, 1.0, 1.0, Positive);
  }

  /** The orientations the example above reads, part 3. */
  lemma PlanarR1Case12Orientations3()
    ensures Orient2D(Point2(1.0, 0.0), Point2(0.0, 1.0), Point2(1.0, 1.0)) == Negative
    ensures Orient2D(Point2(1.0, 0.0), Point2(0.0, 1.0), Point2(-1.0, 1.5)) == Positive
  {
    Orient2DIs(1.0, 0.0, 0.0, 1.0, 1.0, 1.0, Negative);
    Orient2DIs(1.0, 0.0, 0.0, 1.0, -1.0, 1.5, Positive);
  }

  /** The orientations the example above reads, part 4. */
  lemma PlanarR1Case12Orientations4()
    ensures Orient2D(Point2(1.0, 1.0), Point2(1.0, 0.0), Point2(-1.0, 1.5)) == Negative
    ensures Orient2D(Point2(1.0, 1.0), Point2(0.0, 1.0), Point2(-1.0, 1.5)) == Negative
  {
    Orient2DIs(1.0, 1.0, 1.0, 0.0, -1.0, 1.5, Negative);
    Orient2DIs(1.0, 1.0, 0.0, 1.0, -1.0, 1.5, Negative);
  }

  /** The orientations the example above reads, part 5. */
  lemma PlanarR1Case12Orientations5()
    ensures Orient2D(Point2(1.0, 1.0), Point2(0.0, 1.0), Point2(1.0, 0.5)) == Positive
    ensures Orient2D(Point2(-1.0, 1.5), Point2(0.0, 1.0), Point2(1.0, 0.5)) == Neutral
  {
    Orient2DIs(1.0, 1.0, 0.0, 1.0, 1.0, 0.5, Positive);
    Orient2DIs(-1.0, 1.5, 0.0, 1.0, 1.0, 0.5, Neutral);
  }

  /** test/algorithm/src/triangle_triangle.cpp, Triangle_Triangle_2D_R1, are_intersecting (tr, tr_12). */
  lemma PlanarR1Case12SwappedExample()
    ensures TriangleTriangleIntersect(Triangle(Point3(0.0, 1.0, 0.0), Point3(0.0, 0.0, 0.0), Point3(1.0, 0.0, 0.0), TriangleSpecies),
      Triangle(Point3(1.0, 1.0, 0.0), Point3(-1.0, 1.5, 0.0), Point3(1.0, 0.5, 0.0), TriangleSpecies))
  {
    assert FromPoints(Point3(0.0, 1.0, 0.0), Point3(0.0, 0.0, 0.0)) == Vector(0.0, -1.0, 0.0);
    assert FromPoints(Point3(0.0, 1.0, 0.0), Point3(1.0, 0.0, 0.0)) == Vector(1.0, -1.0, 0.0);
    assert VectorProduct(Vector(0.0, -1.0, 0.0), Vector(1.0, -1.0, 0.0)).z == 1.0;
    GroundCoplanar(Triangle(Point3(0.0, 1.0, 0.0), Point3(0.0, 0.0, 0.0), Point3(1.0, 0.0, 0.0), TriangleSpecies),
      Triangle(Point3(1.0, 1.0, 0.0), Point3(-1.0, 1.5, 0.0), Point3(1.0, 0.5, 0.0), TriangleSpecies));
    PlanarR1Case12SwappedOrientations1();
    PlanarR1Case12SwappedOrientations2();
    PlanarR1Case12SwappedOrientations3();
  }

  /** The orientations the example above reads, part 1. */
  lemma PlanarR1Case12SwappedOrientations1()
    ensures Orient2D(Point2(0.0, 1.0), Point2(0.0, 0.0), Point2(1.0, 0.0)) == Positive
    ensures Orient2D(Point2(1.0, 1.0), Point2(-1.0, 1.5), Point2(1.0, 0.5)) == Positive
  {
    Orient2DIs(0.0, 1.0, 0.0, 0.0, 1.0, 0.0, Positive);
    Orient2DIs(1.0, 1.0, -1.0, 1.5, 1.0, 0.5, Positive);
  }

  /** The orientations the example above reads, part 2. */
  lemma PlanarR1Case12SwappedOrientations2()
    ensures Orient2D(Point2(1.0, 1.0), Point2(-1.0, 1.5), Point2(0.0, 1.0)) == Positive
    ensures Orient2D(Point2(-1.0, 1.5), Point2(1.0, 0.5), Point2(0.0, 1.0)) == Neutral
  {
    Orient2DIs(1.0, 1.0, -1.0, 1.5, 0.0, 1.0, Positive);
    Orient2DIs(-1.0, 1.5, 1.0, 0.5, 0.0, 1.0, Neutral);
  }

  /** The orientations the example above reads, part 3. */
  lemma PlanarR1Case12SwappedOrientations3()
    ensures Orient2D(Point2(1.0, 0.5), Point2(1.0, 1.0), Point2(0.0, 1.0)) == Positive
  {
    Orient2DIs(1.0, 0.5, 1.0, 1.0, 0.0, 1.0, Positive);
  }

  /** test/algorithm/src/triangle_triangle.cpp, Triangle_Triangle_2D_R1, are_intersecting (tr_13, tr). */
  lemma PlanarR1Case13Example()
    ensures TriangleTriangleIntersect(Triangle(Point3(1.0, 1.0, 0.0), Point3(-1.0, 1.5, 0.0), Point3(0.0, 1.0, 0.0), TriangleSpecies),
      Triangle(Point3(0.0, 1.0, 0.0), Point3(0.0, 0.0, 0.0), Point3(1.0, 0.0, 0.0), TriangleSpecies))
  {
    assert FromPoints(Point3(1.0, 1.0, 0.0), Point3(-1.0, 1.5, 0.0)) == Vector(-2.0, 0.5, 0.0);
    assert FromPoints(Point3(1.0, 1.0, 0.0), Point3(0.0, 1.0, 0.0)) == Vector(-1.0, 0.0, 0.0);
    assert VectorProduct(Vector(-2.0, 0.5, 0.0), Vector(-1.0, 0.0, 0.0)).z == 0.5;
    GroundCoplanar(Triangle(Point3(1.0, 1.0, 0.0), Point3(-1.0, 1.5, 0.0), Point3(0.0, 1.0, 0.0), TriangleSpecies),
      Triangle(Point3(0.0, 1.0, 0.0), Point3(0.0, 0.0, 0.0), Point3(1.0, 0.0, 0.0), TriangleSpecies));
    PlanarR1Case13Orientations1();
    PlanarR1Case13Orientations2();
    PlanarR1Case13Orientations3();
    PlanarR1Case13Orientations4();
    PlanarR1Case13Orientations5();
  }

  /** The orientations the example above reads, part 1. */
  lemma PlanarR1Case13Orientations1()
    ensures Orient2D(Point2(1.0, 1.0), Point2(-1.0, 1.5), Point2(0.0, 1.0)) == Positive
    ensures Orient2D(Point2(0.0, 1.0), Point2(0.0, 0.0), Point2(1.0, 0.0)) == Positive
  {
    Orient2DIs(1.0, 1.0, -1.0, 1.5, 0.0, 1.0, Positive);
    Orient2DIs(0.0, 1.0, 0.0, 0.0, 1.0, 0.0, Positive);
  }

  /** The orientations the example above reads, part 2. */
  lemma PlanarR1Case13Orientations2()
    ensures Orient2D(Point2(0.0, 1.0), Point2(0.0, 0.0), Point2(1.0, 1.0)) == Positive
    ensures Orient2D(Point2(0.0, 0.0), Point2(1.0, 0.0), Point2(1.0, 1.0)) == Positive
  {
    Orient2DIs(0.0, 1.0, 0.0, 0.0, 1.0, 1.0, Positive);
    Orient2DIs(0.0, 0.0, 1.0, 0.0, 1.0, 1.0, Positive);
  }

  /** The orientations the example above reads, part 3. */
  lemma PlanarR1Case13Orientations3()
    ensures Orient2D(Point2(1.0, 0.0), Point2(0.0, 1.0), Point2(1.0, 1.0)) == Negative
    ensures Orient2D(Point2(1.0, 0.0), Point2(0.0, 1.0), Point2(-1.0, 1.5)) == Positive
  {
    Orient2DIs(1.0, 0.0, 0.0, 1.0, 1.0, 1.0, Negative);
    Orient2DIs(1.0, 0.0, 0.0, 1.0, -1.0, 1.5, Positive);
  }

  /** The orientations the example above reads, part 4. */
  lemma PlanarR1Case13Orientations4()
    ensures Orient2D(Point2(1.0, 1.0), Point2(1.0, 0.0), Point2(-1.0, 1.5)) == Negative
    ensures Orient2D(Point2(1.0, 1.0), Point2(0.0, 1.0), Point2(-1.0, 1.5)) == Negative
  {
    Orient2DIs(1.0, 1.0, 1.0, 0.0, -1.0, 1.5, Negative);
    Orient2DIs(1.0, 1.0, 0.0, 1.0, -1.0, 1.5, Negative);
  }

  /** The orientations the example above reads, part 5. */
  lemma PlanarR1Case13Orientations5()
    ensures Orient2D(Point2(1.0, 1.0), Point2(0.0, 1.0), Point2(0.0, 1.0)) == Neutral
    ensures Orient2D(Point2(-1.0, 1.5), Point2(0.0, 1.0), Point2(0.0, 1.0)) == Neutral
  {
    Orient2DIs(1.0, 1.0, 0.0, 1.0, 0.0, 1.0, Neutral);
    Orient2DIs(-1.0, 1.5, 0.0, 1.0, 0.0, 1.0, Neutral);
  }

  /** test/algorithm/src/triangle_triangle.cpp, Triangle_Triangle_2D_R1, are_intersecting (tr, tr_13). */
  lemma PlanarR1Case13SwappedExample()
    ensures TriangleTriangleIntersect(Triangle(Point3(0.0, 1.0, 0.0), Point3(0.0, 0.0, 0.0), Point3(1.0, 0.0, 0.0), TriangleSpecies),
      Triangle(Point3(1.0, 1.0, 0.0), Point3(-1.0, 1.5, 0.0), Point3(0.0, 1.0, 0.0), TriangleSpecies))
  {
    assert FromPoints(Point3(0.0, 1.0, 0.0), Point3(0.0, 0.0, 0.0)) == Vector(0.0, -1.0, 0.0);
    assert FromPoints(Point3(0.0, 1.0, 0.0), Point3(1.0, 0.0, 0.0)) == Vector(1.0, -1.0, 0.0);
    assert VectorProduct(Vector(0.0, -1.0, 0.0), Vector(1.0, -1.0, 0.0)).z == 1.0;
    GroundCoplanar(Triangle(Point3(0.0, 1.0, 0.0), Point3(0.0, 0.0, 0.0), Point3(1.0, 0.0, 0.0), TriangleSpecies),
      Triangle(Point3(1.0, 1.0, 0.0), Point3(-1.0, 1.5, 0.0), Point3(0.0, 1.0, 0.0), TriangleSpecies));
    PlanarR1Case13SwappedOrientations1();
    PlanarR1Case13SwappedOrientations2();
  }

  /** The orientations the example above reads, part 1. */
  lemma PlanarR1Case13SwappedOrientations1()
    ensures Orient2D(Point2(0.0, 1.0), Point2(0.0, 0.0), Point2(1.0, 0.0)) == Positive
    ensures Orient2D(Point2(1.0, 1.0), Point2(-1.0, 1.5), Point2(0.0, 1.0)) == Positive
  {
    Orient2DIs(0.0, 1.0, 0.0, 0.0, 1.0, 0.0, Positive);
    Orient2DIs(1.0, 1.0, -1.0, 1.5, 0.0, 1.0, Positive);
  }

  /** The orientations the example above reads, part 2. */
  lemma PlanarR1Case13SwappedOrientations2()
    ensures Orient2D(Point2(-1.0, 1.5), Point2(0.0, 1.0), Point2(0.0, 1.0)) == Neutral
    ensures Orient2D(Point2(0.0, 1.0), Point2(1.0, 1.0), Point2(0.0, 1.0)) == Neutral
  {
    Orient2DIs(-1.0, 1.5, 0.0, 1.0, 0.0, 1.0, Neutral);
    Orient2DIs(0.0, 1.0, 1.0, 1.0, 0.0, 1.0, Neutral);
  }

  /** test/algorithm/src/triangle_triangle.cpp, Triangle_Triangle_2D_R1, are_intersecting (tr_14, tr). */
  lemma PlanarR1Case14Example()
    ensures TriangleTriangleIntersect(Triangle(Point3(1.0, 1.0, 0.0), Point3(-1.0, 1.5, 0.0), Point3(0.25, 0.25, 0.0), TriangleSpecies),
      Triangle(Point3(0.0, 1.0, 0.0), Point3(0.0, 0.0, 0.0), Point3(1.0, 0.0, 0.0), TriangleSpecies))
  {
    assert FromPoints(Point3(1.0, 1.0, 0.0), Point3(-1.0, 1.5, 0.0)) == Vector(-2.0, 0.5, 0.0);
    assert FromPoints(Point3(1.0, 1.0, 0.0), Point3(0.25, 0.25, 0.0)) == Vector(-0.75, -0.75, 0.0);
    assert VectorProduct(Vector(-2.0, 0.5, 0.0), Vector(-0.75, -0.75, 0.0)).z == 1.875;
    GroundCoplanar(Triangle(Point3(1.0, 1.0, 0.0), Point3(-1.0, 1.5, 0.0), Point3(0.25, 0.25, 0.0), TriangleSpecies),
      Triangle(Point3(0.0, 1.0, 0.0), Point3(0.0, 0.0, 0.0), Point3(1.0, 0.0, 0.0), TriangleSpecies));
    PlanarR1Case14Orientations1();
    PlanarR1Case14Orientations2();
    PlanarR1Case14Orientations3();
    PlanarR1Case14Orientations4();
    PlanarR1Case14Orientations5();
  }

  /** The orientations the example above reads, part 1. */
  lemma PlanarR1Case14Orientations1()
    ensures Orient2D(Point2(1.0, 1.0), Point2(-1.0, 1.5), Point2(0.25, 0.25)) == Positive
    ensures Orient2D(Point2(0.0, 1.0), Point2(0.0, 0.0), Point2(1.0, 0.0)) == Positive
  {
    Orient2DIs(1.0, 1.0, -1.0, 1.5, 0.25, 0.25, Positive);
    Orient2DIs(0.0, 1.0, 0.0, 0.0, 1.0, 0.0, Positive);
  }

  /** The orientations the example above reads, part 2. */
  lemma PlanarR1Case14Orientations2()
    ensures Orient2D(Point2(0.0, 1.0), Point2(0.0, 0.0), Point2(1.0, 1.0)) == Positive
    ensures Orient2D(Point2(0.0, 0.0), Point2(1.0, 0.0), Point2(1.0, 1.0)) == Positive
  {
    Orient2DIs(0.0, 1.0, 0.0, 0.0, 1.0, 1.0, Positive);
    Orient2DIs(0.0, 0.0, 1.0, 0.0, 1.0, 1.0, Positive);
  }

  /** The orientations the example above reads, part 3. */
  lemma PlanarR1Case14Orientations3()
    ensures Orient2D(Point2(1.0, 0.0), Point2(0.0, 1.0), Point2(1.0, 1.0)) == Negative
    ensures Orient2D(Point2(1.0, 0.0), Point2(0.0, 1.0), Point2(-1.0, 1.5)) == Positive
  {
    Orient2DIs(1.0, 0.0, 0.0, 1.0, 1.0, 1.0, Negative);
    Orient2DIs(1.0, 0.0, 0.0, 1.0, -1.0, 1.5, Positive);
  }

  /** The orientations the example above reads, part 4. */
  lemma PlanarR1Case14Orientations4()
    ensures Orient2D(Point2(1.0, 1.0), Point2(1.0, 0.0), Point2(-1.0, 1.5)) == Negative
    ensures Orient2D(Point2(1.0, 1.0), Point2(0.0, 1.0), Point2(-1.0, 1.5)) == Negative
  {
    Orient2DIs(1.0, 1.0, 1.0, 0.0, -1.0, 1.5, Negative);
    Orient2DIs(1.0, 1.0, 0.0, 1.0, -1.0, 1.5, Negative);
  }

  /** The orientations the example above reads, part 5. */
  lemma PlanarR1Case14Orientations5()
    ensures Orient2D(Point2(1.0, 1.0), Point2(0.0, 1.0), Point2(0.25, 0.25)) == Positive
    ensures Orient2D(Point2(-1.0, 1.5), Point2(0.0, 1.0), Point2(0.25, 0.25)) == Negative
  {
    Orient2DIs(1.0, 1.0, 0.0, 1.0, 0.25, 0.25, Positive);
    Orient2DIs(-1.0, 1.5, 0.0, 1.0, 0.25, 0.25, Negative);
  }

  /** test/algorithm/src/triangle_triangle.cpp, Triangle_Triangle_2D_R1, are_intersecting (tr, tr_14). */
  lemma PlanarR1Case14SwappedExample()
    ensures TriangleTriangleIntersect(Triangle(Point3(0.0, 1.0, 0.0), Point3(0.0, 0.0, 0.0), Point3(1.0, 0.0, 0.0), TriangleSpecies),
      Triangle(Point3(1.0, 1.0, 0.0), Point3(-1.0, 1.5, 0.0), Point3(0.25, 0.25, 0.0), TriangleSpecies))
  {
    assert FromPoints(Point3(0.0, 1.0, 0.0), Point3(0.0, 0.0, 0.0)) == Vector(0.0, -1.0, 0.0);
    assert FromPoints(Point3(0.0, 1.0, 0.0), Point3(1.0, 0.0, 0.0)) == Vector(1.0, -1.0, 0.0);
    assert VectorProduct(Vector(0.0, -1.0, 0.0), Vector(1.0, -1.0, 0.0)).z == 1.0;
    GroundCoplanar(Triangle(Point3(0.0, 1.0, 0.0), Point3(0.0, 0.0, 0.0), Point3(1.0, 0.0, 0.0), TriangleSpecies),
      Triangle(Point3(1.0, 1.0, 0.0), Point3(-1.0, 1.5, 0.0), Point3(0.25, 0.25, 0.0), TriangleSpecies));
    PlanarR1Case14SwappedOrientations1();
    PlanarR1Case14SwappedOrientations2();
    PlanarR1Case14SwappedOrientations3();
  }

  /** The orientations the example above reads, part 1. */
  lemma PlanarR1Case14SwappedOrientations1()
    ensures Orient2D(Point2(0.0, 1.0), Point2(0.0, 0.0), Point2(1.0, 0.0)) == Positive
    ensures Orient2D(Point2(1.0, 1.0), Point2(-1.0, 1.5), Point2(0.25, 0.25)) == Positive
  {
    Orient2DIs(0.0, 1.0, 0.0, 0.0, 1.0, 0.0, Positive);
    Orient2DIs(1.0, 1.0, -1.0, 1.5, 0.25, 0.25, Positive);
  }

  /** The orientations the example above reads, part 2. */
  lemma PlanarR1Case14SwappedOrientations2()
    ensures Orient2D(Point2(1.0, 1.0), Point2(-1.0, 1.5), Point2(0.0, 1.0)) == Positive
    ensures Orient2D(Point2(-1.0, 1.5), Point2(0.25, 0.25), Point2(0.0, 1.0)) == Positive
  {
    Orient2DIs(1.0, 1.0, -1.0, 1.5, 0.0, 1.0, Positive);
    Orient2DIs(-1.0, 1.5, 0.25, 0.25, 0.0, 1.0, Positive);
  }

  /** The orientations the example above reads, part 3. */
  lemma PlanarR1Case14SwappedOrientations3()
    ensures Orient2D(Point2(0.25, 0.25), Point2(1.0, 1.0), Point2(0.0, 1.0)) == Positive
  {
    Orient2DIs(0.25, 0.25, 1.0, 1.0, 0.0, 1.0, Positive);
  }

  /** test/algorithm/src/triangle_triangle.cpp, Triangle_Triangle_2D_R1, are_intersecting (tr_15, tr). */
  lemma PlanarR1Case15Example()
    ensures TriangleTriangleIntersect(Triangle(Point3(1.0, 1.0, 0.0), Point3(-1.0, 1.5, 0.0), Point3(-1.0, -1.0, 0.0), TriangleSpecies),
      Triangle(Point3(0.0, 1.0, 0.0), Point3(0.0, 0.0, 0.0), Point3(1.0, 0.0, 0.0), TriangleSpecies))
  {
    assert FromPoints(Point3(1.0, 1.0, 0.0), Point3(-1.0, 1.5, 0.0)) == Vector(-2.0, 0.5, 0.0);
    assert FromPoints(Point3(1.0, 1.0, 0.0), Point3(-1.0, -1.0, 0.0)) == Vector(-2.0, -2.0, 0.0);
    assert VectorProduct(Vector(-2.0, 0.5, 0.0), Vector(-2.0, -2.0, 0.0)).z == 5.0;
    GroundCoplanar(Triangle(Point3(1.0, 1.0, 0.0), Point3(-1.0, 1.5, 0.0), Point3(-1.0, -1.0, 0.0), TriangleSpecies),
      Triangle(Point3(0.0, 1.0, 0.0), Point3(0.0, 0.0, 0.0), Point3(1.0, 0.0, 0.0), TriangleSpecies));
    PlanarR1Case15Orientations1();
    PlanarR1Case15Orientations2();
    PlanarR1Case15Orientations3();
    PlanarR1Case15Orientations4();
    PlanarR1Case15Orientations5();
  }

  /** The orientations the example above reads, part 1. */
  lemma PlanarR1Case15Orientations1()
    ensures Orient2D(Point2(1.0, 1.0), Point2(-1.0, 1.5), Point2(-1.0, -1.0)) == Positive
    ensures Orient2D(Point2(0.0, 1.0), Point2(0.0, 0.0), Point2(1.0, 0.0)) == Positive
  {
    Orient2DIs(1.0, 1.0, -1.0, 1.5, -1.0, -1.0, Positive);
    Orient2DIs(0.0, 1.0, 0.0, 0.0, 1.0, 0.0, Positive);
  }

  /** The orientations the example above reads, part 2. */
  lemma PlanarR1Case15Orientations2()
    ensures Orient2D(Point2(0.0, 1.0), Point2(0.0, 0.0), Point2(1.0, 1.0)) == Positive
    ensures Orient2D(Point2(0.0, 0.0), Point2(1.0, 0.0), Point2(1.0, 1.0)) == Positive
  {
    Orient2DIs(0.0, 1.0, 0.0, 0.0, 1.0, 1.0, Positive);
    Orient2DIs(0.0, 0.0, 1.0, 0.0, 1.0, 1.0, Positive);
  }

  /** The orientations the example above reads, part 3. */
  lemma PlanarR1Case15Orientations3()
    ensures Orient2D(Point2(1.0, 0.0), Point2(0.0, 1.0), Point2(1.0, 1.0)) == Negative
    ensures Orient2D(Point2(1.0, 0.0), Point2(0.0, 1.0), Point2(-1.0, 1.5)) == Positive
  {
    Orient2DIs(1.0, 0.0, 0.0, 1.0, 1.0, 1.0, Negative);
    Orient2DIs(1.0, 0.0, 0.0, 1.0, -1.0, 1.5, Positive);
  }

  /** The orientations the example above reads, part 4. */
  lemma PlanarR1Case15Orientations4()
    ensures Orient2D(Point2(1.0, 1.0), Point2(1.0, 0.0), Point2(-1.0, 1.5)) == Negative
    ensures Orient2D(Point2(1.0, 1.0), Point2(0.0, 1.0), Point2(-1.0, 1.5)) == Negative
  {
    Orient2DIs(1.0, 1.0, 1.0, 0.0, -1.0, 1.5, Negative);
    Orient2DIs(1.0, 1.0, 0.0, 1.0, -1.0, 1.5, Negative);
  }

  /** The orientations the example above reads, part 5. */
  lemma PlanarR1Case15Orientations5()
    ensures Orient2D(Point2(1.0, 1.0), Point2(0.0, 1.0), Point2(-1.0, -1.0)) == Positive
    ensures Orient2D(Point2(-1.0, 1.5), Point2(0.0, 1.0), Point2(-1.0, -1.0)) == Negative
  {
    Orient2DIs(1.0, 1.0, 0.0, 1.0, -1.0, -1.0, Positive);
    Orient2DIs(-1.0, 1.5, 0.0, 1.0, -1.0, -1.0, Negative);
  }

  /** test/algorithm/src/triangle_triangle.cpp, Triangle_Triangle_2D_R1, are_intersecting (tr, tr_15). */
  lemma PlanarR1Case15SwappedExample()
    ensures TriangleTriangleIntersect(Triangle(Point3(0.0, 1.0, 0.0), Point3(0.0, 0.0, 0.0), Point3(1.0, 0.0, 0.0), TriangleSpecies),
      Triangle(Point3(1.0, 1.0, 0.0), Point3(-1.0, 1.5, 0.0), Point3(-1.0, -1.0, 0.0), TriangleSpecies))
  {
    assert FromPoints(Point3(0.0, 1.0, 0.0), Point3(0.0, 0.0, 0.0)) == Vector(0.0, -1.0, 0.0);
    assert FromPoints(Point3(0.0, 1.0, 0.0), Point3(1.0, 0.0, 0.0)) == Vector(1.0, -1.0, 0.0);
    assert VectorProduct(Vector(0.0, -1.0, 0.0), Vector(1.0, -1.0, 0.0)).z == 1.0;
    GroundCoplanar(Triangle(Point3(0.0, 1.0, 0.0), Point3(0.0, 0.0, 0.0), Point3(1.0, 0.0, 0.0), TriangleSpecies),
      Triangle(Point3(1.0, 1.0, 0.0), Point3(-1.0, 1.5, 0.0), Point3(-1.0, -1.0, 0.0), TriangleSpecies));
    PlanarR1Case15SwappedOrientations1();
    PlanarR1Case15SwappedOrientations2();
    PlanarR1Case15SwappedOrientations3();
  }

  /** The orientations the example above reads, part 1. */
  lemma PlanarR1Case15SwappedOrientations1()
    ensures Orient2D(Point2(0.0, 1.0), Point2(0.0, 0.0), Point2(1.0, 0.0)) == Positive
    ensures Orient2D(Point2(1.0, 1.0), Point2(-1.0, 1.5), Point2(-1.0, -1.0)) == Positive
  {
    Orient2DIs(0.0, 1.0, 0.0, 0.0, 1.0, 0.0, Positive);
    Orient2DIs(1.0, 1.0, -1.0, 1.5, -1.0, -1.0, Positive);
  }

  /** The orientations the example above reads, part 2. */
  lemma PlanarR1Case15SwappedOrientations2()
    ensures Orient2D(Point2(1.0, 1.0), Point2(-1.0, 1.5), Point2(0.0, 1.0)) == Positive
    ensures Orient2D(Point2(-1.0, 1.5), Point2(-1.0, -1.0), Point2(0.0, 1.0)) == Positive
  {
    Orient2DIs(1.0, 1.0, -1.0, 1.5, 0.0, 1.0, Positive);
    Orient2DIs(-1.0, 1.5, -1.0, -1.0, 0.0, 1.0, Positive);
  }

  /** The orientations the example above reads, part 3. */
  lemma PlanarR1Case15SwappedOrientations3()
    ensures Orient2D(Point2(-1.0, -1.0), Point2(1.0, 1.0), Point2(0.0, 1.0)) == Positive
  {
    Orient2DIs(-1.0, -1.0, 1.0, 1.0, 0.0, 1.0, Positive);
  }

  /** test/algorithm/src/triangle_triangle.cpp, Triangle_Triangle_2D_R1, are_intersecting (tr_16, tr). */
  lemma PlanarR1Case16Example()
    ensures !TriangleTriangleIntersect(Triangle(Point3(1.0, 1.0, 0.0), Point3(-1.0, 1.5, 0.0), Point3(-1.0, 1.25, 0.0), TriangleSpecies),
      Triangle(Point3(0.0, 1.0, 0.0), Point3(0.0, 0.0, 0.0), Point3(1.0, 0.0, 0.0), TriangleSpecies))
  {
    assert FromPoints(Point3(1.0, 1.0, 0.0), Point3(-1.0, 1.5, 0.0)) == Vector(-2.0, 0.5, 0.0);
    assert FromPoints(Point3(1.0, 1.0, 0.0), Point3(-1.0, 1.25, 0.0)) == Vector(-2.0, 0.25, 0.0);
    assert VectorProduct(Vector(-2.0, 0.5, 0.0), Vector(-2.0, 0.25, 0.0)).z == 0.5;
    GroundCoplanar(Triangle(Point3(1.0, 1.0, 0.0), Point3(-1.0, 1.5, 0.0), Point3(-1.0, 1.25, 0.0), TriangleSpecies),
      Triangle(Point3(0.0, 1.0, 0.0), Point3(0.0, 0.0, 0.0), Point3(1.0, 0.0, 0.0), TriangleSpecies));
    PlanarR1Case16Orientations1();
    PlanarR1Case16Orientations2();
    PlanarR1Case16Orientations3();
    PlanarR1Case16Orientations4();
    PlanarR1Case16Orientations5();
  }

  /** The orientations the example above reads, part 1. */
  lemma PlanarR1Case16Orientations1()
    ensures Orient2D(Point2(1.0, 1.0), Point2(-1.0, 1.5), Point2(-1.0, 1.25)) == Positive
    ensures Orient2D(Point2(0.0, 1.0), Point2(0.0, 0.0), Point2(1.0, 0.0)) == Positive
  {
    Orient2DIs(1.0, 1.0, -1.0, 1.5, -1.0, 1.25, Positive);
    Orient2DIs(0.0, 1.0, 0.0, 0.0, 1.0, 0.0, Positive);
  }

  /** The orientations the example above reads, part 2. */
  lemma PlanarR1Case16Orientations2()
    ensures Orient2D(Point2(0.0, 1.0), Point2(0.0, 0.0), Point2(1.0, 1.0)) == Positive
    ensures Orient2D(Point2(0.0, 0.0), Point2(1.0, 0.0), Point2(1.0, 1.0)) == Positive
  {
    Orient2DIs(0.0, 1.0, 0.0, 0.0, 1.0, 1.0, Positive);
    Orient2DIs(0.0, 0.0, 1.0, 0.0, 1.0, 1.0, Positive);
  }

  /** The orientations the example above reads, part 3. */
  lemma PlanarR1Case16Orientations3()
    ensures Orient2D(Point2(1.0, 0.0), Point2(0.0, 1.0), Point2(1.0, 1.0)) == Negative
    ensures Orient2D(Point2(1.0, 0.0), Point2(0.0, 1.0), Point2(-1.0, 1.5)) == Positive
  {
    Orient2DIs(1.0, 0.0, 0.0, 1.0, 1.0, 1.0, Negative);
    Orient2DIs(1.0, 0.0, 0.0, 1.0, -1.0, 1.5, Positive);
  }

  /** The orientations the example above reads, part 4. */
  lemma PlanarR1Case16Orientations4()
    ensures Orient2D(Point2(1.0, 1.0), Point2(1.0, 0.0), Point2(-1.0, 1.5)) == Negative
    ensures Orient2D(Point2(1.0, 1.0), Point2(0.0, 1.0), Point2(-1.0, 1.5)) == Negative
  {
    Orient2DIs(1.0, 1.0, 1.0, 0.0, -1.0, 1.5, Negative);
    Orient2DIs(1.0, 1.0, 0.0, 1.0, -1.0, 1.5, Negative);
  }

  /** The orientations the example above reads, part 5. */
  lemma PlanarR1Case16Orientations5()
    ensures Orient2D(Point2(1.0, 1.0), Point2(0.0, 1.0), Point2(-1.0, 1.25)) == Negative
  {
    Orient2DIs(1.0, 1.0, 0.0, 1.0, -1.0, 1.25, Negative);
  }

  /** test/algorithm/src/triangle_triangle.cpp, Triangle_Triangle_2D_R1, are_intersecting (tr, tr_16). */
  lemma PlanarR1Case16SwappedExample()
    ensures !TriangleTriangleIntersect(Triangle(Point3(0.0, 1.0, 0.0), Point3(0.0, 0.0, 0.0), Point3(1.0, 0.0, 0.0), TriangleSpecies),
      Triangle(Point3(1.0, 1.0, 0.0), Point3(-1.0, 1.5, 0.0), Point3(-1.0, 1.25, 0.0), TriangleSpecies))
  {
    assert FromPoints(Point3(0.0, 1.0, 0.0), Point3(0.0, 0.0, 0.0)) == Vector(0.0, -1.0, 0.0);
    assert FromPoints(Point3(0.0, 1.0, 0.0), Point3(1.0, 0.0, 0.0)) == Vector(1.0, -1.0, 0.0);
    assert VectorProduct(Vector(0.0, -1.0, 0.0), Vector(1.0, -1.0, 0.0)).z == 1.0;
    GroundCoplanar(Triangle(Point3(0.0, 1.0, 0.0), Point3(0.0, 0.0, 0.0), Point3(1.0, 0.0, 0.0), TriangleSpecies),
      Triangle(Point3(1.0, 1.0, 0.0), Point3(-1.0, 1.5, 0.0), Point3(-1.0, 1.25, 0.0), TriangleSpecies));
    PlanarR1Case16SwappedOrientations1();
    PlanarR1Case16SwappedOrientations2();
    PlanarR1Case16SwappedOrientations3();
    PlanarR1Case16SwappedOrientations4();
  }

  /** The orientations the example above reads, part 1. */
  lemma PlanarR1Case16SwappedOrientations1()
    ensures Orient2D(Point2(0.0, 1.0), Point2(0.0, 0.0), Point2(1.0, 0.0)) == Positive
    ensures Orient2D(Point2(1.0, 1.0), Point2(-1.0, 1.5), Point2(-1.0, 1.25)) == Positive
  {
    Orient2DIs(0.0, 1.0, 0.0, 0.0, 1.0, 0.0, Positive);
    Orient2DIs(1.0, 1.0, -1.0, 1.5, -1.0, 1.25, Positive);
  }

  /** The orientations the example above reads, part 2. */
  lemma PlanarR1Case16SwappedOrientations2()
    ensures Orient2D(Point2(1.0, 1.0), Point2(-1.0, 1.5), Point2(0.0, 1.0)) == Positive
    ensures Orient2D(Point2(-1.0, 1.5), Point2(-1.0, 1.25), Point2(0.0, 1.0)) == Positive
  {
    Orient2DIs(1.0, 1.0, -1.0, 1.5, 0.0, 1.0, Positive);
    Orient2DIs(-1.0, 1.5, -1.0, 1.25, 0.0, 1.0, Positive);
  }

  /** The orientations the example above reads, part 3. */
  lemma PlanarR1Case16SwappedOrientations3()
    ensures Orient2D(Point2(-1.0, 1.25), Point2(1.0, 1.0), Point2(0.0, 1.0)) == Negative
    ensures Orient2D(Point2(-1.0, 1.25), Point2(1.0, 1.0), Point2(0.0, 0.0)) == Negative
  {
    Orient2DIs(-1.0, 1.25, 1.0, 1.0, 0.0, 1.0, Negative);
    Orient2DIs(-1.0, 1.25, 1.0, 1.0, 0.0, 0.0, Negative);
  }

  /** The orientations the example above reads, part 4. */
  lemma PlanarR1Case16SwappedOrientations4()
    ensures Orient2D(Point2(-1.0, 1.25), Point2(1.0, 1.0), Point2(1.0, 0.0)) == Negative
  {
    Orient2DIs(-1.0, 1.25, 1.0, 1.0, 1.0, 0.0, Negative);
  }

  /** test/algorithm/src/triangle_triangle.cpp, Triangle_Triangle_2D_R1, are_intersecting (tr_17, tr). */
  lemma PlanarR1Case17Example()
    ensures !TriangleTriangleIntersect(Triangle(Point3(1.0, 1.0, 0.0), Point3(-1.0, 1.5, 0.0), Point3(1.0, 0.75, 0.0), TriangleSpecies),
      Triangle(Point3(0.0, 1.0, 0.0), Point3(0.0, 0.0, 0.0), Point3(1.0, 0.0, 0.0), TriangleSpecies))
  {
    assert FromPoints(Point3(1.0, 1.0, 0.0), Point3(-1.0, 1.5, 0.0)) == Vector(-2.0, 0.5, 0.0);
    assert FromPoints(Point3(1.0, 1.0, 0.0), Point3(1.0, 0.75, 0.0)) == Vector(0.0, -0.25, 0.0);
    assert VectorProduct(Vector(-2.0, 0.5, 0.0), Vector(0.0, -0.25, 0.0)).z == 0.5;
    GroundCoplanar(Triangle(Point3(1.0, 1.0, 0.0), Point3(-1.0, 1.5, 0.0), Point3(1.0, 0.75, 0.0), TriangleSpecies),
      Triangle(Point3(0.0, 1.0, 0.0), Point3(0.0, 0.0, 0.0), Point3(1.0, 0.0, 0.0), TriangleSpecies));
    PlanarR1Case17Orientations1();
    PlanarR1Case17Orientations2();
    PlanarR1Case17Orientations3();
    PlanarR1Case17Orientations4();
    PlanarR1Case17Orientations5();
  }

  /** The orientations the example above reads, part 1. */
  lemma PlanarR1Case17Orientations1()
    ensures Orient2D(Point2(1.0, 1.0), Point2(-1.0, 1.5), Point2(1.0, 0.75)) == Positive
    ensures Orient2D(Point2(0.0, 1.0), Point2(0.0, 0.0), Point2(1.0, 0.0)) == Positive
  {
    Orient2DIs(1.0, 1.0, -1.0, 1.5, 1.0, 0.75, Positive);
    Orient2DIs(0.0, 1.0, 0.0, 0.0, 1.0, 0.0, Positive);
  }

  /** The orientations the example above reads, part 2. */
  lemma PlanarR1Case17Orientations2()
    ensures Orient2D(Point2(0.0, 1.0), Point2(0.0, 0.0), Point2(1.0, 1.0)) == Positive
    ensures Orient2D(Point2(0.0, 0.0), Point2(1.0, 0.0), Point2(1.0, 1.0)) == Positive
  {
    Orient2DIs(0.0, 1.0, 0.0, 0.0, 1.0, 1.0, Positive);
    Orient2DIs(0.0, 0.0, 1.0, 0.0, 1.0, 1.0, Positive);
  }

  /** The orientations the example above reads, part 3. */
  lemma PlanarR1Case17Orientations3()
    ensures Orient2D(Point2(1.0, 0.0), Point2(0.0, 1.0), Point2(1.0, 1.0)) == Negative
    ensures Orient2D(Point2(1.0, 0.0), Point2(0.0, 1.0), Point2(-1.0, 1.5)) == Positive
  {
    Orient2DIs(1.0, 0.0, 0.0, 1.0, 1.0, 1.0, Negative);
    Orient2DIs(1.0, 0.0, 0.0, 1.0, -1.0, 1.5, Positive);
  }

  /** The orientations the example above reads, part 4. */
  lemma PlanarR1Case17Orientations4()
    ensures Orient2D(Point2(1.0, 1.0), Point2(1.0, 0.0), Point2(-1.0, 1.5)) == Negative
    ensures Orient2D(Point2(1.0, 1.0), Point2(0.0, 1.0), Point2(-1.0, 1.5)) == Negative
  {
    Orient2DIs(1.0, 1.0, 1.0, 0.0, -1.0, 1.5, Negative);
    Orient2DIs(1.0, 1.0, 0.0, 1.0, -1.0, 1.5, Negative);
  }

  /** The orientations the example above reads, part 5. */
  lemma PlanarR1Case17Orientations5()
    ensures Orient2D(Point2(1.0, 1.0), Point2(0.0, 1.0), Point2(1.0, 0.75)) == Positive
    ensures Orient2D(Point2(-1.0, 1.5), Point2(0.0, 1.0), Point2(1.0, 0.75)) == Positive
  {
    Orient2DIs(1.0, 1.0, 0.0, 1.0, 1.0, 0.75, Positive);
    Orient2DIs(-1.0, 1.5, 0.0, 1.0, 1.0, 0.75, Positive);
  }

  /** test/algorithm/src/triangle_triangle.cpp, Triangle_Triangle_2D_R1, are_intersecting (tr, tr_17). */
  lemma PlanarR1Case17SwappedExample()
    ensures !TriangleTriangleIntersect(Triangle(Point3(0.0, 1.0, 0.0), Point3(0.0, 0.0, 0.0), Point3(1.0, 0.0, 0.0), TriangleSpecies),
      Triangle(Point3(1.0, 1.0, 0.0), Point3(-1.0, 1.5, 0.0), Point3(1.0, 0.75, 0.0), TriangleSpecies))
  {
    assert FromPoints(Point3(0.0, 1.0, 0.0), Point3(0.0, 0.0, 0.0)) == Vector(0.0, -1.0, 0.0);
    assert FromPoints(Point3(0.0, 1.0, 0.0), Point3(1.0, 0.0, 0.0)) == Vector(1.0, -1.0, 0.0);
    assert VectorProduct(Vector(0.0, -1.0, 0.0), Vector(1.0, -1.0, 0.0)).z == 1.0;
    GroundCoplanar(Triangle(Point3(0.0, 1.0, 0.0), Point3(0.0, 0.0, 0.0), Point3(1.0, 0.0, 0.0), TriangleSpecies),
      Triangle(Point3(1.0, 1.0, 0.0), Point3(-1.0, 1.5, 0.0), Point3(1.0, 0.75, 0.0), TriangleSpecies));
    PlanarR1Case17SwappedOrientations1();
    PlanarR1Case17SwappedOrientations2();
    PlanarR1Case17SwappedOrientations3();
    PlanarR1Case17SwappedOrientations4();
  }

  /** The orientations the example above reads, part 1. */
  lemma PlanarR1Case17SwappedOrientations1()
    ensures Orient2D(Point2(0.0, 1.0), Point2(0.0, 0.0), Point2(1.0, 0.0)) == Positive
    ensures Orient2D(Point2(1.0, 1.0), Point2(-1.0, 1.5), Point2(1.0, 0.75)) == Positive
  {
    Orient2DIs(0.0, 1.0, 0.0, 0.0, 1.0, 0.0, Positive);
    Orient2DIs(1.0, 1.0, -1.0, 1.5, 1.0, 0.75, Positive);
  }

  /** The orientations the example above reads, part 2. */
  lemma PlanarR1Case17SwappedOrientations2()
    ensures Orient2D(Point2(1.0, 1.0), Point2(-1.0, 1.5), Point2(0.0, 1.0)) == Positive
    ensures Orient2D(Point2(-1.0, 1.5), Point2(1.0, 0.75), Point2(0.0, 1.0)) == Negative
  {
    Orient2DIs(1.0, 1.0, -1.0, 1.5, 0.0, 1.0, Positive);
    Orient2DIs(-1.0, 1.5, 1.0, 0.75, 0.0, 1.0, Negative);
  }

  /** The orientations the example above reads, part 3. */
  lemma PlanarR1Case17SwappedOrientations3()
    ensures Orient2D(Point2(1.0, 0.75), Point2(1.0, 1.0), Point2(0.0, 1.0)) == Positive
    ensures Orient2D(Point2(-1.0, 1.5), Point2(1.0, 0.75), Point2(0.0, 0.0)) == Negative
  {
    Orient2DIs(1.0, 0.75, 1.0, 1.0, 0.0, 1.0, Positive);
    Orient2DIs(-1.0, 1.5, 1.0, 0.75, 0.0, 0.0, Negative);
  }

  /** The orientations the example above reads, part 4. */
  lemma PlanarR1Case17SwappedOrientations4()
    ensures Orient2D(Point2(-1.0, 1.5), Point2(1.0, 0.75), Point2(1.0, 0.0)) == Negative
  {
    Orient2DIs(-1.0, 1.5, 1.0, 0.75, 1.0, 0.0, Negative);
  }

  /** test/algorithm/src/triangle_triangle.cpp, Triangle_Triangle_2D_R21, are_intersecting (tr_1, tr). */
  lemma PlanarR21Case1Example()
    ensures !TriangleTriangleIntersect(Triangle(Point3(2.0, -0.5, 0.0), Point3(2.0, -0.25, 0.0), Point3(1.0, 1.0, 0.0), TriangleSpecies),
      Triangle(Point3(0.0, 1.0, 0.0), Point3(0.0, 0.0, 0.0), Point3(1.0, 0.0, 0.0), TriangleSpecies))
  {
    assert FromPoints(Point3(2.0, -0.5, 0.0), Point3(2.0, -0.25, 0.0)) == Vector(0.0, 0.25, 0.0);
    assert FromPoints(Point3(2.0, -0.5, 0.0), Point3(1.0, 1.0, 0.0)) == Vector(-1.0, 1.5, 0.0);
    assert VectorProduct(Vector(0.0, 0.25, 0.0), Vector(-1.0, 1.5, 0.0)).z == 0.25;
    GroundCoplanar(Triangle(Point3(2.0, -0.5, 0.0), Point3(2.0, -0.25, 0.0), Point3(1.0, 1.0, 0.0), TriangleSpecies),
      Triangle(Point3(0.0, 1.0, 0.0), Point3(0.0, 0.0, 0.0), Point3(1.0, 0.0, 0.0), TriangleSpecies));
    PlanarR21Case1Orientations1();
    PlanarR21Case1Orientations2();
    PlanarR21Case1Orientations3();
    PlanarR21Case1Orientations4();
  }

  /** The orientations the example above reads, part 1. */
  lemma PlanarR21Case1Orientations1()
    ensures Orient2D(Point2(2.0, -0.5), Point2(2.0, -0.25), Point2(1.0, 1.0)) == Positive
    ensures Orient2D(Point2(0.0, 1.0), Point2(0.0, 0.0), Point2(1.0, 0.0)) == Positive
  {
    Orient2DIs(2.0, -0.5, 2.0, -0.25, 1.0, 1.0, Positive);
    Orient2DIs(0.0, 1.0, 0.0, 0.0, 1.0, 0.0, Positive);
  }

  /** The orientations the example above reads, part 2. */
  lemma PlanarR21Case1Orientations2()
    ensures Orient2D(Point2(0.0, 1.0), Point2(0.0, 0.0), Point2(2.0, -0.5)) == Positive
    ensures Orient2D(Point2(0.0, 0.0), Point2(1.0, 0.0), Point2(2.0, -0.5)) == Negative
  {
    Orient2DIs(0.0, 1.0, 0.0, 0.0, 2.0, -0.5, Positive);
    Orient2DIs(0.0, 0.0, 1.0, 0.0, 2.0, -0.5, Negative);
  }

  /** The orientations the example above reads, part 3. */
  lemma PlanarR21Case1Orientations3()
    ensures Orient2D(Point2(1.0, 0.0), Point2(0.0, 1.0), Point2(2.0, -0.5)) == Negative
    ensures Orient2D(Point2(1.0, 0.0), Point2(0.0, 1.0), Point2(2.0, -0.25)) == Negative
  {
    Orient2DIs(1.0, 0.0, 0.0, 1.0, 2.0, -0.5, Negative);
    Orient2DIs(1.0, 0.0, 0.0, 1.0, 2.0, -0.25, Negative);
  }

  /** The orientations the example above reads, part 4. */
  lemma PlanarR21Case1Orientations4()
    ensures Orient2D(Point2(1.0, 0.0), Point2(0.0, 1.0), Point2(1.0, 1.0)) == Negative
  {
    Orient2DIs(1.0, 0.0, 0.0, 1.0, 1.0, 1.0, Negative);
  }

  /** test/algorithm/src/triangle_triangle.cpp, Triangle_Triangle_2D_R21, are_intersecting (tr, tr_1). */
  lemma PlanarR21Case1SwappedExample()
    ensures !TriangleTriangleIntersect(Triangle(Point3(0.0, 1.0, 0.0), Point3(0.0, 0.0, 0.0), Point3(1.0, 0.0, 0.0), TriangleSpecies),
      Triangle(Point3(2.0, -0.5, 0.0), Point3(2.0, -0.25, 0.0), Point3(1.0, 1.0, 0.0), TriangleSpecies))
  {
    assert FromPoints(Point3(0.0, 1.0, 0.0), Point3(0.0, 0.0, 0.0)) == Vector(0.0, -1.0, 0.0);
    assert FromPoints(Point3(0.0, 1.0, 0.0), Point3(1.0, 0.0, 0.0)) == Vector(1.0, -1.0, 0.0);
    assert VectorProduct(Vector(0.0, -1.0, 0.0), Vector(1.0, -1.0, 0.0)).z == 1.0;
    GroundCoplanar(Triangle(Point3(0.0, 1.0, 0.0), Point3(0.0, 0.0, 0.0), Point3(1.0, 0.0, 0.0), TriangleSpecies),
      Triangle(Point3(2.0, -0.5, 0.0), Point3(2.0, -0.25, 0.0), Point3(1.0, 1.0, 0.0), TriangleSpecies));
    PlanarR21Case1SwappedOrientations1();
    PlanarR21Case1SwappedOrientations2();
    PlanarR21Case1SwappedOrientations3();
    PlanarR21Case1SwappedOrientations4();
  }

  /** The orientations the example above reads, part 1. */
  lemma PlanarR21Case1SwappedOrientations1()
    ensures Orient2D(Point2(0.0, 1.0), Point2(0.0, 0.0), Point2(1.0, 0.0)) == Positive
    ensures Orient2D(Point2(2.0, -0.5), Point2(2.0, -0.25), Point2(1.0, 1.0)) == Positive
  {
    Orient2DIs(0.0, 1.0, 0.0, 0.0, 1.0, 0.0, Positive);
    Orient2DIs(2.0, -0.5, 2.0, -0.25, 1.0, 1.0, Positive);
  }

  /** The orientations the example above reads, part 2. */
  lemma PlanarR21Case1SwappedOrientations2()
    ensures Orient2D(Point2(2.0, -0.5), Point2(2.0, -0.25), Point2(0.0, 1.0)) == Positive
    ensures Orient2D(Point2(2.0, -0.25), Point2(1.0, 1.0), Point2(0.0, 1.0)) == Positive
  {
    Orient2DIs(2.0, -0.5, 2.0, -0.25, 0.0, 1.0, Positive);
    Orient2DIs(2.0, -0.25, 1.0, 1.0, 0.0, 1.0, Positive);
  }

  /** The orientations the example above reads, part 3. */
  lemma PlanarR21Case1SwappedOrientations3()
    ensures Orient2D(Point2(1.0, 1.0), Point2(2.0, -0.5), Point2(0.0, 1.0)) == Negative
    ensures Orient2D(Point2(1.0, 1.0), Point2(2.0, -0.5), Point2(0.0, 0.0)) == Negative
  {
    Orient2DIs(1.0, 1.0, 2.0, -0.5, 0.0, 1.0, Negative);
    Orient2DIs(1.0, 1.0, 2.0, -0.5, 0.0, 0.0, Negative);
  }

  /** The orientations the example above reads, part 4. */
  lemma PlanarR21Case1SwappedOrientations4()
    ensures Orient2D(Point2(1.0, 1.0), Point2(2.0, -0.5), Point2(1.0, 0.0)) == Negative
  {
    Orient2DIs(1.0, 1.0, 2.0, -0.5, 1.0, 0.0, Negative);
  }

  /** test/algorithm/src/triangle_triangle.cpp, Triangle_Triangle_2D_R21, are_intersecting (tr_2, tr). */
  lemma PlanarR21Case2Example()
    ensures !TriangleTriangleIntersect(Triangle(Point3(2.0, -0.5, 0.0), Point3(2.0, -0.25, 0.0), Point3(-1.0, 2.0, 0.0), TriangleSpecies),
      Triangle(Point3(0.0, 1.0, 0.0), Point3(0.0, 0.0, 0.0), Point3(1.0, 0.0, 0.0), TriangleSpecies))
  {
    assert FromPoints(Point3(2.0, -0.5, 0.0), Point3(2.0, -0.25, 0.0)) == Vector(0.0, 0.25, 0.0);
    assert FromPoints(Point3(2.0, -0.5, 0.0), Point3(-1.0, 2.0, 0.0)) == Vector(-3.0, 2.5, 0.0);
    assert VectorProduct(Vector(0.0, 0.25, 0.0), Vector(-3.0, 2.5, 0.0)).z == 0.75;
    GroundCoplanar(Triangle(Point3(2.0, -0.5, 0.0), Point3(2.0, -0.25, 0.0), Point3(-1.0, 2.0, 0.0), TriangleSpecies),
      Triangle(Point3(0.0, 1.0, 0.0), Point3(0.0, 0.0, 0.0), Point3(1.0, 0.0, 0.0), TriangleSpecies));
    PlanarR21Case2Orientations1();
    PlanarR21Case2Orientations2();
    PlanarR21Case2Orientations3();
    PlanarR21Case2Orientations4();
    PlanarR21Case2Orientations5();
  }

  /** The orientations the example above reads, part 1. */
  lemma PlanarR21Case2Orientations1()
    ensures Orient2D(Point2(2.0, -0.5), Point2(2.0, -0.25), Point2(-1.0, 2.0)) == Positive
    ensures Orient2D(Point2(0.0, 1.0), Point2(0.0, 0.0), Point2(1.0, 0.0)) == Positive
  {
    Orient2DIs(2.0, -0.5, 2.0, -0.25, -1.0, 2.0, Positive);
    Orient2DIs(0.0, 1.0, 0.0, 0.0, 1.0, 0.0, Positive);
  }

  /** The orientations the example above reads, part 2. */
  lemma PlanarR21Case2Orientations2()
    ensures Orient2D(Point2(0.0, 1.0), Point2(0.0, 0.0), Point2(2.0, -0.5)) == Positive
    ensures Orient2D(Point2(0.0, 0.0), Point2(1.0, 0.0), Point2(2.0, -0.5)) == Negative
  {
    Orient2DIs(0.0, 1.0, 0.0, 0.0, 2.0, -0.5, Positive);
    Orient2DIs(0.0, 0.0, 1.0, 0.0, 2.0, -0.5, Negative);
  }

  /** The orientations the example above reads, part 3. */
  lemma PlanarR21Case2Orientations3()
    ensures Orient2D(Point2(1.0, 0.0), Point2(0.0, 1.0), Point2(2.0, -0.5)) == Negative
    ensures Orient2D(Point2(1.0, 0.0), Point2(0.0, 1.0), Point2(2.0, -0.25)) == Negative
  {
    Orient2DIs(1.0, 0.0, 0.0, 1.0, 2.0, -0.5, Negative);
    Orient2DIs(1.0, 0.0, 0.0, 1.0, 2.0, -0.25, Negative);
  }

  /** The orientations the example above reads, part 4. */
  lemma PlanarR21Case2Orientations4()
    ensures Orient2D(Point2(1.0, 0.0), Point2(0.0, 1.0), Point2(-1.0, 2.0)) == Neutral
    ensures Orient2D(Point2(1.0, 0.0), Point2(2.0, -0.25), Point2(-1.0, 2.0)) == Positive
  {
    Orient2DIs(1.0, 0.0, 0.0, 1.0, -1.0, 2.0, Neutral);
    Orient2DIs(1.0, 0.0, 2.0, -0.25, -1.0, 2.0, Positive);
  }

  /** The orientations the example above reads, part 5. */
  lemma PlanarR21Case2Orientations5()
    ensures Orient2D(Point2(2.0, -0.5), Point2(0.0, 1.0), Point2(-1.0, 2.0)) == Negative
  {
    Orient2DIs(2.0, -0.5, 0.0, 1.0, -1.0, 2.0, Negative);
  }

  /** test/algorithm/src/triangle_triangle.cpp, Triangle_Triangle_2D_R21, are_intersecting (tr, tr_2). */
  lemma PlanarR21Case2SwappedExample()
    ensures !TriangleTriangleIntersect(Triangle(Point3(0.0, 1.0, 0.0), Point3(0.0, 0.0, 0.0), Point3(1.0, 0.0, 0.0), TriangleSpecies),
      Triangle(Point3(2.0, -0.5, 0.0), Point3(2.0, -0.25, 0.0), Point3(-1.0, 2.0, 0.0), TriangleSpecies))
  {
    assert FromPoints(Point3(0.0, 1.0, 0.0), Point3(0.0, 0.0, 0.0)) == Vector(0.0, -1.0, 0.0);
    assert FromPoints(Point3(0.0, 1.0, 0.0), Point3(1.0, 0.0, 0.0)) == Vector(1.0, -1.0, 0.0);
    assert VectorProduct(Vector(0.0, -1.0, 0.0), Vector(1.0, -1.0, 0.0)).z == 1.0;
    GroundCoplanar(Triangle(Point3(0.0, 1.0, 0.0), Point3(0.0, 0.0, 0.0), Point3(1.0, 0.0, 0.0), TriangleSpecies),
      Triangle(Point3(2.0, -0.5, 0.0), Point3(2.0, -0.25, 0.0), Point3(-1.0, 2.0, 0.0), TriangleSpecies));
    PlanarR21Case2SwappedOrientations1();
    PlanarR21Case2SwappedOrientations2();
    PlanarR21Case2SwappedOrientations3();
    PlanarR21Case2SwappedOrientations4();
  }

  /** The orientations the example above reads, part 1. */
  lemma PlanarR21Case2SwappedOrientations1()
    ensures Orient2D(Point2(0.0, 1.0), Point2(0.0, 0.0), Point2(1.0, 0.0)) == Positive
    ensures Orient2D(Point2(2.0, -0.5), Point2(2.0, -0.25), Point2(-1.0, 2.0)) == Positive
  {
    Orient2DIs(0.0, 1.0, 0.0, 0.0, 1.0, 0.0, Positive);
    Orient2DIs(2.0, -0.5, 2.0, -0.25, -1.0, 2.0, Positive);
  }

  /** The orientations the example above reads, part 2. */
  lemma PlanarR21Case2SwappedOrientations2()
    ensures Orient2D(Point2(2.0, -0.5), Point2(2.0, -0.25), Point2(0.0, 1.0)) == Positive
    ensures Orient2D(Point2(2.0, -0.25), Point2(-1.0, 2.0), Point2(0.0, 1.0)) == Positive
  {
    Orient2DIs(2.0, -0.5, 2.0, -0.25, 0.0, 1.0, Positive);
    Orient2DIs(2.0, -0.25, -1.0, 2.0, 0.0, 1.0, Positive);
  }

  /** The orientations the example above reads, part 3. */
  lemma PlanarR21Case2SwappedOrientations3()
    ensures Orient2D(Point2(-1.0, 2.0), Point2(2.0, -0.5), Point2(0.0, 1.0)) == Negative
    ensures Orient2D(Point2(-1.0, 2.0), Point2(2.0, -0.5), Point2(0.0, 0.0)) == Negative
  {
    Orient2DIs(-1.0, 2.0, 2.0, -0.5, 0.0, 1.0, Negative);
    Orient2DIs(-1.0, 2.0, 2.0, -0.5, 0.0, 0.0, Negative);
  }

  /** The orientations the example above reads, part 4. */
  lemma PlanarR21Case2SwappedOrientations4()
    ensures Orient2D(Point2(-1.0, 2.0), Point2(2.0, -0.5), Point2(1.0, 0.0)) == Negative
  {
    Orient2DIs(-1.0, 2.0, 2.0, -0.5, 1.0, 0.0, Negative);
  }

  /** test/algorithm/src/triangle_triangle.cpp, Triangle_Triangle_2D_R21, are_intersecting (tr_3, tr). */
  lemma PlanarR21Case3Example()
    ensures TriangleTriangleIntersect(Triangle(Point3(2.0, -0.5, 0.0), Point3(2.0, -0.25, 0.0), Point3(0.0, 1.0, 0.0), TriangleSpecies),
      Triangle(Point3(0.0, 1.0, 0.0), Point3(0.0, 0.0, 0.0), Point3(1.0, 0.0, 0.0), TriangleSpecies))
  {
    assert FromPoints(Point3(2.0, -0.5, 0.0), Point3(2.0, -0.25, 0.0)) == Vector(0.0, 0.25, 0.0);
    assert FromPoints(Point3(2.0, -0.5, 0.0), Point3(0.0, 1.0, 0.0)) == Vector(-2.0, 1.5, 0.0);
    assert VectorProduct(Vector(0.0, 0.25, 0.0), Vector(-2.0, 1.5, 0.0)).z == 0.5;
    GroundCoplanar(Triangle(Point3(2.0, -0.5, 0.0), Point3(2.0, -0.25, 0.0), Point3(0.0, 1.0, 0.0), TriangleSpecies),
      Triangle(Point3(0.0, 1.0, 0.0), Point3(0.0, 0.0, 0.0), Point3(1.0, 0.0, 0.0), TriangleSpecies));
    PlanarR21Case3Orientations1();
    PlanarR21Case3Orientations2();
    PlanarR21Case3Orientations3();
    PlanarR21Case3Orientations4();
    PlanarR21Case3Orientations5();
  }

  /** The orientations the example above reads, part 1. */
  lemma PlanarR21Case3Orientations1()
    ensures Orient2D(Point2(2.0, -0.5), Point2(2.0, -0.25), Point2(0.0, 1.0)) == Positive
    ensures Orient2D(Point2(0.0, 1.0), Point2(0.0, 0.0), Point2(1.0, 0.0)) == Positive
  {
    Orient2DIs(2.0, -0.5, 2.0, -0.25, 0.0, 1.0, Positive);
    Orient2DIs(0.0, 1.0, 0.0, 0.0, 1.0, 0.0, Positive);
  }

  /** The orientations the example above reads, part 2. */
  lemma PlanarR21Case3Orientations2()
    ensures Orient2D(Point2(0.0, 1.0), Point2(0.0, 0.0), Point2(2.0, -0.5)) == Positive
    ensures Orient2D(Point2(0.0, 0.0), Point2(1.0, 0.0), Point2(2.0, -0.5)) == Negative
  {
    Orient2DIs(0.0, 1.0, 0.0, 0.0, 2.0, -0.5, Positive);
    Orient2DIs(0.0, 0.0, 1.0, 0.0, 2.0, -0.5, Negative);
  }

  /** The orientations the example above reads, part 3. */
  lemma PlanarR21Case3Orientations3()
    ensures Orient2D(Point2(1.0, 0.0), Point2(0.0, 1.0), Point2(2.0, -0.5)) == Negative
    ensures Orient2D(Point2(1.0, 0.0), Point2(0.0, 1.0), Point2(2.0, -0.25)) == Negative
  {
    Orient2DIs(1.0, 0.0, 0.0, 1.0, 2.0, -0.5, Negative);
    Orient2DIs(1.0, 0.0, 0.0, 1.0, 2.0, -0.25, Negative);
  }

  /** The orientations the example above reads, part 4. */
  lemma PlanarR21Case3Orientations4()
    ensures Orient2D(Point2(1.0, 0.0), Point2(0.0, 1.0), Point2(0.0, 1.0)) == Neutral
    ensures Orient2D(Point2(1.0, 0.0), Point2(2.0, -0.25), Point2(0.0, 1.0)) == Positive
  {
    Orient2DIs(1.0, 0.0, 0.0, 1.0, 0.0, 1.0, Neutral);
    Orient2DIs(1.0, 0.0, 2.0, -0.25, 0.0, 1.0, Positive);
  }

  /** The orientations the example above reads, part 5. */
  lemma PlanarR21Case3Orientations5()
    ensures Orient2D(Point2(2.0, -0.5), Point2(0.0, 1.0), Point2(0.0, 1.0)) == Neutral
  {
    Orient2DIs(2.0, -0.5, 0.0, 1.0, 0.0, 1.0, Neutral);
  }

  /** test/algorithm/src/triangle_triangle.cpp, Triangle_Triangle_2D_R21, are_intersecting (tr, tr_3). */
  lemma PlanarR21Case3SwappedExample()
    ensures TriangleTriangleIntersect(Triangle(Point3(0.0, 1.0, 0.0), Point3(0.0, 0.0, 0.0), Point3(1.0, 0.0, 0.0), TriangleSpecies),
      Triangle(Point3(2.0, -0.5, 0.0), Point3(2.0, -0.25, 0.0), Point3(0.0, 1.0, 0.0), TriangleSpecies))
  {
    assert FromPoints(Point3(0.0, 1.0, 0.0), Point3(0.0, 0.0, 0.0)) == Vector(0.0, -1.0, 0.0);
    assert FromPoints(Point3(0.0, 1.0, 0.0), Point3(1.0, 0.0, 0.0)) == Vector(1.0, -1.0, 0.0);
    assert VectorProduct(Vector(0.0, -1.0, 0.0), Vector(1.0, -1.0, 0.0)).z == 1.0;
    GroundCoplanar(Triangle(Point3(0.0, 1.0, 0.0), Point3(0.0, 0.0, 0.0), Point3(1.0, 0.0, 0.0), TriangleSpecies),
      Triangle(Point3(2.0, -0.5, 0.0), Point3(2.0, -0.25, 0.0), Point3(0.0, 1.0, 0.0), TriangleSpecies));
    PlanarR21Case3SwappedOrientations1();
    PlanarR21Case3SwappedOrientations2();
  }

  /** The orientations the example above reads, part 1. */
  lemma PlanarR21Case3SwappedOrientations1()
    ensures Orient2D(Point2(0.0, 1.0), Point2(0.0, 0.0), Point2(1.0, 0.0)) == Positive
    ensures Orient2D(Point2(2.0, -0.5), Point2(2.0, -0.25), Point2(0.0, 1.0)) == Positive
  {
    Orient2DIs(0.0, 1.0, 0.0, 0.0, 1.0, 0.0, Positive);
    Orient2DIs(2.0, -0.5, 2.0, -0.25, 0.0, 1.0, Positive);
  }

  /** The orientations the example above reads, part 2. */
  lemma PlanarR21Case3SwappedOrientations2()
    ensures Orient2D(Point2(2.0, -0.25), Point2(0.0, 1.0), Point2(0.0, 1.0)) == Neutral
    ensures Orient2D(Point2(0.0, 1.0), Point2(2.0, -0.5), Point2(0.0, 1.0)) == Neutral
  {
    Orient2DIs(2.0, -0.25, 0.0, 1.0, 0.0, 1.0, Neutral);
    Orient2DIs(0.0, 1.0, 2.0, -0.5, 0.0, 1.0, Neutral);
  }

  /** test/algorithm/src/triangle_triangle.cpp, Triangle_Triangle_2D_R21, are_intersecting (tr_4, tr). */
  lemma PlanarR21Case4Example()
    ensures TriangleTriangleIntersect(Triangle(Point3(2.0, -0.5, 0.0), Point3(2.0, -0.25, 0.0), Point3(0.5, 0.5, 0.0), TriangleSpecies),
      Triangle(Point3(0.0, 1.0, 0.0), Point3(0.0, 0.0, 0.0), Point3(1.0, 0.0, 0.0), TriangleSpecies))
  {
    assert FromPoints(Point3(2.0, -0.5, 0.0), Point3(2.0, -0.25, 0.0)) == Vector(0.0, 0.25, 0.0);
    assert FromPoints(Point3(2.0, -0.5, 0.0), Point3(0.5, 0.5, 0.0)) == Vector(-1.5, 1.0, 0.0);
    assert VectorProduct(Vector(0.0, 0.25, 0.0), Vector(-1.5, 1.0, 0.0)).z == 0.375;
    GroundCoplanar(Triangle(Point3(2.0, -0.5, 0.0), Point3(2.0, -0.25, 0.0), Point3(0.5, 0.5, 0.0), TriangleSpecies),
      Triangle(Point3(0.0, 1.0, 0.0), Point3(0.0, 0.0, 0.0), Point3(1.0, 0.0, 0.0), TriangleSpecies));
    PlanarR21Case4Orientations1();
    PlanarR21Case4Orientations2();
    PlanarR21Case4Orientations3();
    PlanarR21Case4Orientations4();
    PlanarR21Case4Orientations5();
  }

  /** The orientations the example above reads, part 1. */
  lemma PlanarR21Case4Orientations1()
    ensures Orient2D(Point2(2.0, -0.5), Point2(2.0, -0.25), Point2(0.5, 0.5)) == Positive
    ensures Orient2D(Point2(0.0, 1.0), Point2(0.0, 0.0), Point2(1.0, 0.0)) == Positive
  {
    Orient2DIs(2.0, -0.5, 2.0, -0.25, 0.5, 0.5, Positive);
    Orient2DIs(0.0, 1.0, 0.0, 0.0, 1.0, 0.0, Positive);
  }

  /** The orientations the example above reads, part 2. */
  lemma PlanarR21Case4Orientations2()
    ensures Orient2D(Point2(0.0, 1.0), Point2(0.0, 0.0), Point2(2.0, -0.5)) == Positive
    ensures Orient2D(Point2(0.0, 0.0), Point2(1.0, 0.0), Point2(2.0, -0.5)) == Negative
  {
    Orient2DIs(0.0, 1.0, 0.0, 0.0, 2.0, -0.5, Positive);
    Orient2DIs(0.0, 0.0, 1.0, 0.0, 2.0, -0.5, Negative);
  }

  /** The orientations the example above reads, part 3. */
  lemma PlanarR21Case4Orientations3()
    ensures Orient2D(Point2(1.0, 0.0), Point2(0.0, 1.0), Point2(2.0, -0.5)) == Negative
    ensures Orient2D(Point2(1.0, 0.0), Point2(0.0, 1.0), Point2(2.0, -0.25)) == Negative
  {
    Orient2DIs(1.0, 0.0, 0.0, 1.0, 2.0, -0.5, Negative);
    Orient2DIs(1.0, 0.0, 0.0, 1.0, 2.0, -0.25, Negative);
  }

  /** The orientations the example above reads, part 4. */
  lemma PlanarR21Case4Orientations4()
    ensures Orient2D(Point2(1.0, 0.0), Point2(0.0, 1.0), Point2(0.5, 0.5)) == Neutral
    ensures Orient2D(Point2(1.0, 0.0), Point2(2.0, -0.25), Point2(0.5, 0.5)) == Positive
  {
    Orient2DIs(1.0, 0.0, 0.0, 1.0, 0.5, 0.5, Neutral);
    Orient2DIs(1.0, 0.0, 2.0, -0.25, 0.5, 0.5, Positive);
  }

  /** The orientations the example above reads, part 5. */
  lemma PlanarR21Case4Orientations5()
    ensures Orient2D(Point2(2.0, -0.5), Point2(0.0, 1.0), Point2(0.5, 0.5)) == Positive
  {
    Orient2DIs(2.0, -0.5, 0.0, 1.0, 0.5, 0.5, Positive);
  }

  /** test/algorithm/src/triangle_triangle.cpp, Triangle_Triangle_2D_R21, are_intersecting (tr, tr_4). */
  lemma PlanarR21Case4SwappedExample()
    ensures TriangleTriangleIntersect(Triangle(Point3(0.0, 1.0, 0.0), Point3(0.0, 0.0, 0.0), Point3(1.0, 0.0, 0.0), TriangleSpecies),
      Triangle(Point3(2.0, -0.5, 0.0), Point3(2.0, -0.25, 0.0), Point3(0.5, 0.5, 0.0), TriangleSpecies))
  {
    assert FromPoints(Point3(0.0, 1.0, 0.0), Point3(0.0, 0.0, 0.0)) == Vector(0.0, -1.0, 0.0);
    assert FromPoints(Point3(0.0, 1.0, 0.0), Point3(1.0, 0.0, 0.0)) == Vector(1.0, -1.0, 0.0);
    assert VectorProduct(Vector(0.0, -1.0, 0.0), Vector(1.0, -1.0, 0.0)).z == 1.0;
    GroundCoplanar(Triangle(Point3(0.0, 1.0, 0.0), Point3(0.0, 0.0, 0.0), Point3(1.0, 0.0, 0.0), TriangleSpecies),
      Triangle(Point3(2.0, -0.5, 0.0), Point3(2.0, -0.25, 0.0), Point3(0.5, 0.5, 0.0), TriangleSpecies));
    PlanarR21Case4SwappedOrientations1();
    PlanarR21Case4SwappedOrientations2();
    PlanarR21Case4SwappedOrientations3();
    PlanarR21Case4SwappedOrientations4();
    PlanarR21Case4SwappedOrientations5();
  }

  /** The orientations the example above reads, part 1. */
  lemma PlanarR21Case4SwappedOrientations1()
    ensures Orient2D(Point2(0.0, 1.0), Point2(0.0, 0.0), Point2(1.0, 0.0)) == Positive
    ensures Orient2D(Point2(2.0, -0.5), Point2(2.0, -0.25), Point2(0.5, 0.5)) == Positive
  {
    Orient2DIs(0.0, 1.0, 0.0, 0.0, 1.0, 0.0, Positive);
    Orient2DIs(2.0, -0.5, 2.0, -0.25, 0.5, 0.5, Positive);
  }

  /** The orientations the example above reads, part 2. */
  lemma PlanarR21Case4SwappedOrientations2()
    ensures Orient2D(Point2(2.0, -0.5), Point2(2.0, -0.25), Point2(0.0, 1.0)) == Positive
    ensures Orient2D(Point2(2.0, -0.25), Point2(0.5, 0.5), Point2(0.0, 1.0)) == Negative
  {
    Orient2DIs(2.0, -0.5, 2.0, -0.25, 0.0, 1.0, Positive);
    Orient2DIs(2.0, -0.25, 0.5, 0.5, 0.0, 1.0, Negative);
  }

  /** The orientations the example above reads, part 3. */
  lemma PlanarR21Case4SwappedOrientations3()
    ensures Orient2D(Point2(0.5, 0.5), Point2(2.0, -0.5), Point2(0.0, 1.0)) == Positive
    ensures Orient2D(Point2(2.0, -0.25), Point2(0.5, 0.5), Point2(0.0, 0.0)) == Positive
  {
    Orient2DIs(0.5, 0.5, 2.0, -0.5, 0.0, 1.0, Positive);
    Orient2DIs(2.0, -0.25, 0.5, 0.5, 0.0, 0.0, Positive);
  }

  /** The orientations the example above reads, part 4. */
  lemma PlanarR21Case4SwappedOrientations4()
    ensures Orient2D(Point2(0.0, 1.0), Point2(2.0, -0.25), Point2(0.0, 0.0)) == Negative
    ensures Orient2D(Point2(0.0, 1.0), Point2(0.5, 0.5), Point2(0.0, 0.0)) == Negative
  {
    Orient2DIs(0.0, 1.0, 2.0, -0.25, 0.0, 0.0, Negative);
    Orient2DIs(0.0, 1.0, 0.5, 0.5, 0.0, 0.0, Negative);
  }

  /** The orientations the example above reads, part 5. */
  lemma PlanarR21Case4SwappedOrientations5()
    ensures Orient2D(Point2(0.0, 1.0), Point2(0.5, 0.5), Point2(1.0, 0.0)) == Neutral
    ensures Orient2D(Point2(0.0, 0.0), Point2(0.5, 0.5), Point2(1.0, 0.0)) == Negative
  {
    Orient2DIs(0.0, 1.0, 0.5, 0.5, 1.0, 0.0, Neutral);
    Orient2DIs(0.0, 0.0, 0.5, 0.5, 1.0, 0.0, Negative);
  }

  /** test/algorithm/src/triangle_triangle.cpp, Triangle_Triangle_2D_R21, are_intersecting (tr_5, tr). */
  lemma PlanarR21Case5Example()
    ensures TriangleTriangleIntersect(Triangle(Point3(2.0, -0.5, 0.0), Point3(2.0, -0.25, 0.0), Point3(1.0, 0.0, 0.0), TriangleSpecies),
      Triangle(Point3(0.0, 1.0, 0.0), Point3(0.0, 0.0, 0.0), Point3(1.0, 0.0, 0.0), TriangleSpecies))
  {
    assert FromPoints(Point3(2.0, -0.5, 0.0), Point3(2.0, -0.25, 0.0)) == Vector(0.0, 0.25, 0.0);
    assert FromPoints(Point3(2.0, -0.5, 0.0), Point3(1.0, 0.0, 0.0)) == Vector(-1.0, 0.5, 0.0);
    assert VectorProduct(Vector(0.0, 0.25, 0.0), Vector(-1.0, 0.5, 0.0)).z == 0.25;
    GroundCoplanar(Triangle(Point3(2.0, -0.5, 0.0), Point3(2.0, -0.25, 0.0), Point3(1.0, 0.0, 0.0), TriangleSpecies),
      Triangle(Point3(0.0, 1.0, 0.0), Point3(0.0, 0.0, 0.0), Point3(1.0, 0.0, 0.0), TriangleSpecies));
    PlanarR21Case5Orientations1();
    PlanarR21Case5Orientations2();
    PlanarR21Case5Orientations3();
    PlanarR21Case5Orientations4();
    PlanarR21Case5Orientations5();
  }

  /** The orientations the example above reads, part 1. */
  lemma PlanarR21Case5Orientations1()
    ensures Orient2D(Point2(2.0, -0.5), Point2(2.0, -0.25), Point2(1.0, 0.0)) == Positive
    ensures Orient2D(Point2(0.0, 1.0), Point2(0.0, 0.0), Point2(1.0, 0.0)) == Positive
  {
    Orient2DIs(2.0, -0.5, 2.0, -0.25, 1.0, 0.0, Positive);
    Orient2DIs(0.0, 1.0, 0.0, 0.0, 1.0, 0.0, Positive);
  }

  /** The orientations the example above reads, part 2. */
  lemma PlanarR21Case5Orientations2()
    ensures Orient2D(Point2(0.0, 1.0), Point2(0.0, 0.0), Point2(2.0, -0.5)) == Positive
    ensures Orient2D(Point2(0.0, 0.0), Point2(1.0, 0.0), Point2(2.0, -0.5)) == Negative
  {
    Orient2DIs(0.0, 1.0, 0.0, 0.0, 2.0, -0.5, Positive);
    Orient2DIs(0.0, 0.0, 1.0, 0.0, 2.0, -0.5, Negative);
  }

  /** The orientations the example above reads, part 3. */
  lemma PlanarR21Case5Orientations3()
    ensures Orient2D(Point2(1.0, 0.0), Point2(0.0, 1.0), Point2(2.0, -0.5)) == Negative
    ensures Orient2D(Point2(1.0, 0.0), Point2(0.0, 1.0), Point2(2.0, -0.25)) == Negative
  {
    Orient2DIs(1.0, 0.0, 0.0, 1.0, 2.0, -0.5, Negative);
    Orient2DIs(1.0, 0.0, 0.0, 1.0, 2.0, -0.25, Negative);
  }

  /** The orientations the example above reads, part 4. */
  lemma PlanarR21Case5Orientations4()
    ensures Orient2D(Point2(1.0, 0.0), Point2(0.0, 1.0), Point2(1.0, 0.0)) == Neutral
    ensures Orient2D(Point2(1.0, 0.0), Point2(2.0, -0.25), Point2(1.0, 0.0)) == Neutral
  {
    Orient2DIs(1.0, 0.0, 0.0, 1.0, 1.0, 0.0, Neutral);
    Orient2DIs(1.0, 0.0, 2.0, -0.25, 1.0, 0.0, Neutral);
  }

  /** The orientations the example above reads, part 5. */
  lemma PlanarR21Case5Orientations5()
    ensures Orient2D(Point2(2.0, -0.5), Point2(0.0, 1.0), Point2(1.0, 0.0)) == Positive
  {
    Orient2DIs(2.0, -0.5, 0.0, 1.0, 1.0, 0.0, Positive);
  }

  /** test/algorithm/src/triangle_triangle.cpp, Triangle_Triangle_2D_R21, are_intersecting (tr, tr_5). */
  lemma PlanarR21Case5SwappedExample()
    ensures TriangleTriangleIntersect(Triangle(Point3(0.0, 1.0, 0.0), Point3(0.0, 0.0, 0.0), Point3(1.0, 0.0, 0.0), TriangleSpecies),
      Triangle(Point3(2.0, -0.5, 0.0), Point3(2.0, -0.25, 0.0), Point3(1.0, 0.0, 0.0), TriangleSpecies))
  {
    assert FromPoints(Point3(0.0, 1.0, 0.0), Point3(0.0, 0.0, 0.0)) == Vector(0.0, -1.0, 0.0);
    assert FromPoints(Point3(0.0, 1.0, 0.0), Point3(1.0, 0.0, 0.0)) == Vector(1.0, -1.0, 0.0);
    assert VectorProduct(Vector(0.0, -1.0, 0.0), Vector(1.0, -1.0, 0.0)).z == 1.0;
    GroundCoplanar(Triangle(Point3(0.0, 1.0, 0.0), Point3(0.0, 0.0, 0.0), Point3(1.0, 0.0, 0.0), TriangleSpecies),
      Triangle(Point3(2.0, -0.5, 0.0), Point3(2.0, -0.25, 0.0), Point3(1.0, 0.0, 0.0), TriangleSpecies));
    PlanarR21Case5SwappedOrientations1();
    PlanarR21Case5SwappedOrientations2();
    PlanarR21Case5SwappedOrientations3();
    PlanarR21Case5SwappedOrientations4();
    PlanarR21Case5SwappedOrientations5();
  }

  /** The orientations the example above reads, part 1. */
  lemma PlanarR21Case5SwappedOrientations1()
    ensures Orient2D(Point2(0.0, 1.0), Point2(0.0, 0.0), Point2(1.0, 0.0)) == Positive
    ensures Orient2D(Point2(2.0, -0.5), Point2(2.0, -0.25), Point2(1.0, 0.0)) == Positive
  {
    Orient2DIs(0.0, 1.0, 0.0, 0.0, 1.0, 0.0, Positive);
    Orient2DIs(2.0, -0.5, 2.0, -0.25, 1.0, 0.0, Positive);
  }

  /** The orientations the example above reads, part 2. */
  lemma PlanarR21Case5SwappedOrientations2()
    ensures Orient2D(Point2(2.0, -0.5), Point2(2.0, -0.25), Point2(0.0, 1.0)) == Positive
    ensures Orient2D(Point2(2.0, -0.25), Point2(1.0, 0.0), Point2(0.0, 1.0)) == Negative
  {
    Orient2DIs(2.0, -0.5, 2.0, -0.25, 0.0, 1.0, Positive);
    Orient2DIs(2.0, -0.25, 1.0, 0.0, 0.0, 1.0, Negative);
  }

  /** The orientations the example above reads, part 3. */
  lemma PlanarR21Case5SwappedOrientations3()
    ensures Orient2D(Point2(1.0, 0.0), Point2(2.0, -0.5), Point2(0.0, 1.0)) == Positive
    ensures Orient2D(Point2(2.0, -0.25), Point2(1.0, 0.0), Point2(0.0, 0.0)) == Positive
  {
    Orient2DIs(1.0, 0.0, 2.0, -0.5, 0.0, 1.0, Positive);
    Orient2DIs(2.0, -0.25, 1.0, 0.0, 0.0, 0.0, Positive);
  }

  /** The orientations the example above reads, part 4. */
  lemma PlanarR21Case5SwappedOrientations4()
    ensures Orient2D(Point2(0.0, 1.0), Point2(2.0, -0.25), Point2(0.0, 0.0)) == Negative
    ensures Orient2D(Point2(0.0, 1.0), Point2(1.0, 0.0), Point2(0.0, 0.0)) == Negative
  {
    Orient2DIs(0.0, 1.0, 2.0, -0.25, 0.0, 0.0, Negative);
    Orient2DIs(0.0, 1.0, 1.0, 0.0, 0.0, 0.0, Negative);
  }

  /** The orientations the example above reads, part 5. */
  lemma PlanarR21Case5SwappedOrientations5()
    ensures Orient2D(Point2(0.0, 1.0), Point2(1.0, 0.0), Point2(1.0, 0.0)) == Neutral
    ensures Orient2D(Point2(0.0, 0.0), Point2(1.0, 0.0), Point2(1.0, 0.0)) == Neutral
  {
    Orient2DIs(0.0, 1.0, 1.0, 0.0, 1.0, 0.0, Neutral);
    Orient2DIs(0.0, 0.0, 1.0, 0.0, 1.0, 0.0, Neutral);
  }

  /** test/algorithm/src/triangle_triangle.cpp, Triangle_Triangle_2D_R21, are_intersecting (tr_6, tr). */
  lemma PlanarR21Case6Example()
    ensures !TriangleTriangleIntersect(Triangle(Point3(2.0, -0.5, 0.0), Point3(2.0, -0.25, 0.0), Point3(1.5, -0.5, 0.0), TriangleSpecies),
      Triangle(Point3(0.0, 1.0, 0.0), Point3(0.0, 0.0, 0.0), Point3(1.0, 0.0, 0.0), TriangleSpecies))
  {
    assert FromPoints(Point3(2.0, -0.5, 0.0), Point3(2.0, -0.25, 0.0)) == Vector(0.0, 0.25, 0.0);
    assert FromPoints(Point3(2.0, -0.5, 0.0), Point3(1.5, -0.5, 0.0)) == Vector(-0.5, 0.0, 0.0);
    assert VectorProduct(Vector(0.0, 0.25, 0.0), Vector(-0.5, 0.0, 0.0)).z == 0.125;
    GroundCoplanar(Triangle(Point3(2.0, -0.5, 0.0), Point3(2.0, -0.25, 0.0), Point3(1.5, -0.5, 0.0), TriangleSpecies),
      Triangle(Point3(0.0, 1.0, 0.0), Point3(0.0, 0.0, 0.0), Point3(1.0, 0.0, 0.0), TriangleSpecies));
    PlanarR21Case6Orientations1();
    PlanarR21Case6Orientations2();
    PlanarR21Case6Orientations3();
    PlanarR21Case6Orientations4();
    PlanarR21Case6Orientations5();
  }

  /** The orientations the example above reads, part 1. */
  lemma PlanarR21Case6Orientations1()
    ensures Orient2D(Point2(2.0, -0.5), Point2(2.0, -0.25), Point2(1.5, -0.5)) == Positive
    ensures Orient2D(Point2(0.0, 1.0), Point2(0.0, 0.0), Point2(1.0, 0.0)) == Positive
  {
    Orient2DIs(2.0, -0.5, 2.0, -0.25, 1.5, -0.5, Positive);
    Orient2DIs(0.0, 1.0, 0.0, 0.0, 1.0, 0.0, Positive);
  }

  /** The orientations the example above reads, part 2. */
  lemma PlanarR21Case6Orientations2()
    ensures Orient2D(Point2(0.0, 1.0), Point2(0.0, 0.0), Point2(2.0, -0.5)) == Positive
    ensures Orient2D(Point2(0.0, 0.0), Point2(1.0, 0.0), Point2(2.0, -0.5)) == Negative
  {
    Orient2DIs(0.0, 1.0, 0.0, 0.0, 2.0, -0.5, Positive);
    Orient2DIs(0.0, 0.0, 1.0, 0.0, 2.0, -0.5, Negative);
  }

  /** The orientations the example above reads, part 3. */
  lemma PlanarR21Case6Orientations3()
    ensures Orient2D(Point2(1.0, 0.0), Point2(0.0, 1.0), Point2(2.0, -0.5)) == Negative
    ensures Orient2D(Point2(1.0, 0.0), Point2(0.0, 1.0), Point2(2.0, -0.25)) == Negative
  {
    Orient2DIs(1.0, 0.0, 0.0, 1.0, 2.0, -0.5, Negative);
    Orient2DIs(1.0, 0.0, 0.0, 1.0, 2.0, -0.25, Negative);
  }

  /** The orientations the example above reads, part 4. */
  lemma PlanarR21Case6Orientations4()
    ensures Orient2D(Point2(1.0, 0.0), Point2(0.0, 1.0), Point2(1.5, -0.5)) == Neutral
    ensures Orient2D(Point2(1.0, 0.0), Point2(2.0, -0.25), Point2(1.5, -0.5)) == Negative
  {
    Orient2DIs(1.0, 0.0, 0.0, 1.0, 1.5, -0.5, Neutral);
    Orient2DIs(1.0, 0.0, 2.0, -0.25, 1.5, -0.5, Negative);
  }

  /** The orientations the example above reads, part 5. */
  lemma PlanarR21Case6Orientations5()
    ensures Orient2D(Point2(0.0, 0.0), Point2(2.0, -0.25), Point2(1.5, -0.5)) == Negative
  {
    Orient2DIs(0.0, 0.0, 2.0, -0.25, 1.5, -0.5, Negative);
  }

  /** test/algorithm/src/triangle_triangle.cpp, Triangle_Triangle_2D_R21, are_intersecting (tr, tr_6). */
  lemma PlanarR21Case6SwappedExample()
    ensures !TriangleTriangleIntersect(Triangle(Point3(0.0, 1.0, 0.0), Point3(0.0, 0.0, 0.0), Point3(1.0, 0.0, 0.0), TriangleSpecies),
      Triangle(Point3(2.0, -0.5, 0.0), Point3(2.0, -0.25, 0.0), Point3(1.5, -0.5, 0.0), TriangleSpecies))
  {
    assert FromPoints(Point3(0.0, 1.0, 0.0), Point3(0.0, 0.0, 0.0)) == Vector(0.0, -1.0, 0.0);
    assert FromPoints(Point3(0.0, 1.0, 0.0), Point3(1.0, 0.0, 0.0)) == Vector(1.0, -1.0, 0.0);
    assert VectorProduct(Vector(0.0, -1.0, 0.0), Vector(1.0, -1.0, 0.0)).z == 1.0;
    GroundCoplanar(Triangle(Point3(0.0, 1.0, 0.0), Point3(0.0, 0.0, 0.0), Point3(1.0, 0.0, 0.0), TriangleSpecies),
      Triangle(Point3(2.0, -0.5, 0.0), Point3(2.0, -0.25, 0.0), Point3(1.5, -0.5, 0.0), TriangleSpecies));
    PlanarR21Case6SwappedOrientations1();
    PlanarR21Case6SwappedOrientations2();
    PlanarR21Case6SwappedOrientations3();
    PlanarR21Case6SwappedOrientations4();
  }

  /** The orientations the example above reads, part 1. */
  lemma PlanarR21Case6SwappedOrientations1()
    ensures Orient2D(Point2(0.0, 1.0), Point2(0.0, 0.0), Point2(1.0, 0.0)) == Positive
    ensures Orient2D(Point2(2.0, -0.5), Point2(2.0, -0.25), Point2(1.5, -0.5)) == Positive
  {
    Orient2DIs(0.0, 1.0, 0.0, 0.0, 1.0, 0.0, Positive);
    Orient2DIs(2.0, -0.5, 2.0, -0.25, 1.5, -0.5, Positive);
  }

  /** The orientations the example above reads, part 2. */
  lemma PlanarR21Case6SwappedOrientations2()
    ensures Orient2D(Point2(2.0, -0.5), Point2(2.0, -0.25), Point2(0.0, 1.0)) == Positive
    ensures Orient2D(Point2(2.0, -0.25), Point2(1.5, -0.5), Point2(0.0, 1.0)) == Negative
  {
    Orient2DIs(2.0, -0.5, 2.0, -0.25, 0.0, 1.0, Positive);
    Orient2DIs(2.0, -0.25, 1.5, -0.5, 0.0, 1.0, Negative);
  }

  /** The orientations the example above reads, part 3. */
  lemma PlanarR21Case6SwappedOrientations3()
    ensures Orient2D(Point2(1.5, -0.5), Point2(2.0, -0.5), Point2(0.0, 1.0)) == Positive
    ensures Orient2D(Point2(2.0, -0.25), Point2(1.5, -0.5), Point2(0.0, 0.0)) == Negative
  {
    Orient2DIs(1.5, -0.5, 2.0, -0.5, 0.0, 1.0, Positive);
    Orient2DIs(2.0, -0.25, 1.5, -0.5, 0.0, 0.0, Negative);
  }

  /** The orientations the example above reads, part 4. */
  lemma PlanarR21Case6SwappedOrientations4()
    ensures Orient2D(Point2(2.0, -0.25), Point2(1.5, -0.5), Point2(1.0, 0.0)) == Negative
  {
    Orient2DIs(2.0, -0.25, 1.5, -0.5, 1.0, 0.0, Negative);
  }

  /** test/algorithm/src/triangle_triangle.cpp, Triangle_Triangle_2D_R21, are_intersecting (tr_7, tr). */
  lemma PlanarR21Case7Example()
    ensures TriangleTriangleIntersect(Triangle(Point3(2.0, -0.5, 0.0), Point3(2.0, -0.25, 0.0), Point3(-1.0, 1.0, 0.0), TriangleSpecies),
      Triangle(Point3(0.0, 1.0, 0.0), Point3(0.0, 0.0, 0.0), Point3(1.0, 0.0, 0.0), TriangleSpecies))
  {
    assert FromPoints(Point3(2.0, -0.5, 0.0), Point3(2.0, -0.25, 0.0)) == Vector(0.0, 0.25, 0.0);
    assert FromPoints(Point3(2.0, -0.5, 0.0), Point3(-1.0, 1.0, 0.0)) == Vector(-3.0, 1.5, 0.0);
    assert VectorProduct(Vector(0.0, 0.25, 0.0), Vector(-3.0, 1.5, 0.0)).z == 0.75;
    GroundCoplanar(Triangle(Point3(2.0, -0.5, 0.0), Point3(2.0, -0.25, 0.0), Point3(-1.0, 1.0, 0.0), TriangleSpecies),
      Triangle(Point3(0.0, 1.0, 0.0), Point3(0.0, 0.0, 0.0), Point3(1.0, 0.0, 0.0), TriangleSpecies));
    PlanarR21Case7Orientations1();
    PlanarR21Case7Orientations2();
    PlanarR21Case7Orientations3();
    PlanarR21Case7Orientations4();
    PlanarR21Case7Orientations5();
  }

  /** The orientations the example above reads, part 1. */
  lemma PlanarR21Case7Orientations1()
    ensures Orient2D(Point2(2.0, -0.5), Point2(2.0, -0.25), Point2(-1.0, 1.0)) == Positive
    ensures Orient2D(Point2(0.0, 1.0), Point2(0.0, 0.0), Point2(1.0, 0.0)) == Positive
  {
    Orient2DIs(2.0, -0.5, 2.0, -0.25, -1.0, 1.0, Positive);
    Orient2DIs(0.0, 1.0, 0.0, 0.0, 1.0, 0.0, Positive);
  }

  /** The orientations the example above reads, part 2. */
  lemma PlanarR21Case7Orientations2()
    ensures Orient2D(Point2(0.0, 1.0), Point2(0.0, 0.0), Point2(2.0, -0.5)) == Positive
    ensures Orient2D(Point2(0.0, 0.0), Point2(1.0, 0.0), Point2(2.0, -0.5)) == Negative
  {
    Orient2DIs(0.0, 1.0, 0.0, 0.0, 2.0, -0.5, Positive);
    Orient2DIs(0.0, 0.0, 1.0, 0.0, 2.0, -0.5, Negative);
  }

  /** The orientations the example above reads, part 3. */
  lemma PlanarR21Case7Orientations3()
    ensures Orient2D(Point2(1.0, 0.0), Point2(0.0, 1.0), Point2(2.0, -0.5)) == Negative
    ensures Orient2D(Point2(1.0, 0.0), Point2(0.0, 1.0), Point2(2.0, -0.25)) == Negative
  {
    Orient2DIs(1.0, 0.0, 0.0, 1.0, 2.0, -0.5, Negative);
    Orient2DIs(1.0, 0.0, 0.0, 1.0, 2.0, -0.25, Negative);
  }

  /** The orientations the example above reads, part 4. */
  lemma PlanarR21Case7Orientations4()
    ensures Orient2D(Point2(1.0, 0.0), Point2(0.0, 1.0), Point2(-1.0, 1.0)) == Positive
    ensures Orient2D(Point2(1.0, 0.0), Point2(2.0, -0.25), Point2(-1.0, 1.0)) == Positive
  {
    Orient2DIs(1.0, 0.0, 0.0, 1.0, -1.0, 1.0, Positive);
    Orient2DIs(1.0, 0.0, 2.0, -0.25, -1.0, 1.0, Positive);
  }

  /** The orientations the example above reads, part 5. */
  lemma PlanarR21Case7Orientations5()
    ensures Orient2D(Point2(2.0, -0.5), Point2(0.0, 1.0), Point2(-1.0, 1.0)) == Positive
  {
    Orient2DIs(2.0, -0.5, 0.0, 1.0, -1.0, 1.0, Positive);
  }

  /** test/algorithm/src/triangle_triangle.cpp, Triangle_Triangle_2D_R21, are_intersecting (tr, tr_7). */
  lemma PlanarR21Case7SwappedExample()
    ensures TriangleTriangleIntersect(Triangle(Point3(0.0, 1.0, 0.0), Point3(0.0, 0.0, 0.0), Point3(1.0, 0.0, 0.0), TriangleSpecies),
      Triangle(Point3(2.0, -0.5, 0.0), Point3(2.0, -0.25, 0.0), Point3(-1.0, 1.0, 0.0), TriangleSpecies))
  {
    assert FromPoints(Point3(0.0, 1.0, 0.0), Point3(0.0, 0.0, 0.0)) == Vector(0.0, -1.0, 0.0);
    assert FromPoints(Point3(0.0, 1.0, 0.0), Point3(1.0, 0.0, 0.0)) == Vector(1.0, -1.0, 0.0);
    assert VectorProduct(Vector(0.0, -1.0, 0.0), Vector(1.0, -1.0, 0.0)).z == 1.0;
    GroundCoplanar(Triangle(Point3(0.0, 1.0, 0.0), Point3(0.0, 0.0, 0.0), Point3(1.0, 0.0, 0.0), TriangleSpecies),
      Triangle(Point3(2.0, -0.5, 0.0), Point3(2.0, -0.25, 0.0), Point3(-1.0, 1.0, 0.0), TriangleSpecies));
    PlanarR21Case7SwappedOrientations1();
    PlanarR21Case7SwappedOrientations2();
    PlanarR21Case7SwappedOrientations3();
    PlanarR21Case7SwappedOrientations4();
  }

  /** The orientations the example above reads, part 1. */
  lemma PlanarR21Case7SwappedOrientations1()
    ensures Orient2D(Point2(0.0, 1.0), Point2(0.0, 0.0), Point2(1.0, 0.0)) == Positive
    ensures Orient2D(Point2(2.0, -0.5), Point2(2.0, -0.25), Point2(-1.0, 1.0)) == Positive
  {
    Orient2DIs(0.0, 1.0, 0.0, 0.0, 1.0, 0.0, Positive);
    Orient2DIs(2.0, -0.5, 2.0, -0.25, -1.0, 1.0, Positive);
  }

  /** The orientations the example above reads, part 2. */
  lemma PlanarR21Case7SwappedOrientations2()
    ensures Orient2D(Point2(2.0, -0.5), Point2(2.0, -0.25), Point2(0.0, 1.0)) == Positive
    ensures Orient2D(Point2(2.0, -0.25), Point2(-1.0, 1.0), Point2(0.0, 1.0)) == Negative
  {
    Orient2DIs(2.0, -0.5, 2.0, -0.25, 0.0, 1.0, Positive);
    Orient2DIs(2.0, -0.25, -1.0, 1.0, 0.0, 1.0, Negative);
  }

  /** The orientations the example above reads, part 3. */
  lemma PlanarR21Case7SwappedOrientations3()
    ensures Orient2D(Point2(-1.0, 1.0), Point2(2.0, -0.5), Point2(0.0, 1.0)) == Positive
    ensures Orient2D(Point2(2.0, -0.25), Point2(-1.0, 1.0), Point2(0.0, 0.0)) == Positive
  {
    Orient2DIs(-1.0, 1.0, 2.0, -0.5, 0.0, 1.0, Positive);
    Orient2DIs(2.0, -0.25, -1.0, 1.0, 0.0, 0.0, Positive);
  }

  /** The orientations the example above reads, part 4. */
  lemma PlanarR21Case7SwappedOrientations4()
    ensures Orient2D(Point2(0.0, 1.0), Point2(2.0, -0.25), Point2(0.0, 0.0)) == Negative
    ensures Orient2D(Point2(0.0, 1.0), Point2(-1.0, 1.0), Point2(0.0, 0.0)) == Positive
  {
    Orient2DIs(0.0, 1.0, 2.0, -0.25, 0.0, 0.0, Negative);
    Orient2DIs(0.0, 1.0, -1.0, 1.0, 0.0, 0.0, Positive);
  }

  /** test/algorithm/src/triangle_triangle.cpp, Triangle_Triangle_2D_R21, are_intersecting (tr_8, tr). */
  lemma PlanarR21Case8Example()
    ensures TriangleTriangleIntersect(Triangle(Point3(2.0, -0.5, 0.0), Point3(2.0, -0.25, 0.0), Point3(-1.0, 0.5, 0.0), TriangleSpecies),
      Triangle(Point3(0.0, 1.0, 0.0), Point3(0.0, 0.0, 0.0), Point3(1.0, 0.0, 0.0), TriangleSpecies))
  {
    assert FromPoints(Point3(2.0, -0.5, 0.0), Point3(2.0, -0.25, 0.0)) == Vector(0.0, 0.25, 0.0);
    assert FromPoints(Point3(2.0, -0.5, 0.0), Point3(-1.0, 0.5, 0.0)) == Vector(-3.0, 1.0, 0.0);
    assert VectorProduct(Vector(0.0, 0.25, 0.0), Vector(-3.0, 1.0, 0.0)).z == 0.75;
    GroundCoplanar(Triangle(Point3(2.0, -0.5, 0.0), Point3(2.0, -0.25, 0.0), Point3(-1.0, 0.5, 0.0), TriangleSpecies),
      Triangle(Point3(0.0, 1.0, 0.0), Point3(0.0, 0.0, 0.0), Point3(1.0, 0.0, 0.0), TriangleSpecies));
    PlanarR21Case8Orientations1();
    PlanarR21Case8Orientations2();
    PlanarR21Case8Orientations3();
    PlanarR21Case8Orientations4();
    PlanarR21Case8Orientations5();
  }

  /** The orientations the example above reads, part 1. */
  lemma PlanarR21Case8Orientations1()
    ensures Orient2D(Point2(2.0, -0.5), Point2(2.0, -0.25), Point2(-1.0, 0.5)) == Positive
    ensures Orient2D(Point2(0.0, 1.0), Point2(0.0, 0.0), Point2(1.0, 0.0)) == Positive
  {
    Orient2DIs(2.0, -0.5, 2.0, -0.25, -1.0, 0.5, Positive);
    Orient2DIs(0.0, 1.0, 0.0, 0.0, 1.0, 0.0, Positive);
  }

  /** The orientations the example above reads, part 2. */
  lemma PlanarR21Case8Orientations2()
    ensures Orient2D(Point2(0.0, 1.0), Point2(0.0, 0.0), Point2(2.0, -0.5)) == Positive
    ensures Orient2D(Point2(0.0, 0.0), Point2(1.0, 0.0), Point2(2.0, -0.5)) == Negative
  {
    Orient2DIs(0.0, 1.0, 0.0, 0.0, 2.0, -0.5, Positive);
    Orient2DIs(0.0, 0.0, 1.0, 0.0, 2.0, -0.5, Negative);
  }

  /** The orientations the example above reads, part 3. */
  lemma PlanarR21Case8Orientations3()
    ensures Orient2D(Point2(1.0, 0.0), Point2(0.0, 1.0), Point2(2.0, -0.5)) == Negative
    ensures Orient2D(Point2(1.0, 0.0), Point2(0.0, 1.0), Point2(2.0, -0.25)) == Negative
  {
    Orient2DIs(1.0, 0.0, 0.0, 1.0, 2.0, -0.5, Negative);
    Orient2DIs(1.0, 0.0, 0.0, 1.0, 2.0, -0.25, Negative);
  }

  /** The orientations the example above reads, part 4. */
  lemma PlanarR21Case8Orientations4()
    ensures Orient2D(Point2(1.0, 0.0), Point2(0.0, 1.0), Point2(-1.0, 0.5)) == Positive
    ensures Orient2D(Point2(1.0, 0.0), Point2(2.0, -0.25), Point2(-1.0, 0.5)) == Neutral
  {
    Orient2DIs(1.0, 0.0, 0.0, 1.0, -1.0, 0.5, Positive);
    Orient2DIs(1.0, 0.0, 2.0, -0.25, -1.0, 0.5, Neutral);
  }

  /** The orientations the example above reads, part 5. */
  lemma PlanarR21Case8Orientations5()
    ensures Orient2D(Point2(2.0, -0.5), Point2(0.0, 1.0), Point2(-1.0, 0.5)) == Positive
  {
    Orient2DIs(2.0, -0.5, 0.0, 1.0, -1.0, 0.5, Positive);
  }

  /** test/algorithm/src/triangle_triangle.cpp, Triangle_Triangle_2D_R21, are_intersecting (tr, tr_8). */
  lemma PlanarR21Case8SwappedExample()
    ensures TriangleTriangleIntersect(Triangle(Point3(0.0, 1.0, 0.0), Point3(0.0, 0.0, 0.0), Point3(1.0, 0.0, 0.0), TriangleSpecies),
      Triangle(Point3(2.0, -0.5, 0.0), Point3(2.0, -0.25, 0.0), Point3(-1.0, 0.5, 0.0), TriangleSpecies))
  {
    assert FromPoints(Point3(0.0, 1.0, 0.0), Point3(0.0, 0.0, 0.0)) == Vector(0.0, -1.0, 0.0);
    assert FromPoints(Point3(0.0, 1.0, 0.0), Point3(1.0, 0.0, 0.0)) == Vector(1.0, -1.0, 0.0);
    assert VectorProduct(Vector(0.0, -1.0, 0.0), Vector(1.0, -1.0, 0.0)).z == 1.0;
    GroundCoplanar(Triangle(Point3(0.0, 1.0, 0.0), Point3(0.0, 0.0, 0.0), Point3(1.0, 0.0, 0.0), TriangleSpecies),
      Triangle(Point3(2.0, -0.5, 0.0), Point3(2.0, -0.25, 0.0), Point3(-1.0, 0.5, 0.0), TriangleSpecies));
    PlanarR21Case8SwappedOrientations1();
    PlanarR21Case8SwappedOrientations2();
    PlanarR21Case8SwappedOrientations3();
    PlanarR21Case8SwappedOrientations4();
  }

  /** The orientations the example above reads, part 1. */
  lemma PlanarR21Case8SwappedOrientations1()
    ensures Orient2D(Point2(0.0, 1.0), Point2(0.0, 0.0), Point2(1.0, 0.0)) == Positive
    ensures Orient2D(Point2(2.0, -0.5), Point2(2.0, -0.25), Point2(-1.0, 0.5)) == Positive
  {
    Orient2DIs(0.0, 1.0, 0.0, 0.0, 1.0, 0.0, Positive);
    Orient2DIs(2.0, -0.5, 2.0, -0.25, -1.0, 0.5, Positive);
  }

  /** The orientations the example above reads, part 2. */
  lemma PlanarR21Case8SwappedOrientations2()
    ensures Orient2D(Point2(2.0, -0.5), Point2(2.0, -0.25), Point2(0.0, 1.0)) == Positive
    ensures Orient2D(Point2(2.0, -0.25), Point2(-1.0, 0.5), Point2(0.0, 1.0)) == Negative
  {
    Orient2DIs(2.0, -0.5, 2.0, -0.25, 0.0, 1.0, Positive);
    Orient2DIs(2.0, -0.25, -1.0, 0.5, 0.0, 1.0, Negative);
  }

  /** The orientations the example above reads, part 3. */
  lemma PlanarR21Case8SwappedOrientations3()
    ensures Orient2D(Point2(-1.0, 0.5), Point2(2.0, -0.5), Point2(0.0, 1.0)) == Positive
    ensures Orient2D(Point2(2.0, -0.25), Point2(-1.0, 0.5), Point2(0.0, 0.0)) == Positive
  {
    Orient2DIs(-1.0, 0.5, 2.0, -0.5, 0.0, 1.0, Positive);
    Orient2DIs(2.0, -0.25, -1.0, 0.5, 0.0, 0.0, Positive);
  }

  /** The orientations the example above reads, part 4. */
  lemma PlanarR21Case8SwappedOrientations4()
    ensures Orient2D(Point2(0.0, 1.0), Point2(2.0, -0.25), Point2(0.0, 0.0)) == Negative
    ensures Orient2D(Point2(0.0, 1.0), Point2(-1.0, 0.5), Point2(0.0, 0.0)) == Positive
  {
    Orient2DIs(0.0, 1.0, 2.0, -0.25, 0.0, 0.0, Negative);
    Orient2DIs(0.0, 1.0, -1.0, 0.5, 0.0, 0.0, Positive);
  }

  /** test/algorithm/src/triangle_triangle.cpp, Triangle_Triangle_2D_R21, are_intersecting (tr_9, tr). */
  lemma PlanarR21Case9Example()
    ensures TriangleTriangleIntersect(Triangle(Point3(2.0, -0.5, 0.0), Point3(2.0, -0.25, 0.0), Point3(-1.0, 1.75, 0.0), TriangleSpecies),
      Triangle(Point3(0.0, 1.0, 0.0), Point3(0.0, 0.0, 0.0), Point3(1.0, 0.0, 0.0), TriangleSpecies))
  {
    assert FromPoints(Point3(2.0, -0.5, 0.0), Point3(2.0, -0.25, 0.0)) == Vector(0.0, 0.25, 0.0);
    assert FromPoints(Point3(2.0, -0.5, 0.0), Point3(-1.0, 1.75, 0.0)) == Vector(-3.0, 2.25, 0.0);
    assert VectorProduct(Vector(0.0, 0.25, 0.0), Vector(-3.0, 2.25, 0.0)).z == 0.75;
    GroundCoplanar(Triangle(Point3(2.0, -0.5, 0.0), Point3(2.0, -0.25, 0.0), Point3(-1.0, 1.75, 0.0), TriangleSpecies),
      Triangle(Point3(0.0, 1.0, 0.0), Point3(0.0, 0.0, 0.0), Point3(1.0, 0.0, 0.0), TriangleSpecies));
    PlanarR21Case9Orientations1();
    PlanarR21Case9Orientations2();
    PlanarR21Case9Orientations3();
    PlanarR21Case9Orientations4();
    PlanarR21Case9Orientations5();
  }

  /** The orientations the example above reads, part 1. */
  lemma PlanarR21Case9Orientations1()
    ensures Orient2D(Point2(2.0, -0.5), Point2(2.0, -0.25), Point2(-1.0, 1.75)) == Positive
    ensures Orient2D(Point2(0.0, 1.0), Point2(0.0, 0.0), Point2(1.0, 0.0)) == Positive
  {
    Orient2DIs(2.0, -0.5, 2.0, -0.25, -1.0, 1.75, Positive);
    Orient2DIs(0.0, 1.0, 0.0, 0.0, 1.0, 0.0, Positive);
  }

  /** The orientations the example above reads, part 2. */
  lemma PlanarR21Case9Orientations2()
    ensures Orient2D(Point2(0.0, 1.0), Point2(0.0, 0.0), Point2(2.0, -0.5)) == Positive
    ensures Orient2D(Point2(0.0, 0.0), Point2(1.0, 0.0), Point2(2.0, -0.5)) == Negative
  {
    Orient2DIs(0.0, 1.0, 0.0, 0.0, 2.0, -0.5, Positive);
    Orient2DIs(0.0, 0.0, 1.0, 0.0, 2.0, -0.5, Negative);
  }

  /** The orientations the example above reads, part 3. */
  lemma PlanarR21Case9Orientations3()
    ensures Orient2D(Point2(1.0, 0.0), Point2(0.0, 1.0), Point2(2.0, -0.5)) == Negative
    ensures Orient2D(Point2(1.0, 0.0), Point2(0.0, 1.0), Point2(2.0, -0.25)) == Negative
  {
    Orient2DIs(1.0, 0.0, 0.0, 1.0, 2.0, -0.5, Negative);
    Orient2DIs(1.0, 0.0, 0.0, 1.0, 2.0, -0.25, Negative);
  }

  /** The orientations the example above reads, part 4. */
  lemma PlanarR21Case9Orientations4()
    ensures Orient2D(Point2(1.0, 0.0), Point2(0.0, 1.0), Point2(-1.0, 1.75)) == Positive
    ensures Orient2D(Point2(1.0, 0.0), Point2(2.0, -0.25), Point2(-1.0, 1.75)) == Positive
  {
    Orient2DIs(1.0, 0.0, 0.0, 1.0, -1.0, 1.75, Positive);
    Orient2DIs(1.0, 0.0, 2.0, -0.25, -1.0, 1.75, Positive);
  }

  /** The orientations the example above reads, part 5. */
  lemma PlanarR21Case9Orientations5()
    ensures Orient2D(Point2(2.0, -0.5), Point2(0.0, 1.0), Point2(-1.0, 1.75)) == Neutral
  {
    Orient2DIs(2.0, -0.5, 0.0, 1.0, -1.0, 1.75, Neutral);
  }

  /** test/algorithm/src/triangle_triangle.cpp, Triangle_Triangle_2D_R21, are_intersecting (tr, tr_9). */
  lemma PlanarR21Case9SwappedExample()
    ensures TriangleTriangleIntersect(Triangle(Point3(0.0, 1.0, 0.0), Point3(0.0, 0.0, 0.0), Point3(1.0, 0.0, 0.0), TriangleSpecies),
      Triangle(Point3(2.0, -0.5, 0.0), Point3(2.0, -0.25, 0.0), Point3(-1.0, 1.75, 0.0), TriangleSpecies))
  {
    assert FromPoints(Point3(0.0, 1.0, 0.0), Point3(0.0, 0.0, 0.0)) == Vector(0.0, -1.0, 0.0);
    assert FromPoints(Point3(0.0, 1.0, 0.0), Point3(1.0, 0.0, 0.0)) == Vector(1.0, -1.0, 0.0);
    assert VectorProduct(Vector(0.0, -1.0, 0.0), Vector(1.0, -1.0, 0.0)).z == 1.0;
    GroundCoplanar(Triangle(Point3(0.0, 1.0, 0.0), Point3(0.0, 0.0, 0.0), Point3(1.0, 0.0, 0.0), TriangleSpecies),
      Triangle(Point3(2.0, -0.5, 0.0), Point3(2.0, -0.25, 0.0), Point3(-1.0, 1.75, 0.0), TriangleSpecies));
    PlanarR21Case9SwappedOrientations1();
    PlanarR21Case9SwappedOrientations2();
    PlanarR21Case9SwappedOrientations3();
  }

  /** The orientations the example above reads, part 1. */
  lemma PlanarR21Case9SwappedOrientations1()
    ensures Orient2D(Point2(0.0, 1.0), Point2(0.0, 0.0), Point2(1.0, 0.0)) == Positive
    ensures Orient2D(Point2(2.0, -0.5), Point2(2.0, -0.25), Point2(-1.0, 1.75)) == Positive
  {
    Orient2DIs(0.0, 1.0, 0.0, 0.0, 1.0, 0.0, Positive);
    Orient2DIs(2.0, -0.5, 2.0, -0.25, -1.0, 1.75, Positive);
  }

  /** The orientations the example above reads, part 2. */
  lemma PlanarR21Case9SwappedOrientations2()
    ensures Orient2D(Point2(2.0, -0.5), Point2(2.0, -0.25), Point2(0.0, 1.0)) == Positive
    ensures Orient2D(Point2(2.0, -0.25), Point2(-1.0, 1.75), Point2(0.0, 1.0)) == Positive
  {
    Orient2DIs(2.0, -0.5, 2.0, -0.25, 0.0, 1.0, Positive);
    Orient2DIs(2.0, -0.25, -1.0, 1.75, 0.0, 1.0, Positive);
  }

  /** The orientations the example above reads, part 3. */
  lemma PlanarR21Case9SwappedOrientations3()
    ensures Orient2D(Point2(-1.0, 1.75), Point2(2.0, -0.5), Point2(0.0, 1.0)) == Neutral
  {
    Orient2DIs(-1.0, 1.75, 2.0, -0.5, 0.0, 1.0, Neutral);
  }

  /** test/algorithm/src/triangle_triangle.cpp, Triangle_Triangle_2D_R21, are_intersecting (tr_10, tr). */
  lemma PlanarR21Case10Example()
    ensures !TriangleTriangleIntersect(Triangle(Point3(2.0, -0.5, 0.0), Point3(2.0, -0.25, 0.0), Point3(-1.5, 2.25, 0.0), TriangleSpecies),
      Triangle(Point3(0.0, 1.0, 0.0), Point3(0.0, 0.0, 0.0), Point3(1.0, 0.0, 0.0), TriangleSpecies))
  {
    assert FromPoints(Point3(2.0, -0.5, 0.0), Point3(2.0, -0.25, 0.0)) == Vector(0.0, 0.25, 0.0);
    assert FromPoints(Point3(2.0, -0.5, 0.0), Point3(-1.5, 2.25, 0.0)) == Vector(-3.5, 2.75, 0.0);
    assert VectorProduct(Vector(0.0, 0.25, 0.0), Vector(-3.5, 2.75, 0.0)).z == 0.875;
    GroundCoplanar(Triangle(Point3(2.0, -0.5, 0.0), Point3(2.0, -0.25, 0.0), Point3(-1.5, 2.25, 0.0), TriangleSpecies),
      Triangle(Point3(0.0, 1.0, 0.0), Point3(0.0, 0.0, 0.0), Point3(1.0, 0.0, 0.0), TriangleSpecies));
    PlanarR21Case10Orientations1();
    PlanarR21Case10Orientations2();
    PlanarR21Case10Orientations3();
    PlanarR21Case10Orientations4();
    PlanarR21Case10Orientations5();
  }

  /** The orientations the example above reads, part 1. */
  lemma PlanarR21Case10Orientations1()
    ensures Orient2D(Point2(2.0, -0.5), Point2(2.0, -0.25), Point2(-1.5, 2.25)) == Positive
    ensures Orient2D(Point2(0.0, 1.0), Point2(0.0, 0.0), Point2(1.0, 0.0)) == Positive
  {
    Orient2DIs(2.0, -0.5, 2.0, -0.25, -1.5, 2.25, Positive);
    Orient2DIs(0.0, 1.0, 0.0, 0.0, 1.0, 0.0, Positive);
  }

  /** The orientations the example above reads, part 2. */
  lemma PlanarR21Case10Orientations2()
    ensures Orient2D(Point2(0.0, 1.0), Point2(0.0, 0.0), Point2(2.0, -0.5)) == Positive
    ensures Orient2D(Point2(0.0, 0.0), Point2(1.0, 0.0), Point2(2.0, -0.5)) == Negative
  {
    Orient2DIs(0.0, 1.0, 0.0, 0.0, 2.0, -0.5, Positive);
    Orient2DIs(0.0, 0.0, 1.0, 0.0, 2.0, -0.5, Negative);
  }

  /** The orientations the example above reads, part 3. */
  lemma PlanarR21Case10Orientations3()
    ensures Orient2D(Point2(1.0, 0.0), Point2(0.0, 1.0), Point2(2.0, -0.5)) == Negative
    ensures Orient2D(Point2(1.0, 0.0), Point2(0.0, 1.0), Point2(2.0, -0.25)) == Negative
  {
    Orient2DIs(1.0, 0.0, 0.0, 1.0, 2.0, -0.5, Negative);
    Orient2DIs(1.0, 0.0, 0.0, 1.0, 2.0, -0.25, Negative);
  }

  /** The orientations the example above reads, part 4. */
  lemma PlanarR21Case10Orientations4()
    ensures Orient2D(Point2(1.0, 0.0), Point2(0.0, 1.0), Point2(-1.5, 2.25)) == Positive
    ensures Orient2D(Point2(1.0, 0.0), Point2(2.0, -0.25), Point2(-1.5, 2.25)) == Positive
  {
    Orient2DIs(1.0, 0.0, 0.0, 1.0, -1.5, 2.25, Positive);
    Orient2DIs(1.0, 0.0, 2.0, -0.25, -1.5, 2.25, Positive);
  }

  /** The orientations the example above reads, part 5. */
  lemma PlanarR21Case10Orientations5()
    ensures Orient2D(Point2(2.0, -0.5), Point2(0.0, 1.0), Point2(-1.5, 2.25)) == Negative
  {
    Orient2DIs(2.0, -0.5, 0.0, 1.0, -1.5, 2.25, Negative);
  }

  /** test/algorithm/src/triangle_triangle.cpp, Triangle_Triangle_2D_R21, are_intersecting (tr, tr_10). */
  lemma PlanarR21Case10SwappedExample()
    ensures !TriangleTriangleIntersect(Triangle(Point3(0.0, 1.0, 0.0), Point3(0.0, 0.0, 0.0), Point3(1.0, 0.0, 0.0), TriangleSpecies),
      Triangle(Point3(2.0, -0.5, 0.0), Point3(2.0, -0.25, 0.0), Point3(-1.5, 2.25, 0.0), TriangleSpecies))
  {
    assert FromPoints(Point3(0.0, 1.0, 0.0), Point3(0.0, 0.0, 0.0)) == Vector(0.0, -1.0, 0.0);
    assert FromPoints(Point3(0.0, 1.0, 0.0), Point3(1.0, 0.0, 0.0)) == Vector(1.0, -1.0, 0.0);
    assert VectorProduct(Vector(0.0, -1.0, 0.0), Vector(1.0, -1.0, 0.0)).z == 1.0;
    GroundCoplanar(Triangle(Point3(0.0, 1.0, 0.0), Point3(0.0, 0.0, 0.0), Point3(1.0, 0.0, 0.0), TriangleSpecies),
      Triangle(Point3(2.0, -0.5, 0.0), Point3(2.0, -0.25, 0.0), Point3(-1.5, 2.25, 0.0), TriangleSpecies));
    PlanarR21Case10SwappedOrientations1();
    PlanarR21Case10SwappedOrientations2();
    PlanarR21Case10SwappedOrientations3();
    PlanarR21Case10SwappedOrientations4();
  }

  /** The orientations the example above reads, part 1. */
  lemma PlanarR21Case10SwappedOrientations1()
    ensures Orient2D(Point2(0.0, 1.0), Point2(0.0, 0.0), Point2(1.0, 0.0)) == Positive
    ensures Orient2D(Point2(2.0, -0.5), Point2(2.0, -0.25), Point2(-1.5, 2.25)) == Positive
  {
    Orient2DIs(0.0, 1.0, 0.0, 0.0, 1.0, 0.0, Positive);
    Orient2DIs(2.0, -0.5, 2.0, -0.25, -1.5, 2.25, Positive);
  }

  /** The orientations the example above reads, part 2. */
  lemma PlanarR21Case10SwappedOrientations2()
    ensures Orient2D(Point2(2.0, -0.5), Point2(2.0, -0.25), Point2(0.0, 1.0)) == Positive
    ensures Orient2D(Point2(2.0, -0.25), Point2(-1.5, 2.25), Point2(0.0, 1.0)) == Positive
  {
    Orient2DIs(2.0, -0.5, 2.0, -0.25, 0.0, 1.0, Positive);
    Orient2DIs(2.0, -0.25, -1.5, 2.25, 0.0, 1.0, Positive);
  }

  /** The orientations the example above reads, part 3. */
  lemma PlanarR21Case10SwappedOrientations3()
    ensures Orient2D(Point2(-1.5, 2.25), Point2(2.0, -0.5), Point2(0.0, 1.0)) == Negative
    ensures Orient2D(Point2(-1.5, 2.25), Point2(2.0, -0.5), Point2(0.0, 0.0)) == Negative
  {
    Orient2DIs(-1.5, 2.25, 2.0, -0.5, 0.0, 1.0, Negative);
    Orient2DIs(-1.5, 2.25, 2.0, -0.5, 0.0, 0.0, Negative);
  }

  /** The orientations the example above reads, part 4. */
  lemma PlanarR21Case10SwappedOrientations4()
    ensures Orient2D(Point2(-1.5, 2.25), Point2(2.0, -0.5), Point2(1.0, 0.0)) == Negative
  {
    Orient2DIs(-1.5, 2.25, 2.0, -0.5, 1.0, 0.0, Negative);
  }

  /** test/algorithm/src/triangle_triangle.cpp, Triangle_Triangle_2D_R21, are_intersecting (tr_11, tr). */
  lemma PlanarR21Case11Example()
    ensures TriangleTriangleIntersect(Triangle(Point3(2.0, -0.5, 0.0), Point3(2.0, -0.25, 0.0), Point3(-1.0, 0.25, 0.0), TriangleSpecies),
      Triangle(Point3(0.0, 1.0, 0.0), Point3(0.0, 0.0, 0.0), Point3(1.0, 0.0, 0.0), TriangleSpecies))
  {
    assert FromPoints(Point3(2.0, -0.5, 0.0), Point3(2.0, -0.25, 0.0)) == Vector(0.0, 0.25, 0.0);
    assert FromPoints(Point3(2.0, -0.5, 0.0), Point3(-1.0, 0.25, 0.0)) == Vector(-3.0, 0.75, 0.0);
    assert VectorProduct(Vector(0.0, 0.25, 0.0), Vector(-3.0, 0.75, 0.0)).z == 0.75;
    GroundCoplanar(Triangle(Point3(2.0, -0.5, 0.0), Point3(2.0, -0.25, 0.0), Point3(-1.0, 0.25, 0.0), TriangleSpecies),
      Triangle(Point3(0.0, 1.0, 0.0), Point3(0.0, 0.0, 0.0), Point3(1.0, 0.0, 0.0), TriangleSpecies));
    PlanarR21Case11Orientations1();
    PlanarR21Case11Orientations2();
    PlanarR21Case11Orientations3();
    PlanarR21Case11Orientations4();
    PlanarR21Case11Orientations5();
  }

  /** The orientations the example above reads, part 1. */
  lemma PlanarR21Case11Orientations1()
    ensures Orient2D(Point2(2.0, -0.5), Point2(2.0, -0.25), Point2(-1.0, 0.25)) == Positive
    ensures Orient2D(Point2(0.0, 1.0), Point2(0.0, 0.0), Point2(1.0, 0.0)) == Positive
  {
    Orient2DIs(2.0, -0.5, 2.0, -0.25, -1.0, 0.25, Positive);
    Orient2DIs(0.0, 1.0, 0.0, 0.0, 1.0, 0.0, Positive);
  }

  /** The orientations the example above reads, part 2. */
  lemma PlanarR21Case11Orientations2()
    ensures Orient2D(Point2(0.0, 1.0), Point2(0.0, 0.0), Point2(2.0, -0.5)) == Positive
    ensures Orient2D(Point2(0.0, 0.0), Point2(1.0, 0.0), Point2(2.0, -0.5)) == Negative
  {
    Orient2DIs(0.0, 1.0, 0.0, 0.0, 2.0, -0.5, Positive);
    Orient2DIs(0.0, 0.0, 1.0, 0.0, 2.0, -0.5, Negative);
  }

  /** The orientations the example above reads, part 3. */
  lemma PlanarR21Case11Orientations3()
    ensures Orient2D(Point2(1.0, 0.0), Point2(0.0, 1.0), Point2(2.0, -0.5)) == Negative
    ensures Orient2D(Point2(1.0, 0.0), Point2(0.0, 1.0), Point2(2.0, -0.25)) == Negative
  {
    Orient2DIs(1.0, 0.0, 0.0, 1.0, 2.0, -0.5, Negative);
    Orient2DIs(1.0, 0.0, 0.0, 1.0, 2.0, -0.25, Negative);
  }

  /** The orientations the example above reads, part 4. */
  lemma PlanarR21Case11Orientations4()
    ensures Orient2D(Point2(1.0, 0.0), Point2(0.0, 1.0), Point2(-1.0, 0.25)) == Positive
    ensures Orient2D(Point2(1.0, 0.0), Point2(2.0, -0.25), Point2(-1.0, 0.25)) == Negative
  {
    Orient2DIs(1.0, 0.0, 0.0, 1.0, -1.0, 0.25, Positive);
    Orient2DIs(1.0, 0.0, 2.0, -0.25, -1.0, 0.25, Negative);
  }

  /** The orientations the example above reads, part 5. */
  lemma PlanarR21Case11Orientations5()
    ensures Orient2D(Point2(0.0, 0.0), Point2(2.0, -0.25), Point2(-1.0, 0.25)) == Positive
    ensures Orient2D(Point2(0.0, 0.0), Point2(1.0, 0.0), Point2(-1.0, 0.25)) == Positive
  {
    Orient2DIs(0.0, 0.0, 2.0, -0.25, -1.0, 0.25, Positive);
    Orient2DIs(0.0, 0.0, 1.0, 0.0, -1.0, 0.25, Positive);
  }

  /** test/algorithm/src/triangle_triangle.cpp, Triangle_Triangle_2D_R21, are_intersecting (tr, tr_11). */
  lemma PlanarR21Case11SwappedExample()
    ensures TriangleTriangleIntersect(Triangle(Point3(0.0, 1.0, 0.0), Point3(0.0, 0.0, 0.0), Point3(1.0, 0.0, 0.0), TriangleSpecies),
      Triangle(Point3(2.0, -0.5, 0.0), Point3(2.0, -0.25, 0.0), Point3(-1.0, 0.25, 0.0), TriangleSpecies))
  {
    assert FromPoints(Point3(0.0, 1.0, 0.0), Point3(0.0, 0.0, 0.0)) == Vector(0.0, -1.0, 0.0);
    assert FromPoints(Point3(0.0, 1.0, 0.0), Point3(1.0, 0.0, 0.0)) == Vector(1.0, -1.0, 0.0);
    assert VectorProduct(Vector(0.0, -1.0, 0.0), Vector(1.0, -1.0, 0.0)).z == 1.0;
    GroundCoplanar(Triangle(Point3(0.0, 1.0, 0.0), Point3(0.0, 0.0, 0.0), Point3(1.0, 0.0, 0.0), TriangleSpecies),
      Triangle(Point3(2.0, -0.5, 0.0), Point3(2.0, -0.25, 0.0), Point3(-1.0, 0.25, 0.0), TriangleSpecies));
    PlanarR21Case11SwappedOrientations1();
    PlanarR21Case11SwappedOrientations2();
    PlanarR21Case11SwappedOrientations3();
    PlanarR21Case11SwappedOrientations4();
  }

  /** The orientations the example above reads, part 1. */
  lemma PlanarR21Case11SwappedOrientations1()
    ensures Orient2D(Point2(0.0, 1.0), Point2(0.0, 0.0), Point2(1.0, 0.0)) == Positive
    ensures Orient2D(Point2(2.0, -0.5), Point2(2.0, -0.25), Point2(-1.0, 0.25)) == Positive
  {
    Orient2DIs(0.0, 1.0, 0.0, 0.0, 1.0, 0.0, Positive);
    Orient2DIs(2.0, -0.5, 2.0, -0.25, -1.0, 0.25, Positive);
  }

  /** The orientations the example above reads, part 2. */
  lemma PlanarR21Case11SwappedOrientations2()
    ensures Orient2D(Point2(2.0, -0.5), Point2(2.0, -0.25), Point2(0.0, 1.0)) == Positive
    ensures Orient2D(Point2(2.0, -0.25), Point2(-1.0, 0.25), Point2(0.0, 1.0)) == Negative
  {
    Orient2DIs(2.0, -0.5, 2.0, -0.25, 0.0, 1.0, Positive);
    Orient2DIs(2.0, -0.25, -1.0, 0.25, 0.0, 1.0, Negative);
  }

  /** The orientations the example above reads, part 3. */
  lemma PlanarR21Case11SwappedOrientations3()
    ensures Orient2D(Point2(-1.0, 0.25), Point2(2.0, -0.5), Point2(0.0, 1.0)) == Positive
    ensures Orient2D(Point2(2.0, -0.25), Point2(-1.0, 0.25), Point2(0.0, 0.0)) == Positive
  {
    Orient2DIs(-1.0, 0.25, 2.0, -0.5, 0.0, 1.0, Positive);
    Orient2DIs(2.0, -0.25, -1.0, 0.25, 0.0, 0.0, Positive);
  }

  /** The orientations the example above reads, part 4. */
  lemma PlanarR21Case11SwappedOrientations4()
    ensures Orient2D(Point2(0.0, 1.0), Point2(2.0, -0.25), Point2(0.0, 0.0)) == Negative
    ensures Orient2D(Point2(0.0, 1.0), Point2(-1.0, 0.25), Point2(0.0, 0.0)) == Positive
  {
    Orient2DIs(0.0, 1.0, 2.0, -0.25, 0.0, 0.0, Negative);
    Orient2DIs(0.0, 1.0, -1.0, 0.25, 0.0, 0.0, Positive);
  }

  /** test/algorithm/src/triangle_triangle.cpp, Triangle_Triangle_2D_R21, are_intersecting (tr_12, tr). */
  lemma PlanarR21Case12Example()
    ensures TriangleTriangleIntersect(Triangle(Point3(2.0, -0.5, 0.0), Point3(2.0, -0.25, 0.0), Point3(-2.0, 0.25, 0.0), TriangleSpecies),
      Triangle(Point3(0.0, 1.0, 0.0), Point3(0.0, 0.0, 0.0), Point3(1.0, 0.0, 0.0), TriangleSpecies))
  {
    assert FromPoints(Point3(2.0, -0.5, 0.0), Point3(2.0, -0.25, 0.0)) == Vector(0.0, 0.25, 0.0);
    assert FromPoints(Point3(2.0, -0.5, 0.0), Point3(-2.0, 0.25, 0.0)) == Vector(-4.0, 0.75, 0.0);
    assert VectorProduct(Vector(0.0, 0.25, 0.0), Vector(-4.0, 0.75, 0.0)).z == 1.0;
    GroundCoplanar(Triangle(Point3(2.0, -0.5, 0.0), Point3(2.0, -0.25, 0.0), Point3(-2.0, 0.25, 0.0), TriangleSpecies),
      Triangle(Point3(0.0, 1.0, 0.0), Point3(0.0, 0.0, 0.0), Point3(1.0, 0.0, 0.0), TriangleSpecies));
    PlanarR21Case12Orientations1();
    PlanarR21Case12Orientations2();
    PlanarR21Case12Orientations3();
    PlanarR21Case12Orientations4();
    PlanarR21Case12Orientations5();
  }

  /** The orientations the example above reads, part 1. */
  lemma PlanarR21Case12Orientations1()
    ensures Orient2D(Point2(2.0, -0.5), Point2(2.0, -0.25), Point2(-2.0, 0.25)) == Positive
    ensures Orient2D(Point2(0.0, 1.0), Point2(0.0, 0.0), Point2(1.0, 0.0)) == Positive
  {
    Orient2DIs(2.0, -0.5, 2.0, -0.25, -2.0, 0.25, Positive);
    Orient2DIs(0.0, 1.0, 0.0, 0.0, 1.0, 0.0, Positive);
  }

  /** The orientations the example above reads, part 2. */
  lemma PlanarR21Case12Orientations2()
    ensures Orient2D(Point2(0.0, 1.0), Point2(0.0, 0.0), Point2(2.0, -0.5)) == Positive
    ensures Orient2D(Point2(0.0, 0.0), Point2(1.0, 0.0), Point2(2.0, -0.5)) == Negative
  {
    Orient2DIs(0.0, 1.0, 0.0, 0.0, 2.0, -0.5, Positive);
    Orient2DIs(0.0, 0.0, 1.0, 0.0, 2.0, -0.5, Negative);
  }

  /** The orientations the example above reads, part 3. */
  lemma PlanarR21Case12Orientations3()
    ensures Orient2D(Point2(1.0, 0.0), Point2(0.0, 1.0), Point2(2.0, -0.5)) == Negative
    ensures Orient2D(Point2(1.0, 0.0), Point2(0.0, 1.0), Point2(2.0, -0.25)) == Negative
  {
    Orient2DIs(1.0, 0.0, 0.0, 1.0, 2.0, -0.5, Negative);
    Orient2DIs(1.0, 0.0, 0.0, 1.0, 2.0, -0.25, Negative);
  }

  /** The orientations the example above reads, part 4. */
  lemma PlanarR21Case12Orientations4()
    ensures Orient2D(Point2(1.0, 0.0), Point2(0.0, 1.0), Point2(-2.0, 0.25)) == Positive
    ensures Orient2D(Point2(1.0, 0.0), Point2(2.0, -0.25), Point2(-2.0, 0.25)) == Negative
  {
    Orient2DIs(1.0, 0.0, 0.0, 1.0, -2.0, 0.25, Positive);
    Orient2DIs(1.0, 0.0, 2.0, -0.25, -2.0, 0.25, Negative);
  }

  /** The orientations the example above reads, part 5. */
  lemma PlanarR21Case12Orientations5()
    ensures Orient2D(Point2(0.0, 0.0), Point2(2.0, -0.25), Point2(-2.0, 0.25)) == Neutral
    ensures Orient2D(Point2(0.0, 0.0), Point2(1.0, 0.0), Point2(-2.0, 0.25)) == Positive
  {
    Orient2DIs(0.0, 0.0, 2.0, -0.25, -2.0, 0.25, Neutral);
    Orient2DIs(0.0, 0.0, 1.0, 0.0, -2.0, 0.25, Positive);
  }

  /** test/algorithm/src/triangle_triangle.cpp, Triangle_Triangle_2D_R21, are_intersecting (tr, tr_12). */
  lemma PlanarR21Case12SwappedExample()
    ensures TriangleTriangleIntersect(Triangle(Point3(0.0, 1.0, 0.0), Point3(0.0, 0.0, 0.0), Point3(1.0, 0.0, 0.0), TriangleSpecies),
      Triangle(Point3(2.0, -0.5, 0.0), Point3(2.0, -0.25, 0.0), Point3(-2.0, 0.25, 0.0), TriangleSpecies))
  {
    assert FromPoints(Point3(0.0, 1.0, 0.0), Point3(0.0, 0.0, 0.0)) == Vector(0.0, -1.0, 0.0);
    assert FromPoints(Point3(0.0, 1.0, 0.0), Point3(1.0, 0.0, 0.0)) == Vector(1.0, -1.0, 0.0);
    assert VectorProduct(Vector(0.0, -1.0, 0.0), Vector(1.0, -1.0, 0.0)).z == 1.0;
    GroundCoplanar(Triangle(Point3(0.0, 1.0, 0.0), Point3(0.0, 0.0, 0.0), Point3(1.0, 0.0, 0.0), TriangleSpecies),
      Triangle(Point3(2.0, -0.5, 0.0), Point3(2.0, -0.25, 0.0), Point3(-2.0, 0.25, 0.0), TriangleSpecies));
    PlanarR21Case12SwappedOrientations1();
    PlanarR21Case12SwappedOrientations2();
    PlanarR21Case12SwappedOrientations3();
    PlanarR21Case12SwappedOrientations4();
  }

  /** The orientations the example above reads, part 1. */
  lemma PlanarR21Case12SwappedOrientations1()
    ensures Orient2D(Point2(0.0, 1.0), Point2(0.0, 0.0), Point2(1.0, 0.0)) == Positive
    ensures Orient2D(Point2(2.0, -0.5), Point2(2.0, -0.25), Point2(-2.0, 0.25)) == Positive
  {
    Orient2DIs(0.0, 1.0, 0.0, 0.0, 1.0, 0.0, Positive);
    Orient2DIs(2.0, -0.5, 2.0, -0.25, -2.0, 0.25, Positive);
  }

  /** The orientations the example above reads, part 2. */
  lemma PlanarR21Case12SwappedOrientations2()
    ensures Orient2D(Point2(2.0, -0.5), Point2(2.0, -0.25), Point2(0.0, 1.0)) == Positive
    ensures Orient2D(Point2(2.0, -0.25), Point2(-2.0, 0.25), Point2(0.0, 1.0)) == Negative
  {
    Orient2DIs(2.0, -0.5, 2.0, -0.25, 0.0, 1.0, Positive);
    Orient2DIs(2.0, -0.25, -2.0, 0.25, 0.0, 1.0, Negative);
  }

  /** The orientations the example above reads, part 3. */
  lemma PlanarR21Case12SwappedOrientations3()
    ensures Orient2D(Point2(-2.0, 0.25), Point2(2.0, -0.5), Point2(0.0, 1.0)) == Positive
    ensures Orient2D(Point2(2.0, -0.25), Point2(-2.0, 0.25), Point2(0.0, 0.0)) == Neutral
  {
    Orient2DIs(-2.0, 0.25, 2.0, -0.5, 0.0, 1.0, Positive);
    Orient2DIs(2.0, -0.25, -2.0, 0.25, 0.0, 0.0, Neutral);
  }

  /** The orientations the example above reads, part 4. */
  lemma PlanarR21Case12SwappedOrientations4()
    ensures Orient2D(Point2(0.0, 1.0), Point2(2.0, -0.25), Point2(0.0, 0.0)) == Negative
    ensures Orient2D(Point2(0.0, 1.0), Point2(-2.0, 0.25), Point2(0.0, 0.0)) == Positive
  {
    Orient2DIs(0.0, 1.0, 2.0, -0.25, 0.0, 0.0, Negative);
    Orient2DIs(0.0, 1.0, -2.0, 0.25, 0.0, 0.0, Positive);
  }

  /** test/algorithm/src/triangle_triangle.cpp, Triangle_Triangle_2D_R21, are_intersecting (tr_13, tr). */
  lemma PlanarR21Case13Example()
    ensures TriangleTriangleIntersect(Triangle(Point3(2.0, -0.5, 0.0), Point3(2.0, -0.25, 0.0), Point3(0.5, 0.0, 0.0), TriangleSpecies),
      Triangle(Point3(0.0, 1.0, 0.0), Point3(0.0, 0.0, 0.0), Point3(1.0, 0.0, 0.0), TriangleSpecies))
  {
    assert FromPoints(Point3(2.0, -0.5, 0.0), Point3(2.0, -0.25, 0.0)) == Vector(0.0, 0.25, 0.0);
    assert FromPoints(Point3(2.0, -0.5, 0.0), Point3(0.5, 0.0, 0.0)) == Vector(-1.5, 0.5, 0.0);
    assert VectorProduct(Vector(0.0, 0.25, 0.0), Vector(-1.5, 0.5, 0.0)).z == 0.375;
    GroundCoplanar(Triangle(Point3(2.0, -0.5, 0.0), Point3(2.0, -0.25, 0.0), Point3(0.5, 0.0, 0.0), TriangleSpecies),
      Triangle(Point3(0.0, 1.0, 0.0), Point3(0.0, 0.0, 0.0), Point3(1.0, 0.0, 0.0), TriangleSpecies));
    PlanarR21Case13Orientations1();
    PlanarR21Case13Orientations2();
    PlanarR21Case13Orientations3();
    PlanarR21Case13Orientations4();
    PlanarR21Case13Orientations5();
  }

  /** The orientations the example above reads, part 1. */
  lemma PlanarR21Case13Orientations1()
    ensures Orient2D(Point2(2.0, -0.5), Point2(2.0, -0.25), Point2(0.5, 0.0)) == Positive
    ensures Orient2D(Point2(0.0, 1.0), Point2(0.0, 0.0), Point2(1.0, 0.0)) == Positive
  {
    Orient2DIs(2.0, -0.5, 2.0, -0.25, 0.5, 0.0, Positive);
    Orient2DIs(0.0, 1.0, 0.0, 0.0, 1.0, 0.0, Positive);
  }

  /** The orientations the example above reads, part 2. */
  lemma PlanarR21Case13Orientations2()
    ensures Orient2D(Point2(0.0, 1.0), Point2(0.0, 0.0), Point2(2.0, -0.5)) == Positive
    ensures Orient2D(Point2(0.0, 0.0), Point2(1.0, 0.0), Point2(2.0, -0.5)) == Negative
  {
    Orient2DIs(0.0, 1.0, 0.0, 0.0, 2.0, -0.5, Positive);
    Orient2DIs(0.0, 0.0, 1.0, 0.0, 2.0, -0.5, Negative);
  }

  /** The orientations the example above reads, part 3. */
  lemma PlanarR21Case13Orientations3()
    ensures Orient2D(Point2(1.0, 0.0), Point2(0.0, 1.0), Point2(2.0, -0.5)) == Negative
    ensures Orient2D(Point2(1.0, 0.0), Point2(0.0, 1.0), Point2(2.0, -0.25)) == Negative
  {
    Orient2DIs(1.0, 0.0, 0.0, 1.0, 2.0, -0.5, Negative);
    Orient2DIs(1.0, 0.0, 0.0, 1.0, 2.0, -0.25, Negative);
  }

  /** The orientations the example above reads, part 4. */
  lemma PlanarR21Case13Orientations4()
    ensures Orient2D(Point2(1.0, 0.0), Point2(0.0, 1.0), Point2(0.5, 0.0)) == Positive
    ensures Orient2D(Point2(1.0, 0.0), Point2(2.0, -0.25), Point2(0.5, 0.0)) == Negative
  {
    Orient2DIs(1.0, 0.0, 0.0, 1.0, 0.5, 0.0, Positive);
    Orient2DIs(1.0, 0.0, 2.0, -0.25, 0.5, 0.0, Negative);
  }

  /** The orientations the example above reads, part 5. */
  lemma PlanarR21Case13Orientations5()
    ensures Orient2D(Point2(0.0, 0.0), Point2(2.0, -0.25), Point2(0.5, 0.0)) == Positive
    ensures Orient2D(Point2(0.0, 0.0), Point2(1.0, 0.0), Point2(0.5, 0.0)) == Neutral
  {
    Orient2DIs(0.0, 0.0, 2.0, -0.25, 0.5, 0.0, Positive);
    Orient2DIs(0.0, 0.0, 1.0, 0.0, 0.5, 0.0, Neutral);
  }

  /** test/algorithm/src/triangle_triangle.cpp, Triangle_Triangle_2D_R21, are_intersecting (tr, tr_13). */
  lemma PlanarR21Case13SwappedExample()
    ensures TriangleTriangleIntersect(Triangle(Point3(0.0, 1.0, 0.0), Point3(0.0, 0.0, 0.0), Point3(1.0, 0.0, 0.0), TriangleSpecies),
      Triangle(Point3(2.0, -0.5, 0.0), Point3(2.0, -0.25, 0.0), Point3(0.5, 0.0, 0.0), TriangleSpecies))
  {
    assert FromPoints(Point3(0.0, 1.0, 0.0), Point3(0.0, 0.0, 0.0)) == Vector(0.0, -1.0, 0.0);
    assert FromPoints(Point3(0.0, 1.0, 0.0), Point3(1.0, 0.0, 0.0)) == Vector(1.0, -1.0, 0.0);
    assert VectorProduct(Vector(0.0, -1.0, 0.0), Vector(1.0, -1.0, 0.0)).z == 1.0;
    GroundCoplanar(Triangle(Point3(0.0, 1.0, 0.0), Point3(0.0, 0.0, 0.0), Point3(1.0, 0.0, 0.0), TriangleSpecies),
      Triangle(Point3(2.0, -0.5, 0.0), Point3(2.0, -0.25, 0.0), Point3(0.5, 0.0, 0.0), TriangleSpecies));
    PlanarR21Case13SwappedOrientations1();
    PlanarR21Case13SwappedOrientations2();
    PlanarR21Case13SwappedOrientations3();
    PlanarR21Case13SwappedOrientations4();
    PlanarR21Case13SwappedOrientations5();
  }

  /** The orientations the example above reads, part 1. */
  lemma PlanarR21Case13SwappedOrientations1()
    ensures Orient2D(Point2(0.0, 1.0), Point2(0.0, 0.0), Point2(1.0, 0.0)) == Positive
    ensures Orient2D(Point2(2.0, -0.5), Point2(2.0, -0.25), Point2(0.5, 0.0)) == Positive
  {
    Orient2DIs(0.0, 1.0, 0.0, 0.0, 1.0, 0.0, Positive);
    Orient2DIs(2.0, -0.5, 2.0, -0.25, 0.5, 0.0, Positive);
  }

  /** The orientations the example above reads, part 2. */
  lemma PlanarR21Case13SwappedOrientations2()
    ensures Orient2D(Point2(2.0, -0.5), Point2(2.0, -0.25), Point2(0.0, 1.0)) == Positive
    ensures Orient2D(Point2(2.0, -0.25), Point2(0.5, 0.0), Point2(0.0, 1.0)) == Negative
  {
    Orient2DIs(2.0, -0.5, 2.0, -0.25, 0.0, 1.0, Positive);
    Orient2DIs(2.0, -0.25, 0.5, 0.0, 0.0, 1.0, Negative);
  }

  /** The orientations the example above reads, part 3. */
  lemma PlanarR21Case13SwappedOrientations3()
    ensures Orient2D(Point2(0.5, 0.0), Point2(2.0, -0.5), Point2(0.0, 1.0)) == Positive
    ensures Orient2D(Point2(2.0, -0.25), Point2(0.5, 0.0), Point2(0.0, 0.0)) == Positive
  {
    Orient2DIs(0.5, 0.0, 2.0, -0.5, 0.0, 1.0, Positive);
    Orient2DIs(2.0, -0.25, 0.5, 0.0, 0.0, 0.0, Positive);
  }

  /** The orientations the example above reads, part 4. */
  lemma PlanarR21Case13SwappedOrientations4()
    ensures Orient2D(Point2(0.0, 1.0), Point2(2.0, -0.25), Point2(0.0, 0.0)) == Negative
    ensures Orient2D(Point2(0.0, 1.0), Point2(0.5, 0.0), Point2(0.0, 0.0)) == Negative
  {
    Orient2DIs(0.0, 1.0, 2.0, -0.25, 0.0, 0.0, Negative);
    Orient2DIs(0.0, 1.0, 0.5, 0.0, 0.0, 0.0, Negative);
  }

  /** The orientations the example above reads, part 5. */
  lemma PlanarR21Case13SwappedOrientations5()
    ensures Orient2D(Point2(0.0, 1.0), Point2(0.5, 0.0), Point2(1.0, 0.0)) == Positive
    ensures Orient2D(Point2(0.0, 0.0), Point2(0.5, 0.0), Point2(1.0, 0.0)) == Neutral
  {
    Orient2DIs(0.0, 1.0, 0.5, 0.0, 1.0, 0.0, Positive);
    Orient2DIs(0.0, 0.0, 0.5, 0.0, 1.0, 0.0, Neutral);
  }

  /** test/algorithm/src/triangle_triangle.cpp, Triangle_Triangle_2D_R21, are_intersecting (tr_14, tr). */
  lemma PlanarR21Case14Example()
    ensures TriangleTriangleIntersect(Triangle(Point3(2.0, -0.5, 0.0), Point3(2.0, -0.25, 0.0), Point3(0.0, 0.0, 0.0), TriangleSpecies),
      Triangle(Point3(0.0, 1.0, 0.0), Point3(0.0, 0.0, 0.0), Point3(1.0, 0.0, 0.0), TriangleSpecies))
  {
    assert FromPoints(Point3(2.0, -0.5, 0.0), Point3(2.0, -0.25, 0.0)) == Vector(0.0, 0.25, 0.0);
    assert FromPoints(Point3(2.0, -0.5, 0.0), Point3(0.0, 0.0, 0.0)) == Vector(-2.0, 0.5, 0.0);
    assert VectorProduct(Vector(0.0, 0.25, 0.0), Vector(-2.0, 0.5, 0.0)).z == 0.5;
    GroundCoplanar(Triangle(Point3(2.0, -0.5, 0.0), Point3(2.0, -0.25, 0.0), Point3(0.0, 0.0, 0.0), TriangleSpecies),
      Triangle(Point3(0.0, 1.0, 0.0), Point3(0.0, 0.0, 0.0), Point3(1.0, 0.0, 0.0), TriangleSpecies));
    PlanarR21Case14Orientations1();
    PlanarR21Case14Orientations2();
    PlanarR21Case14Orientations3();
    PlanarR21Case14Orientations4();
    PlanarR21Case14Orientations5();
  }

  /** The orientations the example above reads, part 1. */
  lemma PlanarR21Case14Orientations1()
    ensures Orient2D(Point2(2.0, -0.5), Point2(2.0, -0.25), Point2(0.0, 0.0)) == Positive
    ensures Orient2D(Point2(0.0, 1.0), Point2(0.0, 0.0), Point2(1.0, 0.0)) == Positive
  {
    Orient2DIs(2.0, -0.5, 2.0, -0.25, 0.0, 0.0, Positive);
    Orient2DIs(0.0, 1.0, 0.0, 0.0, 1.0, 0.0, Positive);
  }

  /** The orientations the example above reads, part 2. */
  lemma PlanarR21Case14Orientations2()
    ensures Orient2D(Point2(0.0, 1.0), Point2(0.0, 0.0), Point2(2.0, -0.5)) == Positive
    ensures Orient2D(Point2(0.0, 0.0), Point2(1.0, 0.0), Point2(2.0, -0.5)) == Negative
  {
    Orient2DIs(0.0, 1.0, 0.0, 0.0, 2.0, -0.5, Positive);
    Orient2DIs(0.0, 0.0, 1.0, 0.0, 2.0, -0.5, Negative);
  }

  /** The orientations the example above reads, part 3. */
  lemma PlanarR21Case14Orientations3()
    ensures Orient2D(Point2(1.0, 0.0), Point2(0.0, 1.0), Point2(2.0, -0.5)) == Negative
    ensures Orient2D(Point2(1.0, 0.0), Point2(0.0, 1.0), Point2(2.0, -0.25)) == Negative
  {
    Orient2DIs(1.0, 0.0, 0.0, 1.0, 2.0, -0.5, Negative);
    Orient2DIs(1.0, 0.0, 0.0, 1.0, 2.0, -0.25, Negative);
  }

  /** The orientations the example above reads, part 4. */
  lemma PlanarR21Case14Orientations4()
    ensures Orient2D(Point2(1.0, 0.0), Point2(0.0, 1.0), Point2(0.0, 0.0)) == Positive
    ensures Orient2D(Point2(1.0, 0.0), Point2(2.0, -0.25), Point2(0.0, 0.0)) == Negative
  {
    Orient2DIs(1.0, 0.0, 0.0, 1.0, 0.0, 0.0, Positive);
    Orient2DIs(1.0, 0.0, 2.0, -0.25, 0.0, 0.0, Negative);
  }

  /** The orientations the example above reads, part 5. */
  lemma PlanarR21Case14Orientations5()
    ensures Orient2D(Point2(0.0, 0.0), Point2(2.0, -0.25), Point2(0.0, 0.0)) == Neutral
    ensures Orient2D(Point2(0.0, 0.0), Point2(1.0, 0.0), Point2(0.0, 0.0)) == Neutral
  {
    Orient2DIs(0.0, 0.0, 2.0, -0.25, 0.0, 0.0, Neutral);
    Orient2DIs(0.0, 0.0, 1.0, 0.0, 0.0, 0.0, Neutral);
  }

  /** test/algorithm/src/triangle_triangle.cpp, Triangle_Triangle_2D_R21, are_intersecting (tr, tr_14). */
  lemma PlanarR21Case14SwappedExample()
    ensures TriangleTriangleIntersect(Triangle(Point3(0.0, 1.0, 0.0), Point3(0.0, 0.0, 0.0), Point3(1.0, 0.0, 0.0), TriangleSpecies),
      Triangle(Point3(2.0, -0.5, 0.0), Point3(2.0, -0.25, 0.0), Point3(0.0, 0.0, 0.0), TriangleSpecies))
  {
    assert FromPoints(Point3(0.0, 1.0, 0.0), Point3(0.0, 0.0, 0.0)) == Vector(0.0, -1.0, 0.0);
    assert FromPoints(Point3(0.0, 1.0, 0.0), Point3(1.0, 0.0, 0.0)) == Vector(1.0, -1.0, 0.0);
    assert VectorProduct(Vector(0.0, -1.0, 0.0), Vector(1.0, -1.0, 0.0)).z == 1.0;
    GroundCoplanar(Triangle(Point3(0.0, 1.0, 0.0), Point3(0.0, 0.0, 0.0), Point3(1.0, 0.0, 0.0), TriangleSpecies),
      Triangle(Point3(2.0, -0.5, 0.0), Point3(2.0, -0.25, 0.0), Point3(0.0, 0.0, 0.0), TriangleSpecies));
    PlanarR21Case14SwappedOrientations1();
    PlanarR21Case14SwappedOrientations2();
    PlanarR21Case14SwappedOrientations3();
    PlanarR21Case14SwappedOrientations4();
  }

  /** The orientations the example above reads, part 1. */
  lemma PlanarR21Case14SwappedOrientations1()
    ensures Orient2D(Point2(0.0, 1.0), Point2(0.0, 0.0), Point2(1.0, 0.0)) == Positive
    ensures Orient2D(Point2(2.0, -0.5), Point2(2.0, -0.25), Point2(0.0, 0.0)) == Positive
  {
    Orient2DIs(0.0, 1.0, 0.0, 0.0, 1.0, 0.0, Positive);
    Orient2DIs(2.0, -0.5, 2.0, -0.25, 0.0, 0.0, Positive);
  }

  /** The orientations the example above reads, part 2. */
  lemma PlanarR21Case14SwappedOrientations2()
    ensures Orient2D(Point2(2.0, -0.5), Point2(2.0, -0.25), Point2(0.0, 1.0)) == Positive
    ensures Orient2D(Point2(2.0, -0.25), Point2(0.0, 0.0), Point2(0.0, 1.0)) == Negative
  {
    Orient2DIs(2.0, -0.5, 2.0, -0.25, 0.0, 1.0, Positive);
    Orient2DIs(2.0, -0.25, 0.0, 0.0, 0.0, 1.0, Negative);
  }

  /** The orientations the example above reads, part 3. */
  lemma PlanarR21Case14SwappedOrientations3()
    ensures Orient2D(Point2(0.0, 0.0), Point2(2.0, -0.5), Point2(0.0, 1.0)) == Positive
    ensures Orient2D(Point2(2.0, -0.25), Point2(0.0, 0.0), Point2(0.0, 0.0)) == Neutral
  {
    Orient2DIs(0.0, 0.0, 2.0, -0.5, 0.0, 1.0, Positive);
    Orient2DIs(2.0, -0.25, 0.0, 0.0, 0.0, 0.0, Neutral);
  }

  /** The orientations the example above reads, part 4. */
  lemma PlanarR21Case14SwappedOrientations4()
    ensures Orient2D(Point2(0.0, 1.0), Point2(2.0, -0.25), Point2(0.0, 0.0)) == Negative
    ensures Orient2D(Point2(0.0, 1.0), Point2(0.0, 0.0), Point2(0.0, 0.0)) == Neutral
  {
    Orient2DIs(0.0, 1.0, 2.0, -0.25, 0.0, 0.0, Negative);
    Orient2DIs(0.0, 1.0, 0.0, 0.0, 0.0, 0.0, Neutral);
  }

  /** test/algorithm/src/triangle_triangle.cpp, Triangle_Triangle_2D_R21, are_intersecting (tr_15, tr). */
  lemma PlanarR21Case15Example()
    ensures !TriangleTriangleIntersect(Triangle(Point3(2.0, -0.5, 0.0), Point3(2.0, -0.25, 0.0), Point3(-2.0, 0.125, 0.0), TriangleSpecies),
      Triangle(Point3(0.0, 1.0, 0.0), Point3(0.0, 0.0, 0.0), Point3(1.0, 0.0, 0.0), TriangleSpecies))
  {
    assert FromPoints(Point3(2.0, -0.5, 0.0), Point3(2.0, -0.25, 0.0)) == Vector(0.0, 0.25, 0.0);
    assert FromPoints(Point3(2.0, -0.5, 0.0), Point3(-2.0, 0.125, 0.0)) == Vector(-4.0, 0.625, 0.0);
    assert VectorProduct(Vector(0.0, 0.25, 0.0), Vector(-4.0, 0.625, 0.0)).z == 1.0;
    GroundCoplanar(Triangle(Point3(2.0, -0.5, 0.0), Point3(2.0, -0.25, 0.0), Point3(-2.0, 0.125, 0.0), TriangleSpecies),
      Triangle(Point3(0.0, 1.0, 0.0), Point3(0.0, 0.0, 0.0), Point3(1.0, 0.0, 0.0), TriangleSpecies));
    PlanarR21Case15Orientations1();
    PlanarR21Case15Orientations2();
    PlanarR21Case15Orientations3();
    PlanarR21Case15Orientations4();
    PlanarR21Case15Orientations5();
  }

  /** The orientations the example above reads, part 1. */
  lemma PlanarR21Case15Orientations1()
    ensures Orient2D(Point2(2.0, -0.5), Point2(2.0, -0.25), Point2(-2.0, 0.125)) == Positive
    ensures Orient2D(Point2(0.0, 1.0), Point2(0.0, 0.0), Point2(1.0, 0.0)) == Positive
  {
    Orient2DIs(2.0, -0.5, 2.0, -0.25, -2.0, 0.125, Positive);
    Orient2DIs(0.0, 1.0, 0.0, 0.0, 1.0, 0.0, Positive);
  }

  /** The orientations the example above reads, part 2. */
  lemma PlanarR21Case15Orientations2()
    ensures Orient2D(Point2(0.0, 1.0), Point2(0.0, 0.0), Point2(2.0, -0.5)) == Positive
    ensures Orient2D(Point2(0.0, 0.0), Point2(1.0, 0.0), Point2(2.0, -0.5)) == Negative
  {
    Orient2DIs(0.0, 1.0, 0.0, 0.0, 2.0, -0.5, Positive);
    Orient2DIs(0.0, 0.0, 1.0, 0.0, 2.0, -0.5, Negative);
  }

  /** The orientations the example above reads, part 3. */
  lemma PlanarR21Case15Orientations3()
    ensures Orient2D(Point2(1.0, 0.0), Point2(0.0, 1.0), Point2(2.0, -0.5)) == Negative
    ensures Orient2D(Point2(1.0, 0.0), Point2(0.0, 1.0), Point2(2.0, -0.25)) == Negative
  {
    Orient2DIs(1.0, 0.0, 0.0, 1.0, 2.0, -0.5, Negative);
    Orient2DIs(1.0, 0.0, 0.0, 1.0, 2.0, -0.25, Negative);
  }

  /** The orientations the example above reads, part 4. */
  lemma PlanarR21Case15Orientations4()
    ensures Orient2D(Point2(1.0, 0.0), Point2(0.0, 1.0), Point2(-2.0, 0.125)) == Positive
    ensures Orient2D(Point2(1.0, 0.0), Point2(2.0, -0.25), Point2(-2.0, 0.125)) == Negative
  {
    Orient2DIs(1.0, 0.0, 0.0, 1.0, -2.0, 0.125, Positive);
    Orient2DIs(1.0, 0.0, 2.0, -0.25, -2.0, 0.125, Negative);
  }

  /** The orientations the example above reads, part 5. */
  lemma PlanarR21Case15Orientations5()
    ensures Orient2D(Point2(0.0, 0.0), Point2(2.0, -0.25), Point2(-2.0, 0.125)) == Negative
  {
    Orient2DIs(0.0, 0.0, 2.0, -0.25, -2.0, 0.125, Negative);
  }

  /** test/algorithm/src/triangle_triangle.cpp, Triangle_Triangle_2D_R21, are_intersecting (tr, tr_15). */
  lemma PlanarR21Case15SwappedExample()
    ensures !TriangleTriangleIntersect(Triangle(Point3(0.0, 1.0, 0.0), Point3(0.0, 0.0, 0.0), Point3(1.0, 0.0, 0.0), TriangleSpecies),
      Triangle(Point3(2.0, -0.5, 0.0), Point3(2.0, -0.25, 0.0), Point3(-2.0, 0.125, 0.0), TriangleSpecies))
  {
    assert FromPoints(Point3(0.0, 1.0, 0.0), Point3(0.0, 0.0, 0.0)) == Vector(0.0, -1.0, 0.0);
    assert FromPoints(Point3(0.0, 1.0, 0.0), Point3(1.0, 0.0, 0.0)) == Vector(1.0, -1.0, 0.0);
    assert VectorProduct(Vector(0.0, -1.0, 0.0), Vector(1.0, -1.0, 0.0)).z == 1.0;
    GroundCoplanar(Triangle(Point3(0.0, 1.0, 0.0), Point3(0.0, 0.0, 0.0), Point3(1.0, 0.0, 0.0), TriangleSpecies),
      Triangle(Point3(2.0, -0.5, 0.0), Point3(2.0, -0.25, 0.0), Point3(-2.0, 0.125, 0.0), TriangleSpecies));
    PlanarR21Case15SwappedOrientations1();
    PlanarR21Case15SwappedOrientations2();
    PlanarR21Case15SwappedOrientations3();
    PlanarR21Case15SwappedOrientations4();
  }

  /** The orientations the example above reads, part 1. */
  lemma PlanarR21Case15SwappedOrientations1()
    ensures Orient2D(Point2(0.0, 1.0), Point2(0.0, 0.0), Point2(1.0, 0.0)) == Positive
    ensures Orient2D(Point2(2.0, -0.5), Point2(2.0, -0.25), Point2(-2.0, 0.125)) == Positive
  {
    Orient2DIs(0.0, 1.0, 0.0, 0.0, 1.0, 0.0, Positive);
    Orient2DIs(2.0, -0.5, 2.0, -0.25, -2.0, 0.125, Positive);
  }

  /** The orientations the example above reads, part 2. */
  lemma PlanarR21Case15SwappedOrientations2()
    ensures Orient2D(Point2(2.0, -0.5), Point2(2.0, -0.25), Point2(0.0, 1.0)) == Positive
    ensures Orient2D(Point2(2.0, -0.25), Point2(-2.0, 0.125), Point2(0.0, 1.0)) == Negative
  {
    Orient2DIs(2.0, -0.5, 2.0, -0.25, 0.0, 1.0, Positive);
    Orient2DIs(2.0, -0.25, -2.0, 0.125, 0.0, 1.0, Negative);
  }

  /** The orientations the example above reads, part 3. */
  lemma PlanarR21Case15SwappedOrientations3()
    ensures Orient2D(Point2(-2.0, 0.125), Point2(2.0, -0.5), Point2(0.0, 1.0)) == Positive
    ensures Orient2D(Point2(2.0, -0.25), Point2(-2.0, 0.125), Point2(0.0, 0.0)) == Negative
  {
    Orient2DIs(-2.0, 0.125, 2.0, -0.5, 0.0, 1.0, Positive);
    Orient2DIs(2.0, -0.25, -2.0, 0.125, 0.0, 0.0, Negative);
  }

  /** The orientations the example above reads, part 4. */
  lemma PlanarR21Case15SwappedOrientations4()
    ensures Orient2D(Point2(2.0, -0.25), Point2(-2.0, 0.125), Point2(1.0, 0.0)) == Negative
  {
    Orient2DIs(2.0, -0.25, -2.0, 0.125, 1.0, 0.0, Negative);
  }

  /** test/algorithm/src/triangle_triangle.cpp, Triangle_Triangle_2D_R21, are_intersecting (tr_16, tr). */
  lemma PlanarR21Case16Example()
    ensures !TriangleTriangleIntersect(Triangle(Point3(2.0, -0.5, 0.0), Point3(2.0, -0.25, 0.0), Point3(1.0, 0.0625, 0.0), TriangleSpecies),
      Triangle(Point3(0.0, 1.0, 0.0), Point3(0.0, 0.0, 0.0), Point3(1.0, 0.0, 0.0), TriangleSpecies))
  {
    assert FromPoints(Point3(2.0, -0.5, 0.0), Point3(2.0, -0.25, 0.0)) == Vector(0.0, 0.25, 0.0);
    assert FromPoints(Point3(2.0, -0.5, 0.0), Point3(1.0, 0.0625, 0.0)) == Vector(-1.0, 0.5625, 0.0);
    assert VectorProduct(Vector(0.0, 0.25, 0.0), Vector(-1.0, 0.5625, 0.0)).z == 0.25;
    GroundCoplanar(Triangle(Point3(2.0, -0.5, 0.0), Point3(2.0, -0.25, 0.0), Point3(1.0, 0.0625, 0.0), TriangleSpecies),
      Triangle(Point3(0.0, 1.0, 0.0), Point3(0.0, 0.0, 0.0), Point3(1.0, 0.0, 0.0), TriangleSpecies));
    PlanarR21Case16Orientations1();
    PlanarR21Case16Orientations2();
    PlanarR21Case16Orientations3();
    PlanarR21Case16Orientations4();
  }

  /** The orientations the example above reads, part 1. */
  lemma PlanarR21Case16Orientations1()
    ensures Orient2D(Point2(2.0, -0.5), Point2(2.0, -0.25), Point2(1.0, 0.0625)) == Positive
    ensures Orient2D(Point2(0.0, 1.0), Point2(0.0, 0.0), Point2(1.0, 0.0)) == Positive
  {
    Orient2DIs(2.0, -0.5, 2.0, -0.25, 1.0, 0.0625, Positive);
    Orient2DIs(0.0, 1.0, 0.0, 0.0, 1.0, 0.0, Positive);
  }

  /** The orientations the example above reads, part 2. */
  lemma PlanarR21Case16Orientations2()
    ensures Orient2D(Point2(0.0, 1.0), Point2(0.0, 0.0), Point2(2.0, -0.5)) == Positive
    ensures Orient2D(Point2(0.0, 0.0), Point2(1.0, 0.0), Point2(2.0, -0.5)) == Negative
  {
    Orient2DIs(0.0, 1.0, 0.0, 0.0, 2.0, -0.5, Positive);
    Orient2DIs(0.0, 0.0, 1.0, 0.0, 2.0, -0.5, Negative);
  }

  /** The orientations the example above reads, part 3. */
  lemma PlanarR21Case16Orientations3()
    ensures Orient2D(Point2(1.0, 0.0), Point2(0.0, 1.0), Point2(2.0, -0.5)) == Negative
    ensures Orient2D(Point2(1.0, 0.0), Point2(0.0, 1.0), Point2(2.0, -0.25)) == Negative
  {
    Orient2DIs(1.0, 0.0, 0.0, 1.0, 2.0, -0.5, Negative);
    Orient2DIs(1.0, 0.0, 0.0, 1.0, 2.0, -0.25, Negative);
  }

  /** The orientations the example above reads, part 4. */
  lemma PlanarR21Case16Orientations4()
    ensures Orient2D(Point2(1.0, 0.0), Point2(0.0, 1.0), Point2(1.0, 0.0625)) == Negative
  {
    Orient2DIs(1.0, 0.0, 0.0, 1.0, 1.0, 0.0625, Negative);
  }

  /** test/algorithm/src/triangle_triangle.cpp, Triangle_Triangle_2D_R21, are_intersecting (tr, tr_16). */
  lemma PlanarR21Case16SwappedExample()
    ensures !TriangleTriangleIntersect(Triangle(Point3(0.0, 1.0, 0.0), Point3(0.0, 0.0, 0.0), Point3(1.0, 0.0, 0.0), TriangleSpecies),
      Triangle(Point3(2.0, -0.5, 0.0), Point3(2.0, -0.25, 0.0), Point3(1.0, 0.0625, 0.0), TriangleSpecies))
  {
    assert FromPoints(Point3(0.0, 1.0, 0.0), Point3(0.0, 0.0, 0.0)) == Vector(0.0, -1.0, 0.0);
    assert FromPoints(Point3(0.0, 1.0, 0.0), Point3(1.0, 0.0, 0.0)) == Vector(1.0, -1.0, 0.0);
    assert VectorProduct(Vector(0.0, -1.0, 0.0), Vector(1.0, -1.0, 0.0)).z == 1.0;
    GroundCoplanar(Triangle(Point3(0.0, 1.0, 0.0), Point3(0.0, 0.0, 0.0), Point3(1.0, 0.0, 0.0), TriangleSpecies),
      Triangle(Point3(2.0, -0.5, 0.0), Point3(2.0, -0.25, 0.0), Point3(1.0, 0.0625, 0.0), TriangleSpecies));
    PlanarR21Case16SwappedOrientations1();
    PlanarR21Case16SwappedOrientations2();
    PlanarR21Case16SwappedOrientations3();
    PlanarR21Case16SwappedOrientations4();
    PlanarR21Case16SwappedOrientations5();
  }

  /** The orientations the example above reads, part 1. */
  lemma PlanarR21Case16SwappedOrientations1()
    ensures Orient2D(Point2(0.0, 1.0), Point2(0.0, 0.0), Point2(1.0, 0.0)) == Positive
    ensures Orient2D(Point2(2.0, -0.5), Point2(2.0, -0.25), Point2(1.0, 0.0625)) == Positive
  {
    Orient2DIs(0.0, 1.0, 0.0, 0.0, 1.0, 0.0, Positive);
    Orient2DIs(2.0, -0.5, 2.0, -0.25, 1.0, 0.0625, Positive);
  }

  /** The orientations the example above reads, part 2. */
  lemma PlanarR21Case16SwappedOrientations2()
    ensures Orient2D(Point2(2.0, -0.5), Point2(2.0, -0.25), Point2(0.0, 1.0)) == Positive
    ensures Orient2D(Point2(2.0, -0.25), Point2(1.0, 0.0625), Point2(0.0, 1.0)) == Negative
  {
    Orient2DIs(2.0, -0.5, 2.0, -0.25, 0.0, 1.0, Positive);
    Orient2DIs(2.0, -0.25, 1.0, 0.0625, 0.0, 1.0, Negative);
  }

  /** The orientations the example above reads, part 3. */
  lemma PlanarR21Case16SwappedOrientations3()
    ensures Orient2D(Point2(1.0, 0.0625), Point2(2.0, -0.5), Point2(0.0, 1.0)) == Positive
    ensures Orient2D(Point2(2.0, -0.25), Point2(1.0, 0.0625), Point2(0.0, 0.0)) == Positive
  {
    Orient2DIs(1.0, 0.0625, 2.0, -0.5, 0.0, 1.0, Positive);
    Orient2DIs(2.0, -0.25, 1.0, 0.0625, 0.0, 0.0, Positive);
  }

  /** The orientations the example above reads, part 4. */
  lemma PlanarR21Case16SwappedOrientations4()
    ensures Orient2D(Point2(0.0, 1.0), Point2(2.0, -0.25), Point2(0.0, 0.0)) == Negative
    ensures Orient2D(Point2(0.0, 1.0), Point2(1.0, 0.0625), Point2(0.0, 0.0)) == Negative
  {
    Orient2DIs(0.0, 1.0, 2.0, -0.25, 0.0, 0.0, Negative);
    Orient2DIs(0.0, 1.0, 1.0, 0.0625, 0.0, 0.0, Negative);
  }

  /** The orientations the example above reads, part 5. */
  lemma PlanarR21Case16SwappedOrientations5()
    ensures Orient2D(Point2(0.0, 1.0), Point2(1.0, 0.0625), Point2(1.0, 0.0)) == Negative
  {
    Orient2DIs(0.0, 1.0, 1.0, 0.0625, 1.0, 0.0, Negative);
  }

  /** test/algorithm/src/triangle_triangle.cpp, Triangle_Triangle_2D_R21, are_intersecting (tr_17, tr). */
  lemma PlanarR21Case17Example()
    ensures !TriangleTriangleIntersect(Triangle(Point3(2.0, -0.5, 0.0), Point3(2.0, -0.25, 0.0), Point3(1.0, 0.125, 0.0), TriangleSpecies),
      Triangle(Point3(0.0, 1.0, 0.0), Point3(0.0, 0.0, 0.0), Point3(1.0, 0.0, 0.0), TriangleSpecies))
  {
    assert FromPoints(Point3(2.0, -0.5, 0.0), Point3(2.0, -0.25, 0.0)) == Vector(0.0, 0.25, 0.0);
    assert FromPoints(Point3(2.0, -0.5, 0.0), Point3(1.0, 0.125, 0.0)) == Vector(-1.0, 0.625, 0.0);
    assert VectorProduct(Vector(0.0, 0.25, 0.0), Vector(-1.0, 0.625, 0.0)).z == 0.25;
    GroundCoplanar(Triangle(Point3(2.0, -0.5, 0.0), Point3(2.0, -0.25, 0.0), Point3(1.0, 0.125, 0.0), TriangleSpecies),
      Triangle(Point3(0.0, 1.0, 0.0), Point3(0.0, 0.0, 0.0), Point3(1.0, 0.0, 0.0), TriangleSpecies));
    PlanarR21Case17Orientations1();
    PlanarR21Case17Orientations2();
    PlanarR21Case17Orientations3();
    PlanarR21Case17Orientations4();
  }

  /** The orientations the example above reads, part 1. */
  lemma PlanarR21Case17Orientations1()
    ensures Orient2D(Point2(2.0, -0.5), Point2(2.0, -0.25), Point2(1.0, 0.125)) == Positive
    ensures Orient2D(Point2(0.0, 1.0), Point2(0.0, 0.0), Point2(1.0, 0.0)) == Positive
  {
    Orient2DIs(2.0, -0.5, 2.0, -0.25, 1.0, 0.125, Positive);
    Orient2DIs(0.0, 1.0, 0.0, 0.0, 1.0, 0.0, Positive);
  }

  /** The orientations the example above reads, part 2. */
  lemma PlanarR21Case17Orientations2()
    ensures Orient2D(Point2(0.0, 1.0), Point2(0.0, 0.0), Point2(2.0, -0.5)) == Positive
    ensures Orient2D(Point2(0.0, 0.0), Point2(1.0, 0.0), Point2(2.0, -0.5)) == Negative
  {
    Orient2DIs(0.0, 1.0, 0.0, 0.0, 2.0, -0.5, Positive);
    Orient2DIs(0.0, 0.0, 1.0, 0.0, 2.0, -0.5, Negative);
  }

  /** The orientations the example above reads, part 3. */
  lemma PlanarR21Case17Orientations3()
    ensures Orient2D(Point2(1.0, 0.0), Point2(0.0, 1.0), Point2(2.0, -0.5)) == Negative
    ensures Orient2D(Point2(1.0, 0.0), Point2(0.0, 1.0), Point2(2.0, -0.25)) == Negative
  {
    Orient2DIs(1.0, 0.0, 0.0, 1.0, 2.0, -0.5, Negative);
    Orient2DIs(1.0, 0.0, 0.0, 1.0, 2.0, -0.25, Negative);
  }

  /** The orientations the example above reads, part 4. */
  lemma PlanarR21Case17Orientations4()
    ensures Orient2D(Point2(1.0, 0.0), Point2(0.0, 1.0), Point2(1.0, 0.125)) == Negative
  {
    Orient2DIs(1.0, 0.0, 0.0, 1.0, 1.0, 0.125, Negative);
  }

  /** test/algorithm/src/triangle_triangle.cpp, Triangle_Triangle_2D_R21, are_intersecting (tr, tr_17). */
  lemma PlanarR21Case17SwappedExample()
    ensures !TriangleTriangleIntersect(Triangle(Point3(0.0, 1.0, 0.0), Point3(0.0, 0.0, 0.0), Point3(1.0, 0.0, 0.0), TriangleSpecies),
      Triangle(Point3(2.0, -0.5, 0.0), Point3(2.0, -0.25, 0.0), Point3(1.0, 0.125, 0.0), TriangleSpecies))
  {
    assert FromPoints(Point3(0.0, 1.0, 0.0), Point3(0.0, 0.0, 0.0)) == Vector(0.0, -1.0, 0.0);
    assert FromPoints(Point3(0.0, 1.0, 0.0), Point3(1.0, 0.0, 0.0)) == Vector(1.0, -1.0, 0.0);
    assert VectorProduct(Vector(0.0, -1.0, 0.0), Vector(1.0, -1.0, 0.0)).z == 1.0;
    GroundCoplanar(Triangle(Point3(0.0, 1.0, 0.0), Point3(0.0, 0.0, 0.0), Point3(1.0, 0.0, 0.0), TriangleSpecies),
      Triangle(Point3(2.0, -0.5, 0.0), Point3(2.0, -0.25, 0.0), Point3(1.0, 0.125, 0.0), TriangleSpecies));
    PlanarR21Case17SwappedOrientations1();
    PlanarR21Case17SwappedOrientations2();
    PlanarR21Case17SwappedOrientations3();
    PlanarR21Case17SwappedOrientations4();
    PlanarR21Case17SwappedOrientations5();
  }

  /** The orientations the example above reads, part 1. */
  lemma PlanarR21Case17SwappedOrientations1()
    ensures Orient2D(Point2(0.0, 1.0), Point2(0.0, 0.0), Point2(1.0, 0.0)) == Positive
    ensures Orient2D(Point2(2.0, -0.5), Point2(2.0, -0.25), Point2(1.0, 0.125)) == Positive
  {
    Orient2DIs(0.0, 1.0, 0.0, 0.0, 1.0, 0.0, Positive);
    Orient2DIs(2.0, -0.5, 2.0, -0.25, 1.0, 0.125, Positive);
  }

  /** The orientations the example above reads, part 2. */
  lemma PlanarR21Case17SwappedOrientations2()
    ensures Orient2D(Point2(2.0, -0.5), Point2(2.0, -0.25), Point2(0.0, 1.0)) == Positive
    ensures Orient2D(Point2(2.0, -0.25), Point2(1.0, 0.125), Point2(0.0, 1.0)) == Negative
  {
    Orient2DIs(2.0, -0.5, 2.0, -0.25, 0.0, 1.0, Positive);
    Orient2DIs(2.0, -0.25, 1.0, 0.125, 0.0, 1.0, Negative);
  }

  /** The orientations the example above reads, part 3. */
  lemma PlanarR21Case17SwappedOrientations3()
    ensures Orient2D(Point2(1.0, 0.125), Point2(2.0, -0.5), Point2(0.0, 1.0)) == Positive
    ensures Orient2D(Point2(2.0, -0.25), Point2(1.0, 0.125), Point2(0.0, 0.0)) == Positive
  {
    Orient2DIs(1.0, 0.125, 2.0, -0.5, 0.0, 1.0, Positive);
    Orient2DIs(2.0, -0.25, 1.0, 0.125, 0.0, 0.0, Positive);
  }

  /** The orientations the example above reads, part 4. */
  lemma PlanarR21Case17SwappedOrientations4()
    ensures Orient2D(Point2(0.0, 1.0), Point2(2.0, -0.25), Point2(0.0, 0.0)) == Negative
    ensures Orient2D(Point2(0.0, 1.0), Point2(1.0, 0.125), Point2(0.0, 0.0)) == Negative
  {
    Orient2DIs(0.0, 1.0, 2.0, -0.25, 0.0, 0.0, Negative);
    Orient2DIs(0.0, 1.0, 1.0, 0.125, 0.0, 0.0, Negative);
  }

  /** The orientations the example above reads, part 5. */
  lemma PlanarR21Case17SwappedOrientations5()
    ensures Orient2D(Point2(0.0, 1.0), Point2(1.0, 0.125), Point2(1.0, 0.0)) == Negative
  {
    Orient2DIs(0.0, 1.0, 1.0, 0.125, 1.0, 0.0, Negative);
  }

  /** test/algorithm/src/triangle_triangle.cpp, Triangle_Triangle_2D_R21, are_intersecting (tr_18, tr). */
  lemma PlanarR21Case18Example()
    ensures !TriangleTriangleIntersect(Triangle(Point3(2.0, -0.5, 0.0), Point3(2.0, -0.25, 0.0), Point3(-1.0, 0.0, 0.0), TriangleSpecies),
      Triangle(Point3(0.0, 1.0, 0.0), Point3(0.0, 0.0, 0.0), Point3(1.0, 0.0, 0.0), TriangleSpecies))
  {
    assert FromPoints(Point3(2.0, -0.5, 0.0), Point3(2.0, -0.25, 0.0)) == Vector(0.0, 0.25, 0.0);
    assert FromPoints(Point3(2.0, -0.5, 0.0), Point3(-1.0, 0.0, 0.0)) == Vector(-3.0, 0.5, 0.0);
    assert VectorProduct(Vector(0.0, 0.25, 0.0), Vector(-3.0, 0.5, 0.0)).z == 0.75;
    GroundCoplanar(Triangle(Point3(2.0, -0.5, 0.0), Point3(2.0, -0.25, 0.0), Point3(-1.0, 0.0, 0.0), TriangleSpecies),
      Triangle(Point3(0.0, 1.0, 0.0), Point3(0.0, 0.0, 0.0), Point3(1.0, 0.0, 0.0), TriangleSpecies));
    PlanarR21Case18Orientations1();
    PlanarR21Case18Orientations2();
    PlanarR21Case18Orientations3();
    PlanarR21Case18Orientations4();
    PlanarR21Case18Orientations5();
  }

  /** The orientations the example above reads, part 1. */
  lemma PlanarR21Case18Orientations1()
    ensures Orient2D(Point2(2.0, -0.5), Point2(2.0, -0.25), Point2(-1.0, 0.0)) == Positive
    ensures Orient2D(Point2(0.0, 1.0), Point2(0.0, 0.0), Point2(1.0, 0.0)) == Positive
  {
    Orient2DIs(2.0, -0.5, 2.0, -0.25, -1.0, 0.0, Positive);
    Orient2DIs(0.0, 1.0, 0.0, 0.0, 1.0, 0.0, Positive);
  }

  /** The orientations the example above reads, part 2. */
  lemma PlanarR21Case18Orientations2()
    ensures Orient2D(Point2(0.0, 1.0), Point2(0.0, 0.0), Point2(2.0, -0.5)) == Positive
    ensures Orient2D(Point2(0.0, 0.0), Point2(1.0, 0.0), Point2(2.0, -0.5)) == Negative
  {
    Orient2DIs(0.0, 1.0, 0.0, 0.0, 2.0, -0.5, Positive);
    Orient2DIs(0.0, 0.0, 1.0, 0.0, 2.0, -0.5, Negative);
  }

  /** The orientations the example above reads, part 3. */
  lemma PlanarR21Case18Orientations3()
    ensures Orient2D(Point2(1.0, 0.0), Point2(0.0, 1.0), Point2(2.0, -0.5)) == Negative
    ensures Orient2D(Point2(1.0, 0.0), Point2(0.0, 1.0), Point2(2.0, -0.25)) == Negative
  {
    Orient2DIs(1.0, 0.0, 0.0, 1.0, 2.0, -0.5, Negative);
    Orient2DIs(1.0, 0.0, 0.0, 1.0, 2.0, -0.25, Negative);
  }

  /** The orientations the example above reads, part 4. */
  lemma PlanarR21Case18Orientations4()
    ensures Orient2D(Point2(1.0, 0.0), Point2(0.0, 1.0), Point2(-1.0, 0.0)) == Positive
    ensures Orient2D(Point2(1.0, 0.0), Point2(2.0, -0.25), Point2(-1.0, 0.0)) == Negative
  {
    Orient2DIs(1.0, 0.0, 0.0, 1.0, -1.0, 0.0, Positive);
    Orient2DIs(1.0, 0.0, 2.0, -0.25, -1.0, 0.0, Negative);
  }

  /** The orientations the example above reads, part 5. */
  lemma PlanarR21Case18Orientations5()
    ensures Orient2D(Point2(0.0, 0.0), Point2(2.0, -0.25), Point2(-1.0, 0.0)) == Negative
  {
    Orient2DIs(0.0, 0.0, 2.0, -0.25, -1.0, 0.0, Negative);
  }

  /** test/algorithm/src/triangle_triangle.cpp, Triangle_Triangle_2D_R21, are_intersecting (tr, tr_18). */
  lemma PlanarR21Case18SwappedExample()
    ensures !TriangleTriangleIntersect(Triangle(Point3(0.0, 1.0, 0.0), Point3(0.0, 0.0, 0.0), Point3(1.0, 0.0, 0.0), TriangleSpecies),
      Triangle(Point3(2.0, -0.5, 0.0), Point3(2.0, -0.25, 0.0), Point3(-1.0, 0.0, 0.0), TriangleSpecies))
  {
    assert FromPoints(Point3(0.0, 1.0, 0.0), Point3(0.0, 0.0, 0.0)) == Vector(0.0, -1.0, 0.0);
    assert FromPoints(Point3(0.0, 1.0, 0.0), Point3(1.0, 0.0, 0.0)) == Vector(1.0, -1.0, 0.0);
    assert VectorProduct(Vector(0.0, -1.0, 0.0), Vector(1.0, -1.0, 0.0)).z == 1.0;
    GroundCoplanar(Triangle(Point3(0.0, 1.0, 0.0), Point3(0.0, 0.0, 0.0), Point3(1.0, 0.0, 0.0), TriangleSpecies),
      Triangle(Point3(2.0, -0.5, 0.0), Point3(2.0, -0.25, 0.0), Point3(-1.0, 0.0, 0.0), TriangleSpecies));
    PlanarR21Case18SwappedOrientations1();
    PlanarR21Case18SwappedOrientations2();
    PlanarR21Case18SwappedOrientations3();
    PlanarR21Case18SwappedOrientations4();
  }

  /** The orientations the example above reads, part 1. */
  lemma PlanarR21Case18SwappedOrientations1()
    ensures Orient2D(Point2(0.0, 1.0), Point2(0.0, 0.0), Point2(1.0, 0.0)) == Positive
    ensures Orient2D(Point2(2.0, -0.5), Point2(2.0, -0.25), Point2(-1.0, 0.0)) == Positive
  {
    Orient2DIs(0.0, 1.0, 0.0, 0.0, 1.0, 0.0, Positive);
    Orient2DIs(2.0, -0.5, 2.0, -0.25, -1.0, 0.0, Positive);
  }

  /** The orientations the example above reads, part 2. */
  lemma PlanarR21Case18SwappedOrientations2()
    ensures Orient2D(Point2(2.0, -0.5), Point2(2.0, -0.25), Point2(0.0, 1.0)) == Positive
    ensures Orient2D(Point2(2.0, -0.25), Point2(-1.0, 0.0), Point2(0.0, 1.0)) == Negative
  {
    Orient2DIs(2.0, -0.5, 2.0, -0.25, 0.0, 1.0, Positive);
    Orient2DIs(2.0, -0.25, -1.0, 0.0, 0.0, 1.0, Negative);
  }

  /** The orientations the example above reads, part 3. */
  lemma PlanarR21Case18SwappedOrientations3()
    ensures Orient2D(Point2(-1.0, 0.0), Point2(2.0, -0.5), Point2(0.0, 1.0)) == Positive
    ensures Orient2D(Point2(2.0, -0.25), Point2(-1.0, 0.0), Point2(0.0, 0.0)) == Negative
  {
    Orient2DIs(-1.0, 0.0, 2.0, -0.5, 0.0, 1.0, Positive);
    Orient2DIs(2.0, -0.25, -1.0, 0.0, 0.0, 0.0, Negative);
  }

  /** The orientations the example above reads, part 4. */
  lemma PlanarR21Case18SwappedOrientations4()
    ensures Orient2D(Point2(2.0, -0.25), Point2(-1.0, 0.0), Point2(1.0, 0.0)) == Negative
  {
    Orient2DIs(2.0, -0.25, -1.0, 0.0, 1.0, 0.0, Negative);
  }

  /** test/algorithm/src/triangle_triangle.cpp, Triangle_Triangle_2D_R21, are_intersecting (tr_19, tr). */
  lemma PlanarR21Case19Example()
    ensures !TriangleTriangleIntersect(Triangle(Point3(2.0, -0.5, 0.0), Point3(2.0, -0.25, 0.0), Point3(0.0, -1.0, 0.0), TriangleSpecies),
      Triangle(Point3(0.0, 1.0, 0.0), Point3(0.0, 0.0, 0.0), Point3(1.0, 0.0, 0.0), TriangleSpecies))
  {
    assert FromPoints(Point3(2.0, -0.5, 0.0), Point3(2.0, -0.25, 0.0)) == Vector(0.0, 0.25, 0.0);
    assert FromPoints(Point3(2.0, -0.5, 0.0), Point3(0.0, -1.0, 0.0)) == Vector(-2.0, -0.5, 0.0);
    assert VectorProduct(Vector(0.0, 0.25, 0.0), Vector(-2.0, -0.5, 0.0)).z == 0.5;
    GroundCoplanar(Triangle(Point3(2.0, -0.5, 0.0), Point3(2.0, -0.25, 0.0), Point3(0.0, -1.0, 0.0), TriangleSpecies),
      Triangle(Point3(0.0, 1.0, 0.0), Point3(0.0, 0.0, 0.0), Point3(1.0, 0.0, 0.0), TriangleSpecies));
    PlanarR21Case19Orientations1();
    PlanarR21Case19Orientations2();
    PlanarR21Case19Orientations3();
    PlanarR21Case19Orientations4();
    PlanarR21Case19Orientations5();
  }

  /** The orientations the example above reads, part 1. */
  lemma PlanarR21Case19Orientations1()
    ensures Orient2D(Point2(2.0, -0.5), Point2(2.0, -0.25), Point2(0.0, -1.0)) == Positive
    ensures Orient2D(Point2(0.0, 1.0), Point2(0.0, 0.0), Point2(1.0, 0.0)) == Positive
  {
    Orient2DIs(2.0, -0.5, 2.0, -0.25, 0.0, -1.0, Positive);
    Orient2DIs(0.0, 1.0, 0.0, 0.0, 1.0, 0.0, Positive);
  }

  /** The orientations the example above reads, part 2. */
  lemma PlanarR21Case19Orientations2()
    ensures Orient2D(Point2(0.0, 1.0), Point2(0.0, 0.0), Point2(2.0, -0.5)) == Positive
    ensures Orient2D(Point2(0.0, 0.0), Point2(1.0, 0.0), Point2(2.0, -0.5)) == Negative
  {
    Orient2DIs(0.0, 1.0, 0.0, 0.0, 2.0, -0.5, Positive);
    Orient2DIs(0.0, 0.0, 1.0, 0.0, 2.0, -0.5, Negative);
  }

  /** The orientations the example above reads, part 3. */
  lemma PlanarR21Case19Orientations3()
    ensures Orient2D(Point2(1.0, 0.0), Point2(0.0, 1.0), Point2(2.0, -0.5)) == Negative
    ensures Orient2D(Point2(1.0, 0.0), Point2(0.0, 1.0), Point2(2.0, -0.25)) == Negative
  {
    Orient2DIs(1.0, 0.0, 0.0, 1.0, 2.0, -0.5, Negative);
    Orient2DIs(1.0, 0.0, 0.0, 1.0, 2.0, -0.25, Negative);
  }

  /** The orientations the example above reads, part 4. */
  lemma PlanarR21Case19Orientations4()
    ensures Orient2D(Point2(1.0, 0.0), Point2(0.0, 1.0), Point2(0.0, -1.0)) == Positive
    ensures Orient2D(Point2(1.0, 0.0), Point2(2.0, -0.25), Point2(0.0, -1.0)) == Negative
  {
    Orient2DIs(1.0, 0.0, 0.0, 1.0, 0.0, -1.0, Positive);
    Orient2DIs(1.0, 0.0, 2.0, -0.25, 0.0, -1.0, Negative);
  }

  /** The orientations the example above reads, part 5. */
  lemma PlanarR21Case19Orientations5()
    ensures Orient2D(Point2(0.0, 0.0), Point2(2.0, -0.25), Point2(0.0, -1.0)) == Negative
  {
    Orient2DIs(0.0, 0.0, 2.0, -0.25, 0.0, -1.0, Negative);
  }

  /** test/algorithm/src/triangle_triangle.cpp, Triangle_Triangle_2D_R21, are_intersecting (tr, tr_19). */
  lemma PlanarR21Case19SwappedExample()
    ensures !TriangleTriangleIntersect(Triangle(Point3(0.0, 1.0, 0.0), Point3(0.0, 0.0, 0.0), Point3(1.0, 0.0, 0.0), TriangleSpecies),
      Triangle(Point3(2.0, -0.5, 0.0), Point3(2.0, -0.25, 0.0), Point3(0.0, -1.0, 0.0), TriangleSpecies))
  {
    assert FromPoints(Point3(0.0, 1.0, 0.0), Point3(0.0, 0.0, 0.0)) == Vector(0.0, -1.0, 0.0);
    assert FromPoints(Point3(0.0, 1.0, 0.0), Point3(1.0, 0.0, 0.0)) == Vector(1.0, -1.0, 0.0);
    assert VectorProduct(Vector(0.0, -1.0, 0.0), Vector(1.0, -1.0, 0.0)).z == 1.0;
    GroundCoplanar(Triangle(Point3(0.0, 1.0, 0.0), Point3(0.0, 0.0, 0.0), Point3(1.0, 0.0, 0.0), TriangleSpecies),
      Triangle(Point3(2.0, -0.5, 0.0), Point3(2.0, -0.25, 0.0), Point3(0.0, -1.0, 0.0), TriangleSpecies));
    PlanarR21Case19SwappedOrientations1();
    PlanarR21Case19SwappedOrientations2();
    PlanarR21Case19SwappedOrientations3();
    PlanarR21Case19SwappedOrientations4();
  }

  /** The orientations the example above reads, part 1. */
  lemma PlanarR21Case19SwappedOrientations1()
    ensures Orient2D(Point2(0.0, 1.0), Point2(0.0, 0.0), Point2(1.0, 0.0)) == Positive
    ensures Orient2D(Point2(2.0, -0.5), Point2(2.0, -0.25), Point2(0.0, -1.0)) == Positive
  {
    Orient2DIs(0.0, 1.0, 0.0, 0.0, 1.0, 0.0, Positive);
    Orient2DIs(2.0, -0.5, 2.0, -0.25, 0.0, -1.0, Positive);
  }

  /** The orientations the example above reads, part 2. */
  lemma PlanarR21Case19SwappedOrientations2()
    ensures Orient2D(Point2(2.0, -0.5), Point2(2.0, -0.25), Point2(0.0, 1.0)) == Positive
    ensures Orient2D(Point2(2.0, -0.25), Point2(0.0, -1.0), Point2(0.0, 1.0)) == Negative
  {
    Orient2DIs(2.0, -0.5, 2.0, -0.25, 0.0, 1.0, Positive);
    Orient2DIs(2.0, -0.25, 0.0, -1.0, 0.0, 1.0, Negative);
  }

  /** The orientations the example above reads, part 3. */
  lemma PlanarR21Case19SwappedOrientations3()
    ensures Orient2D(Point2(0.0, -1.0), Point2(2.0, -0.5), Point2(0.0, 1.0)) == Positive
    ensures Orient2D(Point2(2.0, -0.25), Point2(0.0, -1.0), Point2(0.0, 0.0)) == Negative
  {
    Orient2DIs(0.0, -1.0, 2.0, -0.5, 0.0, 1.0, Positive);
    Orient2DIs(2.0, -0.25, 0.0, -1.0, 0.0, 0.0, Negative);
  }

  /** The orientations the example above reads, part 4. */
  lemma PlanarR21Case19SwappedOrientations4()
    ensures Orient2D(Point2(2.0, -0.25), Point2(0.0, -1.0), Point2(1.0, 0.0)) == Negative
  {
    Orient2DIs(2.0, -0.25, 0.0, -1.0, 1.0, 0.0, Negative);
  }

  /** test/algorithm/src/triangle_triangle.cpp, Triangle_Triangle_2D_R22_or_R25, are_intersecting (tr_1, tr). */
  lemma PlanarR22R25Case1Example()
    ensures !TriangleTriangleIntersect(Triangle(Point3(2.5, -1.0, 0.0), Point3(0.0, -1.0, 0.0), Point3(0.0, -2.0, 0.0), TriangleSpecies),
      Triangle(Point3(0.0, 1.0, 0.0), Point3(0.0, 0.0, 0.0), Point3(1.0, 0.0, 0.0), TriangleSpecies))
  {
    assert FromPoints(Point3(2.5, -1.0, 0.0), Point3(0.0, -1.0, 0.0)) == Vector(-2.5, 0.0, 0.0);
    assert FromPoints(Point3(2.5, -1.0, 0.0), Point3(0.0, -2.0, 0.0)) == Vector(-2.5, -1.0, 0.0);
    assert VectorProduct(Vector(-2.5, 0.0, 0.0), Vector(-2.5, -1.0, 0.0)).z == 2.5;
    GroundCoplanar(Triangle(Point3(2.5, -1.0, 0.0), Point3(0.0, -1.0, 0.0), Point3(0.0, -2.0, 0.0), TriangleSpecies),
      Triangle(Point3(0.0, 1.0, 0.0), Point3(0.0, 0.0, 0.0), Point3(1.0, 0.0, 0.0), TriangleSpecies));
    PlanarR22R25Case1Orientations1();
    PlanarR22R25Case1Orientations2();
    PlanarR22R25Case1Orientations3();
    PlanarR22R25Case1Orientations4();
  }

  /** The orientations the example above reads, part 1. */
  lemma PlanarR22R25Case1Orientations1()
    ensures Orient2D(Point2(2.5, -1.0), Point2(0.0, -1.0), Point2(0.0, -2.0)) == Positive
    ensures Orient2D(Point2(0.0, 1.0), Point2(0.0, 0.0), Point2(1.0, 0.0)) == Positive
  {
    Orient2DIs(2.5, -1.0, 0.0, -1.0, 0.0, -2.0, Positive);
    Orient2DIs(0.0, 1.0, 0.0, 0.0, 1.0, 0.0, Positive);
  }

  /** The orientations the example above reads, part 2. */
  lemma PlanarR22R25Case1Orientations2()
    ensures Orient2D(Point2(0.0, 1.0), Point2(0.0, 0.0), Point2(2.5, -1.0)) == Positive
    ensures Orient2D(Point2(0.0, 0.0), Point2(1.0, 0.0), Point2(2.5, -1.0)) == Negative
  {
    Orient2DIs(0.0, 1.0, 0.0, 0.0, 2.5, -1.0, Positive);
    Orient2DIs(0.0, 0.0, 1.0, 0.0, 2.5, -1.0, Negative);
  }

  /** The orientations the example above reads, part 3. */
  lemma PlanarR22R25Case1Orientations3()
    ensures Orient2D(Point2(1.0, 0.0), Point2(0.0, 1.0), Point2(2.5, -1.0)) == Negative
    ensures Orient2D(Point2(1.0, 0.0), Point2(0.0, 1.0), Point2(0.0, -1.0)) == Positive
  {
    Orient2DIs(1.0, 0.0, 0.0, 1.0, 2.5, -1.0, Negative);
    Orient2DIs(1.0, 0.0, 0.0, 1.0, 0.0, -1.0, Positive);
  }

  /** The orientations the example above reads, part 4. */
  lemma PlanarR22R25Case1Orientations4()
    ensures Orient2D(Point2(0.0, 0.0), Point2(1.0, 0.0), Point2(0.0, -1.0)) == Negative
    ensures Orient2D(Point2(2.5, -1.0), Point2(0.0, 0.0), Point2(0.0, -1.0)) == Positive
  {
    Orient2DIs(0.0, 0.0, 1.0, 0.0, 0.0, -1.0, Negative);
    Orient2DIs(2.5, -1.0, 0.0, 0.0, 0.0, -1.0, Positive);
  }

  /** test/algorithm/src/triangle_triangle.cpp, Triangle_Triangle_2D_R22_or_R25, are_intersecting (tr, tr_1). */
  lemma PlanarR22R25Case1SwappedExample()
    ensures !TriangleTriangleIntersect(Triangle(Point3(0.0, 1.0, 0.0), Point3(0.0, 0.0, 0.0), Point3(1.0, 0.0, 0.0), TriangleSpecies),
      Triangle(Point3(2.5, -1.0, 0.0), Point3(0.0, -1.0, 0.0), Point3(0.0, -2.0, 0.0), TriangleSpecies))
  {
    assert FromPoints(Point3(0.0, 1.0, 0.0), Point3(0.0, 0.0, 0.0)) == Vector(0.0, -1.0, 0.0);
    assert FromPoints(Point3(0.0, 1.0, 0.0), Point3(1.0, 0.0, 0.0)) == Vector(1.0, -1.0, 0.0);
    assert VectorProduct(Vector(0.0, -1.0, 0.0), Vector(1.0, -1.0, 0.0)).z == 1.0;
    GroundCoplanar(Triangle(Point3(0.0, 1.0, 0.0), Point3(0.0, 0.0, 0.0), Point3(1.0, 0.0, 0.0), TriangleSpecies),
      Triangle(Point3(2.5, -1.0, 0.0), Point3(0.0, -1.0, 0.0), Point3(0.0, -2.0, 0.0), TriangleSpecies));
    PlanarR22R25Case1SwappedOrientations1();
    PlanarR22R25Case1SwappedOrientations2();
    PlanarR22R25Case1SwappedOrientations3();
    PlanarR22R25Case1SwappedOrientations4();
    PlanarR22R25Case1SwappedOrientations5();
  }

  /** The orientations the example above reads, part 1. */
  lemma PlanarR22R25Case1SwappedOrientations1()
    ensures Orient2D(Point2(0.0, 1.0), Point2(0.0, 0.0), Point2(1.0, 0.0)) == Positive
    ensures Orient2D(Point2(2.5, -1.0), Point2(0.0, -1.0), Point2(0.0, -2.0)) == Positive
  {
    Orient2DIs(0.0, 1.0, 0.0, 0.0, 1.0, 0.0, Positive);
    Orient2DIs(2.5, -1.0, 0.0, -1.0, 0.0, -2.0, Positive);
  }

  /** The orientations the example above reads, part 2. */
  lemma PlanarR22R25Case1SwappedOrientations2()
    ensures Orient2D(Point2(2.5, -1.0), Point2(0.0, -1.0), Point2(0.0, 1.0)) == Negative
    ensures Orient2D(Point2(0.0, -1.0), Point2(0.0, -2.0), Point2(0.0, 1.0)) == Neutral
  {
    Orient2DIs(2.5, -1.0, 0.0, -1.0, 0.0, 1.0, Negative);
    Orient2DIs(0.0, -1.0, 0.0, -2.0, 0.0, 1.0, Neutral);
  }

  /** The orientations the example above reads, part 3. */
  lemma PlanarR22R25Case1SwappedOrientations3()
    ensures Orient2D(Point2(0.0, -2.0), Point2(2.5, -1.0), Point2(0.0, 1.0)) == Positive
    ensures Orient2D(Point2(0.0, -1.0), Point2(0.0, -2.0), Point2(0.0, 0.0)) == Neutral
  {
    Orient2DIs(0.0, -2.0, 2.5, -1.0, 0.0, 1.0, Positive);
    Orient2DIs(0.0, -1.0, 0.0, -2.0, 0.0, 0.0, Neutral);
  }

  /** The orientations the example above reads, part 4. */
  lemma PlanarR22R25Case1SwappedOrientations4()
    ensures Orient2D(Point2(2.5, -1.0), Point2(0.0, -1.0), Point2(0.0, 0.0)) == Negative
    ensures Orient2D(Point2(0.0, 1.0), Point2(2.5, -1.0), Point2(0.0, 0.0)) == Negative
  {
    Orient2DIs(2.5, -1.0, 0.0, -1.0, 0.0, 0.0, Negative);
    Orient2DIs(0.0, 1.0, 2.5, -1.0, 0.0, 0.0, Negative);
  }

  /** The orientations the example above reads, part 5. */
  lemma PlanarR22R25Case1SwappedOrientations5()
    ensures Orient2D(Point2(2.5, -1.0), Point2(0.0, -1.0), Point2(1.0, 0.0)) == Negative
  {
    Orient2DIs(2.5, -1.0, 0.0, -1.0, 1.0, 0.0, Negative);
  }

  /** test/algorithm/src/triangle_triangle.cpp, Triangle_Triangle_2D_R22_or_R25, are_intersecting (tr_2, tr). */
  lemma PlanarR22R25Case2Example()
    ensures TriangleTriangleIntersect(Triangle(Point3(2.5, -1.0, 0.0), Point3(1.0, -0.25, 0.0), Point3(-0.25, 0.25, 0.0), TriangleSpecies),
      Triangle(Point3(0.0, 1.0, 0.0), Point3(0.0, 0.0, 0.0), Point3(1.0, 0.0, 0.0), TriangleSpecies))
  {
    assert FromPoints(Point3(2.5, -1.0, 0.0), Point3(1.0, -0.25, 0.0)) == Vector(-1.5, 0.75, 0.0);
    assert FromPoints(Point3(2.5, -1.0, 0.0), Point3(-0.25, 0.25, 0.0)) == Vector(-2.75, 1.25, 0.0);
    assert VectorProduct(Vector(-1.5, 0.75, 0.0), Vector(-2.75, 1.25, 0.0)).z == 0.1875;
    GroundCoplanar(Triangle(Point3(2.5, -1.0, 0.0), Point3(1.0, -0.25, 0.0), Point3(-0.25, 0.25, 0.0), TriangleSpecies),
      Triangle(Point3(0.0, 1.0, 0.0), Point3(0.0, 0.0, 0.0), Point3(1.0, 0.0, 0.0), TriangleSpecies));
    PlanarR22R25Case2Orientations1();
    PlanarR22R25Case2Orientations2();
    PlanarR22R25Case2Orientations3();
    PlanarR22R25Case2Orientations4();
    PlanarR22R25Case2Orientations5();
  }

  /** The orientations the example above reads, part 1. */
  lemma PlanarR22R25Case2Orientations1()
    ensures Orient2D(Point2(2.5, -1.0), Point2(1.0, -0.25), Point2(-0.25, 0.25)) == Positive
    ensures Orient2D(Point2(0.0, 1.0), Point2(0.0, 0.0), Point2(1.0, 0.0)) == Positive
  {
    Orient2DIs(2.5, -1.0, 1.0, -0.25, -0.25, 0.25, Positive);
    Orient2DIs(0.0, 1.0, 0.0, 0.0, 1.0, 0.0, Positive);
  }

  /** The orientations the example above reads, part 2. */
  lemma PlanarR22R25Case2Orientations2()
    ensures Orient2D(Point2(0.0, 1.0), Point2(0.0, 0.0), Point2(2.5, -1.0)) == Positive
    ensures Orient2D(Point2(0.0, 0.0), Point2(1.0, 0.0), Point2(2.5, -1.0)) == Negative
  {
    Orient2DIs(0.0, 1.0, 0.0, 0.0, 2.5, -1.0, Positive);
    Orient2DIs(0.0, 0.0, 1.0, 0.0, 2.5, -1.0, Negative);
  }

  /** The orientations the example above reads, part 3. */
  lemma PlanarR22R25Case2Orientations3()
    ensures Orient2D(Point2(1.0, 0.0), Point2(0.0, 1.0), Point2(2.5, -1.0)) == Negative
    ensures Orient2D(Point2(1.0, 0.0), Point2(0.0, 1.0), Point2(1.0, -0.25)) == Positive
  {
    Orient2DIs(1.0, 0.0, 0.0, 1.0, 2.5, -1.0, Negative);
    Orient2DIs(1.0, 0.0, 0.0, 1.0, 1.0, -0.25, Positive);
  }

  /** The orientations the example above reads, part 4. */
  lemma PlanarR22R25Case2Orientations4()
    ensures Orient2D(Point2(0.0, 0.0), Point2(1.0, 0.0), Point2(1.0, -0.25)) == Negative
    ensures Orient2D(Point2(2.5, -1.0), Point2(0.0, 0.0), Point2(1.0, -0.25)) == Negative
  {
    Orient2DIs(0.0, 0.0, 1.0, 0.0, 1.0, -0.25, Negative);
    Orient2DIs(2.5, -1.0, 0.0, 0.0, 1.0, -0.25, Negative);
  }

  /** The orientations the example above reads, part 5. */
  lemma PlanarR22R25Case2Orientations5()
    ensures Orient2D(Point2(0.0, 0.0), Point2(1.0, 0.0), Point2(-0.25, 0.25)) == Positive
    ensures Orient2D(Point2(0.0, 0.0), Point2(1.0, -0.25), Point2(-0.25, 0.25)) == Positive
  {
    Orient2DIs(0.0, 0.0, 1.0, 0.0, -0.25, 0.25, Positive);
    Orient2DIs(0.0, 0.0, 1.0, -0.25, -0.25, 0.25, Positive);
  }

  /** test/algorithm/src/triangle_triangle.cpp, Triangle_Triangle_2D_R22_or_R25, are_intersecting (tr, tr_2). */
  lemma PlanarR22R25Case2SwappedExample()
    ensures TriangleTriangleIntersect(Triangle(Point3(0.0, 1.0, 0.0), Point3(0.0, 0.0, 0.0), Point3(1.0, 0.0, 0.0), TriangleSpecies),
      Triangle(Point3(2.5, -1.0, 0.0), Point3(1.0, -0.25, 0.0), Point3(-0.25, 0.25, 0.0), TriangleSpecies))
  {
    assert FromPoints(Point3(0.0, 1.0, 0.0), Point3(0.0, 0.0, 0.0)) == Vector(0.0, -1.0, 0.0);
    assert FromPoints(Point3(0.0, 1.0, 0.0), Point3(1.0, 0.0, 0.0)) == Vector(1.0, -1.0, 0.0);
    assert VectorProduct(Vector(0.0, -1.0, 0.0), Vector(1.0, -1.0, 0.0)).z == 1.0;
    GroundCoplanar(Triangle(Point3(0.0, 1.0, 0.0), Point3(0.0, 0.0, 0.0), Point3(1.0, 0.0, 0.0), TriangleSpecies),
      Triangle(Point3(2.5, -1.0, 0.0), Point3(1.0, -0.25, 0.0), Point3(-0.25, 0.25, 0.0), TriangleSpecies));
    PlanarR22R25Case2SwappedOrientations1();
    PlanarR22R25Case2SwappedOrientations2();
    PlanarR22R25Case2SwappedOrientations3();
    PlanarR22R25Case2SwappedOrientations4();
    PlanarR22R25Case2SwappedOrientations5();
  }

  /** The orientations the example above reads, part 1. */
  lemma PlanarR22R25Case2SwappedOrientations1()
    ensures Orient2D(Point2(0.0, 1.0), Point2(0.0, 0.0), Point2(1.0, 0.0)) == Positive
    ensures Orient2D(Point2(2.5, -1.0), Point2(1.0, -0.25), Point2(-0.25, 0.25)) == Positive
  {
    Orient2DIs(0.0, 1.0, 0.0, 0.0, 1.0, 0.0, Positive);
    Orient2DIs(2.5, -1.0, 1.0, -0.25, -0.25, 0.25, Positive);
  }

  /** The orientations the example above reads, part 2. */
  lemma PlanarR22R25Case2SwappedOrientations2()
    ensures Orient2D(Point2(2.5, -1.0), Point2(1.0, -0.25), Point2(0.0, 1.0)) == Negative
    ensures Orient2D(Point2(1.0, -0.25), Point2(-0.25, 0.25), Point2(0.0, 1.0)) == Negative
  {
    Orient2DIs(2.5, -1.0, 1.0, -0.25, 0.0, 1.0, Negative);
    Orient2DIs(1.0, -0.25, -0.25, 0.25, 0.0, 1.0, Negative);
  }

  /** The orientations the example above reads, part 3. */
  lemma PlanarR22R25Case2SwappedOrientations3()
    ensures Orient2D(Point2(-0.25, 0.25), Point2(2.5, -1.0), Point2(0.0, 1.0)) == Positive
    ensures Orient2D(Point2(1.0, -0.25), Point2(-0.25, 0.25), Point2(0.0, 0.0)) == Positive
  {
    Orient2DIs(-0.25, 0.25, 2.5, -1.0, 0.0, 1.0, Positive);
    Orient2DIs(1.0, -0.25, -0.25, 0.25, 0.0, 0.0, Positive);
  }

  /** The orientations the example above reads, part 4. */
  lemma PlanarR22R25Case2SwappedOrientations4()
    ensures Orient2D(Point2(2.5, -1.0), Point2(1.0, -0.25), Point2(0.0, 0.0)) == Positive
    ensures Orient2D(Point2(0.0, 1.0), Point2(-0.25, 0.25), Point2(0.0, 0.0)) == Positive
  {
    Orient2DIs(2.5, -1.0, 1.0, -0.25, 0.0, 0.0, Positive);
    Orient2DIs(0.0, 1.0, -0.25, 0.25, 0.0, 0.0, Positive);
  }

  /** The orientations the example above reads, part 5. */
  lemma PlanarR22R25Case2SwappedOrientations5()
    ensures Orient2D(Point2(0.0, 1.0), Point2(2.5, -1.0), Point2(0.0, 0.0)) == Negative
  {
    Orient2DIs(0.0, 1.0, 2.5, -1.0, 0.0, 0.0, Negative);
  }

  /** test/algorithm/src/triangle_triangle.cpp, Triangle_Triangle_2D_R22_or_R25, are_intersecting (tr_3, tr). */
  lemma PlanarR22R25Case3Example()
    ensures TriangleTriangleIntersect(Triangle(Point3(2.5, -1.0, 0.0), Point3(1.0, -0.25, 0.0), Point3(-1.0, 0.25, 0.0), TriangleSpecies),
      Triangle(Point3(0.0, 1.0, 0.0), Point3(0.0, 0.0, 0.0), Point3(1.0, 0.0, 0.0), TriangleSpecies))
  {
    assert FromPoints(Point3(2.5, -1.0, 0.0), Point3(1.0, -0.25, 0.0)) == Vector(-1.5, 0.75, 0.0);
    assert FromPoints(Point3(2.5, -1.0, 0.0), Point3(-1.0, 0.25, 0.0)) == Vector(-3.5, 1.25, 0.0);
    assert VectorProduct(Vector(-1.5, 0.75, 0.0), Vector(-3.5, 1.25, 0.0)).z == 0.75;
    GroundCoplanar(Triangle(Point3(2.5, -1.0, 0.0), Point3(1.0, -0.25, 0.0), Point3(-1.0, 0.25, 0.0), TriangleSpecies),
      Triangle(Point3(0.0, 1.0, 0.0), Point3(0.0, 0.0, 0.0), Point3(1.0, 0.0, 0.0), TriangleSpecies));
    PlanarR22R25Case3Orientations1();
    PlanarR22R25Case3Orientations2();
    PlanarR22R25Case3Orientations3();
    PlanarR22R25Case3Orientations4();
    PlanarR22R25Case3Orientations5();
  }

  /** The orientations the example above reads, part 1. */
  lemma PlanarR22R25Case3Orientations1()
    ensures Orient2D(Point2(2.5, -1.0), Point2(1.0, -0.25), Point2(-1.0, 0.25)) == Positive
    ensures Orient2D(Point2(0.0, 1.0), Point2(0.0, 0.0), Point2(1.0, 0.0)) == Positive
  {
    Orient2DIs(2.5, -1.0, 1.0, -0.25, -1.0, 0.25, Positive);
    Orient2DIs(0.0, 1.0, 0.0, 0.0, 1.0, 0.0, Positive);
  }

  /** The orientations the example above reads, part 2. */
  lemma PlanarR22R25Case3Orientations2()
    ensures Orient2D(Point2(0.0, 1.0), Point2(0.0, 0.0), Point2(2.5, -1.0)) == Positive
    ensures Orient2D(Point2(0.0, 0.0), Point2(1.0, 0.0), Point2(2.5, -1.0)) == Negative
  {
    Orient2DIs(0.0, 1.0, 0.0, 0.0, 2.5, -1.0, Positive);
    Orient2DIs(0.0, 0.0, 1.0, 0.0, 2.5, -1.0, Negative);
  }

  /** The orientations the example above reads, part 3. */
  lemma PlanarR22R25Case3Orientations3()
    ensures Orient2D(Point2(1.0, 0.0), Point2(0.0, 1.0), Point2(2.5, -1.0)) == Negative
    ensures Orient2D(Point2(1.0, 0.0), Point2(0.0, 1.0), Point2(1.0, -0.25)) == Positive
  {
    Orient2DIs(1.0, 0.0, 0.0, 1.0, 2.5, -1.0, Negative);
    Orient2DIs(1.0, 0.0, 0.0, 1.0, 1.0, -0.25, Positive);
  }

  /** The orientations the example above reads, part 4. */
  lemma PlanarR22R25Case3Orientations4()
    ensures Orient2D(Point2(0.0, 0.0), Point2(1.0, 0.0), Point2(1.0, -0.25)) == Negative
    ensures Orient2D(Point2(2.5, -1.0), Point2(0.0, 0.0), Point2(1.0, -0.25)) == Negative
  {
    Orient2DIs(0.0, 0.0, 1.0, 0.0, 1.0, -0.25, Negative);
    Orient2DIs(2.5, -1.0, 0.0, 0.0, 1.0, -0.25, Negative);
  }

  /** The orientations the example above reads, part 5. */
  lemma PlanarR22R25Case3Orientations5()
    ensures Orient2D(Point2(0.0, 0.0), Point2(1.0, 0.0), Point2(-1.0, 0.25)) == Positive
    ensures Orient2D(Point2(0.0, 0.0), Point2(1.0, -0.25), Point2(-1.0, 0.25)) == Neutral
  {
    Orient2DIs(0.0, 0.0, 1.0, 0.0, -1.0, 0.25, Positive);
    Orient2DIs(0.0, 0.0, 1.0, -0.25, -1.0, 0.25, Neutral);
  }

  /** test/algorithm/src/triangle_triangle.cpp, Triangle_Triangle_2D_R22_or_R25, are_intersecting (tr, tr_3). */
  lemma PlanarR22R25Case3SwappedExample()
    ensures TriangleTriangleIntersect(Triangle(Point3(0.0, 1.0, 0.0), Point3(0.0, 0.0, 0.0), Point3(1.0, 0.0, 0.0), TriangleSpecies),
      Triangle(Point3(2.5, -1.0, 0.0), Point3(1.0, -0.25, 0.0), Point3(-1.0, 0.25, 0.0), TriangleSpecies))
  {
    assert FromPoints(Point3(0.0, 1.0, 0.0), Point3(0.0, 0.0, 0.0)) == Vector(0.0, -1.0, 0.0);
    assert FromPoints(Point3(0.0, 1.0, 0.0), Point3(1.0, 0.0, 0.0)) == Vector(1.0, -1.0, 0.0);
    assert VectorProduct(Vector(0.0, -1.0, 0.0), Vector(1.0, -1.0, 0.0)).z == 1.0;
    GroundCoplanar(Triangle(Point3(0.0, 1.0, 0.0), Point3(0.0, 0.0, 0.0), Point3(1.0, 0.0, 0.0), TriangleSpecies),
      Triangle(Point3(2.5, -1.0, 0.0), Point3(1.0, -0.25, 0.0), Point3(-1.0, 0.25, 0.0), TriangleSpecies));
    PlanarR22R25Case3SwappedOrientations1();
    PlanarR22R25Case3SwappedOrientations2();
    PlanarR22R25Case3SwappedOrientations3();
    PlanarR22R25Case3SwappedOrientations4();
    PlanarR22R25Case3SwappedOrientations5();
  }

  /** The orientations the example above reads, part 1. */
  lemma PlanarR22R25Case3SwappedOrientations1()
    ensures Orient2D(Point2(0.0, 1.0), Point2(0.0, 0.0), Point2(1.0, 0.0)) == Positive
    ensures Orient2D(Point2(2.5, -1.0), Point2(1.0, -0.25), Point2(-1.0, 0.25)) == Positive
  {
    Orient2DIs(0.0, 1.0, 0.0, 0.0, 1.0, 0.0, Positive);
    Orient2DIs(2.5, -1.0, 1.0, -0.25, -1.0, 0.25, Positive);
  }

  /** The orientations the example above reads, part 2. */
  lemma PlanarR22R25Case3SwappedOrientations2()
    ensures Orient2D(Point2(2.5, -1.0), Point2(1.0, -0.25), Point2(0.0, 1.0)) == Negative
    ensures Orient2D(Point2(1.0, -0.25), Point2(-1.0, 0.25), Point2(0.0, 1.0)) == Negative
  {
    Orient2DIs(2.5, -1.0, 1.0, -0.25, 0.0, 1.0, Negative);
    Orient2DIs(1.0, -0.25, -1.0, 0.25, 0.0, 1.0, Negative);
  }

  /** The orientations the example above reads, part 3. */
  lemma PlanarR22R25Case3SwappedOrientations3()
    ensures Orient2D(Point2(-1.0, 0.25), Point2(2.5, -1.0), Point2(0.0, 1.0)) == Positive
    ensures Orient2D(Point2(1.0, -0.25), Point2(-1.0, 0.25), Point2(0.0, 0.0)) == Neutral
  {
    Orient2DIs(-1.0, 0.25, 2.5, -1.0, 0.0, 1.0, Positive);
    Orient2DIs(1.0, -0.25, -1.0, 0.25, 0.0, 0.0, Neutral);
  }

  /** The orientations the example above reads, part 4. */
  lemma PlanarR22R25Case3SwappedOrientations4()
    ensures Orient2D(Point2(2.5, -1.0), Point2(1.0, -0.25), Point2(0.0, 0.0)) == Positive
    ensures Orient2D(Point2(0.0, 1.0), Point2(-1.0, 0.25), Point2(0.0, 0.0)) == Positive
  {
    Orient2DIs(2.5, -1.0, 1.0, -0.25, 0.0, 0.0, Positive);
    Orient2DIs(0.0, 1.0, -1.0, 0.25, 0.0, 0.0, Positive);
  }

  /** The orientations the example above reads, part 5. */
  lemma PlanarR22R25Case3SwappedOrientations5()
    ensures Orient2D(Point2(0.0, 1.0), Point2(2.5, -1.0), Point2(0.0, 0.0)) == Negative
  {
    Orient2DIs(0.0, 1.0, 2.5, -1.0, 0.0, 0.0, Negative);
  }

  /** test/algorithm/src/triangle_triangle.cpp, Triangle_Triangle_2D_R22_or_R25, are_intersecting (tr_4, tr). The line is commented out in the test file. */
  lemma PlanarR22R25Case4Example()
    ensures TriangleTriangleIntersect(Triangle(Point3(2.5, -1.0, 0.0), Point3(1.0, -0.25, 0.0), Point3(0.25, 0.0, 0.0), TriangleSpecies),
      Triangle(Point3(0.0, 1.0, 0.0), Point3(0.0, 0.0, 0.0), Point3(1.0, 0.0, 0.0), TriangleSpecies))
  {
    assert FromPoints(Point3(2.5, -1.0, 0.0), Point3(1.0, -0.25, 0.0)) == Vector(-1.5, 0.75, 0.0);
    assert FromPoints(Point3(2.5, -1.0, 0.0), Point3(0.25, 0.0, 0.0)) == Vector(-2.25, 1.0, 0.0);
    assert VectorProduct(Vector(-1.5, 0.75, 0.0), Vector(-2.25, 1.0, 0.0)).z == 0.1875;
    GroundCoplanar(Triangle(Point3(2.5, -1.0, 0.0), Point3(1.0, -0.25, 0.0), Point3(0.25, 0.0, 0.0), TriangleSpecies),
      Triangle(Point3(0.0, 1.0, 0.0), Point3(0.0, 0.0, 0.0), Point3(1.0, 0.0, 0.0), TriangleSpecies));
    PlanarR22R25Case4Orientations1();
    PlanarR22R25Case4Orientations2();
    PlanarR22R25Case4Orientations3();
    PlanarR22R25Case4Orientations4();
    PlanarR22R25Case4Orientations5();
  }

  /** The orientations the example above reads, part 1. */
  lemma PlanarR22R25Case4Orientations1()
    ensures Orient2D(Point2(2.5, -1.0), Point2(1.0, -0.25), Point2(0.25, 0.0)) == Positive
    ensures Orient2D(Point2(0.0, 1.0), Point2(0.0, 0.0), Point2(1.0, 0.0)) == Positive
  {
    Orient2DIs(2.5, -1.0, 1.0, -0.25, 0.25, 0.0, Positive);
    Orient2DIs(0.0, 1.0, 0.0, 0.0, 1.0, 0.0, Positive);
  }

  /** The orientations the example above reads, part 2. */
  lemma PlanarR22R25Case4Orientations2()
    ensures Orient2D(Point2(0.0, 1.0), Point2(0.0, 0.0), Point2(2.5, -1.0)) == Positive
    ensures Orient2D(Point2(0.0, 0.0), Point2(1.0, 0.0), Point2(2.5, -1.0)) == Negative
  {
    Orient2DIs(0.0, 1.0, 0.0, 0.0, 2.5, -1.0, Positive);
    Orient2DIs(0.0, 0.0, 1.0, 0.0, 2.5, -1.0, Negative);
  }

  /** The orientations the example above reads, part 3. */
  lemma PlanarR22R25Case4Orientations3()
    ensures Orient2D(Point2(1.0, 0.0), Point2(0.0, 1.0), Point2(2.5, -1.0)) == Negative
    ensures Orient2D(Point2(1.0, 0.0), Point2(0.0, 1.0), Point2(1.0, -0.25)) == Positive
  {
    Orient2DIs(1.0, 0.0, 0.0, 1.0, 2.5, -1.0, Negative);
    Orient2DIs(1.0, 0.0, 0.0, 1.0, 1.0, -0.25, Positive);
  }

  /** The orientations the example above reads, part 4. */
  lemma PlanarR22R25Case4Orientations4()
    ensures Orient2D(Point2(0.0, 0.0), Point2(1.0, 0.0), Point2(1.0, -0.25)) == Negative
    ensures Orient2D(Point2(2.5, -1.0), Point2(0.0, 0.0), Point2(1.0, -0.25)) == Negative
  {
    Orient2DIs(0.0, 0.0, 1.0, 0.0, 1.0, -0.25, Negative);
    Orient2DIs(2.5, -1.0, 0.0, 0.0, 1.0, -0.25, Negative);
  }

  /** The orientations the example above reads, part 5. */
  lemma PlanarR22R25Case4Orientations5()
    ensures Orient2D(Point2(0.0, 0.0), Point2(1.0, 0.0), Point2(0.25, 0.0)) == Neutral
    ensures Orient2D(Point2(0.0, 0.0), Point2(1.0, -0.25), Point2(0.25, 0.0)) == Positive
  {
    Orient2DIs(0.0, 0.0, 1.0, 0.0, 0.25, 0.0, Neutral);
    Orient2DIs(0.0, 0.0, 1.0, -0.25, 0.25, 0.0, Positive);
  }

  /** test/algorithm/src/triangle_triangle.cpp, Triangle_Triangle_2D_R22_or_R25, are_intersecting (tr, tr_4). */
  lemma PlanarR22R25Case4SwappedExample()
    ensures TriangleTriangleIntersect(Triangle(Point3(0.0, 1.0, 0.0), Point3(0.0, 0.0, 0.0), Point3(1.0, 0.0, 0.0), TriangleSpecies),
      Triangle(Point3(2.5, -1.0, 0.0), Point3(1.0, -0.25, 0.0), Point3(0.25, 0.0, 0.0), TriangleSpecies))
  {
    assert FromPoints(Point3(0.0, 1.0, 0.0), Point3(0.0, 0.0, 0.0)) == Vector(0.0, -1.0, 0.0);
    assert FromPoints(Point3(0.0, 1.0, 0.0), Point3(1.0, 0.0, 0.0)) == Vector(1.0, -1.0, 0.0);
    assert VectorProduct(Vector(0.0, -1.0, 0.0), Vector(1.0, -1.0, 0.0)).z == 1.0;
    GroundCoplanar(Triangle(Point3(0.0, 1.0, 0.0), Point3(0.0, 0.0, 0.0), Point3(1.0, 0.0, 0.0), TriangleSpecies),
      Triangle(Point3(2.5, -1.0, 0.0), Point3(1.0, -0.25, 0.0), Point3(0.25, 0.0, 0.0), TriangleSpecies));
    PlanarR22R25Case4SwappedOrientations1();
    PlanarR22R25Case4SwappedOrientations2();
    PlanarR22R25Case4SwappedOrientations3();
    PlanarR22R25Case4SwappedOrientations4();
    PlanarR22R25Case4SwappedOrientations5();
  }

  /** The orientations the example above reads, part 1. */
  lemma PlanarR22R25Case4SwappedOrientations1()
    ensures Orient2D(Point2(0.0, 1.0), Point2(0.0, 0.0), Point2(1.0, 0.0)) == Positive
    ensures Orient2D(Point2(2.5, -1.0), Point2(1.0, -0.25), Point2(0.25, 0.0)) == Positive
  {
    Orient2DIs(0.0, 1.0, 0.0, 0.0, 1.0, 0.0, Positive);
    Orient2DIs(2.5, -1.0, 1.0, -0.25, 0.25, 0.0, Positive);
  }

  /** The orientations the example above reads, part 2. */
  lemma PlanarR22R25Case4SwappedOrientations2()
    ensures Orient2D(Point2(2.5, -1.0), Point2(1.0, -0.25), Point2(0.0, 1.0)) == Negative
    ensures Orient2D(Point2(1.0, -0.25), Point2(0.25, 0.0), Point2(0.0, 1.0)) == Negative
  {
    Orient2DIs(2.5, -1.0, 1.0, -0.25, 0.0, 1.0, Negative);
    Orient2DIs(1.0, -0.25, 0.25, 0.0, 0.0, 1.0, Negative);
  }

  /** The orientations the example above reads, part 3. */
  lemma PlanarR22R25Case4SwappedOrientations3()
    ensures Orient2D(Point2(0.25, 0.0), Point2(2.5, -1.0), Point2(0.0, 1.0)) == Positive
    ensures Orient2D(Point2(1.0, -0.25), Point2(0.25, 0.0), Point2(0.0, 0.0)) == Positive
  {
    Orient2DIs(0.25, 0.0, 2.5, -1.0, 0.0, 1.0, Positive);
    Orient2DIs(1.0, -0.25, 0.25, 0.0, 0.0, 0.0, Positive);
  }

  /** The orientations the example above reads, part 4. */
  lemma PlanarR22R25Case4SwappedOrientations4()
    ensures Orient2D(Point2(2.5, -1.0), Point2(1.0, -0.25), Point2(0.0, 0.0)) == Positive
    ensures Orient2D(Point2(0.0, 1.0), Point2(0.25, 0.0), Point2(0.0, 0.0)) == Negative
  {
    Orient2DIs(2.5, -1.0, 1.0, -0.25, 0.0, 0.0, Positive);
    Orient2DIs(0.0, 1.0, 0.25, 0.0, 0.0, 0.0, Negative);
  }

  /** The orientations the example above reads, part 5. */
  lemma PlanarR22R25Case4SwappedOrientations5()
    ensures Orient2D(Point2(0.0, 1.0), Point2(0.25, 0.0), Point2(1.0, 0.0)) == Positive
    ensures Orient2D(Point2(0.0, 0.0), Point2(0.25, 0.0), Point2(1.0, 0.0)) == Neutral
  {
    Orient2DIs(0.0, 1.0, 0.25, 0.0, 1.0, 0.0, Positive);
    Orient2DIs(0.0, 0.0, 0.25, 0.0, 1.0, 0.0, Neutral);
  }

  /** test/algorithm/src/triangle_triangle.cpp, Triangle_Triangle_2D_R22_or_R25, are_intersecting (tr_5, tr). */
  lemma PlanarR22R25Case5Example()
    ensures TriangleTriangleIntersect(Triangle(Point3(2.5, -1.0, 0.0), Point3(1.0, -0.25, 0.0), Point3(0.0, 0.0, 0.0), TriangleSpecies),
      Triangle(Point3(0.0, 1.0, 0.0), Point3(0.0, 0.0, 0.0), Point3(1.0, 0.0, 0.0), TriangleSpecies))
  {
    assert FromPoints(Point3(2.5, -1.0, 0.0), Point3(1.0, -0.25, 0.0)) == Vector(-1.5, 0.75, 0.0);
    assert FromPoints(Point3(2.5, -1.0, 0.0), Point3(0.0, 0.0, 0.0)) == Vector(-2.5, 1.0, 0.0);
    assert VectorProduct(Vector(-1.5, 0.75, 0.0), Vector(-2.5, 1.0, 0.0)).z == 0.375;
    GroundCoplanar(Triangle(Point3(2.5, -1.0, 0.0), Point3(1.0, -0.25, 0.0), Point3(0.0, 0.0, 0.0), TriangleSpecies),
      Triangle(Point3(0.0, 1.0, 0.0), Point3(0.0, 0.0, 0.0), Point3(1.0, 0.0, 0.0), TriangleSpecies));
    PlanarR22R25Case5Orientations1();
    PlanarR22R25Case5Orientations2();
    PlanarR22R25Case5Orientations3();
    PlanarR22R25Case5Orientations4();
    PlanarR22R25Case5Orientations5();
  }

  /** The orientations the example above reads, part 1. */
  lemma PlanarR22R25Case5Orientations1()
    ensures Orient2D(Point2(2.5, -1.0), Point2(1.0, -0.25), Point2(0.0, 0.0)) == Positive
    ensures Orient2D(Point2(0.0, 1.0), Point2(0.0, 0.0), Point2(1.0, 0.0)) == Positive
  {
    Orient2DIs(2.5, -1.0, 1.0, -0.25, 0.0, 0.0, Positive);
    Orient2DIs(0.0, 1.0, 0.0, 0.0, 1.0, 0.0, Positive);
  }

  /** The orientations the example above reads, part 2. */
  lemma PlanarR22R25Case5Orientations2()
    ensures Orient2D(Point2(0.0, 1.0), Point2(0.0, 0.0), Point2(2.5, -1.0)) == Positive
    ensures Orient2D(Point2(0.0, 0.0), Point2(1.0, 0.0), Point2(2.5, -1.0)) == Negative
  {
    Orient2DIs(0.0, 1.0, 0.0, 0.0, 2.5, -1.0, Positive);
    Orient2DIs(0.0, 0.0, 1.0, 0.0, 2.5, -1.0, Negative);
  }

  /** The orientations the example above reads, part 3. */
  lemma PlanarR22R25Case5Orientations3()
    ensures Orient2D(Point2(1.0, 0.0), Point2(0.0, 1.0), Point2(2.5, -1.0)) == Negative
    ensures Orient2D(Point2(1.0, 0.0), Point2(0.0, 1.0), Point2(1.0, -0.25)) == Positive
  {
    Orient2DIs(1.0, 0.0, 0.0, 1.0, 2.5, -1.0, Negative);
    Orient2DIs(1.0, 0.0, 0.0, 1.0, 1.0, -0.25, Positive);
  }

  /** The orientations the example above reads, part 4. */
  lemma PlanarR22R25Case5Orientations4()
    ensures Orient2D(Point2(0.0, 0.0), Point2(1.0, 0.0), Point2(1.0, -0.25)) == Negative
    ensures Orient2D(Point2(2.5, -1.0), Point2(0.0, 0.0), Point2(1.0, -0.25)) == Negative
  {
    Orient2DIs(0.0, 0.0, 1.0, 0.0, 1.0, -0.25, Negative);
    Orient2DIs(2.5, -1.0, 0.0, 0.0, 1.0, -0.25, Negative);
  }

  /** The orientations the example above reads, part 5. */
  lemma PlanarR22R25Case5Orientations5()
    ensures Orient2D(Point2(0.0, 0.0), Point2(1.0, 0.0), Point2(0.0, 0.0)) == Neutral
    ensures Orient2D(Point2(0.0, 0.0), Point2(1.0, -0.25), Point2(0.0, 0.0)) == Neutral
  {
    Orient2DIs(0.0, 0.0, 1.0, 0.0, 0.0, 0.0, Neutral);
    Orient2DIs(0.0, 0.0, 1.0, -0.25, 0.0, 0.0, Neutral);
  }

  /** test/algorithm/src/triangle_triangle.cpp, Triangle_Triangle_2D_R22_or_R25, are_intersecting (tr, tr_5). */
  lemma PlanarR22R25Case5SwappedExample()
    ensures TriangleTriangleIntersect(Triangle(Point3(0.0, 1.0, 0.0), Point3(0.0, 0.0, 0.0), Point3(1.0, 0.0, 0.0), TriangleSpecies),
      Triangle(Point3(2.5, -1.0, 0.0), Point3(1.0, -0.25, 0.0), Point3(0.0, 0.0, 0.0), TriangleSpecies))
  {
    assert FromPoints(Point3(0.0, 1.0, 0.0), Point3(0.0, 0.0, 0.0)) == Vector(0.0, -1.0, 0.0);
    assert FromPoints(Point3(0.0, 1.0, 0.0), Point3(1.0, 0.0, 0.0)) == Vector(1.0, -1.0, 0.0);
    assert VectorProduct(Vector(0.0, -1.0, 0.0), Vector(1.0, -1.0, 0.0)).z == 1.0;
    GroundCoplanar(Triangle(Point3(0.0, 1.0, 0.0), Point3(0.0, 0.0, 0.0), Point3(1.0, 0.0, 0.0), TriangleSpecies),
      Triangle(Point3(2.5, -1.0, 0.0), Point3(1.0, -0.25, 0.0), Point3(0.0, 0.0, 0.0), TriangleSpecies));
    PlanarR22R25Case5SwappedOrientations1();
    PlanarR22R25Case5SwappedOrientations2();
    PlanarR22R25Case5SwappedOrientations3();
    PlanarR22R25Case5SwappedOrientations4();
  }

  /** The orientations the example above reads, part 1. */
  lemma PlanarR22R25Case5SwappedOrientations1()
    ensures Orient2D(Point2(0.0, 1.0), Point2(0.0, 0.0), Point2(1.0, 0.0)) == Positive
    ensures Orient2D(Point2(2.5, -1.0), Point2(1.0, -0.25), Point2(0.0, 0.0)) == Positive
  {
    Orient2DIs(0.0, 1.0, 0.0, 0.0, 1.0, 0.0, Positive);
    Orient2DIs(2.5, -1.0, 1.0, -0.25, 0.0, 0.0, Positive);
  }

  /** The orientations the example above reads, part 2. */
  lemma PlanarR22R25Case5SwappedOrientations2()
    ensures Orient2D(Point2(2.5, -1.0), Point2(1.0, -0.25), Point2(0.0, 1.0)) == Negative
    ensures Orient2D(Point2(1.0, -0.25), Point2(0.0, 0.0), Point2(0.0, 1.0)) == Negative
  {
    Orient2DIs(2.5, -1.0, 1.0, -0.25, 0.0, 1.0, Negative);
    Orient2DIs(1.0, -0.25, 0.0, 0.0, 0.0, 1.0, Negative);
  }

  /** The orientations the example above reads, part 3. */
  lemma PlanarR22R25Case5SwappedOrientations3()
    ensures Orient2D(Point2(0.0, 0.0), Point2(2.5, -1.0), Point2(0.0, 1.0)) == Positive
    ensures Orient2D(Point2(1.0, -0.25), Point2(0.0, 0.0), Point2(0.0, 0.0)) == Neutral
  {
    Orient2DIs(0.0, 0.0, 2.5, -1.0, 0.0, 1.0, Positive);
    Orient2DIs(1.0, -0.25, 0.0, 0.0, 0.0, 0.0, Neutral);
  }

  /** The orientations the example above reads, part 4. */
  lemma PlanarR22R25Case5SwappedOrientations4()
    ensures Orient2D(Point2(0.0, 1.0), Point2(0.0, 0.0), Point2(0.0, 0.0)) == Neutral
    ensures Orient2D(Point2(0.0, 1.0), Point2(2.5, -1.0), Point2(0.0, 0.0)) == Negative
  {
    Orient2DIs(0.0, 1.0, 0.0, 0.0, 0.0, 0.0, Neutral);
    Orient2DIs(0.0, 1.0, 2.5, -1.0, 0.0, 0.0, Negative);
  }

  /** test/algorithm/src/triangle_triangle.cpp, Triangle_Triangle_2D_R22_or_R25, are_intersecting (tr_6, tr). */
  lemma PlanarR22R25Case6Example()
    ensures !TriangleTriangleIntersect(Triangle(Point3(2.5, -1.0, 0.0), Point3(1.0, -0.25, 0.0), Point3(0.0, -1.0, 0.0), TriangleSpecies),
      Triangle(Point3(0.0, 1.0, 0.0), Point3(0.0, 0.0, 0.0), Point3(1.0, 0.0, 0.0), TriangleSpecies))
  {
    assert FromPoints(Point3(2.5, -1.0, 0.0), Point3(1.0, -0.25, 0.0)) == Vector(-1.5, 0.75, 0.0);
    assert FromPoints(Point3(2.5, -1.0, 0.0), Point3(0.0, -1.0, 0.0)) == Vector(-2.5, 0.0, 0.0);
    assert VectorProduct(Vector(-1.5, 0.75, 0.0), Vector(-2.5, 0.0, 0.0)).z == 1.875;
    GroundCoplanar(Triangle(Point3(2.5, -1.0, 0.0), Point3(1.0, -0.25, 0.0), Point3(0.0, -1.0, 0.0), TriangleSpecies),
      Triangle(Point3(0.0, 1.0, 0.0), Point3(0.0, 0.0, 0.0), Point3(1.0, 0.0, 0.0), TriangleSpecies));
    PlanarR22R25Case6Orientations1();
    PlanarR22R25Case6Orientations2();
    PlanarR22R25Case6Orientations3();
    PlanarR22R25Case6Orientations4();
    PlanarR22R25Case6Orientations5();
  }

  /** The orientations the example above reads, part 1. */
  lemma PlanarR22R25Case6Orientations1()
    ensures Orient2D(Point2(2.5, -1.0), Point2(1.0, -0.25), Point2(0.0, -1.0)) == Positive
    ensures Orient2D(Point2(0.0, 1.0), Point2(0.0, 0.0), Point2(1.0, 0.0)) == Positive
  {
    Orient2DIs(2.5, -1.0, 1.0, -0.25, 0.0, -1.0, Positive);
    Orient2DIs(0.0, 1.0, 0.0, 0.0, 1.0, 0.0, Positive);
  }

  /** The orientations the example above reads, part 2. */
  lemma PlanarR22R25Case6Orientations2()
    ensures Orient2D(Point2(0.0, 1.0), Point2(0.0, 0.0), Point2(2.5, -1.0)) == Positive
    ensures Orient2D(Point2(0.0, 0.0), Point2(1.0, 0.0), Point2(2.5, -1.0)) == Negative
  {
    Orient2DIs(0.0, 1.0, 0.0, 0.0, 2.5, -1.0, Positive);
    Orient2DIs(0.0, 0.0, 1.0, 0.0, 2.5, -1.0, Negative);
  }

  /** The orientations the example above reads, part 3. */
  lemma PlanarR22R25Case6Orientations3()
    ensures Orient2D(Point2(1.0, 0.0), Point2(0.0, 1.0), Point2(2.5, -1.0)) == Negative
    ensures Orient2D(Point2(1.0, 0.0), Point2(0.0, 1.0), Point2(1.0, -0.25)) == Positive
  {
    Orient2DIs(1.0, 0.0, 0.0, 1.0, 2.5, -1.0, Negative);
    Orient2DIs(1.0, 0.0, 0.0, 1.0, 1.0, -0.25, Positive);
  }

  /** The orientations the example above reads, part 4. */
  lemma PlanarR22R25Case6Orientations4()
    ensures Orient2D(Point2(0.0, 0.0), Point2(1.0, 0.0), Point2(1.0, -0.25)) == Negative
    ensures Orient2D(Point2(2.5, -1.0), Point2(0.0, 0.0), Point2(1.0, -0.25)) == Negative
  {
    Orient2DIs(0.0, 0.0, 1.0, 0.0, 1.0, -0.25, Negative);
    Orient2DIs(2.5, -1.0, 0.0, 0.0, 1.0, -0.25, Negative);
  }

  /** The orientations the example above reads, part 5. */
  lemma PlanarR22R25Case6Orientations5()
    ensures Orient2D(Point2(0.0, 0.0), Point2(1.0, 0.0), Point2(0.0, -1.0)) == Negative
  {
    Orient2DIs(0.0, 0.0, 1.0, 0.0, 0.0, -1.0, Negative);
  }

  /** test/algorithm/src/triangle_triangle.cpp, Triangle_Triangle_2D_R22_or_R25, are_intersecting (tr, tr_6). */
  lemma PlanarR22R25Case6SwappedExample()
    ensures !TriangleTriangleIntersect(Triangle(Point3(0.0, 1.0, 0.0), Point3(0.0, 0.0, 0.0), Point3(1.0, 0.0, 0.0), TriangleSpecies),
      Triangle(Point3(2.5, -1.0, 0.0), Point3(1.0, -0.25, 0.0), Point3(0.0, -1.0, 0.0), TriangleSpecies))
  {
    assert FromPoints(Point3(0.0, 1.0, 0.0), Point3(0.0, 0.0, 0.0)) == Vector(0.0, -1.0, 0.0);
    assert FromPoints(Point3(0.0, 1.0, 0.0), Point3(1.0, 0.0, 0.0)) == Vector(1.0, -1.0, 0.0);
    assert VectorProduct(Vector(0.0, -1.0, 0.0), Vector(1.0, -1.0, 0.0)).z == 1.0;
    GroundCoplanar(Triangle(Point3(0.0, 1.0, 0.0), Point3(0.0, 0.0, 0.0), Point3(1.0, 0.0, 0.0), TriangleSpecies),
      Triangle(Point3(2.5, -1.0, 0.0), Point3(1.0, -0.25, 0.0), Point3(0.0, -1.0, 0.0), TriangleSpecies));
    PlanarR22R25Case6SwappedOrientations1();
    PlanarR22R25Case6SwappedOrientations2();
    PlanarR22R25Case6SwappedOrientations3();
    PlanarR22R25Case6SwappedOrientations4();
  }

  /** The orientations the example above reads, part 1. */
  lemma PlanarR22R25Case6SwappedOrientations1()
    ensures Orient2D(Point2(0.0, 1.0), Point2(0.0, 0.0), Point2(1.0, 0.0)) == Positive
    ensures Orient2D(Point2(2.5, -1.0), Point2(1.0, -0.25), Point2(0.0, -1.0)) == Positive
  {
    Orient2DIs(0.0, 1.0, 0.0, 0.0, 1.0, 0.0, Positive);
    Orient2DIs(2.5, -1.0, 1.0, -0.25, 0.0, -1.0, Positive);
  }

  /** The orientations the example above reads, part 2. */
  lemma PlanarR22R25Case6SwappedOrientations2()
    ensures Orient2D(Point2(2.5, -1.0), Point2(1.0, -0.25), Point2(0.0, 1.0)) == Negative
    ensures Orient2D(Point2(1.0, -0.25), Point2(0.0, -1.0), Point2(0.0, 1.0)) == Negative
  {
    Orient2DIs(2.5, -1.0, 1.0, -0.25, 0.0, 1.0, Negative);
    Orient2DIs(1.0, -0.25, 0.0, -1.0, 0.0, 1.0, Negative);
  }

  /** The orientations the example above reads, part 3. */
  lemma PlanarR22R25Case6SwappedOrientations3()
    ensures Orient2D(Point2(0.0, -1.0), Point2(2.5, -1.0), Point2(0.0, 1.0)) == Positive
    ensures Orient2D(Point2(1.0, -0.25), Point2(0.0, -1.0), Point2(0.0, 0.0)) == Negative
  {
    Orient2DIs(0.0, -1.0, 2.5, -1.0, 0.0, 1.0, Positive);
    Orient2DIs(1.0, -0.25, 0.0, -1.0, 0.0, 0.0, Negative);
  }

  /** The orientations the example above reads, part 4. */
  lemma PlanarR22R25Case6SwappedOrientations4()
    ensures Orient2D(Point2(1.0, -0.25), Point2(0.0, -1.0), Point2(1.0, 0.0)) == Negative
  {
    Orient2DIs(1.0, -0.25, 0.0, -1.0, 1.0, 0.0, Negative);
  }

  /** test/algorithm/src/triangle_triangle.cpp, Triangle_Triangle_2D_R22_or_R25, are_intersecting (tr_7, tr). */
  lemma PlanarR22R25Case7Example()
    ensures !TriangleTriangleIntersect(Triangle(Point3(2.5, -1.0, 0.0), Point3(1.0, -0.25, 0.0), Point3(0.5, -0.125, 0.0), TriangleSpecies),
      Triangle(Point3(0.0, 1.0, 0.0), Point3(0.0, 0.0, 0.0), Point3(1.0, 0.0, 0.0), TriangleSpecies))
  {
    assert FromPoints(Point3(2.5, -1.0, 0.0), Point3(1.0, -0.25, 0.0)) == Vector(-1.5, 0.75, 0.0);
    assert FromPoints(Point3(2.5, -1.0, 0.0), Point3(0.5, -0.125, 0.0)) == Vector(-2.0, 0.875, 0.0);
    assert VectorProduct(Vector(-1.5, 0.75, 0.0), Vector(-2.0, 0.875, 0.0)).z == 0.1875;
    GroundCoplanar(Triangle(Point3(2.5, -1.0, 0.0), Point3(1.0, -0.25, 0.0), Point3(0.5, -0.125, 0.0), TriangleSpecies),
      Triangle(Point3(0.0, 1.0, 0.0), Point3(0.0, 0.0, 0.0), Point3(1.0, 0.0, 0.0), TriangleSpecies));
    PlanarR22R25Case7Orientations1();
    PlanarR22R25Case7Orientations2();
    PlanarR22R25Case7Orientations3();
    PlanarR22R25Case7Orientations4();
    PlanarR22R25Case7Orientations5();
  }

  /** The orientations the example above reads, part 1. */
  lemma PlanarR22R25Case7Orientations1()
    ensures Orient2D(Point2(2.5, -1.0), Point2(1.0, -0.25), Point2(0.5, -0.125)) == Positive
    ensures Orient2D(Point2(0.0, 1.0), Point2(0.0, 0.0), Point2(1.0, 0.0)) == Positive
  {
    Orient2DIs(2.5, -1.0, 1.0, -0.25, 0.5, -0.125, Positive);
    Orient2DIs(0.0, 1.0, 0.0, 0.0, 1.0, 0.0, Positive);
  }

  /** The orientations the example above reads, part 2. */
  lemma PlanarR22R25Case7Orientations2()
    ensures Orient2D(Point2(0.0, 1.0), Point2(0.0, 0.0), Point2(2.5, -1.0)) == Positive
    ensures Orient2D(Point2(0.0, 0.0), Point2(1.0, 0.0), Point2(2.5, -1.0)) == Negative
  {
    Orient2DIs(0.0, 1.0, 0.0, 0.0, 2.5, -1.0, Positive);
    Orient2DIs(0.0, 0.0, 1.0, 0.0, 2.5, -1.0, Negative);
  }

  /** The orientations the example above reads, part 3. */
  lemma PlanarR22R25Case7Orientations3()
    ensures Orient2D(Point2(1.0, 0.0), Point2(0.0, 1.0), Point2(2.5, -1.0)) == Negative
    ensures Orient2D(Point2(1.0, 0.0), Point2(0.0, 1.0), Point2(1.0, -0.25)) == Positive
  {
    Orient2DIs(1.0, 0.0, 0.0, 1.0, 2.5, -1.0, Negative);
    Orient2DIs(1.0, 0.0, 0.0, 1.0, 1.0, -0.25, Positive);
  }

  /** The orientations the example above reads, part 4. */
  lemma PlanarR22R25Case7Orientations4()
    ensures Orient2D(Point2(0.0, 0.0), Point2(1.0, 0.0), Point2(1.0, -0.25)) == Negative
    ensures Orient2D(Point2(2.5, -1.0), Point2(0.0, 0.0), Point2(1.0, -0.25)) == Negative
  {
    Orient2DIs(0.0, 0.0, 1.0, 0.0, 1.0, -0.25, Negative);
    Orient2DIs(2.5, -1.0, 0.0, 0.0, 1.0, -0.25, Negative);
  }

  /** The orientations the example above reads, part 5. */
  lemma PlanarR22R25Case7Orientations5()
    ensures Orient2D(Point2(0.0, 0.0), Point2(1.0, 0.0), Point2(0.5, -0.125)) == Negative
  {
    Orient2DIs(0.0, 0.0, 1.0, 0.0, 0.5, -0.125, Negative);
  }

  /** test/algorithm/src/triangle_triangle.cpp, Triangle_Triangle_2D_R22_or_R25, are_intersecting (tr, tr_7). */
  lemma PlanarR22R25Case7SwappedExample()
    ensures !TriangleTriangleIntersect(Triangle(Point3(0.0, 1.0, 0.0), Point3(0.0, 0.0, 0.0), Point3(1.0, 0.0, 0.0), TriangleSpecies),
      Triangle(Point3(2.5, -1.0, 0.0), Point3(1.0, -0.25, 0.0), Point3(0.5, -0.125, 0.0), TriangleSpecies))
  {
    assert FromPoints(Point3(0.0, 1.0, 0.0), Point3(0.0, 0.0, 0.0)) == Vector(0.0, -1.0, 0.0);
    assert FromPoints(Point3(0.0, 1.0, 0.0), Point3(1.0, 0.0, 0.0)) == Vector(1.0, -1.0, 0.0);
    assert VectorProduct(Vector(0.0, -1.0, 0.0), Vector(1.0, -1.0, 0.0)).z == 1.0;
    GroundCoplanar(Triangle(Point3(0.0, 1.0, 0.0), Point3(0.0, 0.0, 0.0), Point3(1.0, 0.0, 0.0), TriangleSpecies),
      Triangle(Point3(2.5, -1.0, 0.0), Point3(1.0, -0.25, 0.0), Point3(0.5, -0.125, 0.0), TriangleSpecies));
    PlanarR22R25Case7SwappedOrientations1();
    PlanarR22R25Case7SwappedOrientations2();
    PlanarR22R25Case7SwappedOrientations3();
    PlanarR22R25Case7SwappedOrientations4();
    PlanarR22R25Case7SwappedOrientations5();
  }

  /** The orientations the example above reads, part 1. */
  lemma PlanarR22R25Case7SwappedOrientations1()
    ensures Orient2D(Point2(0.0, 1.0), Point2(0.0, 0.0), Point2(1.0, 0.0)) == Positive
    ensures Orient2D(Point2(2.5, -1.0), Point2(1.0, -0.25), Point2(0.5, -0.125)) == Positive
  {
    Orient2DIs(0.0, 1.0, 0.0, 0.0, 1.0, 0.0, Positive);
    Orient2DIs(2.5, -1.0, 1.0, -0.25, 0.5, -0.125, Positive);
  }

  /** The orientations the example above reads, part 2. */
  lemma PlanarR22R25Case7SwappedOrientations2()
    ensures Orient2D(Point2(2.5, -1.0), Point2(1.0, -0.25), Point2(0.0, 1.0)) == Negative
    ensures Orient2D(Point2(1.0, -0.25), Point2(0.5, -0.125), Point2(0.0, 1.0)) == Negative
  {
    Orient2DIs(2.5, -1.0, 1.0, -0.25, 0.0, 1.0, Negative);
    Orient2DIs(1.0, -0.25, 0.5, -0.125, 0.0, 1.0, Negative);
  }

  /** The orientations the example above reads, part 3. */
  lemma PlanarR22R25Case7SwappedOrientations3()
    ensures Orient2D(Point2(0.5, -0.125), Point2(2.5, -1.0), Point2(0.0, 1.0)) == Positive
    ensures Orient2D(Point2(1.0, -0.25), Point2(0.5, -0.125), Point2(0.0, 0.0)) == Neutral
  {
    Orient2DIs(0.5, -0.125, 2.5, -1.0, 0.0, 1.0, Positive);
    Orient2DIs(1.0, -0.25, 0.5, -0.125, 0.0, 0.0, Neutral);
  }

  /** The orientations the example above reads, part 4. */
  lemma PlanarR22R25Case7SwappedOrientations4()
    ensures Orient2D(Point2(2.5, -1.0), Point2(1.0, -0.25), Point2(0.0, 0.0)) == Positive
    ensures Orient2D(Point2(0.0, 1.0), Point2(0.5, -0.125), Point2(0.0, 0.0)) == Negative
  {
    Orient2DIs(2.5, -1.0, 1.0, -0.25, 0.0, 0.0, Positive);
    Orient2DIs(0.0, 1.0, 0.5, -0.125, 0.0, 0.0, Negative);
  }

  /** The orientations the example above reads, part 5. */
  lemma PlanarR22R25Case7SwappedOrientations5()
    ensures Orient2D(Point2(0.0, 1.0), Point2(0.5, -0.125), Point2(1.0, 0.0)) == Positive
    ensures Orient2D(Point2(0.0, 0.0), Point2(0.5, -0.125), Point2(1.0, 0.0)) == Positive
  {
    Orient2DIs(0.0, 1.0, 0.5, -0.125, 1.0, 0.0, Positive);
    Orient2DIs(0.0, 0.0, 0.5, -0.125, 1.0, 0.0, Positive);
  }

  /** test/algorithm/src/triangle_triangle.cpp, Triangle_Triangle_2D_R22_or_R25, are_intersecting (tr_8, tr). */
  lemma PlanarR22R25Case8Example()
    ensures !TriangleTriangleIntersect(Triangle(Point3(2.5, -1.0, 0.0), Point3(1.0, -0.25, 0.0), Point3(0.5, -0.0625, 0.0), TriangleSpecies),
      Triangle(Point3(0.0, 1.0, 0.0), Point3(0.0, 0.0, 0.0), Point3(1.0, 0.0, 0.0), TriangleSpecies))
  {
    assert FromPoints(Point3(2.5, -1.0, 0.0), Point3(1.0, -0.25, 0.0)) == Vector(-1.5, 0.75, 0.0);
    assert FromPoints(Point3(2.5, -1.0, 0.0), Point3(0.5, -0.0625, 0.0)) == Vector(-2.0, 0.9375, 0.0);
    assert VectorProduct(Vector(-1.5, 0.75, 0.0), Vector(-2.0, 0.9375, 0.0)).z == 0.09375;
    GroundCoplanar(Triangle(Point3(2.5, -1.0, 0.0), Point3(1.0, -0.25, 0.0), Point3(0.5, -0.0625, 0.0), TriangleSpecies),
      Triangle(Point3(0.0, 1.0, 0.0), Point3(0.0, 0.0, 0.0), Point3(1.0, 0.0, 0.0), TriangleSpecies));
    PlanarR22R25Case8Orientations1();
    PlanarR22R25Case8Orientations2();
    PlanarR22R25Case8Orientations3();
    PlanarR22R25Case8Orientations4();
    PlanarR22R25Case8Orientations5();
  }

  /** The orientations the example above reads, part 1. */
  lemma PlanarR22R25Case8Orientations1()
    ensures Orient2D(Point2(2.5, -1.0), Point2(1.0, -0.25), Point2(0.5, -0.0625)) == Positive
    ensures Orient2D(Point2(0.0, 1.0), Point2(0.0, 0.0), Point2(1.0, 0.0)) == Positive
  {
    Orient2DIs(2.5, -1.0, 1.0, -0.25, 0.5, -0.0625, Positive);
    Orient2DIs(0.0, 1.0, 0.0, 0.0, 1.0, 0.0, Positive);
  }

  /** The orientations the example above reads, part 2. */
  lemma PlanarR22R25Case8Orientations2()
    ensures Orient2D(Point2(0.0, 1.0), Point2(0.0, 0.0), Point2(2.5, -1.0)) == Positive
    ensures Orient2D(Point2(0.0, 0.0), Point2(1.0, 0.0), Point2(2.5, -1.0)) == Negative
  {
    Orient2DIs(0.0, 1.0, 0.0, 0.0, 2.5, -1.0, Positive);
    Orient2DIs(0.0, 0.0, 1.0, 0.0, 2.5, -1.0, Negative);
  }

  /** The orientations the example above reads, part 3. */
  lemma PlanarR22R25Case8Orientations3()
    ensures Orient2D(Point2(1.0, 0.0), Point2(0.0, 1.0), Point2(2.5, -1.0)) == Negative
    ensures Orient2D(Point2(1.0, 0.0), Point2(0.0, 1.0), Point2(1.0, -0.25)) == Positive
  {
    Orient2DIs(1.0, 0.0, 0.0, 1.0, 2.5, -1.0, Negative);
    Orient2DIs(1.0, 0.0, 0.0, 1.0, 1.0, -0.25, Positive);
  }

  /** The orientations the example above reads, part 4. */
  lemma PlanarR22R25Case8Orientations4()
    ensures Orient2D(Point2(0.0, 0.0), Point2(1.0, 0.0), Point2(1.0, -0.25)) == Negative
    ensures Orient2D(Point2(2.5, -1.0), Point2(0.0, 0.0), Point2(1.0, -0.25)) == Negative
  {
    Orient2DIs(0.0, 0.0, 1.0, 0.0, 1.0, -0.25, Negative);
    Orient2DIs(2.5, -1.0, 0.0, 0.0, 1.0, -0.25, Negative);
  }

  /** The orientations the example above reads, part 5. */
  lemma PlanarR22R25Case8Orientations5()
    ensures Orient2D(Point2(0.0, 0.0), Point2(1.0, 0.0), Point2(0.5, -0.0625)) == Negative
  {
    Orient2DIs(0.0, 0.0, 1.0, 0.0, 0.5, -0.0625, Negative);
  }

  /** test/algorithm/src/triangle_triangle.cpp, Triangle_Triangle_2D_R22_or_R25, are_intersecting (tr, tr_8). */
  lemma PlanarR22R25Case8SwappedExample()
    ensures !TriangleTriangleIntersect(Triangle(Point3(0.0, 1.0, 0.0), Point3(0.0, 0.0, 0.0), Point3(1.0, 0.0, 0.0), TriangleSpecies),
      Triangle(Point3(2.5, -1.0, 0.0), Point3(1.0, -0.25, 0.0), Point3(0.5, -0.0625, 0.0), TriangleSpecies))
  {
    assert FromPoints(Point3(0.0, 1.0, 0.0), Point3(0.0, 0.0, 0.0)) == Vector(0.0, -1.0, 0.0);
    assert FromPoints(Point3(0.0, 1.0, 0.0), Point3(1.0, 0.0, 0.0)) == Vector(1.0, -1.0, 0.0);
    assert VectorProduct(Vector(0.0, -1.0, 0.0), Vector(1.0, -1.0, 0.0)).z == 1.0;
    GroundCoplanar(Triangle(Point3(0.0, 1.0, 0.0), Point3(0.0, 0.0, 0.0), Point3(1.0, 0.0, 0.0), TriangleSpecies),
      Triangle(Point3(2.5, -1.0, 0.0), Point3(1.0, -0.25, 0.0), Point3(0.5, -0.0625, 0.0), TriangleSpecies));
    PlanarR22R25Case8SwappedOrientations1();
    PlanarR22R25Case8SwappedOrientations2();
    PlanarR22R25Case8SwappedOrientations3();
    PlanarR22R25Case8SwappedOrientations4();
    PlanarR22R25Case8SwappedOrientations5();
  }

  /** The orientations the example above reads, part 1. */
  lemma PlanarR22R25Case8SwappedOrientations1()
    ensures Orient2D(Point2(0.0, 1.0), Point2(0.0, 0.0), Point2(1.0, 0.0)) == Positive
    ensures Orient2D(Point2(2.5, -1.0), Point2(1.0, -0.25), Point2(0.5, -0.0625)) == Positive
  {
    Orient2DIs(0.0, 1.0, 0.0, 0.0, 1.0, 0.0, Positive);
    Orient2DIs(2.5, -1.0, 1.0, -0.25, 0.5, -0.0625, Positive);
  }

  /** The orientations the example above reads, part 2. */
  lemma PlanarR22R25Case8SwappedOrientations2()
    ensures Orient2D(Point2(2.5, -1.0), Point2(1.0, -0.25), Point2(0.0, 1.0)) == Negative
    ensures Orient2D(Point2(1.0, -0.25), Point2(0.5, -0.0625), Point2(0.0, 1.0)) == Negative
  {
    Orient2DIs(2.5, -1.0, 1.0, -0.25, 0.0, 1.0, Negative);
    Orient2DIs(1.0, -0.25, 0.5, -0.0625, 0.0, 1.0, Negative);
  }

  /** The orientations the example above reads, part 3. */
  lemma PlanarR22R25Case8SwappedOrientations3()
    ensures Orient2D(Point2(0.5, -0.0625), Point2(2.5, -1.0), Point2(0.0, 1.0)) == Positive
    ensures Orient2D(Point2(1.0, -0.25), Point2(0.5, -0.0625), Point2(0.0, 0.0)) == Positive
  {
    Orient2DIs(0.5, -0.0625, 2.5, -1.0, 0.0, 1.0, Positive);
    Orient2DIs(1.0, -0.25, 0.5, -0.0625, 0.0, 0.0, Positive);
  }

  /** The orientations the example above reads, part 4. */
  lemma PlanarR22R25Case8SwappedOrientations4()
    ensures Orient2D(Point2(2.5, -1.0), Point2(1.0, -0.25), Point2(0.0, 0.0)) == Positive
    ensures Orient2D(Point2(0.0, 1.0), Point2(0.5, -0.0625), Point2(0.0, 0.0)) == Negative
  {
    Orient2DIs(2.5, -1.0, 1.0, -0.25, 0.0, 0.0, Positive);
    Orient2DIs(0.0, 1.0, 0.5, -0.0625, 0.0, 0.0, Negative);
  }

  /** The orientations the example above reads, part 5. */
  lemma PlanarR22R25Case8SwappedOrientations5()
    ensures Orient2D(Point2(0.0, 1.0), Point2(0.5, -0.0625), Point2(1.0, 0.0)) == Positive
    ensures Orient2D(Point2(0.0, 0.0), Point2(0.5, -0.0625), Point2(1.0, 0.0)) == Positive
  {
    Orient2DIs(0.0, 1.0, 0.5, -0.0625, 1.0, 0.0, Positive);
    Orient2DIs(0.0, 0.0, 0.5, -0.0625, 1.0, 0.0, Positive);
  }

  /** test/algorithm/src/triangle_triangle.cpp, Triangle_Triangle_2D_R22_or_R25, are_intersecting (tr_9, tr). */
  lemma PlanarR22R25Case9Example()
    ensures !TriangleTriangleIntersect(Triangle(Point3(2.5, -1.0, 0.0), Point3(1.0, -0.25, 0.0), Point3(-1.0, 0.0, 0.0), TriangleSpecies),
      Triangle(Point3(0.0, 1.0, 0.0), Point3(0.0, 0.0, 0.0), Point3(1.0, 0.0, 0.0), TriangleSpecies))
  {
    assert FromPoints(Point3(2.5, -1.0, 0.0), Point3(1.0, -0.25, 0.0)) == Vector(-1.5, 0.75, 0.0);
    assert FromPoints(Point3(2.5, -1.0, 0.0), Point3(-1.0, 0.0, 0.0)) == Vector(-3.5, 1.0, 0.0);
    assert VectorProduct(Vector(-1.5, 0.75, 0.0), Vector(-3.5, 1.0, 0.0)).z == 1.125;
    GroundCoplanar(Triangle(Point3(2.5, -1.0, 0.0), Point3(1.0, -0.25, 0.0), Point3(-1.0, 0.0, 0.0), TriangleSpecies),
      Triangle(Point3(0.0, 1.0, 0.0), Point3(0.0, 0.0, 0.0), Point3(1.0, 0.0, 0.0), TriangleSpecies));
    PlanarR22R25Case9Orientations1();
    PlanarR22R25Case9Orientations2();
    PlanarR22R25Case9Orientations3();
    PlanarR22R25Case9Orientations4();
    PlanarR22R25Case9Orientations5();
  }

  /** The orientations the example above reads, part 1. */
  lemma PlanarR22R25Case9Orientations1()
    ensures Orient2D(Point2(2.5, -1.0), Point2(1.0, -0.25), Point2(-1.0, 0.0)) == Positive
    ensures Orient2D(Point2(0.0, 1.0), Point2(0.0, 0.0), Point2(1.0, 0.0)) == Positive
  {
    Orient2DIs(2.5, -1.0, 1.0, -0.25, -1.0, 0.0, Positive);
    Orient2DIs(0.0, 1.0, 0.0, 0.0, 1.0, 0.0, Positive);
  }

  /** The orientations the example above reads, part 2. */
  lemma PlanarR22R25Case9Orientations2()
    ensures Orient2D(Point2(0.0, 1.0), Point2(0.0, 0.0), Point2(2.5, -1.0)) == Positive
    ensures Orient2D(Point2(0.0, 0.0), Point2(1.0, 0.0), Point2(2.5, -1.0)) == Negative
  {
    Orient2DIs(0.0, 1.0, 0.0, 0.0, 2.5, -1.0, Positive);
    Orient2DIs(0.0, 0.0, 1.0, 0.0, 2.5, -1.0, Negative);
  }

  /** The orientations the example above reads, part 3. */
  lemma PlanarR22R25Case9Orientations3()
    ensures Orient2D(Point2(1.0, 0.0), Point2(0.0, 1.0), Point2(2.5, -1.0)) == Negative
    ensures Orient2D(Point2(1.0, 0.0), Point2(0.0, 1.0), Point2(1.0, -0.25)) == Positive
  {
    Orient2DIs(1.0, 0.0, 0.0, 1.0, 2.5, -1.0, Negative);
    Orient2DIs(1.0, 0.0, 0.0, 1.0, 1.0, -0.25, Positive);
  }

  /** The orientations the example above reads, part 4. */
  lemma PlanarR22R25Case9Orientations4()
    ensures Orient2D(Point2(0.0, 0.0), Point2(1.0, 0.0), Point2(1.0, -0.25)) == Negative
    ensures Orient2D(Point2(2.5, -1.0), Point2(0.0, 0.0), Point2(1.0, -0.25)) == Negative
  {
    Orient2DIs(0.0, 0.0, 1.0, 0.0, 1.0, -0.25, Negative);
    Orient2DIs(2.5, -1.0, 0.0, 0.0, 1.0, -0.25, Negative);
  }

  /** The orientations the example above reads, part 5. */
  lemma PlanarR22R25Case9Orientations5()
    ensures Orient2D(Point2(0.0, 0.0), Point2(1.0, 0.0), Point2(-1.0, 0.0)) == Neutral
    ensures Orient2D(Point2(0.0, 0.0), Point2(1.0, -0.25), Point2(-1.0, 0.0)) == Negative
  {
    Orient2DIs(0.0, 0.0, 1.0, 0.0, -1.0, 0.0, Neutral);
    Orient2DIs(0.0, 0.0, 1.0, -0.25, -1.0, 0.0, Negative);
  }

  /** test/algorithm/src/triangle_triangle.cpp, Triangle_Triangle_2D_R22_or_R25, are_intersecting (tr, tr_9). */
  lemma PlanarR22R25Case9SwappedExample()
    ensures !TriangleTriangleIntersect(Triangle(Point3(0.0, 1.0, 0.0), Point3(0.0, 0.0, 0.0), Point3(1.0, 0.0, 0.0), TriangleSpecies),
      Triangle(Point3(2.5, -1.0, 0.0), Point3(1.0, -0.25, 0.0), Point3(-1.0, 0.0, 0.0), TriangleSpecies))
  {
    assert FromPoints(Point3(0.0, 1.0, 0.0), Point3(0.0, 0.0, 0.0)) == Vector(0.0, -1.0, 0.0);
    assert FromPoints(Point3(0.0, 1.0, 0.0), Point3(1.0, 0.0, 0.0)) == Vector(1.0, -1.0, 0.0);
    assert VectorProduct(Vector(0.0, -1.0, 0.0), Vector(1.0, -1.0, 0.0)).z == 1.0;
    GroundCoplanar(Triangle(Point3(0.0, 1.0, 0.0), Point3(0.0, 0.0, 0.0), Point3(1.0, 0.0, 0.0), TriangleSpecies),
      Triangle(Point3(2.5, -1.0, 0.0), Point3(1.0, -0.25, 0.0), Point3(-1.0, 0.0, 0.0), TriangleSpecies));
    PlanarR22R25Case9SwappedOrientations1();
    PlanarR22R25Case9SwappedOrientations2();
    PlanarR22R25Case9SwappedOrientations3();
    PlanarR22R25Case9SwappedOrientations4();
  }

  /** The orientations the example above reads, part 1. */
  lemma PlanarR22R25Case9SwappedOrientations1()
    ensures Orient2D(Point2(0.0, 1.0), Point2(0.0, 0.0), Point2(1.0, 0.0)) == Positive
    ensures Orient2D(Point2(2.5, -1.0), Point2(1.0, -0.25), Point2(-1.0, 0.0)) == Positive
  {
    Orient2DIs(0.0, 1.0, 0.0, 0.0, 1.0, 0.0, Positive);
    Orient2DIs(2.5, -1.0, 1.0, -0.25, -1.0, 0.0, Positive);
  }

  /** The orientations the example above reads, part 2. */
  lemma PlanarR22R25Case9SwappedOrientations2()
    ensures Orient2D(Point2(2.5, -1.0), Point2(1.0, -0.25), Point2(0.0, 1.0)) == Negative
    ensures Orient2D(Point2(1.0, -0.25), Point2(-1.0, 0.0), Point2(0.0, 1.0)) == Negative
  {
    Orient2DIs(2.5, -1.0, 1.0, -0.25, 0.0, 1.0, Negative);
    Orient2DIs(1.0, -0.25, -1.0, 0.0, 0.0, 1.0, Negative);
  }

  /** The orientations the example above reads, part 3. */
  lemma PlanarR22R25Case9SwappedOrientations3()
    ensures Orient2D(Point2(-1.0, 0.0), Point2(2.5, -1.0), Point2(0.0, 1.0)) == Positive
    ensures Orient2D(Point2(1.0, -0.25), Point2(-1.0, 0.0), Point2(0.0, 0.0)) == Negative
  {
    Orient2DIs(-1.0, 0.0, 2.5, -1.0, 0.0, 1.0, Positive);
    Orient2DIs(1.0, -0.25, -1.0, 0.0, 0.0, 0.0, Negative);
  }

  /** The orientations the example above reads, part 4. */
  lemma PlanarR22R25Case9SwappedOrientations4()
    ensures Orient2D(Point2(1.0, -0.25), Point2(-1.0, 0.0), Point2(1.0, 0.0)) == Negative
  {
    Orient2DIs(1.0, -0.25, -1.0, 0.0, 1.0, 0.0, Negative);
  }

  /** test/algorithm/src/triangle_triangle.cpp, Triangle_Triangle_2D_R22_or_R25, are_intersecting (tr_10, tr). */
  lemma PlanarR22R25Case10Example()
    ensures !TriangleTriangleIntersect(Triangle(Point3(2.5, -1.0, 0.0), Point3(1.0, -0.25, 0.0), Point3(-1.0, 0.125, 0.0), TriangleSpecies),
      Triangle(Point3(0.0, 1.0, 0.0), Point3(0.0, 0.0, 0.0), Point3(1.0, 0.0, 0.0), TriangleSpecies))
  {
    assert FromPoints(Point3(2.5, -1.0, 0.0), Point3(1.0, -0.25, 0.0)) == Vector(-1.5, 0.75, 0.0);
    assert FromPoints(Point3(2.5, -1.0, 0.0), Point3(-1.0, 0.125, 0.0)) == Vector(-3.5, 1.125, 0.0);
    assert VectorProduct(Vector(-1.5, 0.75, 0.0), Vector(-3.5, 1.125, 0.0)).z == 0.9375;
    GroundCoplanar(Triangle(Point3(2.5, -1.0, 0.0), Point3(1.0, -0.25, 0.0), Point3(-1.0, 0.125, 0.0), TriangleSpecies),
      Triangle(Point3(0.0, 1.0, 0.0), Point3(0.0, 0.0, 0.0), Point3(1.0, 0.0, 0.0), TriangleSpecies));
    PlanarR22R25Case10Orientations1();
    PlanarR22R25Case10Orientations2();
    PlanarR22R25Case10Orientations3();
    PlanarR22R25Case10Orientations4();
    PlanarR22R25Case10Orientations5();
  }

  /** The orientations the example above reads, part 1. */
  lemma PlanarR22R25Case10Orientations1()
    ensures Orient2D(Point2(2.5, -1.0), Point2(1.0, -0.25), Point2(-1.0, 0.125)) == Positive
    ensures Orient2D(Point2(0.0, 1.0), Point2(0.0, 0.0), Point2(1.0, 0.0)) == Positive
  {
    Orient2DIs(2.5, -1.0, 1.0, -0.25, -1.0, 0.125, Positive);
    Orient2DIs(0.0, 1.0, 0.0, 0.0, 1.0, 0.0, Positive);
  }

  /** The orientations the example above reads, part 2. */
  lemma PlanarR22R25Case10Orientations2()
    ensures Orient2D(Point2(0.0, 1.0), Point2(0.0, 0.0), Point2(2.5, -1.0)) == Positive
    ensures Orient2D(Point2(0.0, 0.0), Point2(1.0, 0.0), Point2(2.5, -1.0)) == Negative
  {
    Orient2DIs(0.0, 1.0, 0.0, 0.0, 2.5, -1.0, Positive);
    Orient2DIs(0.0, 0.0, 1.0, 0.0, 2.5, -1.0, Negative);
  }

  /** The orientations the example above reads, part 3. */
  lemma PlanarR22R25Case10Orientations3()
    ensures Orient2D(Point2(1.0, 0.0), Point2(0.0, 1.0), Point2(2.5, -1.0)) == Negative
    ensures Orient2D(Point2(1.0, 0.0), Point2(0.0, 1.0), Point2(1.0, -0.25)) == Positive
  {
    Orient2DIs(1.0, 0.0, 0.0, 1.0, 2.5, -1.0, Negative);
    Orient2DIs(1.0, 0.0, 0.0, 1.0, 1.0, -0.25, Positive);
  }

  /** The orientations the example above reads, part 4. */
  lemma PlanarR22R25Case10Orientations4()
    ensures Orient2D(Point2(0.0, 0.0), Point2(1.0, 0.0), Point2(1.0, -0.25)) == Negative
    ensures Orient2D(Point2(2.5, -1.0), Point2(0.0, 0.0), Point2(1.0, -0.25)) == Negative
  {
    Orient2DIs(0.0, 0.0, 1.0, 0.0, 1.0, -0.25, Negative);
    Orient2DIs(2.5, -1.0, 0.0, 0.0, 1.0, -0.25, Negative);
  }

  /** The orientations the example above reads, part 5. */
  lemma PlanarR22R25Case10Orientations5()
    ensures Orient2D(Point2(0.0, 0.0), Point2(1.0, 0.0), Point2(-1.0, 0.125)) == Positive
    ensures Orient2D(Point2(0.0, 0.0), Point2(1.0, -0.25), Point2(-1.0, 0.125)) == Negative
  {
    Orient2DIs(0.0, 0.0, 1.0, 0.0, -1.0, 0.125, Positive);
    Orient2DIs(0.0, 0.0, 1.0, -0.25, -1.0, 0.125, Negative);
  }

  /** test/algorithm/src/triangle_triangle.cpp, Triangle_Triangle_2D_R22_or_R25, are_intersecting (tr, tr_10). */
  lemma PlanarR22R25Case10SwappedExample()
    ensures !TriangleTriangleIntersect(Triangle(Point3(0.0, 1.0, 0.0), Point3(0.0, 0.0, 0.0), Point3(1.0, 0.0, 0.0), TriangleSpecies),
      Triangle(Point3(2.5, -1.0, 0.0), Point3(1.0, -0.25, 0.0), Point3(-1.0, 0.125, 0.0), TriangleSpecies))
  {
    assert FromPoints(Point3(0.0, 1.0, 0.0), Point3(0.0, 0.0, 0.0)) == Vector(0.0, -1.0, 0.0);
    assert FromPoints(Point3(0.0, 1.0, 0.0), Point3(1.0, 0.0, 0.0)) == Vector(1.0, -1.0, 0.0);
    assert VectorProduct(Vector(0.0, -1.0, 0.0), Vector(1.0, -1.0, 0.0)).z == 1.0;
    GroundCoplanar(Triangle(Point3(0.0, 1.0, 0.0), Point3(0.0, 0.0, 0.0), Point3(1.0, 0.0, 0.0), TriangleSpecies),
      Triangle(Point3(2.5, -1.0, 0.0), Point3(1.0, -0.25, 0.0), Point3(-1.0, 0.125, 0.0), TriangleSpecies));
    PlanarR22R25Case10SwappedOrientations1();
    PlanarR22R25Case10SwappedOrientations2();
    PlanarR22R25Case10SwappedOrientations3();
    PlanarR22R25Case10SwappedOrientations4();
  }

  /** The orientations the example above reads, part 1. */
  lemma PlanarR22R25Case10SwappedOrientations1()
    ensures Orient2D(Point2(0.0, 1.0), Point2(0.0, 0.0), Point2(1.0, 0.0)) == Positive
    ensures Orient2D(Point2(2.5, -1.0), Point2(1.0, -0.25), Point2(-1.0, 0.125)) == Positive
  {
    Orient2DIs(0.0, 1.0, 0.0, 0.0, 1.0, 0.0, Positive);
    Orient2DIs(2.5, -1.0, 1.0, -0.25, -1.0, 0.125, Positive);
  }

  /** The orientations the example above reads, part 2. */
  lemma PlanarR22R25Case10SwappedOrientations2()
    ensures Orient2D(Point2(2.5, -1.0), Point2(1.0, -0.25), Point2(0.0, 1.0)) == Negative
    ensures Orient2D(Point2(1.0, -0.25), Point2(-1.0, 0.125), Point2(0.0, 1.0)) == Negative
  {
    Orient2DIs(2.5, -1.0, 1.0, -0.25, 0.0, 1.0, Negative);
    Orient2DIs(1.0, -0.25, -1.0, 0.125, 0.0, 1.0, Negative);
  }

  /** The orientations the example above reads, part 3. */
  lemma PlanarR22R25Case10SwappedOrientations3()
    ensures Orient2D(Point2(-1.0, 0.125), Point2(2.5, -1.0), Point2(0.0, 1.0)) == Positive
    ensures Orient2D(Point2(1.0, -0.25), Point2(-1.0, 0.125), Point2(0.0, 0.0)) == Negative
  {
    Orient2DIs(-1.0, 0.125, 2.5, -1.0, 0.0, 1.0, Positive);
    Orient2DIs(1.0, -0.25, -1.0, 0.125, 0.0, 0.0, Negative);
  }

  /** The orientations the example above reads, part 4. */
  lemma PlanarR22R25Case10SwappedOrientations4()
    ensures Orient2D(Point2(1.0, -0.25), Point2(-1.0, 0.125), Point2(1.0, 0.0)) == Negative
  {
    Orient2DIs(1.0, -0.25, -1.0, 0.125, 1.0, 0.0, Negative);
  }

  /** test/algorithm/src/triangle_triangle.cpp, Triangle_Triangle_2D_R22_or_R25, are_intersecting (tr_11, tr). */
  lemma PlanarR22R25Case11Example()
    ensures !TriangleTriangleIntersect(Triangle(Point3(2.5, -1.0, 0.0), Point3(0.625, -0.25, 0.0), Point3(0.0, -2.0, 0.0), TriangleSpecies),
      Triangle(Point3(0.0, 1.0, 0.0), Point3(0.0, 0.0, 0.0), Point3(1.0, 0.0, 0.0), TriangleSpecies))
  {
    assert FromPoints(Point3(2.5, -1.0, 0.0), Point3(0.625, -0.25, 0.0)) == Vector(-1.875, 0.75, 0.0);
    assert FromPoints(Point3(2.5, -1.0, 0.0), Point3(0.0, -2.0, 0.0)) == Vector(-2.5, -1.0, 0.0);
    assert VectorProduct(Vector(-1.875, 0.75, 0.0), Vector(-2.5, -1.0, 0.0)).z == 3.75;
    GroundCoplanar(Triangle(Point3(2.5, -1.0, 0.0), Point3(0.625, -0.25, 0.0), Point3(0.0, -2.0, 0.0), TriangleSpecies),
      Triangle(Point3(0.0, 1.0, 0.0), Point3(0.0, 0.0, 0.0), Point3(1.0, 0.0, 0.0), TriangleSpecies));
    PlanarR22R25Case11Orientations1();
    PlanarR22R25Case11Orientations2();
    PlanarR22R25Case11Orientations3();
    PlanarR22R25Case11Orientations4();
  }

  /** The orientations the example above reads, part 1. */
  lemma PlanarR22R25Case11Orientations1()
    ensures Orient2D(Point2(2.5, -1.0), Point2(0.625, -0.25), Point2(0.0, -2.0)) == Positive
    ensures Orient2D(Point2(0.0, 1.0), Point2(0.0, 0.0), Point2(1.0, 0.0)) == Positive
  {
    Orient2DIs(2.5, -1.0, 0.625, -0.25, 0.0, -2.0, Positive);
    Orient2DIs(0.0, 1.0, 0.0, 0.0, 1.0, 0.0, Positive);
  }

  /** The orientations the example above reads, part 2. */
  lemma PlanarR22R25Case11Orientations2()
    ensures Orient2D(Point2(0.0, 1.0), Point2(0.0, 0.0), Point2(2.5, -1.0)) == Positive
    ensures Orient2D(Point2(0.0, 0.0), Point2(1.0, 0.0), Point2(2.5, -1.0)) == Negative
  {
    Orient2DIs(0.0, 1.0, 0.0, 0.0, 2.5, -1.0, Positive);
    Orient2DIs(0.0, 0.0, 1.0, 0.0, 2.5, -1.0, Negative);
  }

  /** The orientations the example above reads, part 3. */
  lemma PlanarR22R25Case11Orientations3()
    ensures Orient2D(Point2(1.0, 0.0), Point2(0.0, 1.0), Point2(2.5, -1.0)) == Negative
    ensures Orient2D(Point2(1.0, 0.0), Point2(0.0, 1.0), Point2(0.625, -0.25)) == Positive
  {
    Orient2DIs(1.0, 0.0, 0.0, 1.0, 2.5, -1.0, Negative);
    Orient2DIs(1.0, 0.0, 0.0, 1.0, 0.625, -0.25, Positive);
  }

  /** The orientations the example above reads, part 4. */
  lemma PlanarR22R25Case11Orientations4()
    ensures Orient2D(Point2(0.0, 0.0), Point2(1.0, 0.0), Point2(0.625, -0.25)) == Negative
    ensures Orient2D(Point2(2.5, -1.0), Point2(0.0, 0.0), Point2(0.625, -0.25)) == Neutral
  {
    Orient2DIs(0.0, 0.0, 1.0, 0.0, 0.625, -0.25, Negative);
    Orient2DIs(2.5, -1.0, 0.0, 0.0, 0.625, -0.25, Neutral);
  }

  /** test/algorithm/src/triangle_triangle.cpp, Triangle_Triangle_2D_R22_or_R25, are_intersecting (tr, tr_11). */
  lemma PlanarR22R25Case11SwappedExample()
    ensures !TriangleTriangleIntersect(Triangle(Point3(0.0, 1.0, 0.0), Point3(0.0, 0.0, 0.0), Point3(1.0, 0.0, 0.0), TriangleSpecies),
      Triangle(Point3(2.5, -1.0, 0.0), Point3(0.625, -0.25, 0.0), Point3(0.0, -2.0, 0.0), TriangleSpecies))
  {
    assert FromPoints(Point3(0.0, 1.0, 0.0), Point3(0.0, 0.0, 0.0)) == Vector(0.0, -1.0, 0.0);
    assert FromPoints(Point3(0.0, 1.0, 0.0), Point3(1.0, 0.0, 0.0)) == Vector(1.0, -1.0, 0.0);
    assert VectorProduct(Vector(0.0, -1.0, 0.0), Vector(1.0, -1.0, 0.0)).z == 1.0;
    GroundCoplanar(Triangle(Point3(0.0, 1.0, 0.0), Point3(0.0, 0.0, 0.0), Point3(1.0, 0.0, 0.0), TriangleSpecies),
      Triangle(Point3(2.5, -1.0, 0.0), Point3(0.625, -0.25, 0.0), Point3(0.0, -2.0, 0.0), TriangleSpecies));
    PlanarR22R25Case11SwappedOrientations1();
    PlanarR22R25Case11SwappedOrientations2();
    PlanarR22R25Case11SwappedOrientations3();
    PlanarR22R25Case11SwappedOrientations4();
    PlanarR22R25Case11SwappedOrientations5();
  }

  /** The orientations the example above reads, part 1. */
  lemma PlanarR22R25Case11SwappedOrientations1()
    ensures Orient2D(Point2(0.0, 1.0), Point2(0.0, 0.0), Point2(1.0, 0.0)) == Positive
    ensures Orient2D(Point2(2.5, -1.0), Point2(0.625, -0.25), Point2(0.0, -2.0)) == Positive
  {
    Orient2DIs(0.0, 1.0, 0.0, 0.0, 1.0, 0.0, Positive);
    Orient2DIs(2.5, -1.0, 0.625, -0.25, 0.0, -2.0, Positive);
  }

  /** The orientations the example above reads, part 2. */
  lemma PlanarR22R25Case11SwappedOrientations2()
    ensures Orient2D(Point2(2.5, -1.0), Point2(0.625, -0.25), Point2(0.0, 1.0)) == Negative
    ensures Orient2D(Point2(0.625, -0.25), Point2(0.0, -2.0), Point2(0.0, 1.0)) == Negative
  {
    Orient2DIs(2.5, -1.0, 0.625, -0.25, 0.0, 1.0, Negative);
    Orient2DIs(0.625, -0.25, 0.0, -2.0, 0.0, 1.0, Negative);
  }

  /** The orientations the example above reads, part 3. */
  lemma PlanarR22R25Case11SwappedOrientations3()
    ensures Orient2D(Point2(0.0, -2.0), Point2(2.5, -1.0), Point2(0.0, 1.0)) == Positive
    ensures Orient2D(Point2(0.625, -0.25), Point2(0.0, -2.0), Point2(0.0, 0.0)) == Negative
  {
    Orient2DIs(0.0, -2.0, 2.5, -1.0, 0.0, 1.0, Positive);
    Orient2DIs(0.625, -0.25, 0.0, -2.0, 0.0, 0.0, Negative);
  }

  /** The orientations the example above reads, part 4. */
  lemma PlanarR22R25Case11SwappedOrientations4()
    ensures Orient2D(Point2(0.625, -0.25), Point2(0.0, -2.0), Point2(1.0, 0.0)) == Positive
    ensures Orient2D(Point2(0.625, -0.25), Point2(0.0, 0.0), Point2(1.0, 0.0)) == Negative
  {
    Orient2DIs(0.625, -0.25, 0.0, -2.0, 1.0, 0.0, Positive);
    Orient2DIs(0.625, -0.25, 0.0, 0.0, 1.0, 0.0, Negative);
  }

  /** The orientations the example above reads, part 5. */
  lemma PlanarR22R25Case11SwappedOrientations5()
    ensures Orient2D(Point2(2.5, -1.0), Point2(0.0, 0.0), Point2(1.0, 0.0)) == Negative
  {
    Orient2DIs(2.5, -1.0, 0.0, 0.0, 1.0, 0.0, Negative);
  }

  /** test/algorithm/src/triangle_triangle.cpp, Triangle_Triangle_2D_R24, are_intersecting (tr_1, tr). */
  lemma PlanarR24Case1Example()
    ensures TriangleTriangleIntersect(Triangle(Point3(2.25, -0.25, 0.0), Point3(-1.0, 1.75, 0.0), Point3(-0.5, -0.5, 0.0), TriangleSpecies),
      Triangle(Point3(0.0, 1.0, 0.0), Point3(0.0, 0.0, 0.0), Point3(1.0, 0.0, 0.0), TriangleSpecies))
  {
    assert FromPoints(Point3(2.25, -0.25, 0.0), Point3(-1.0, 1.75, 0.0)) == Vector(-3.25, 2.0, 0.0);
    assert FromPoints(Point3(2.25, -0.25, 0.0), Point3(-0.5, -0.5, 0.0)) == Vector(-2.75, -0.25, 0.0);
    assert VectorProduct(Vector(-3.25, 2.0, 0.0), Vector(-2.75, -0.25, 0.0)).z == 6.3125;
    GroundCoplanar(Triangle(Point3(2.25, -0.25, 0.0), Point3(-1.0, 1.75, 0.0), Point3(-0.5, -0.5, 0.0), TriangleSpecies),
      Triangle(Point3(0.0, 1.0, 0.0), Point3(0.0, 0.0, 0.0), Point3(1.0, 0.0, 0.0), TriangleSpecies));
    PlanarR24Case1Orientations1();
    PlanarR24Case1Orientations2();
    PlanarR24Case1Orientations3();
    PlanarR24Case1Orientations4();
    PlanarR24Case1Orientations5();
  }

  /** The orientations the example above reads, part 1. */
  lemma PlanarR24Case1Orientations1()
    ensures Orient2D(Point2(2.25, -0.25), Point2(-1.0, 1.75), Point2(-0.5, -0.5)) == Positive
    ensures Orient2D(Point2(0.0, 1.0), Point2(0.0, 0.0), Point2(1.0, 0.0)) == Positive
  {
    Orient2DIs(2.25, -0.25, -1.0, 1.75, -0.5, -0.5, Positive);
    Orient2DIs(0.0, 1.0, 0.0, 0.0, 1.0, 0.0, Positive);
  }

  /** The orientations the example above reads, part 2. */
  lemma PlanarR24Case1Orientations2()
    ensures Orient2D(Point2(0.0, 1.0), Point2(0.0, 0.0), Point2(2.25, -0.25)) == Positive
    ensures Orient2D(Point2(0.0, 0.0), Point2(1.0, 0.0), Point2(2.25, -0.25)) == Negative
  {
    Orient2DIs(0.0, 1.0, 0.0, 0.0, 2.25, -0.25, Positive);
    Orient2DIs(0.0, 0.0, 1.0, 0.0, 2.25, -0.25, Negative);
  }

  /** The orientations the example above reads, part 3. */
  lemma PlanarR24Case1Orientations3()
    ensures Orient2D(Point2(1.0, 0.0), Point2(0.0, 1.0), Point2(2.25, -0.25)) == Negative
    ensures Orient2D(Point2(1.0, 0.0), Point2(0.0, 1.0), Point2(-1.0, 1.75)) == Positive
  {
    Orient2DIs(1.0, 0.0, 0.0, 1.0, 2.25, -0.25, Negative);
    Orient2DIs(1.0, 0.0, 0.0, 1.0, -1.0, 1.75, Positive);
  }

  /** The orientations the example above reads, part 4. */
  lemma PlanarR24Case1Orientations4()
    ensures Orient2D(Point2(0.0, 0.0), Point2(1.0, 0.0), Point2(-1.0, 1.75)) == Positive
    ensures Orient2D(Point2(2.25, -0.25), Point2(0.0, 1.0), Point2(-1.0, 1.75)) == Negative
  {
    Orient2DIs(0.0, 0.0, 1.0, 0.0, -1.0, 1.75, Positive);
    Orient2DIs(2.25, -0.25, 0.0, 1.0, -1.0, 1.75, Negative);
  }

  /** The orientations the example above reads, part 5. */
  lemma PlanarR24Case1Orientations5()
    ensures Orient2D(Point2(2.25, -0.25), Point2(0.0, 1.0), Point2(-0.5, -0.5)) == Positive
    ensures Orient2D(Point2(-1.0, 1.75), Point2(0.0, 1.0), Point2(-0.5, -0.5)) == Negative
  {
    Orient2DIs(2.25, -0.25, 0.0, 1.0, -0.5, -0.5, Positive);
    Orient2DIs(-1.0, 1.75, 0.0, 1.0, -0.5, -0.5, Negative);
  }

  /** test/algorithm/src/triangle_triangle.cpp, Triangle_Triangle_2D_R24, are_intersecting (tr, tr_1). */
  lemma PlanarR24Case1SwappedExample()
    ensures TriangleTriangleIntersect(Triangle(Point3(0.0, 1.0, 0.0), Point3(0.0, 0.0, 0.0), Point3(1.0, 0.0, 0.0), TriangleSpecies),
      Triangle(Point3(2.25, -0.25, 0.0), Point3(-1.0, 1.75, 0.0), Point3(-0.5, -0.5, 0.0), TriangleSpecies))
  {
    assert FromPoints(Point3(0.0, 1.0, 0.0), Point3(0.0, 0.0, 0.0)) == Vector(0.0, -1.0, 0.0);
    assert FromPoints(Point3(0.0, 1.0, 0.0), Point3(1.0, 0.0, 0.0)) == Vector(1.0, -1.0, 0.0);
    assert VectorProduct(Vector(0.0, -1.0, 0.0), Vector(1.0, -1.0, 0.0)).z == 1.0;
    GroundCoplanar(Triangle(Point3(0.0, 1.0, 0.0), Point3(0.0, 0.0, 0.0), Point3(1.0, 0.0, 0.0), TriangleSpecies),
      Triangle(Point3(2.25, -0.25, 0.0), Point3(-1.0, 1.75, 0.0), Point3(-0.5, -0.5, 0.0), TriangleSpecies));
    PlanarR24Case1SwappedOrientations1();
    PlanarR24Case1SwappedOrientations2();
    PlanarR24Case1SwappedOrientations3();
  }

  /** The orientations the example above reads, part 1. */
  lemma PlanarR24Case1SwappedOrientations1()
    ensures Orient2D(Point2(0.0, 1.0), Point2(0.0, 0.0), Point2(1.0, 0.0)) == Positive
    ensures Orient2D(Point2(2.25, -0.25), Point2(-1.0, 1.75), Point2(-0.5, -0.5)) == Positive
  {
    Orient2DIs(0.0, 1.0, 0.0, 0.0, 1.0, 0.0, Positive);
    Orient2DIs(2.25, -0.25, -1.0, 1.75, -0.5, -0.5, Positive);
  }

  /** The orientations the example above reads, part 2. */
  lemma PlanarR24Case1SwappedOrientations2()
    ensures Orient2D(Point2(2.25, -0.25), Point2(-1.0, 1.75), Point2(0.0, 1.0)) == Positive
    ensures Orient2D(Point2(-1.0, 1.75), Point2(-0.5, -0.5), Point2(0.0, 1.0)) == Positive
  {
    Orient2DIs(2.25, -0.25, -1.0, 1.75, 0.0, 1.0, Positive);
    Orient2DIs(-1.0, 1.75, -0.5, -0.5, 0.0, 1.0, Positive);
  }

  /** The orientations the example above reads, part 3. */
  lemma PlanarR24Case1SwappedOrientations3()
    ensures Orient2D(Point2(-0.5, -0.5), Point2(2.25, -0.25), Point2(0.0, 1.0)) == Positive
  {
    Orient2DIs(-0.5, -0.5, 2.25, -0.25, 0.0, 1.0, Positive);
  }

  /** test/algorithm/src/triangle_triangle.cpp, Triangle_Triangle_2D_R24, are_intersecting (tr_2, tr). */
  lemma PlanarR24Case2Example()
    ensures TriangleTriangleIntersect(Triangle(Point3(2.25, -0.25, 0.0), Point3(-1.0, 1.75, 0.0), Point3(1.0, 0.25, 0.0), TriangleSpecies),
      Triangle(Point3(0.0, 1.0, 0.0), Point3(0.0, 0.0, 0.0), Point3(1.0, 0.0, 0.0), TriangleSpecies))
  {
    assert FromPoints(Point3(2.25, -0.25, 0.0), Point3(-1.0, 1.75, 0.0)) == Vector(-3.25, 2.0, 0.0);
    assert FromPoints(Point3(2.25, -0.25, 0.0), Point3(1.0, 0.25, 0.0)) == Vector(-1.25, 0.5, 0.0);
    assert VectorProduct(Vector(-3.25, 2.0, 0.0), Vector(-1.25, 0.5, 0.0)).z == 0.875;
    GroundCoplanar(Triangle(Point3(2.25, -0.25, 0.0), Point3(-1.0, 1.75, 0.0), Point3(1.0, 0.25, 0.0), TriangleSpecies),
      Triangle(Point3(0.0, 1.0, 0.0), Point3(0.0, 0.0, 0.0), Point3(1.0, 0.0, 0.0), TriangleSpecies));
    PlanarR24Case2Orientations1();
    PlanarR24Case2Orientations2();
    PlanarR24Case2Orientations3();
    PlanarR24Case2Orientations4();
    PlanarR24Case2Orientations5();
  }

  /** The orientations the example above reads, part 1. */
  lemma PlanarR24Case2Orientations1()
    ensures Orient2D(Point2(2.25, -0.25), Point2(-1.0, 1.75), Point2(1.0, 0.25)) == Positive
    ensures Orient2D(Point2(0.0, 1.0), Point2(0.0, 0.0), Point2(1.0, 0.0)) == Positive
  {
    Orient2DIs(2.25, -0.25, -1.0, 1.75, 1.0, 0.25, Positive);
    Orient2DIs(0.0, 1.0, 0.0, 0.0, 1.0, 0.0, Positive);
  }

  /** The orientations the example above reads, part 2. */
  lemma PlanarR24Case2Orientations2()
    ensures Orient2D(Point2(0.0, 1.0), Point2(0.0, 0.0), Point2(2.25, -0.25)) == Positive
    ensures Orient2D(Point2(0.0, 0.0), Point2(1.0, 0.0), Point2(2.25, -0.25)) == Negative
  {
    Orient2DIs(0.0, 1.0, 0.0, 0.0, 2.25, -0.25, Positive);
    Orient2DIs(0.0, 0.0, 1.0, 0.0, 2.25, -0.25, Negative);
  }

  /** The orientations the example above reads, part 3. */
  lemma PlanarR24Case2Orientations3()
    ensures Orient2D(Point2(1.0, 0.0), Point2(0.0, 1.0), Point2(2.25, -0.25)) == Negative
    ensures Orient2D(Point2(1.0, 0.0), Point2(0.0, 1.0), Point2(-1.0, 1.75)) == Positive
  {
    Orient2DIs(1.0, 0.0, 0.0, 1.0, 2.25, -0.25, Negative);
    Orient2DIs(1.0, 0.0, 0.0, 1.0, -1.0, 1.75, Positive);
  }

  /** The orientations the example above reads, part 4. */
  lemma PlanarR24Case2Orientations4()
    ensures Orient2D(Point2(0.0, 0.0), Point2(1.0, 0.0), Point2(-1.0, 1.75)) == Positive
    ensures Orient2D(Point2(2.25, -0.25), Point2(0.0, 1.0), Point2(-1.0, 1.75)) == Negative
  {
    Orient2DIs(0.0, 0.0, 1.0, 0.0, -1.0, 1.75, Positive);
    Orient2DIs(2.25, -0.25, 0.0, 1.0, -1.0, 1.75, Negative);
  }

  /** The orientations the example above reads, part 5. */
  lemma PlanarR24Case2Orientations5()
    ensures Orient2D(Point2(2.25, -0.25), Point2(0.0, 1.0), Point2(1.0, 0.25)) == Positive
    ensures Orient2D(Point2(-1.0, 1.75), Point2(0.0, 1.0), Point2(1.0, 0.25)) == Neutral
  {
    Orient2DIs(2.25, -0.25, 0.0, 1.0, 1.0, 0.25, Positive);
    Orient2DIs(-1.0, 1.75, 0.0, 1.0, 1.0, 0.25, Neutral);
  }

  /** test/algorithm/src/triangle_triangle.cpp, Triangle_Triangle_2D_R24, are_intersecting (tr, tr_2). */
  lemma PlanarR24Case2SwappedExample()
    ensures TriangleTriangleIntersect(Triangle(Point3(0.0, 1.0, 0.0), Point3(0.0, 0.0, 0.0), Point3(1.0, 0.0, 0.0), TriangleSpecies),
      Triangle(Point3(2.25, -0.25, 0.0), Point3(-1.0, 1.75, 0.0), Point3(1.0, 0.25, 0.0), TriangleSpecies))
  {
    assert FromPoints(Point3(0.0, 1.0, 0.0), Point3(0.0, 0.0, 0.0)) == Vector(0.0, -1.0, 0.0);
    assert FromPoints(Point3(0.0, 1.0, 0.0), Point3(1.0, 0.0, 0.0)) == Vector(1.0, -1.0, 0.0);
    assert VectorProduct(Vector(0.0, -1.0, 0.0), Vector(1.0, -1.0, 0.0)).z == 1.0;
    GroundCoplanar(Triangle(Point3(0.0, 1.0, 0.0), Point3(0.0, 0.0, 0.0), Point3(1.0, 0.0, 0.0), TriangleSpecies),
      Triangle(Point3(2.25, -0.25, 0.0), Point3(-1.0, 1.75, 0.0), Point3(1.0, 0.25, 0.0), TriangleSpecies));
    PlanarR24Case2SwappedOrientations1();
    PlanarR24Case2SwappedOrientations2();
    PlanarR24Case2SwappedOrientations3();
  }

  /** The orientations the example above reads, part 1. */
  lemma PlanarR24Case2SwappedOrientations1()
    ensures Orient2D(Point2(0.0, 1.0), Point2(0.0, 0.0), Point2(1.0, 0.0)) == Positive
    ensures Orient2D(Point2(2.25, -0.25), Point2(-1.0, 1.75), Point2(1.0, 0.25)) == Positive
  {
    Orient2DIs(0.0, 1.0, 0.0, 0.0, 1.0, 0.0, Positive);
    Orient2DIs(2.25, -0.25, -1.0, 1.75, 1.0, 0.25, Positive);
  }

  /** The orientations the example above reads, part 2. */
  lemma PlanarR24Case2SwappedOrientations2()
    ensures Orient2D(Point2(2.25, -0.25), Point2(-1.0, 1.75), Point2(0.0, 1.0)) == Positive
    ensures Orient2D(Point2(-1.0, 1.75), Point2(1.0, 0.25), Point2(0.0, 1.0)) == Neutral
  {
    Orient2DIs(2.25, -0.25, -1.0, 1.75, 0.0, 1.0, Positive);
    Orient2DIs(-1.0, 1.75, 1.0, 0.25, 0.0, 1.0, Neutral);
  }

  /** The orientations the example above reads, part 3. */
  lemma PlanarR24Case2SwappedOrientations3()
    ensures Orient2D(Point2(1.0, 0.25), Point2(2.25, -0.25), Point2(0.0, 1.0)) == Positive
  {
    Orient2DIs(1.0, 0.25, 2.25, -0.25, 0.0, 1.0, Positive);
  }

  /** test/algorithm/src/triangle_triangle.cpp, Triangle_Triangle_2D_R24, are_intersecting (tr_3, tr). */
  lemma PlanarR24Case3Example()
    ensures TriangleTriangleIntersect(Triangle(Point3(2.25, -0.25, 0.0), Point3(-1.0, 1.75, 0.0), Point3(-2.25, 2.25, 0.0), TriangleSpecies),
      Triangle(Point3(0.0, 1.0, 0.0), Point3(0.0, 0.0, 0.0), Point3(1.0, 0.0, 0.0), TriangleSpecies))
  {
    assert FromPoints(Point3(2.25, -0.25, 0.0), Point3(-1.0, 1.75, 0.0)) == Vector(-3.25, 2.0, 0.0);
    assert FromPoints(Point3(2.25, -0.25, 0.0), Point3(-2.25, 2.25, 0.0)) == Vector(-4.5, 2.5, 0.0);
    assert VectorProduct(Vector(-3.25, 2.0, 0.0), Vector(-4.5, 2.5, 0.0)).z == 0.875;
    GroundCoplanar(Triangle(Point3(2.25, -0.25, 0.0), Point3(-1.0, 1.75, 0.0), Point3(-2.25, 2.25, 0.0), TriangleSpecies),
      Triangle(Point3(0.0, 1.0, 0.0), Point3(0.0, 0.0, 0.0), Point3(1.0, 0.0, 0.0), TriangleSpecies));
    PlanarR24Case3Orientations1();
    PlanarR24Case3Orientations2();
    PlanarR24Case3Orientations3();
    PlanarR24Case3Orientations4();
    PlanarR24Case3Orientations5();
  }

  /** The orientations the example above reads, part 1. */
  lemma PlanarR24Case3Orientations1()
    ensures Orient2D(Point2(2.25, -0.25), Point2(-1.0, 1.75), Point2(-2.25, 2.25)) == Positive
    ensures Orient2D(Point2(0.0, 1.0), Point2(0.0, 0.0), Point2(1.0, 0.0)) == Positive
  {
    Orient2DIs(2.25, -0.25, -1.0, 1.75, -2.25, 2.25, Positive);
    Orient2DIs(0.0, 1.0, 0.0, 0.0, 1.0, 0.0, Positive);
  }

  /** The orientations the example above reads, part 2. */
  lemma PlanarR24Case3Orientations2()
    ensures Orient2D(Point2(0.0, 1.0), Point2(0.0, 0.0), Point2(2.25, -0.25)) == Positive
    ensures Orient2D(Point2(0.0, 0.0), Point2(1.0, 0.0), Point2(2.25, -0.25)) == Negative
  {
    Orient2DIs(0.0, 1.0, 0.0, 0.0, 2.25, -0.25, Positive);
    Orient2DIs(0.0, 0.0, 1.0, 0.0, 2.25, -0.25, Negative);
  }

  /** The orientations the example above reads, part 3. */
  lemma PlanarR24Case3Orientations3()
    ensures Orient2D(Point2(1.0, 0.0), Point2(0.0, 1.0), Point2(2.25, -0.25)) == Negative
    ensures Orient2D(Point2(1.0, 0.0), Point2(0.0, 1.0), Point2(-1.0, 1.75)) == Positive
  {
    Orient2DIs(1.0, 0.0, 0.0, 1.0, 2.25, -0.25, Negative);
    Orient2DIs(1.0, 0.0, 0.0, 1.0, -1.0, 1.75, Positive);
  }

  /** The orientations the example above reads, part 4. */
  lemma PlanarR24Case3Orientations4()
    ensures Orient2D(Point2(0.0, 0.0), Point2(1.0, 0.0), Point2(-1.0, 1.75)) == Positive
    ensures Orient2D(Point2(2.25, -0.25), Point2(0.0, 1.0), Point2(-1.0, 1.75)) == Negative
  {
    Orient2DIs(0.0, 0.0, 1.0, 0.0, -1.0, 1.75, Positive);
    Orient2DIs(2.25, -0.25, 0.0, 1.0, -1.0, 1.75, Negative);
  }

  /** The orientations the example above reads, part 5. */
  lemma PlanarR24Case3Orientations5()
    ensures Orient2D(Point2(2.25, -0.25), Point2(0.0, 1.0), Point2(-2.25, 2.25)) == Neutral
    ensures Orient2D(Point2(-1.0, 1.75), Point2(0.0, 1.0), Point2(-2.25, 2.25)) == Negative
  {
    Orient2DIs(2.25, -0.25, 0.0, 1.0, -2.25, 2.25, Neutral);
    Orient2DIs(-1.0, 1.75, 0.0, 1.0, -2.25, 2.25, Negative);
  }

  /** test/algorithm/src/triangle_triangle.cpp, Triangle_Triangle_2D_R24, are_intersecting (tr, tr_3). */
  lemma PlanarR24Case3SwappedExample()
    ensures TriangleTriangleIntersect(Triangle(Point3(0.0, 1.0, 0.0), Point3(0.0, 0.0, 0.0), Point3(1.0, 0.0, 0.0), TriangleSpecies),
      Triangle(Point3(2.25, -0.25, 0.0), Point3(-1.0, 1.75, 0.0), Point3(-2.25, 2.25, 0.0), TriangleSpecies))
  {
    assert FromPoints(Point3(0.0, 1.0, 0.0), Point3(0.0, 0.0, 0.0)) == Vector(0.0, -1.0, 0.0);
    assert FromPoints(Point3(0.0, 1.0, 0.0), Point3(1.0, 0.0, 0.0)) == Vector(1.0, -1.0, 0.0);
    assert VectorProduct(Vector(0.0, -1.0, 0.0), Vector(1.0, -1.0, 0.0)).z == 1.0;
    GroundCoplanar(Triangle(Point3(0.0, 1.0, 0.0), Point3(0.0, 0.0, 0.0), Point3(1.0, 0.0, 0.0), TriangleSpecies),
      Triangle(Point3(2.25, -0.25, 0.0), Point3(-1.0, 1.75, 0.0), Point3(-2.25, 2.25, 0.0), TriangleSpecies));
    PlanarR24Case3SwappedOrientations1();
    PlanarR24Case3SwappedOrientations2();
    PlanarR24Case3SwappedOrientations3();
  }

  /** The orientations the example above reads, part 1. */
  lemma PlanarR24Case3SwappedOrientations1()
    ensures Orient2D(Point2(0.0, 1.0), Point2(0.0, 0.0), Point2(1.0, 0.0)) == Positive
    ensures Orient2D(Point2(2.25, -0.25), Point2(-1.0, 1.75), Point2(-2.25, 2.25)) == Positive
  {
    Orient2DIs(0.0, 1.0, 0.0, 0.0, 1.0, 0.0, Positive);
    Orient2DIs(2.25, -0.25, -1.0, 1.75, -2.25, 2.25, Positive);
  }

  /** The orientations the example above reads, part 2. */
  lemma PlanarR24Case3SwappedOrientations2()
    ensures Orient2D(Point2(2.25, -0.25), Point2(-1.0, 1.75), Point2(0.0, 1.0)) == Positive
    ensures Orient2D(Point2(-1.0, 1.75), Point2(-2.25, 2.25), Point2(0.0, 1.0)) == Positive
  {
    Orient2DIs(2.25, -0.25, -1.0, 1.75, 0.0, 1.0, Positive);
    Orient2DIs(-1.0, 1.75, -2.25, 2.25, 0.0, 1.0, Positive);
  }

  /** The orientations the example above reads, part 3. */
  lemma PlanarR24Case3SwappedOrientations3()
    ensures Orient2D(Point2(-2.25, 2.25), Point2(2.25, -0.25), Point2(0.0, 1.0)) == Neutral
  {
    Orient2DIs(-2.25, 2.25, 2.25, -0.25, 0.0, 1.0, Neutral);
  }

  /** test/algorithm/src/triangle_triangle.cpp, Triangle_Triangle_2D_R24, are_intersecting (tr_4, tr). */
  lemma PlanarR24Case4Example()
    ensures TriangleTriangleIntersect(Triangle(Point3(2.25, -0.25, 0.0), Point3(-1.0, 1.75, 0.0), Point3(0.0, 1.0, 0.0), TriangleSpecies),
      Triangle(Point3(0.0, 1.0, 0.0), Point3(0.0, 0.0, 0.0), Point3(1.0, 0.0, 0.0), TriangleSpecies))
  {
    assert FromPoints(Point3(2.25, -0.25, 0.0), Point3(-1.0, 1.75, 0.0)) == Vector(-3.25, 2.0, 0.0);
    assert FromPoints(Point3(2.25, -0.25, 0.0), Point3(0.0, 1.0, 0.0)) == Vector(-2.25, 1.25, 0.0);
    assert VectorProduct(Vector(-3.25, 2.0, 0.0), Vector(-2.25, 1.25, 0.0)).z == 0.4375;
    GroundCoplanar(Triangle(Point3(2.25, -0.25, 0.0), Point3(-1.0, 1.75, 0.0), Point3(0.0, 1.0, 0.0), TriangleSpecies),
      Triangle(Point3(0.0, 1.0, 0.0), Point3(0.0, 0.0, 0.0), Point3(1.0, 0.0, 0.0), TriangleSpecies));
    PlanarR24Case4Orientations1();
    PlanarR24Case4Orientations2();
    PlanarR24Case4Orientations3();
    PlanarR24Case4Orientations4();
    PlanarR24Case4Orientations5();
  }

  /** The orientations the example above reads, part 1. */
  lemma PlanarR24Case4Orientations1()
    ensures Orient2D(Point2(2.25, -0.25), Point2(-1.0, 1.75), Point2(0.0, 1.0)) == Positive
    ensures Orient2D(Point2(0.0, 1.0), Point2(0.0, 0.0), Point2(1.0, 0.0)) == Positive
  {
    Orient2DIs(2.25, -0.25, -1.0, 1.75, 0.0, 1.0, Positive);
    Orient2DIs(0.0, 1.0, 0.0, 0.0, 1.0, 0.0, Positive);
  }

  /** The orientations the example above reads, part 2. */
  lemma PlanarR24Case4Orientations2()
    ensures Orient2D(Point2(0.0, 1.0), Point2(0.0, 0.0), Point2(2.25, -0.25)) == Positive
    ensures Orient2D(Point2(0.0, 0.0), Point2(1.0, 0.0), Point2(2.25, -0.25)) == Negative
  {
    Orient2DIs(0.0, 1.0, 0.0, 0.0, 2.25, -0.25, Positive);
    Orient2DIs(0.0, 0.0, 1.0, 0.0, 2.25, -0.25, Negative);
  }

  /** The orientations the example above reads, part 3. */
  lemma PlanarR24Case4Orientations3()
    ensures Orient2D(Point2(1.0, 0.0), Point2(0.0, 1.0), Point2(2.25, -0.25)) == Negative
    ensures Orient2D(Point2(1.0, 0.0), Point2(0.0, 1.0), Point2(-1.0, 1.75)) == Positive
  {
    Orient2DIs(1.0, 0.0, 0.0, 1.0, 2.25, -0.25, Negative);
    Orient2DIs(1.0, 0.0, 0.0, 1.0, -1.0, 1.75, Positive);
  }

  /** The orientations the example above reads, part 4. */
  lemma PlanarR24Case4Orientations4()
    ensures Orient2D(Point2(0.0, 0.0), Point2(1.0, 0.0), Point2(-1.0, 1.75)) == Positive
    ensures Orient2D(Point2(2.25, -0.25), Point2(0.0, 1.0), Point2(-1.0, 1.75)) == Negative
  {
    Orient2DIs(0.0, 0.0, 1.0, 0.0, -1.0, 1.75, Positive);
    Orient2DIs(2.25, -0.25, 0.0, 1.0, -1.0, 1.75, Negative);
  }

  /** The orientations the example above reads, part 5. */
  lemma PlanarR24Case4Orientations5()
    ensures Orient2D(Point2(2.25, -0.25), Point2(0.0, 1.0), Point2(0.0, 1.0)) == Neutral
    ensures Orient2D(Point2(-1.0, 1.75), Point2(0.0, 1.0), Point2(0.0, 1.0)) == Neutral
  {
    Orient2DIs(2.25, -0.25, 0.0, 1.0, 0.0, 1.0, Neutral);
    Orient2DIs(-1.0, 1.75, 0.0, 1.0, 0.0, 1.0, Neutral);
  }

  /** test/algorithm/src/triangle_triangle.cpp, Triangle_Triangle_2D_R24, are_intersecting (tr, tr_4). */
  lemma PlanarR24Case4SwappedExample()
    ensures TriangleTriangleIntersect(Triangle(Point3(0.0, 1.0, 0.0), Point3(0.0, 0.0, 0.0), Point3(1.0, 0.0, 0.0), TriangleSpecies),
      Triangle(Point3(2.25, -0.25, 0.0), Point3(-1.0, 1.75, 0.0), Point3(0.0, 1.0, 0.0), TriangleSpecies))
  {
    assert FromPoints(Point3(0.0, 1.0, 0.0), Point3(0.0, 0.0, 0.0)) == Vector(0.0, -1.0, 0.0);
    assert FromPoints(Point3(0.0, 1.0, 0.0), Point3(1.0, 0.0, 0.0)) == Vector(1.0, -1.0, 0.0);
    assert VectorProduct(Vector(0.0, -1.0, 0.0), Vector(1.0, -1.0, 0.0)).z == 1.0;
    GroundCoplanar(Triangle(Point3(0.0, 1.0, 0.0), Point3(0.0, 0.0, 0.0), Point3(1.0, 0.0, 0.0), TriangleSpecies),
      Triangle(Point3(2.25, -0.25, 0.0), Point3(-1.0, 1.75, 0.0), Point3(0.0, 1.0, 0.0), TriangleSpecies));
    PlanarR24Case4SwappedOrientations1();
    PlanarR24Case4SwappedOrientations2();
  }

  /** The orientations the example above reads, part 1. */
  lemma PlanarR24Case4SwappedOrientations1()
    ensures Orient2D(Point2(0.0, 1.0), Point2(0.0, 0.0), Point2(1.0, 0.0)) == Positive
    ensures Orient2D(Point2(2.25, -0.25), Point2(-1.0, 1.75), Point2(0.0, 1.0)) == Positive
  {
    Orient2DIs(0.0, 1.0, 0.0, 0.0, 1.0, 0.0, Positive);
    Orient2DIs(2.25, -0.25, -1.0, 1.75, 0.0, 1.0, Positive);
  }

  /** The orientations the example above reads, part 2. */
  lemma PlanarR24Case4SwappedOrientations2()
    ensures Orient2D(Point2(-1.0, 1.75), Point2(0.0, 1.0), Point2(0.0, 1.0)) == Neutral
    ensures Orient2D(Point2(0.0, 1.0), Point2(2.25, -0.25), Point2(0.0, 1.0)) == Neutral
  {
    Orient2DIs(-1.0, 1.75, 0.0, 1.0, 0.0, 1.0, Neutral);
    Orient2DIs(0.0, 1.0, 2.25, -0.25, 0.0, 1.0, Neutral);
  }

  /** test/algorithm/src/triangle_triangle.cpp, Triangle_Triangle_2D_R24, are_intersecting (tr_5, tr). */
  lemma PlanarR24Case5Example()
    ensures !TriangleTriangleIntersect(Triangle(Point3(2.25, -0.25, 0.0), Point3(-1.0, 1.75, 0.0), Point3(0.125, 1.0, 0.0), TriangleSpecies),
      Triangle(Point3(0.0, 1.0, 0.0), Point3(0.0, 0.0, 0.0), Point3(1.0, 0.0, 0.0), TriangleSpecies))
  {
    assert FromPoints(Point3(2.25, -0.25, 0.0), Point3(-1.0, 1.75, 0.0)) == Vector(-3.25, 2.0, 0.0);
    assert FromPoints(Point3(2.25, -0.25, 0.0), Point3(0.125, 1.0, 0.0)) == Vector(-2.125, 1.25, 0.0);
    assert VectorProduct(Vector(-3.25, 2.0, 0.0), Vector(-2.125, 1.25, 0.0)).z == 0.1875;
    GroundCoplanar(Triangle(Point3(2.25, -0.25, 0.0), Point3(-1.0, 1.75, 0.0), Point3(0.125, 1.0, 0.0), TriangleSpecies),
      Triangle(Point3(0.0, 1.0, 0.0), Point3(0.0, 0.0, 0.0), Point3(1.0, 0.0, 0.0), TriangleSpecies));
    PlanarR24Case5Orientations1();
    PlanarR24Case5Orientations2();
    PlanarR24Case5Orientations3();
    PlanarR24Case5Orientations4();
    PlanarR24Case5Orientations5();
  }

  /** The orientations the example above reads, part 1. */
  lemma PlanarR24Case5Orientations1()
    ensures Orient2D(Point2(2.25, -0.25), Point2(-1.0, 1.75), Point2(0.125, 1.0)) == Positive
    ensures Orient2D(Point2(0.0, 1.0), Point2(0.0, 0.0), Point2(1.0, 0.0)) == Positive
  {
    Orient2DIs(2.25, -0.25, -1.0, 1.75, 0.125, 1.0, Positive);
    Orient2DIs(0.0, 1.0, 0.0, 0.0, 1.0, 0.0, Positive);
  }

  /** The orientations the example above reads, part 2. */
  lemma PlanarR24Case5Orientations2()
    ensures Orient2D(Point2(0.0, 1.0), Point2(0.0, 0.0), Point2(2.25, -0.25)) == Positive
    ensures Orient2D(Point2(0.0, 0.0), Point2(1.0, 0.0), Point2(2.25, -0.25)) == Negative
  {
    Orient2DIs(0.0, 1.0, 0.0, 0.0, 2.25, -0.25, Positive);
    Orient2DIs(0.0, 0.0, 1.0, 0.0, 2.25, -0.25, Negative);
  }

  /** The orientations the example above reads, part 3. */
  lemma PlanarR24Case5Orientations3()
    ensures Orient2D(Point2(1.0, 0.0), Point2(0.0, 1.0), Point2(2.25, -0.25)) == Negative
    ensures Orient2D(Point2(1.0, 0.0), Point2(0.0, 1.0), Point2(-1.0, 1.75)) == Positive
  {
    Orient2DIs(1.0, 0.0, 0.0, 1.0, 2.25, -0.25, Negative);
    Orient2DIs(1.0, 0.0, 0.0, 1.0, -1.0, 1.75, Positive);
  }

  /** The orientations the example above reads, part 4. */
  lemma PlanarR24Case5Orientations4()
    ensures Orient2D(Point2(0.0, 0.0), Point2(1.0, 0.0), Point2(-1.0, 1.75)) == Positive
    ensures Orient2D(Point2(2.25, -0.25), Point2(0.0, 1.0), Point2(-1.0, 1.75)) == Negative
  {
    Orient2DIs(0.0, 0.0, 1.0, 0.0, -1.0, 1.75, Positive);
    Orient2DIs(2.25, -0.25, 0.0, 1.0, -1.0, 1.75, Negative);
  }

  /** The orientations the example above reads, part 5. */
  lemma PlanarR24Case5Orientations5()
    ensures Orient2D(Point2(2.25, -0.25), Point2(0.0, 1.0), Point2(0.125, 1.0)) == Negative
  {
    Orient2DIs(2.25, -0.25, 0.0, 1.0, 0.125, 1.0, Negative);
  }

  /** test/algorithm/src/triangle_triangle.cpp, Triangle_Triangle_2D_R24, are_intersecting (tr, tr_5). */
  lemma PlanarR24Case5SwappedExample()
    ensures !TriangleTriangleIntersect(Triangle(Point3(0.0, 1.0, 0.0), Point3(0.0, 0.0, 0.0), Point3(1.0, 0.0, 0.0), TriangleSpecies),
      Triangle(Point3(2.25, -0.25, 0.0), Point3(-1.0, 1.75, 0.0), Point3(0.125, 1.0, 0.0), TriangleSpecies))
  {
    assert FromPoints(Point3(0.0, 1.0, 0.0), Point3(0.0, 0.0, 0.0)) == Vector(0.0, -1.0, 0.0);
    assert FromPoints(Point3(0.0, 1.0, 0.0), Point3(1.0, 0.0, 0.0)) == Vector(1.0, -1.0, 0.0);
    assert VectorProduct(Vector(0.0, -1.0, 0.0), Vector(1.0, -1.0, 0.0)).z == 1.0;
    GroundCoplanar(Triangle(Point3(0.0, 1.0, 0.0), Point3(0.0, 0.0, 0.0), Point3(1.0, 0.0, 0.0), TriangleSpecies),
      Triangle(Point3(2.25, -0.25, 0.0), Point3(-1.0, 1.75, 0.0), Point3(0.125, 1.0, 0.0), TriangleSpecies));
    PlanarR24Case5SwappedOrientations1();
    PlanarR24Case5SwappedOrientations2();
    PlanarR24Case5SwappedOrientations3();
    PlanarR24Case5SwappedOrientations4();
  }

  /** The orientations the example above reads, part 1. */
  lemma PlanarR24Case5SwappedOrientations1()
    ensures Orient2D(Point2(0.0, 1.0), Point2(0.0, 0.0), Point2(1.0, 0.0)) == Positive
    ensures Orient2D(Point2(2.25, -0.25), Point2(-1.0, 1.75), Point2(0.125, 1.0)) == Positive
  {
    Orient2DIs(0.0, 1.0, 0.0, 0.0, 1.0, 0.0, Positive);
    Orient2DIs(2.25, -0.25, -1.0, 1.75, 0.125, 1.0, Positive);
  }

  /** The orientations the example above reads, part 2. */
  lemma PlanarR24Case5SwappedOrientations2()
    ensures Orient2D(Point2(2.25, -0.25), Point2(-1.0, 1.75), Point2(0.0, 1.0)) == Positive
    ensures Orient2D(Point2(-1.0, 1.75), Point2(0.125, 1.0), Point2(0.0, 1.0)) == Negative
  {
    Orient2DIs(2.25, -0.25, -1.0, 1.75, 0.0, 1.0, Positive);
    Orient2DIs(-1.0, 1.75, 0.125, 1.0, 0.0, 1.0, Negative);
  }

  /** The orientations the example above reads, part 3. */
  lemma PlanarR24Case5SwappedOrientations3()
    ensures Orient2D(Point2(0.125, 1.0), Point2(2.25, -0.25), Point2(0.0, 1.0)) == Negative
    ensures Orient2D(Point2(0.125, 1.0), Point2(2.25, -0.25), Point2(0.0, 0.0)) == Negative
  {
    Orient2DIs(0.125, 1.0, 2.25, -0.25, 0.0, 1.0, Negative);
    Orient2DIs(0.125, 1.0, 2.25, -0.25, 0.0, 0.0, Negative);
  }

  /** The orientations the example above reads, part 4. */
  lemma PlanarR24Case5SwappedOrientations4()
    ensures Orient2D(Point2(0.125, 1.0), Point2(2.25, -0.25), Point2(1.0, 0.0)) == Negative
  {
    Orient2DIs(0.125, 1.0, 2.25, -0.25, 1.0, 0.0, Negative);
  }

  /** test/algorithm/src/triangle_triangle.cpp, Triangle_Triangle_2D_R24, are_intersecting (tr_6, tr). */
  lemma PlanarR24Case6Example()
    ensures !TriangleTriangleIntersect(Triangle(Point3(2.25, -0.25, 0.0), Point3(-1.0, 1.75, 0.0), Point3(-0.5, 1.375, 0.0), TriangleSpecies),
      Triangle(Point3(0.0, 1.0, 0.0), Point3(0.0, 0.0, 0.0), Point3(1.0, 0.0, 0.0), TriangleSpecies))
  {
    assert FromPoints(Point3(2.25, -0.25, 0.0), Point3(-1.0, 1.75, 0.0)) == Vector(-3.25, 2.0, 0.0);
    assert FromPoints(Point3(2.25, -0.25, 0.0), Point3(-0.5, 1.375, 0.0)) == Vector(-2.75, 1.625, 0.0);
    assert VectorProduct(Vector(-3.25, 2.0, 0.0), Vector(-2.75, 1.625, 0.0)).z == 0.21875;
    GroundCoplanar(Triangle(Point3(2.25, -0.25, 0.0), Point3(-1.0, 1.75, 0.0), Point3(-0.5, 1.375, 0.0), TriangleSpecies),
      Triangle(Point3(0.0, 1.0, 0.0), Point3(0.0, 0.0, 0.0), Point3(1.0, 0.0, 0.0), TriangleSpecies));
    PlanarR24Case6Orientations1();
    PlanarR24Case6Orientations2();
    PlanarR24Case6Orientations3();
    PlanarR24Case6Orientations4();
    PlanarR24Case6Orientations5();
  }

  /** The orientations the example above reads, part 1. */
  lemma PlanarR24Case6Orientations1()
    ensures Orient2D(Point2(2.25, -0.25), Point2(-1.0, 1.75), Point2(-0.5, 1.375)) == Positive
    ensures Orient2D(Point2(0.0, 1.0), Point2(0.0, 0.0), Point2(1.0, 0.0)) == Positive
  {
    Orient2DIs(2.25, -0.25, -1.0, 1.75, -0.5, 1.375, Positive);
    Orient2DIs(0.0, 1.0, 0.0, 0.0, 1.0, 0.0, Positive);
  }

  /** The orientations the example above reads, part 2. */
  lemma PlanarR24Case6Orientations2()
    ensures Orient2D(Point2(0.0, 1.0), Point2(0.0, 0.0), Point2(2.25, -0.25)) == Positive
    ensures Orient2D(Point2(0.0, 0.0), Point2(1.0, 0.0), Point2(2.25, -0.25)) == Negative
  {
    Orient2DIs(0.0, 1.0, 0.0, 0.0, 2.25, -0.25, Positive);
    Orient2DIs(0.0, 0.0, 1.0, 0.0, 2.25, -0.25, Negative);
  }

  /** The orientations the example above reads, part 3. */
  lemma PlanarR24Case6Orientations3()
    ensures Orient2D(Point2(1.0, 0.0), Point2(0.0, 1.0), Point2(2.25, -0.25)) == Negative
    ensures Orient2D(Point2(1.0, 0.0), Point2(0.0, 1.0), Point2(-1.0, 1.75)) == Positive
  {
    Orient2DIs(1.0, 0.0, 0.0, 1.0, 2.25, -0.25, Negative);
    Orient2DIs(1.0, 0.0, 0.0, 1.0, -1.0, 1.75, Positive);
  }

  /** The orientations the example above reads, part 4. */
  lemma PlanarR24Case6Orientations4()
    ensures Orient2D(Point2(0.0, 0.0), Point2(1.0, 0.0), Point2(-1.0, 1.75)) == Positive
    ensures Orient2D(Point2(2.25, -0.25), Point2(0.0, 1.0), Point2(-1.0, 1.75)) == Negative
  {
    Orient2DIs(0.0, 0.0, 1.0, 0.0, -1.0, 1.75, Positive);
    Orient2DIs(2.25, -0.25, 0.0, 1.0, -1.0, 1.75, Negative);
  }

  /** The orientations the example above reads, part 5. */
  lemma PlanarR24Case6Orientations5()
    ensures Orient2D(Point2(2.25, -0.25), Point2(0.0, 1.0), Point2(-0.5, 1.375)) == Negative
  {
    Orient2DIs(2.25, -0.25, 0.0, 1.0, -0.5, 1.375, Negative);
  }

  /** test/algorithm/src/triangle_triangle.cpp, Triangle_Triangle_2D_R24, are_intersecting (tr, tr_6). */
  lemma PlanarR24Case6SwappedExample()
    ensures !TriangleTriangleIntersect(Triangle(Point3(0.0, 1.0, 0.0), Point3(0.0, 0.0, 0.0), Point3(1.0, 0.0, 0.0), TriangleSpecies),
      Triangle(Point3(2.25, -0.25, 0.0), Point3(-1.0, 1.75, 0.0), Point3(-0.5, 1.375, 0.0), TriangleSpecies))
  {
    assert FromPoints(Point3(0.0, 1.0, 0.0), Point3(0.0, 0.0, 0.0)) == Vector(0.0, -1.0, 0.0);
    assert FromPoints(Point3(0.0, 1.0, 0.0), Point3(1.0, 0.0, 0.0)) == Vector(1.0, -1.0, 0.0);
    assert VectorProduct(Vector(0.0, -1.0, 0.0), Vector(1.0, -1.0, 0.0)).z == 1.0;
    GroundCoplanar(Triangle(Point3(0.0, 1.0, 0.0), Point3(0.0, 0.0, 0.0), Point3(1.0, 0.0, 0.0), TriangleSpecies),
      Triangle(Point3(2.25, -0.25, 0.0), Point3(-1.0, 1.75, 0.0), Point3(-0.5, 1.375, 0.0), TriangleSpecies));
    PlanarR24Case6SwappedOrientations1();
    PlanarR24Case6SwappedOrientations2();
    PlanarR24Case6SwappedOrientations3();
    PlanarR24Case6SwappedOrientations4();
  }

  /** The orientations the example above reads, part 1. */
  lemma PlanarR24Case6SwappedOrientations1()
    ensures Orient2D(Point2(0.0, 1.0), Point2(0.0, 0.0), Point2(1.0, 0.0)) == Positive
    ensures Orient2D(Point2(2.25, -0.25), Point2(-1.0, 1.75), Point2(-0.5, 1.375)) == Positive
  {
    Orient2DIs(0.0, 1.0, 0.0, 0.0, 1.0, 0.0, Positive);
    Orient2DIs(2.25, -0.25, -1.0, 1.75, -0.5, 1.375, Positive);
  }

  /** The orientations the example above reads, part 2. */
  lemma PlanarR24Case6SwappedOrientations2()
    ensures Orient2D(Point2(2.25, -0.25), Point2(-1.0, 1.75), Point2(0.0, 1.0)) == Positive
    ensures Orient2D(Point2(-1.0, 1.75), Point2(-0.5, 1.375), Point2(0.0, 1.0)) == Neutral
  {
    Orient2DIs(2.25, -0.25, -1.0, 1.75, 0.0, 1.0, Positive);
    Orient2DIs(-1.0, 1.75, -0.5, 1.375, 0.0, 1.0, Neutral);
  }

  /** The orientations the example above reads, part 3. */
  lemma PlanarR24Case6SwappedOrientations3()
    ensures Orient2D(Point2(-0.5, 1.375), Point2(2.25, -0.25), Point2(0.0, 1.0)) == Negative
    ensures Orient2D(Point2(-0.5, 1.375), Point2(2.25, -0.25), Point2(0.0, 0.0)) == Negative
  {
    Orient2DIs(-0.5, 1.375, 2.25, -0.25, 0.0, 1.0, Negative);
    Orient2DIs(-0.5, 1.375, 2.25, -0.25, 0.0, 0.0, Negative);
  }

  /** The orientations the example above reads, part 4. */
  lemma PlanarR24Case6SwappedOrientations4()
    ensures Orient2D(Point2(-0.5, 1.375), Point2(2.25, -0.25), Point2(1.0, 0.0)) == Negative
  {
    Orient2DIs(-0.5, 1.375, 2.25, -0.25, 1.0, 0.0, Negative);
  }

  /** test/algorithm/src/triangle_triangle.cpp, Triangle_Triangle_2D_R24, are_intersecting (tr_7, tr). */
  lemma PlanarR24Case7Example()
    ensures !TriangleTriangleIntersect(Triangle(Point3(2.25, -0.25, 0.0), Point3(-1.0, 1.75, 0.0), Point3(-1.5, 2.0, 0.0), TriangleSpecies),
      Triangle(Point3(0.0, 1.0, 0.0), Point3(0.0, 0.0, 0.0), Point3(1.0, 0.0, 0.0), TriangleSpecies))
  {
    assert FromPoints(Point3(2.25, -0.25, 0.0), Point3(-1.0, 1.75, 0.0)) == Vector(-3.25, 2.0, 0.0);
    assert FromPoints(Point3(2.25, -0.25, 0.0), Point3(-1.5, 2.0, 0.0)) == Vector(-3.75, 2.25, 0.0);
    assert VectorProduct(Vector(-3.25, 2.0, 0.0), Vector(-3.75, 2.25, 0.0)).z == 0.1875;
    GroundCoplanar(Triangle(Point3(2.25, -0.25, 0.0), Point3(-1.0, 1.75, 0.0), Point3(-1.5, 2.0, 0.0), TriangleSpecies),
      Triangle(Point3(0.0, 1.0, 0.0), Point3(0.0, 0.0, 0.0), Point3(1.0, 0.0, 0.0), TriangleSpecies));
    PlanarR24Case7Orientations1();
    PlanarR24Case7Orientations2();
    PlanarR24Case7Orientations3();
    PlanarR24Case7Orientations4();
    PlanarR24Case7Orientations5();
  }

  /** The orientations the example above reads, part 1. */
  lemma PlanarR24Case7Orientations1()
    ensures Orient2D(Point2(2.25, -0.25), Point2(-1.0, 1.75), Point2(-1.5, 2.0)) == Positive
    ensures Orient2D(Point2(0.0, 1.0), Point2(0.0, 0.0), Point2(1.0, 0.0)) == Positive
  {
    Orient2DIs(2.25, -0.25, -1.0, 1.75, -1.5, 2.0, Positive);
    Orient2DIs(0.0, 1.0, 0.0, 0.0, 1.0, 0.0, Positive);
  }

  /** The orientations the example above reads, part 2. */
  lemma PlanarR24Case7Orientations2()
    ensures Orient2D(Point2(0.0, 1.0), Point2(0.0, 0.0), Point2(2.25, -0.25)) == Positive
    ensures Orient2D(Point2(0.0, 0.0), Point2(1.0, 0.0), Point2(2.25, -0.25)) == Negative
  {
    Orient2DIs(0.0, 1.0, 0.0, 0.0, 2.25, -0.25, Positive);
    Orient2DIs(0.0, 0.0, 1.0, 0.0, 2.25, -0.25, Negative);
  }

  /** The orientations the example above reads, part 3. */
  lemma PlanarR24Case7Orientations3()
    ensures Orient2D(Point2(1.0, 0.0), Point2(0.0, 1.0), Point2(2.25, -0.25)) == Negative
    ensures Orient2D(Point2(1.0, 0.0), Point2(0.0, 1.0), Point2(-1.0, 1.75)) == Positive
  {
    Orient2DIs(1.0, 0.0, 0.0, 1.0, 2.25, -0.25, Negative);
    Orient2DIs(1.0, 0.0, 0.0, 1.0, -1.0, 1.75, Positive);
  }

  /** The orientations the example above reads, part 4. */
  lemma PlanarR24Case7Orientations4()
    ensures Orient2D(Point2(0.0, 0.0), Point2(1.0, 0.0), Point2(-1.0, 1.75)) == Positive
    ensures Orient2D(Point2(2.25, -0.25), Point2(0.0, 1.0), Point2(-1.0, 1.75)) == Negative
  {
    Orient2DIs(0.0, 0.0, 1.0, 0.0, -1.0, 1.75, Positive);
    Orient2DIs(2.25, -0.25, 0.0, 1.0, -1.0, 1.75, Negative);
  }

  /** The orientations the example above reads, part 5. */
  lemma PlanarR24Case7Orientations5()
    ensures Orient2D(Point2(2.25, -0.25), Point2(0.0, 1.0), Point2(-1.5, 2.0)) == Negative
  {
    Orient2DIs(2.25, -0.25, 0.0, 1.0, -1.5, 2.0, Negative);
  }

  /** test/algorithm/src/triangle_triangle.cpp, Triangle_Triangle_2D_R24, are_intersecting (tr, tr_7). */
  lemma PlanarR24Case7SwappedExample()
    ensures !TriangleTriangleIntersect(Triangle(Point3(0.0, 1.0, 0.0), Point3(0.0, 0.0, 0.0), Point3(1.0, 0.0, 0.0), TriangleSpecies),
      Triangle(Point3(2.25, -0.25, 0.0), Point3(-1.0, 1.75, 0.0), Point3(-1.5, 2.0, 0.0), TriangleSpecies))
  {
    assert FromPoints(Point3(0.0, 1.0, 0.0), Point3(0.0, 0.0, 0.0)) == Vector(0.0, -1.0, 0.0);
    assert FromPoints(Point3(0.0, 1.0, 0.0), Point3(1.0, 0.0, 0.0)) == Vector(1.0, -1.0, 0.0);
    assert VectorProduct(Vector(0.0, -1.0, 0.0), Vector(1.0, -1.0, 0.0)).z == 1.0;
    GroundCoplanar(Triangle(Point3(0.0, 1.0, 0.0), Point3(0.0, 0.0, 0.0), Point3(1.0, 0.0, 0.0), TriangleSpecies),
      Triangle(Point3(2.25, -0.25, 0.0), Point3(-1.0, 1.75, 0.0), Point3(-1.5, 2.0, 0.0), TriangleSpecies));
    PlanarR24Case7SwappedOrientations1();
    PlanarR24Case7SwappedOrientations2();
    PlanarR24Case7SwappedOrientations3();
    PlanarR24Case7SwappedOrientations4();
  }

  /** The orientations the example above reads, part 1. */
  lemma PlanarR24Case7SwappedOrientations1()
    ensures Orient2D(Point2(0.0, 1.0), Point2(0.0, 0.0), Point2(1.0, 0.0)) == Positive
    ensures Orient2D(Point2(2.25, -0.25), Point2(-1.0, 1.75), Point2(-1.5, 2.0)) == Positive
  {
    Orient2DIs(0.0, 1.0, 0.0, 0.0, 1.0, 0.0, Positive);
    Orient2DIs(2.25, -0.25, -1.0, 1.75, -1.5, 2.0, Positive);
  }

  /** The orientations the example above reads, part 2. */
  lemma PlanarR24Case7SwappedOrientations2()
    ensures Orient2D(Point2(2.25, -0.25), Point2(-1.0, 1.75), Point2(0.0, 1.0)) == Positive
    ensures Orient2D(Point2(-1.0, 1.75), Point2(-1.5, 2.0), Point2(0.0, 1.0)) == Positive
  {
    Orient2DIs(2.25, -0.25, -1.0, 1.75, 0.0, 1.0, Positive);
    Orient2DIs(-1.0, 1.75, -1.5, 2.0, 0.0, 1.0, Positive);
  }

  /** The orientations the example above reads, part 3. */
  lemma PlanarR24Case7SwappedOrientations3()
    ensures Orient2D(Point2(-1.5, 2.0), Point2(2.25, -0.25), Point2(0.0, 1.0)) == Negative
    ensures Orient2D(Point2(-1.5, 2.0), Point2(2.25, -0.25), Point2(0.0, 0.0)) == Negative
  {
    Orient2DIs(-1.5, 2.0, 2.25, -0.25, 0.0, 1.0, Negative);
    Orient2DIs(-1.5, 2.0, 2.25, -0.25, 0.0, 0.0, Negative);
  }

  /** The orientations the example above reads, part 4. */
  lemma PlanarR24Case7SwappedOrientations4()
    ensures Orient2D(Point2(-1.5, 2.0), Point2(2.25, -0.25), Point2(1.0, 0.0)) == Negative
  {
    Orient2DIs(-1.5, 2.0, 2.25, -0.25, 1.0, 0.0, Negative);
  }

  /** test/algorithm/src/triangle_triangle.cpp, Triangle_Triangle_2D_R24, are_intersecting (tr_8, tr). */
  lemma PlanarR24Case8Example()
    ensures !TriangleTriangleIntersect(Triangle(Point3(2.25, -0.25, 0.0), Point3(-1.0, 1.75, 0.0), Point3(0.75, 0.5, 0.0), TriangleSpecies),
      Triangle(Point3(0.0, 1.0, 0.0), Point3(0.0, 0.0, 0.0), Point3(1.0, 0.0, 0.0), TriangleSpecies))
  {
    assert FromPoints(Point3(2.25, -0.25, 0.0), Point3(-1.0, 1.75, 0.0)) == Vector(-3.25, 2.0, 0.0);
    assert FromPoints(Point3(2.25, -0.25, 0.0), Point3(0.75, 0.5, 0.0)) == Vector(-1.5, 0.75, 0.0);
    assert VectorProduct(Vector(-3.25, 2.0, 0.0), Vector(-1.5, 0.75, 0.0)).z == 0.5625;
    GroundCoplanar(Triangle(Point3(2.25, -0.25, 0.0), Point3(-1.0, 1.75, 0.0), Point3(0.75, 0.5, 0.0), TriangleSpecies),
      Triangle(Point3(0.0, 1.0, 0.0), Point3(0.0, 0.0, 0.0), Point3(1.0, 0.0, 0.0), TriangleSpecies));
    PlanarR24Case8Orientations1();
    PlanarR24Case8Orientations2();
    PlanarR24Case8Orientations3();
    PlanarR24Case8Orientations4();
    PlanarR24Case8Orientations5();
  }

  /** The orientations the example above reads, part 1. */
  lemma PlanarR24Case8Orientations1()
    ensures Orient2D(Point2(2.25, -0.25), Point2(-1.0, 1.75), Point2(0.75, 0.5)) == Positive
    ensures Orient2D(Point2(0.0, 1.0), Point2(0.0, 0.0), Point2(1.0, 0.0)) == Positive
  {
    Orient2DIs(2.25, -0.25, -1.0, 1.75, 0.75, 0.5, Positive);
    Orient2DIs(0.0, 1.0, 0.0, 0.0, 1.0, 0.0, Positive);
  }

  /** The orientations the example above reads, part 2. */
  lemma PlanarR24Case8Orientations2()
    ensures Orient2D(Point2(0.0, 1.0), Point2(0.0, 0.0), Point2(2.25, -0.25)) == Positive
    ensures Orient2D(Point2(0.0, 0.0), Point2(1.0, 0.0), Point2(2.25, -0.25)) == Negative
  {
    Orient2DIs(0.0, 1.0, 0.0, 0.0, 2.25, -0.25, Positive);
    Orient2DIs(0.0, 0.0, 1.0, 0.0, 2.25, -0.25, Negative);
  }

  /** The orientations the example above reads, part 3. */
  lemma PlanarR24Case8Orientations3()
    ensures Orient2D(Point2(1.0, 0.0), Point2(0.0, 1.0), Point2(2.25, -0.25)) == Negative
    ensures Orient2D(Point2(1.0, 0.0), Point2(0.0, 1.0), Point2(-1.0, 1.75)) == Positive
  {
    Orient2DIs(1.0, 0.0, 0.0, 1.0, 2.25, -0.25, Negative);
    Orient2DIs(1.0, 0.0, 0.0, 1.0, -1.0, 1.75, Positive);
  }

  /** The orientations the example above reads, part 4. */
  lemma PlanarR24Case8Orientations4()
    ensures Orient2D(Point2(0.0, 0.0), Point2(1.0, 0.0), Point2(-1.0, 1.75)) == Positive
    ensures Orient2D(Point2(2.25, -0.25), Point2(0.0, 1.0), Point2(-1.0, 1.75)) == Negative
  {
    Orient2DIs(0.0, 0.0, 1.0, 0.0, -1.0, 1.75, Positive);
    Orient2DIs(2.25, -0.25, 0.0, 1.0, -1.0, 1.75, Negative);
  }

  /** The orientations the example above reads, part 5. */
  lemma PlanarR24Case8Orientations5()
    ensures Orient2D(Point2(2.25, -0.25), Point2(0.0, 1.0), Point2(0.75, 0.5)) == Positive
    ensures Orient2D(Point2(-1.0, 1.75), Point2(0.0, 1.0), Point2(0.75, 0.5)) == Positive
  {
    Orient2DIs(2.25, -0.25, 0.0, 1.0, 0.75, 0.5, Positive);
    Orient2DIs(-1.0, 1.75, 0.0, 1.0, 0.75, 0.5, Positive);
  }

  /** test/algorithm/src/triangle_triangle.cpp, Triangle_Triangle_2D_R24, are_intersecting (tr, tr_8). */
  lemma PlanarR24Case8SwappedExample()
    ensures !TriangleTriangleIntersect(Triangle(Point3(0.0, 1.0, 0.0), Point3(0.0, 0.0, 0.0), Point3(1.0, 0.0, 0.0), TriangleSpecies),
      Triangle(Point3(2.25, -0.25, 0.0), Point3(-1.0, 1.75, 0.0), Point3(0.75, 0.5, 0.0), TriangleSpecies))
  {
    assert FromPoints(Point3(0.0, 1.0, 0.0), Point3(0.0, 0.0, 0.0)) == Vector(0.0, -1.0, 0.0);
    assert FromPoints(Point3(0.0, 1.0, 0.0), Point3(1.0, 0.0, 0.0)) == Vector(1.0, -1.0, 0.0);
    assert VectorProduct(Vector(0.0, -1.0, 0.0), Vector(1.0, -1.0, 0.0)).z == 1.0;
    GroundCoplanar(Triangle(Point3(0.0, 1.0, 0.0), Point3(0.0, 0.0, 0.0), Point3(1.0, 0.0, 0.0), TriangleSpecies),
      Triangle(Point3(2.25, -0.25, 0.0), Point3(-1.0, 1.75, 0.0), Point3(0.75, 0.5, 0.0), TriangleSpecies));
    PlanarR24Case8SwappedOrientations1();
    PlanarR24Case8SwappedOrientations2();
    PlanarR24Case8SwappedOrientations3();
    PlanarR24Case8SwappedOrientations4();
  }

  /** The orientations the example above reads, part 1. */
  lemma PlanarR24Case8SwappedOrientations1()
    ensures Orient2D(Point2(0.0, 1.0), Point2(0.0, 0.0), Point2(1.0, 0.0)) == Positive
    ensures Orient2D(Point2(2.25, -0.25), Point2(-1.0, 1.75), Point2(0.75, 0.5)) == Positive
  {
    Orient2DIs(0.0, 1.0, 0.0, 0.0, 1.0, 0.0, Positive);
    Orient2DIs(2.25, -0.25, -1.0, 1.75, 0.75, 0.5, Positive);
  }

  /** The orientations the example above reads, part 2. */
  lemma PlanarR24Case8SwappedOrientations2()
    ensures Orient2D(Point2(2.25, -0.25), Point2(-1.0, 1.75), Point2(0.0, 1.0)) == Positive
    ensures Orient2D(Point2(-1.0, 1.75), Point2(0.75, 0.5), Point2(0.0, 1.0)) == Negative
  {
    Orient2DIs(2.25, -0.25, -1.0, 1.75, 0.0, 1.0, Positive);
    Orient2DIs(-1.0, 1.75, 0.75, 0.5, 0.0, 1.0, Negative);
  }

  /** The orientations the example above reads, part 3. */
  lemma PlanarR24Case8SwappedOrientations3()
    ensures Orient2D(Point2(0.75, 0.5), Point2(2.25, -0.25), Point2(0.0, 1.0)) == Positive
    ensures Orient2D(Point2(-1.0, 1.75), Point2(0.75, 0.5), Point2(0.0, 0.0)) == Negative
  {
    Orient2DIs(0.75, 0.5, 2.25, -0.25, 0.0, 1.0, Positive);
    Orient2DIs(-1.0, 1.75, 0.75, 0.5, 0.0, 0.0, Negative);
  }

  /** The orientations the example above reads, part 4. */
  lemma PlanarR24Case8SwappedOrientations4()
    ensures Orient2D(Point2(-1.0, 1.75), Point2(0.75, 0.5), Point2(1.0, 0.0)) == Negative
  {
    Orient2DIs(-1.0, 1.75, 0.75, 0.5, 1.0, 0.0, Negative);
  }

  /** test/algorithm/src/triangle_triangle.cpp, Triangle_Triangle_2D_R24, are_intersecting (tr_9, tr). */
  lemma PlanarR24Case9Example()
    ensures !TriangleTriangleIntersect(Triangle(Point3(2.25, -0.25, 0.0), Point3(-1.0, 1.75, 0.0), Point3(1.125, 0.375, 0.0), TriangleSpecies),
      Triangle(Point3(0.0, 1.0, 0.0), Point3(0.0, 0.0, 0.0), Point3(1.0, 0.0, 0.0), TriangleSpecies))
  {
    assert FromPoints(Point3(2.25, -0.25, 0.0), Point3(-1.0, 1.75, 0.0)) == Vector(-3.25, 2.0, 0.0);
    assert FromPoints(Point3(2.25, -0.25, 0.0), Point3(1.125, 0.375, 0.0)) == Vector(-1.125, 0.625, 0.0);
    assert VectorProduct(Vector(-3.25, 2.0, 0.0), Vector(-1.125, 0.625, 0.0)).z == 0.21875;
    GroundCoplanar(Triangle(Point3(2.25, -0.25, 0.0), Point3(-1.0, 1.75, 0.0), Point3(1.125, 0.375, 0.0), TriangleSpecies),
      Triangle(Point3(0.0, 1.0, 0.0), Point3(0.0, 0.0, 0.0), Point3(1.0, 0.0, 0.0), TriangleSpecies));
    PlanarR24Case9Orientations1();
    PlanarR24Case9Orientations2();
    PlanarR24Case9Orientations3();
    PlanarR24Case9Orientations4();
    PlanarR24Case9Orientations5();
  }

  /** The orientations the example above reads, part 1. */
  lemma PlanarR24Case9Orientations1()
    ensures Orient2D(Point2(2.25, -0.25), Point2(-1.0, 1.75), Point2(1.125, 0.375)) == Positive
    ensures Orient2D(Point2(0.0, 1.0), Point2(0.0, 0.0), Point2(1.0, 0.0)) == Positive
  {
    Orient2DIs(2.25, -0.25, -1.0, 1.75, 1.125, 0.375, Positive);
    Orient2DIs(0.0, 1.0, 0.0, 0.0, 1.0, 0.0, Positive);
  }

  /** The orientations the example above reads, part 2. */
  lemma PlanarR24Case9Orientations2()
    ensures Orient2D(Point2(0.0, 1.0), Point2(0.0, 0.0), Point2(2.25, -0.25)) == Positive
    ensures Orient2D(Point2(0.0, 0.0), Point2(1.0, 0.0), Point2(2.25, -0.25)) == Negative
  {
    Orient2DIs(0.0, 1.0, 0.0, 0.0, 2.25, -0.25, Positive);
    Orient2DIs(0.0, 0.0, 1.0, 0.0, 2.25, -0.25, Negative);
  }

  /** The orientations the example above reads, part 3. */
  lemma PlanarR24Case9Orientations3()
    ensures Orient2D(Point2(1.0, 0.0), Point2(0.0, 1.0), Point2(2.25, -0.25)) == Negative
    ensures Orient2D(Point2(1.0, 0.0), Point2(0.0, 1.0), Point2(-1.0, 1.75)) == Positive
  {
    Orient2DIs(1.0, 0.0, 0.0, 1.0, 2.25, -0.25, Negative);
    Orient2DIs(1.0, 0.0, 0.0, 1.0, -1.0, 1.75, Positive);
  }

  /** The orientations the example above reads, part 4. */
  lemma PlanarR24Case9Orientations4()
    ensures Orient2D(Point2(0.0, 0.0), Point2(1.0, 0.0), Point2(-1.0, 1.75)) == Positive
    ensures Orient2D(Point2(2.25, -0.25), Point2(0.0, 1.0), Point2(-1.0, 1.75)) == Negative
  {
    Orient2DIs(0.0, 0.0, 1.0, 0.0, -1.0, 1.75, Positive);
    Orient2DIs(2.25, -0.25, 0.0, 1.0, -1.0, 1.75, Negative);
  }

  /** The orientations the example above reads, part 5. */
  lemma PlanarR24Case9Orientations5()
    ensures Orient2D(Point2(2.25, -0.25), Point2(0.0, 1.0), Point2(1.125, 0.375)) == Neutral
    ensures Orient2D(Point2(-1.0, 1.75), Point2(0.0, 1.0), Point2(1.125, 0.375)) == Positive
  {
    Orient2DIs(2.25, -0.25, 0.0, 1.0, 1.125, 0.375, Neutral);
    Orient2DIs(-1.0, 1.75, 0.0, 1.0, 1.125, 0.375, Positive);
  }

  /** test/algorithm/src/triangle_triangle.cpp, Triangle_Triangle_2D_R24, are_intersecting (tr, tr_9). */
  lemma PlanarR24Case9SwappedExample()
    ensures !TriangleTriangleIntersect(Triangle(Point3(0.0, 1.0, 0.0), Point3(0.0, 0.0, 0.0), Point3(1.0, 0.0, 0.0), TriangleSpecies),
      Triangle(Point3(2.25, -0.25, 0.0), Point3(-1.0, 1.75, 0.0), Point3(1.125, 0.375, 0.0), TriangleSpecies))
  {
    assert FromPoints(Point3(0.0, 1.0, 0.0), Point3(0.0, 0.0, 0.0)) == Vector(0.0, -1.0, 0.0);
    assert FromPoints(Point3(0.0, 1.0, 0.0), Point3(1.0, 0.0, 0.0)) == Vector(1.0, -1.0, 0.0);
    assert VectorProduct(Vector(0.0, -1.0, 0.0), Vector(1.0, -1.0, 0.0)).z == 1.0;
    GroundCoplanar(Triangle(Point3(0.0, 1.0, 0.0), Point3(0.0, 0.0, 0.0), Point3(1.0, 0.0, 0.0), TriangleSpecies),
      Triangle(Point3(2.25, -0.25, 0.0), Point3(-1.0, 1.75, 0.0), Point3(1.125, 0.375, 0.0), TriangleSpecies));
    PlanarR24Case9SwappedOrientations1();
    PlanarR24Case9SwappedOrientations2();
    PlanarR24Case9SwappedOrientations3();
    PlanarR24Case9SwappedOrientations4();
  }

  /** The orientations the example above reads, part 1. */
  lemma PlanarR24Case9SwappedOrientations1()
    ensures Orient2D(Point2(0.0, 1.0), Point2(0.0, 0.0), Point2(1.0, 0.0)) == Positive
    ensures Orient2D(Point2(2.25, -0.25), Point2(-1.0, 1.75), Point2(1.125, 0.375)) == Positive
  {
    Orient2DIs(0.0, 1.0, 0.0, 0.0, 1.0, 0.0, Positive);
    Orient2DIs(2.25, -0.25, -1.0, 1.75, 1.125, 0.375, Positive);
  }

  /** The orientations the example above reads, part 2. */
  lemma PlanarR24Case9SwappedOrientations2()
    ensures Orient2D(Point2(2.25, -0.25), Point2(-1.0, 1.75), Point2(0.0, 1.0)) == Positive
    ensures Orient2D(Point2(-1.0, 1.75), Point2(1.125, 0.375), Point2(0.0, 1.0)) == Negative
  {
    Orient2DIs(2.25, -0.25, -1.0, 1.75, 0.0, 1.0, Positive);
    Orient2DIs(-1.0, 1.75, 1.125, 0.375, 0.0, 1.0, Negative);
  }

  /** The orientations the example above reads, part 3. */
  lemma PlanarR24Case9SwappedOrientations3()
    ensures Orient2D(Point2(1.125, 0.375), Point2(2.25, -0.25), Point2(0.0, 1.0)) == Neutral
    ensures Orient2D(Point2(1.125, 0.375), Point2(2.25, -0.25), Point2(0.0, 0.0)) == Negative
  {
    Orient2DIs(1.125, 0.375, 2.25, -0.25, 0.0, 1.0, Neutral);
    Orient2DIs(1.125, 0.375, 2.25, -0.25, 0.0, 0.0, Negative);
  }

  /** The orientations the example above reads, part 4. */
  lemma PlanarR24Case9SwappedOrientations4()
    ensures Orient2D(Point2(1.125, 0.375), Point2(2.25, -0.25), Point2(1.0, 0.0)) == Negative
  {
    Orient2DIs(1.125, 0.375, 2.25, -0.25, 1.0, 0.0, Negative);
  }

  /** test/algorithm/src/triangle_triangle.cpp, Triangle_Triangle_2D_R22_or_R23, are_intersecting (tr_1, tr). */
  lemma PlanarR22R23Case1Example()
    ensures TriangleTriangleIntersect(Triangle(Point3(2.0, -0.5, 0.0), Point3(-1.0, 1.0, 0.0), Point3(0.0, -1.0, 0.0), TriangleSpecies),
      Triangle(Point3(0.0, 1.0, 0.0), Point3(0.0, 0.0, 0.0), Point3(1.0, 0.0, 0.0), TriangleSpecies))
  {
    assert FromPoints(Point3(2.0, -0.5, 0.0), Point3(-1.0, 1.0, 0.0)) == Vector(-3.0, 1.5, 0.0);
    assert FromPoints(Point3(2.0, -0.5, 0.0), Point3(0.0, -1.0, 0.0)) == Vector(-2.0, -0.5, 0.0);
    assert VectorProduct(Vector(-3.0, 1.5, 0.0), Vector(-2.0, -0.5, 0.0)).z == 4.5;
    GroundCoplanar(Triangle(Point3(2.0, -0.5, 0.0), Point3(-1.0, 1.0, 0.0), Point3(0.0, -1.0, 0.0), TriangleSpecies),
      Triangle(Point3(0.0, 1.0, 0.0), Point3(0.0, 0.0, 0.0), Point3(1.0, 0.0, 0.0), TriangleSpecies));
    PlanarR22R23Case1Orientations1();
    PlanarR22R23Case1Orientations2();
    PlanarR22R23Case1Orientations3();
    PlanarR22R23Case1Orientations4();
    PlanarR22R23Case1Orientations5();
  }

  /** The orientations the example above reads, part 1. */
  lemma PlanarR22R23Case1Orientations1()
    ensures Orient2D(Point2(2.0, -0.5), Point2(-1.0, 1.0), Point2(0.0, -1.0)) == Positive
    ensures Orient2D(Point2(0.0, 1.0), Point2(0.0, 0.0), Point2(1.0, 0.0)) == Positive
  {
    Orient2DIs(2.0, -0.5, -1.0, 1.0, 0.0, -1.0, Positive);
    Orient2DIs(0.0, 1.0, 0.0, 0.0, 1.0, 0.0, Positive);
  }

  /** The orientations the example above reads, part 2. */
  lemma PlanarR22R23Case1Orientations2()
    ensures Orient2D(Point2(0.0, 1.0), Point2(0.0, 0.0), Point2(2.0, -0.5)) == Positive
    ensures Orient2D(Point2(0.0, 0.0), Point2(1.0, 0.0), Point2(2.0, -0.5)) == Negative
  {
    Orient2DIs(0.0, 1.0, 0.0, 0.0, 2.0, -0.5, Positive);
    Orient2DIs(0.0, 0.0, 1.0, 0.0, 2.0, -0.5, Negative);
  }

  /** The orientations the example above reads, part 3. */
  lemma PlanarR22R23Case1Orientations3()
    ensures Orient2D(Point2(1.0, 0.0), Point2(0.0, 1.0), Point2(2.0, -0.5)) == Negative
    ensures Orient2D(Point2(1.0, 0.0), Point2(0.0, 1.0), Point2(-1.0, 1.0)) == Positive
  {
    Orient2DIs(1.0, 0.0, 0.0, 1.0, 2.0, -0.5, Negative);
    Orient2DIs(1.0, 0.0, 0.0, 1.0, -1.0, 1.0, Positive);
  }

  /** The orientations the example above reads, part 4. */
  lemma PlanarR22R23Case1Orientations4()
    ensures Orient2D(Point2(0.0, 0.0), Point2(1.0, 0.0), Point2(-1.0, 1.0)) == Positive
    ensures Orient2D(Point2(2.0, -0.5), Point2(0.0, 1.0), Point2(-1.0, 1.0)) == Positive
  {
    Orient2DIs(0.0, 0.0, 1.0, 0.0, -1.0, 1.0, Positive);
    Orient2DIs(2.0, -0.5, 0.0, 1.0, -1.0, 1.0, Positive);
  }

  /** The orientations the example above reads, part 5. */
  lemma PlanarR22R23Case1Orientations5()
    ensures Orient2D(Point2(2.0, -0.5), Point2(0.0, 0.0), Point2(-1.0, 1.0)) == Negative
  {
    Orient2DIs(2.0, -0.5, 0.0, 0.0, -1.0, 1.0, Negative);
  }

  /** test/algorithm/src/triangle_triangle.cpp, Triangle_Triangle_2D_R22_or_R23, are_intersecting (tr, tr_1). */
  lemma PlanarR22R23Case1SwappedExample()
    ensures TriangleTriangleIntersect(Triangle(Point3(0.0, 1.0, 0.0), Point3(0.0, 0.0, 0.0), Point3(1.0, 0.0, 0.0), TriangleSpecies),
      Triangle(Point3(2.0, -0.5, 0.0), Point3(-1.0, 1.0, 0.0), Point3(0.0, -1.0, 0.0), TriangleSpecies))
  {
    assert FromPoints(Point3(0.0, 1.0, 0.0), Point3(0.0, 0.0, 0.0)) == Vector(0.0, -1.0, 0.0);
    assert FromPoints(Point3(0.0, 1.0, 0.0), Point3(1.0, 0.0, 0.0)) == Vector(1.0, -1.0, 0.0);
    assert VectorProduct(Vector(0.0, -1.0, 0.0), Vector(1.0, -1.0, 0.0)).z == 1.0;
    GroundCoplanar(Triangle(Point3(0.0, 1.0, 0.0), Point3(0.0, 0.0, 0.0), Point3(1.0, 0.0, 0.0), TriangleSpecies),
      Triangle(Point3(2.0, -0.5, 0.0), Point3(-1.0, 1.0, 0.0), Point3(0.0, -1.0, 0.0), TriangleSpecies));
    PlanarR22R23Case1SwappedOrientations1();
    PlanarR22R23Case1SwappedOrientations2();
    PlanarR22R23Case1SwappedOrientations3();
    PlanarR22R23Case1SwappedOrientations4();
  }

  /** The orientations the example above reads, part 1. */
  lemma PlanarR22R23Case1SwappedOrientations1()
    ensures Orient2D(Point2(0.0, 1.0), Point2(0.0, 0.0), Point2(1.0, 0.0)) == Positive
    ensures Orient2D(Point2(2.0, -0.5), Point2(-1.0, 1.0), Point2(0.0, -1.0)) == Positive
  {
    Orient2DIs(0.0, 1.0, 0.0, 0.0, 1.0, 0.0, Positive);
    Orient2DIs(2.0, -0.5, -1.0, 1.0, 0.0, -1.0, Positive);
  }

  /** The orientations the example above reads, part 2. */
  lemma PlanarR22R23Case1SwappedOrientations2()
    ensures Orient2D(Point2(2.0, -0.5), Point2(-1.0, 1.0), Point2(0.0, 1.0)) == Negative
    ensures Orient2D(Point2(-1.0, 1.0), Point2(0.0, -1.0), Point2(0.0, 1.0)) == Positive
  {
    Orient2DIs(2.0, -0.5, -1.0, 1.0, 0.0, 1.0, Negative);
    Orient2DIs(-1.0, 1.0, 0.0, -1.0, 0.0, 1.0, Positive);
  }

  /** The orientations the example above reads, part 3. */
  lemma PlanarR22R23Case1SwappedOrientations3()
    ensures Orient2D(Point2(0.0, -1.0), Point2(2.0, -0.5), Point2(0.0, 1.0)) == Positive
    ensures Orient2D(Point2(2.0, -0.5), Point2(-1.0, 1.0), Point2(0.0, 0.0)) == Positive
  {
    Orient2DIs(0.0, -1.0, 2.0, -0.5, 0.0, 1.0, Positive);
    Orient2DIs(2.0, -0.5, -1.0, 1.0, 0.0, 0.0, Positive);
  }

  /** The orientations the example above reads, part 4. */
  lemma PlanarR22R23Case1SwappedOrientations4()
    ensures Orient2D(Point2(0.0, 1.0), Point2(2.0, -0.5), Point2(0.0, 0.0)) == Negative
    ensures Orient2D(Point2(0.0, 1.0), Point2(-1.0, 1.0), Point2(0.0, 0.0)) == Positive
  {
    Orient2DIs(0.0, 1.0, 2.0, -0.5, 0.0, 0.0, Negative);
    Orient2DIs(0.0, 1.0, -1.0, 1.0, 0.0, 0.0, Positive);
  }

  /** test/algorithm/src/triangle_triangle.cpp, Triangle_Triangle_2D_R22_or_R23, are_intersecting (tr_2, tr). */
  lemma PlanarR22R23Case2Example()
    ensures !TriangleTriangleIntersect(Triangle(Point3(2.0, -0.5, 0.0), Point3(-2.0, 0.25, 0.0), Point3(0.0, -1.0, 0.0), TriangleSpecies),
      Triangle(Point3(0.0, 1.0, 0.0), Point3(0.0, 0.0, 0.0), Point3(1.0, 0.0, 0.0), TriangleSpecies))
  {
    assert FromPoints(Point3(2.0, -0.5, 0.0), Point3(-2.0, 0.25, 0.0)) == Vector(-4.0, 0.75, 0.0);
    assert FromPoints(Point3(2.0, -0.5, 0.0), Point3(0.0, -1.0, 0.0)) == Vector(-2.0, -0.5, 0.0);
    assert VectorProduct(Vector(-4.0, 0.75, 0.0), Vector(-2.0, -0.5, 0.0)).z == 3.5;
    GroundCoplanar(Triangle(Point3(2.0, -0.5, 0.0), Point3(-2.0, 0.25, 0.0), Point3(0.0, -1.0, 0.0), TriangleSpecies),
      Triangle(Point3(0.0, 1.0, 0.0), Point3(0.0, 0.0, 0.0), Point3(1.0, 0.0, 0.0), TriangleSpecies));
    PlanarR22R23Case2Orientations1();
    PlanarR22R23Case2Orientations2();
    PlanarR22R23Case2Orientations3();
    PlanarR22R23Case2Orientations4();
    PlanarR22R23Case2Orientations5();
  }

  /** The orientations the example above reads, part 1. */
  lemma PlanarR22R23Case2Orientations1()
    ensures Orient2D(Point2(2.0, -0.5), Point2(-2.0, 0.25), Point2(0.0, -1.0)) == Positive
    ensures Orient2D(Point2(0.0, 1.0), Point2(0.0, 0.0), Point2(1.0, 0.0)) == Positive
  {
    Orient2DIs(2.0, -0.5, -2.0, 0.25, 0.0, -1.0, Positive);
    Orient2DIs(0.0, 1.0, 0.0, 0.0, 1.0, 0.0, Positive);
  }

  /** The orientations the example above reads, part 2. */
  lemma PlanarR22R23Case2Orientations2()
    ensures Orient2D(Point2(0.0, 1.0), Point2(0.0, 0.0), Point2(2.0, -0.5)) == Positive
    ensures Orient2D(Point2(0.0, 0.0), Point2(1.0, 0.0), Point2(2.0, -0.5)) == Negative
  {
    Orient2DIs(0.0, 1.0, 0.0, 0.0, 2.0, -0.5, Positive);
    Orient2DIs(0.0, 0.0, 1.0, 0.0, 2.0, -0.5, Negative);
  }

  /** The orientations the example above reads, part 3. */
  lemma PlanarR22R23Case2Orientations3()
    ensures Orient2D(Point2(1.0, 0.0), Point2(0.0, 1.0), Point2(2.0, -0.5)) == Negative
    ensures Orient2D(Point2(1.0, 0.0), Point2(0.0, 1.0), Point2(-2.0, 0.25)) == Positive
  {
    Orient2DIs(1.0, 0.0, 0.0, 1.0, 2.0, -0.5, Negative);
    Orient2DIs(1.0, 0.0, 0.0, 1.0, -2.0, 0.25, Positive);
  }

  /** The orientations the example above reads, part 4. */
  lemma PlanarR22R23Case2Orientations4()
    ensures Orient2D(Point2(0.0, 0.0), Point2(1.0, 0.0), Point2(-2.0, 0.25)) == Positive
    ensures Orient2D(Point2(2.0, -0.5), Point2(0.0, 1.0), Point2(-2.0, 0.25)) == Positive
  {
    Orient2DIs(0.0, 0.0, 1.0, 0.0, -2.0, 0.25, Positive);
    Orient2DIs(2.0, -0.5, 0.0, 1.0, -2.0, 0.25, Positive);
  }

  /** The orientations the example above reads, part 5. */
  lemma PlanarR22R23Case2Orientations5()
    ensures Orient2D(Point2(2.0, -0.5), Point2(0.0, 0.0), Point2(-2.0, 0.25)) == Positive
  {
    Orient2DIs(2.0, -0.5, 0.0, 0.0, -2.0, 0.25, Positive);
  }

  /** test/algorithm/src/triangle_triangle.cpp, Triangle_Triangle_2D_R22_or_R23, are_intersecting (tr, tr_2). */
  lemma PlanarR22R23Case2SwappedExample()
    ensures !TriangleTriangleIntersect(Triangle(Point3(0.0, 1.0, 0.0), Point3(0.0, 0.0, 0.0), Point3(1.0, 0.0, 0.0), TriangleSpecies),
      Triangle(Point3(2.0, -0.5, 0.0), Point3(-2.0, 0.25, 0.0), Point3(0.0, -1.0, 0.0), TriangleSpecies))
  {
    assert FromPoints(Point3(0.0, 1.0, 0.0), Point3(0.0, 0.0, 0.0)) == Vector(0.0, -1.0, 0.0);
    assert FromPoints(Point3(0.0, 1.0, 0.0), Point3(1.0, 0.0, 0.0)) == Vector(1.0, -1.0, 0.0);
    assert VectorProduct(Vector(0.0, -1.0, 0.0), Vector(1.0, -1.0, 0.0)).z == 1.0;
    GroundCoplanar(Triangle(Point3(0.0, 1.0, 0.0), Point3(0.0, 0.0, 0.0), Point3(1.0, 0.0, 0.0), TriangleSpecies),
      Triangle(Point3(2.0, -0.5, 0.0), Point3(-2.0, 0.25, 0.0), Point3(0.0, -1.0, 0.0), TriangleSpecies));
    PlanarR22R23Case2SwappedOrientations1();
    PlanarR22R23Case2SwappedOrientations2();
    PlanarR22R23Case2SwappedOrientations3();
    PlanarR22R23Case2SwappedOrientations4();
  }

  /** The orientations the example above reads, part 1. */
  lemma PlanarR22R23Case2SwappedOrientations1()
    ensures Orient2D(Point2(0.0, 1.0), Point2(0.0, 0.0), Point2(1.0, 0.0)) == Positive
    ensures Orient2D(Point2(2.0, -0.5), Point2(-2.0, 0.25), Point2(0.0, -1.0)) == Positive
  {
    Orient2DIs(0.0, 1.0, 0.0, 0.0, 1.0, 0.0, Positive);
    Orient2DIs(2.0, -0.5, -2.0, 0.25, 0.0, -1.0, Positive);
  }

  /** The orientations the example above reads, part 2. */
  lemma PlanarR22R23Case2SwappedOrientations2()
    ensures Orient2D(Point2(2.0, -0.5), Point2(-2.0, 0.25), Point2(0.0, 1.0)) == Negative
    ensures Orient2D(Point2(-2.0, 0.25), Point2(0.0, -1.0), Point2(0.0, 1.0)) == Positive
  {
    Orient2DIs(2.0, -0.5, -2.0, 0.25, 0.0, 1.0, Negative);
    Orient2DIs(-2.0, 0.25, 0.0, -1.0, 0.0, 1.0, Positive);
  }

  /** The orientations the example above reads, part 3. */
  lemma PlanarR22R23Case2SwappedOrientations3()
    ensures Orient2D(Point2(0.0, -1.0), Point2(2.0, -0.5), Point2(0.0, 1.0)) == Positive
    ensures Orient2D(Point2(2.0, -0.5), Point2(-2.0, 0.25), Point2(0.0, 0.0)) == Negative
  {
    Orient2DIs(0.0, -1.0, 2.0, -0.5, 0.0, 1.0, Positive);
    Orient2DIs(2.0, -0.5, -2.0, 0.25, 0.0, 0.0, Negative);
  }

  /** The orientations the example above reads, part 4. */
  lemma PlanarR22R23Case2SwappedOrientations4()
    ensures Orient2D(Point2(2.0, -0.5), Point2(-2.0, 0.25), Point2(1.0, 0.0)) == Negative
  {
    Orient2DIs(2.0, -0.5, -2.0, 0.25, 1.0, 0.0, Negative);
  }
}
