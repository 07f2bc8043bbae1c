/** Test vectors of test/algorithm/src/triangle_triangle.cpp: all the spatial ones, where
    every triangle meets tr = (0,1,0), (1,0,0), (0,0,0) in both orders, and the first
    planar one of the easy cases and of region R1 in the plane z = 0; PlanarExamples holds
    the other planar ones. */
module TriangleTriangleExamples {
  import opened Points
  import opened Vectors
  import opened Triangles
  import opened MagicProduct
  import opened TriangleTriangle

  /** test/algorithm/src/triangle_triangle.cpp, are_intersecting (tr, tr_1): planes of triangles are parallel. */
  lemma Tr1Example()
    ensures !TriangleTriangleIntersect(Triangle(Point3(0.0, 1.0, 0.0), Point3(1.0, 0.0, 0.0), Point3(0.0, 0.0, 0.0), TriangleSpecies), Triangle(Point3(0.0, 1.0, 1.0), Point3(1.0, 0.0, 1.0), Point3(0.0, 0.0, 1.0), TriangleSpecies))
  {
    Tr1Orientations();
  }

  /** The locations the example above reads. */
  lemma Tr1Orientations()
    ensures Orient3D(Point3(0.0, 1.0, 1.0), Point3(1.0, 0.0, 1.0), Point3(0.0, 0.0, 1.0), Point3(0.0, 1.0, 0.0)) == Above
    ensures Orient3D(Point3(0.0, 1.0, 1.0), Point3(1.0, 0.0, 1.0), Point3(0.0, 0.0, 1.0), Point3(1.0, 0.0, 0.0)) == Above
    ensures Orient3D(Point3(0.0, 1.0, 1.0), Point3(1.0, 0.0, 1.0), Point3(0.0, 0.0, 1.0), Point3(0.0, 0.0, 0.0)) == Above
  {
    Orient3DIs(0.0, 1.0, 1.0, 1.0, 0.0, 1.0, 0.0, 0.0, 1.0, 0.0, 1.0, 0.0, Above);
    Orient3DIs(0.0, 1.0, 1.0, 1.0, 0.0, 1.0, 0.0, 0.0, 1.0, 1.0, 0.0, 0.0, Above);
    Orient3DIs(0.0, 1.0, 1.0, 1.0, 0.0, 1.0, 0.0, 0.0, 1.0, 0.0, 0.0, 0.0, Above);
  }

  /** test/algorithm/src/triangle_triangle.cpp, are_intersecting (tr_1, tr): planes of triangles are parallel. */
  lemma Tr1SwappedExample()
    ensures !TriangleTriangleIntersect(Triangle(Point3(0.0, 1.0, 1.0), Point3(1.0, 0.0, 1.0), Point3(0.0, 0.0, 1.0), TriangleSpecies), Triangle(Point3(0.0, 1.0, 0.0), Point3(1.0, 0.0, 0.0), Point3(0.0, 0.0, 0.0), TriangleSpecies))
  {
    Tr1SwappedOrientations();
  }

  /** The locations the example above reads. */
  lemma Tr1SwappedOrientations()
    ensures Orient3D(Point3(0.0, 1.0, 0.0), Point3(1.0, 0.0, 0.0), Point3(0.0, 0.0, 0.0), Point3(0.0, 1.0, 1.0)) == Below
    ensures Orient3D(Point3(0.0, 1.0, 0.0), Point3(1.0, 0.0, 0.0), Point3(0.0, 0.0, 0.0), Point3(1.0, 0.0, 1.0)) == Below
    ensures Orient3D(Point3(0.0, 1.0, 0.0), Point3(1.0, 0.0, 0.0), Point3(0.0, 0.0, 0.0), Point3(0.0, 0.0, 1.0)) == Below
  {
    Orient3DIs(0.0, 1.0, 0.0, 1.0, 0.0, 0.0, 0.0, 0.0, 0.0, 0.0, 1.0, 1.0, Below);
    Orient3DIs(0.0, 1.0, 0.0, 1.0, 0.0, 0.0, 0.0, 0.0, 0.0, 1.0, 0.0, 1.0, Below);
    Orient3DIs(0.0, 1.0, 0.0, 1.0, 0.0, 0.0, 0.0, 0.0, 0.0, 0.0, 0.0, 1.0, Below);
  }

  /** test/algorithm/src/triangle_triangle.cpp, are_intersecting (tr, tr_2): no triangle crosses the plane of the other. */
  lemma Tr2Example()
    ensures !TriangleTriangleIntersect(Triangle(Point3(0.0, 1.0, 0.0), Point3(1.0, 0.0, 0.0), Point3(0.0, 0.0, 0.0), TriangleSpecies), Triangle(Point3(-1.0, 0.0, 0.0), Point3(-1.0, 1.0, 0.0), Point3(-1.0, 0.0, 2.0), TriangleSpecies))
  {
    Tr2Orientations();
  }

  /** The locations the example above reads. */
  lemma Tr2Orientations()
    ensures Orient3D(Point3(-1.0, 0.0, 0.0), Point3(-1.0, 1.0, 0.0), Point3(-1.0, 0.0, 2.0), Point3(0.0, 1.0, 0.0)) == Above
    ensures Orient3D(Point3(-1.0, 0.0, 0.0), Point3(-1.0, 1.0, 0.0), Point3(-1.0, 0.0, 2.0), Point3(1.0, 0.0, 0.0)) == Above
    ensures Orient3D(Point3(-1.0, 0.0, 0.0), Point3(-1.0, 1.0, 0.0), Point3(-1.0, 0.0, 2.0), Point3(0.0, 0.0, 0.0)) == Above
  {
    Orient3DIs(-1.0, 0.0, 0.0, -1.0, 1.0, 0.0, -1.0, 0.0, 2.0, 0.0, 1.0, 0.0, Above);
    Orient3DIs(-1.0, 0.0, 0.0, -1.0, 1.0, 0.0, -1.0, 0.0, 2.0, 1.0, 0.0, 0.0, Above);
    Orient3DIs(-1.0, 0.0, 0.0, -1.0, 1.0, 0.0, -1.0, 0.0, 2.0, 0.0, 0.0, 0.0, Above);
  }

  /** test/algorithm/src/triangle_triangle.cpp, are_intersecting (tr_2, tr): no triangle crosses the plane of the other. */
  lemma Tr2SwappedExample()
    ensures !TriangleTriangleIntersect(Triangle(Point3(-1.0, 0.0, 0.0), Point3(-1.0, 1.0, 0.0), Point3(-1.0, 0.0, 2.0), TriangleSpecies), Triangle(Point3(0.0, 1.0, 0.0), Point3(1.0, 0.0, 0.0), Point3(0.0, 0.0, 0.0), TriangleSpecies))
  {
    Tr2SwappedOrientations1();
    Tr2SwappedOrientations2();
  }

  /** The locations the example above reads, part 1. */
  lemma Tr2SwappedOrientations1()
    ensures Orient3D(Point3(0.0, 1.0, 0.0), Point3(1.0, 0.0, 0.0), Point3(0.0, 0.0, 0.0), Point3(-1.0, 0.0, 0.0)) == On
    ensures Orient3D(Point3(0.0, 1.0, 0.0), Point3(1.0, 0.0, 0.0), Point3(0.0, 0.0, 0.0), Point3(-1.0, 1.0, 0.0)) == On
    ensures Orient3D(Point3(0.0, 1.0, 0.0), Point3(1.0, 0.0, 0.0), Point3(0.0, 0.0, 0.0), Point3(-1.0, 0.0, 2.0)) == Below
    ensures Orient3D(Point3(-1.0, 0.0, 0.0), Point3(-1.0, 1.0, 0.0), Point3(-1.0, 0.0, 2.0), Point3(0.0, 1.0, 0.0)) == Above
  {
    Orient3DIs(0.0, 1.0, 0.0, 1.0, 0.0, 0.0, 0.0, 0.0, 0.0, -1.0, 0.0, 0.0, On);
    Orient3DIs(0.0, 1.0, 0.0, 1.0, 0.0, 0.0, 0.0, 0.0, 0.0, -1.0, 1.0, 0.0, On);
    Orient3DIs(0.0, 1.0, 0.0, 1.0, 0.0, 0.0, 0.0, 0.0, 0.0, -1.0, 0.0, 2.0, Below);
    Orient3DIs(-1.0, 0.0, 0.0, -1.0, 1.0, 0.0, -1.0, 0.0, 2.0, 0.0, 1.0, 0.0, Above);
  }

  /** The locations the example above reads, part 2. */
  lemma Tr2SwappedOrientations2()
    ensures Orient3D(Point3(-1.0, 0.0, 0.0), Point3(-1.0, 1.0, 0.0), Point3(-1.0, 0.0, 2.0), Point3(1.0, 0.0, 0.0)) == Above
    ensures Orient3D(Point3(-1.0, 0.0, 0.0), Point3(-1.0, 1.0, 0.0), Point3(-1.0, 0.0, 2.0), Point3(0.0, 0.0, 0.0)) == Above
  {
    Orient3DIs(-1.0, 0.0, 0.0, -1.0, 1.0, 0.0, -1.0, 0.0, 2.0, 1.0, 0.0, 0.0, Above);
    Orient3DIs(-1.0, 0.0, 0.0, -1.0, 1.0, 0.0, -1.0, 0.0, 2.0, 0.0, 0.0, 0.0, Above);
  }

  /** test/algorithm/src/triangle_triangle.cpp, are_intersecting (tr, tr_3): the planes cross but the triangles do not. */
  lemma Tr3Example()
    ensures !TriangleTriangleIntersect(Triangle(Point3(0.0, 1.0, 0.0), Point3(1.0, 0.0, 0.0), Point3(0.0, 0.0, 0.0), TriangleSpecies), Triangle(Point3(-1.0, 0.0, -0.5), Point3(-1.0, 1.0, -0.5), Point3(-1.0, 0.0, 1.5), TriangleSpecies))
  {
    Tr3Orientations();
  }

  /** The locations the example above reads. */
  lemma Tr3Orientations()
    ensures Orient3D(Point3(-1.0, 0.0, -0.5), Point3(-1.0, 1.0, -0.5), Point3(-1.0, 0.0, 1.5), Point3(0.0, 1.0, 0.0)) == Above
    ensures Orient3D(Point3(-1.0, 0.0, -0.5), Point3(-1.0, 1.0, -0.5), Point3(-1.0, 0.0, 1.5), Point3(1.0, 0.0, 0.0)) == Above
    ensures Orient3D(Point3(-1.0, 0.0, -0.5), Point3(-1.0, 1.0, -0.5), Point3(-1.0, 0.0, 1.5), Point3(0.0, 0.0, 0.0)) == Above
  {
    Orient3DIs(-1.0, 0.0, -0.5, -1.0, 1.0, -0.5, -1.0, 0.0, 1.5, 0.0, 1.0, 0.0, Above);
    Orient3DIs(-1.0, 0.0, -0.5, -1.0, 1.0, -0.5, -1.0, 0.0, 1.5, 1.0, 0.0, 0.0, Above);
    Orient3DIs(-1.0, 0.0, -0.5, -1.0, 1.0, -0.5, -1.0, 0.0, 1.5, 0.0, 0.0, 0.0, Above);
  }

  /** test/algorithm/src/triangle_triangle.cpp, are_intersecting (tr_3, tr): the planes cross but the triangles do not. */
  lemma Tr3SwappedExample()
    ensures !TriangleTriangleIntersect(Triangle(Point3(-1.0, 0.0, -0.5), Point3(-1.0, 1.0, -0.5), Point3(-1.0, 0.0, 1.5), TriangleSpecies), Triangle(Point3(0.0, 1.0, 0.0), Point3(1.0, 0.0, 0.0), Point3(0.0, 0.0, 0.0), TriangleSpecies))
  {
    Tr3SwappedOrientations1();
    Tr3SwappedOrientations2();
  }

  /** The locations the example above reads, part 1. */
  lemma Tr3SwappedOrientations1()
    ensures Orient3D(Point3(0.0, 1.0, 0.0), Point3(1.0, 0.0, 0.0), Point3(0.0, 0.0, 0.0), Point3(-1.0, 0.0, -0.5)) == Above
    ensures Orient3D(Point3(0.0, 1.0, 0.0), Point3(1.0, 0.0, 0.0), Point3(0.0, 0.0, 0.0), Point3(-1.0, 1.0, -0.5)) == Above
    ensures Orient3D(Point3(0.0, 1.0, 0.0), Point3(1.0, 0.0, 0.0), Point3(0.0, 0.0, 0.0), Point3(-1.0, 0.0, 1.5)) == Below
    ensures Orient3D(Point3(-1.0, 0.0, -0.5), Point3(-1.0, 1.0, -0.5), Point3(-1.0, 0.0, 1.5), Point3(0.0, 1.0, 0.0)) == Above
  {
    Orient3DIs(0.0, 1.0, 0.0, 1.0, 0.0, 0.0, 0.0, 0.0, 0.0, -1.0, 0.0, -0.5, Above);
    Orient3DIs(0.0, 1.0, 0.0, 1.0, 0.0, 0.0, 0.0, 0.0, 0.0, -1.0, 1.0, -0.5, Above);
    Orient3DIs(0.0, 1.0, 0.0, 1.0, 0.0, 0.0, 0.0, 0.0, 0.0, -1.0, 0.0, 1.5, Below);
    Orient3DIs(-1.0, 0.0, -0.5, -1.0, 1.0, -0.5, -1.0, 0.0, 1.5, 0.0, 1.0, 0.0, Above);
  }

  /** The locations the example above reads, part 2. */
  lemma Tr3SwappedOrientations2()
    ensures Orient3D(Point3(-1.0, 0.0, -0.5), Point3(-1.0, 1.0, -0.5), Point3(-1.0, 0.0, 1.5), Point3(1.0, 0.0, 0.0)) == Above
    ensures Orient3D(Point3(-1.0, 0.0, -0.5), Point3(-1.0, 1.0, -0.5), Point3(-1.0, 0.0, 1.5), Point3(0.0, 0.0, 0.0)) == Above
  {
    Orient3DIs(-1.0, 0.0, -0.5, -1.0, 1.0, -0.5, -1.0, 0.0, 1.5, 1.0, 0.0, 0.0, Above);
    Orient3DIs(-1.0, 0.0, -0.5, -1.0, 1.0, -0.5, -1.0, 0.0, 1.5, 0.0, 0.0, 0.0, Above);
  }

  /** test/algorithm/src/triangle_triangle.cpp, are_intersecting (tr, tr_4): the QR sides of both triangles coincide. */
  lemma Tr4Example()
    ensures TriangleTriangleIntersect(Triangle(Point3(0.0, 1.0, 0.0), Point3(1.0, 0.0, 0.0), Point3(0.0, 0.0, 0.0), TriangleSpecies), Triangle(Point3(0.0, 0.0, 0.0), Point3(0.0, 1.0, 0.0), Point3(0.0, 0.0, 1.0), TriangleSpecies))
  {
    Tr4Orientations1();
    Tr4Orientations2();
    Tr4Orientations3();
  }

  /** The locations the example above reads, part 1. */
  lemma Tr4Orientations1()
    ensures Orient3D(Point3(0.0, 0.0, 0.0), Point3(0.0, 1.0, 0.0), Point3(0.0, 0.0, 1.0), Point3(0.0, 1.0, 0.0)) == On
    ensures Orient3D(Point3(0.0, 0.0, 0.0), Point3(0.0, 1.0, 0.0), Point3(0.0, 0.0, 1.0), Point3(1.0, 0.0, 0.0)) == Above
    ensures Orient3D(Point3(0.0, 0.0, 0.0), Point3(0.0, 1.0, 0.0), Point3(0.0, 0.0, 1.0), Point3(0.0, 0.0, 0.0)) == On
    ensures Orient3D(Point3(0.0, 1.0, 0.0), Point3(1.0, 0.0, 0.0), Point3(0.0, 0.0, 0.0), Point3(0.0, 0.0, 0.0)) == On
  {
    Orient3DIs(0.0, 0.0, 0.0, 0.0, 1.0, 0.0, 0.0, 0.0, 1.0, 0.0, 1.0, 0.0, On);
    Orient3DIs(0.0, 0.0, 0.0, 0.0, 1.0, 0.0, 0.0, 0.0, 1.0, 1.0, 0.0, 0.0, Above);
    Orient3DIs(0.0, 0.0, 0.0, 0.0, 1.0, 0.0, 0.0, 0.0, 1.0, 0.0, 0.0, 0.0, On);
    Orient3DIs(0.0, 1.0, 0.0, 1.0, 0.0, 0.0, 0.0, 0.0, 0.0, 0.0, 0.0, 0.0, On);
  }

  /** The locations the example above reads, part 2. */
  lemma Tr4Orientations2()
    ensures Orient3D(Point3(0.0, 1.0, 0.0), Point3(1.0, 0.0, 0.0), Point3(0.0, 0.0, 0.0), Point3(0.0, 1.0, 0.0)) == On
    ensures Orient3D(Point3(0.0, 1.0, 0.0), Point3(1.0, 0.0, 0.0), Point3(0.0, 0.0, 0.0), Point3(0.0, 0.0, 1.0)) == Below
    ensures Orient3D(Point3(1.0, 0.0, 0.0), Point3(0.0, 1.0, 0.0), Point3(0.0, 0.0, 0.0), Point3(0.0, 0.0, 1.0)) == Above
    ensures Orient3D(Point3(1.0, 0.0, 0.0), Point3(0.0, 1.0, 0.0), Point3(0.0, 0.0, 1.0), Point3(0.0, 0.0, 0.0)) == Below
  {
    Orient3DIs(0.0, 1.0, 0.0, 1.0, 0.0, 0.0, 0.0, 0.0, 0.0, 0.0, 1.0, 0.0, On);
    Orient3DIs(0.0, 1.0, 0.0, 1.0, 0.0, 0.0, 0.0, 0.0, 0.0, 0.0, 0.0, 1.0, Below);
    Orient3DIs(1.0, 0.0, 0.0, 0.0, 1.0, 0.0, 0.0, 0.0, 0.0, 0.0, 0.0, 1.0, Above);
    Orient3DIs(1.0, 0.0, 0.0, 0.0, 1.0, 0.0, 0.0, 0.0, 1.0, 0.0, 0.0, 0.0, Below);
  }

  /** The locations the example above reads, part 3. */
  lemma Tr4Orientations3()
    ensures Orient3D(Point3(1.0, 0.0, 0.0), Point3(0.0, 0.0, 0.0), Point3(0.0, 0.0, 1.0), Point3(0.0, 1.0, 0.0)) == Above
  {
    Orient3DIs(1.0, 0.0, 0.0, 0.0, 0.0, 0.0, 0.0, 0.0, 1.0, 0.0, 1.0, 0.0, Above);
  }

  /** test/algorithm/src/triangle_triangle.cpp, are_intersecting (tr_4, tr): the QR sides of both triangles coincide. */
  lemma Tr4SwappedExample()
    ensures TriangleTriangleIntersect(Triangle(Point3(0.0, 0.0, 0.0), Point3(0.0, 1.0, 0.0), Point3(0.0, 0.0, 1.0), TriangleSpecies), Triangle(Point3(0.0, 1.0, 0.0), Point3(1.0, 0.0, 0.0), Point3(0.0, 0.0, 0.0), TriangleSpecies))
  {
    Tr4SwappedOrientations1();
    Tr4SwappedOrientations2();
    Tr4SwappedOrientations3();
  }

  /** The locations the example above reads, part 1. */
  lemma Tr4SwappedOrientations1()
    ensures Orient3D(Point3(0.0, 1.0, 0.0), Point3(1.0, 0.0, 0.0), Point3(0.0, 0.0, 0.0), Point3(0.0, 0.0, 0.0)) == On
    ensures Orient3D(Point3(0.0, 1.0, 0.0), Point3(1.0, 0.0, 0.0), Point3(0.0, 0.0, 0.0), Point3(0.0, 1.0, 0.0)) == On
    ensures Orient3D(Point3(0.0, 1.0, 0.0), Point3(1.0, 0.0, 0.0), Point3(0.0, 0.0, 0.0), Point3(0.0, 0.0, 1.0)) == Below
    ensures Orient3D(Point3(0.0, 0.0, 0.0), Point3(0.0, 1.0, 0.0), Point3(0.0, 0.0, 1.0), Point3(0.0, 1.0, 0.0)) == On
  {
    Orient3DIs(0.0, 1.0, 0.0, 1.0, 0.0, 0.0, 0.0, 0.0, 0.0, 0.0, 0.0, 0.0, On);
    Orient3DIs(0.0, 1.0, 0.0, 1.0, 0.0, 0.0, 0.0, 0.0, 0.0, 0.0, 1.0, 0.0, On);
    Orient3DIs(0.0, 1.0, 0.0, 1.0, 0.0, 0.0, 0.0, 0.0, 0.0, 0.0, 0.0, 1.0, Below);
    Orient3DIs(0.0, 0.0, 0.0, 0.0, 1.0, 0.0, 0.0, 0.0, 1.0, 0.0, 1.0, 0.0, On);
  }

  /** The locations the example above reads, part 2. */
  lemma Tr4SwappedOrientations2()
    ensures Orient3D(Point3(0.0, 0.0, 0.0), Point3(0.0, 1.0, 0.0), Point3(0.0, 0.0, 1.0), Point3(1.0, 0.0, 0.0)) == Above
    ensures Orient3D(Point3(0.0, 0.0, 0.0), Point3(0.0, 1.0, 0.0), Point3(0.0, 0.0, 1.0), Point3(0.0, 0.0, 0.0)) == On
    ensures Orient3D(Point3(0.0, 1.0, 0.0), Point3(0.0, 0.0, 0.0), Point3(1.0, 0.0, 0.0), Point3(0.0, 0.0, 1.0)) == Above
    ensures Orient3D(Point3(0.0, 1.0, 0.0), Point3(0.0, 0.0, 0.0), Point3(1.0, 0.0, 0.0), Point3(0.0, 0.0, 0.0)) == On
  {
    Orient3DIs(0.0, 0.0, 0.0, 0.0, 1.0, 0.0, 0.0, 0.0, 1.0, 1.0, 0.0, 0.0, Above);
    Orient3DIs(0.0, 0.0, 0.0, 0.0, 1.0, 0.0, 0.0, 0.0, 1.0, 0.0, 0.0, 0.0, On);
    Orient3DIs(0.0, 1.0, 0.0, 0.0, 0.0, 0.0, 1.0, 0.0, 0.0, 0.0, 0.0, 1.0, Above);
    Orient3DIs(0.0, 1.0, 0.0, 0.0, 0.0, 0.0, 1.0, 0.0, 0.0, 0.0, 0.0, 0.0, On);
  }

  /** The locations the example above reads, part 3. */
  lemma Tr4SwappedOrientations3()
    ensures Orient3D(Point3(0.0, 1.0, 0.0), Point3(0.0, 0.0, 0.0), Point3(1.0, 0.0, 0.0), Point3(0.0, 1.0, 0.0)) == On
    ensures Orient3D(Point3(0.0, 0.0, 1.0), Point3(0.0, 0.0, 0.0), Point3(0.0, 1.0, 0.0), Point3(1.0, 0.0, 0.0)) == Above
    ensures Orient3D(Point3(0.0, 0.0, 1.0), Point3(0.0, 0.0, 0.0), Point3(1.0, 0.0, 0.0), Point3(0.0, 1.0, 0.0)) == Below
    ensures Orient3D(Point3(0.0, 0.0, 1.0), Point3(0.0, 1.0, 0.0), Point3(1.0, 0.0, 0.0), Point3(0.0, 0.0, 0.0)) == Above
  {
    Orient3DIs(0.0, 1.0, 0.0, 0.0, 0.0, 0.0, 1.0, 0.0, 0.0, 0.0, 1.0, 0.0, On);
    Orient3DIs(0.0, 0.0, 1.0, 0.0, 0.0, 0.0, 0.0, 1.0, 0.0, 1.0, 0.0, 0.0, Above);
    Orient3DIs(0.0, 0.0, 1.0, 0.0, 0.0, 0.0, 1.0, 0.0, 0.0, 0.0, 1.0, 0.0, Below);
    Orient3DIs(0.0, 0.0, 1.0, 0.0, 1.0, 0.0, 1.0, 0.0, 0.0, 0.0, 0.0, 0.0, Above);
  }

  /** test/algorithm/src/triangle_triangle.cpp, are_intersecting (tr, tr_5): the QR sides of both triangles overlap. */
  lemma Tr5Example()
    ensures TriangleTriangleIntersect(Triangle(Point3(0.0, 1.0, 0.0), Point3(1.0, 0.0, 0.0), Point3(0.0, 0.0, 0.0), TriangleSpecies), Triangle(Point3(0.0, 0.5, 0.0), Point3(0.0, 1.5, 0.0), Point3(0.0, 0.5, 1.0), TriangleSpecies))
  {
    Tr5Orientations1();
    Tr5Orientations2();
    Tr5Orientations3();
  }

  /** The locations the example above reads, part 1. */
  lemma Tr5Orientations1()
    ensures Orient3D(Point3(0.0, 0.5, 0.0), Point3(0.0, 1.5, 0.0), Point3(0.0, 0.5, 1.0), Point3(0.0, 1.0, 0.0)) == On
    ensures Orient3D(Point3(0.0, 0.5, 0.0), Point3(0.0, 1.5, 0.0), Point3(0.0, 0.5, 1.0), Point3(1.0, 0.0, 0.0)) == Above
    ensures Orient3D(Point3(0.0, 0.5, 0.0), Point3(0.0, 1.5, 0.0), Point3(0.0, 0.5, 1.0), Point3(0.0, 0.0, 0.0)) == On
    ensures Orient3D(Point3(0.0, 1.0, 0.0), Point3(1.0, 0.0, 0.0), Point3(0.0, 0.0, 0.0), Point3(0.0, 0.5, 0.0)) == On
  {
    Orient3DIs(0.0, 0.5, 0.0, 0.0, 1.5, 0.0, 0.0, 0.5, 1.0, 0.0, 1.0, 0.0, On);
    Orient3DIs(0.0, 0.5, 0.0, 0.0, 1.5, 0.0, 0.0, 0.5, 1.0, 1.0, 0.0, 0.0, Above);
    Orient3DIs(0.0, 0.5, 0.0, 0.0, 1.5, 0.0, 0.0, 0.5, 1.0, 0.0, 0.0, 0.0, On);
    Orient3DIs(0.0, 1.0, 0.0, 1.0, 0.0, 0.0, 0.0, 0.0, 0.0, 0.0, 0.5, 0.0, On);
  }

  /** The locations the example above reads, part 2. */
  lemma Tr5Orientations2()
    ensures Orient3D(Point3(0.0, 1.0, 0.0), Point3(1.0, 0.0, 0.0), Point3(0.0, 0.0, 0.0), Point3(0.0, 1.5, 0.0)) == On
    ensures Orient3D(Point3(0.0, 1.0, 0.0), Point3(1.0, 0.0, 0.0), Point3(0.0, 0.0, 0.0), Point3(0.0, 0.5, 1.0)) == Below
    ensures Orient3D(Point3(1.0, 0.0, 0.0), Point3(0.0, 1.0, 0.0), Point3(0.0, 0.0, 0.0), Point3(0.0, 0.5, 1.0)) == Above
    ensures Orient3D(Point3(1.0, 0.0, 0.0), Point3(0.0, 1.0, 0.0), Point3(0.0, 0.5, 1.0), Point3(0.0, 0.5, 0.0)) == Below
  {
    Orient3DIs(0.0, 1.0, 0.0, 1.0, 0.0, 0.0, 0.0, 0.0, 0.0, 0.0, 1.5, 0.0, On);
    Orient3DIs(0.0, 1.0, 0.0, 1.0, 0.0, 0.0, 0.0, 0.0, 0.0, 0.0, 0.5, 1.0, Below);
    Orient3DIs(1.0, 0.0, 0.0, 0.0, 1.0, 0.0, 0.0, 0.0, 0.0, 0.0, 0.5, 1.0, Above);
    Orient3DIs(1.0, 0.0, 0.0, 0.0, 1.0, 0.0, 0.0, 0.5, 1.0, 0.0, 0.5, 0.0, Below);
  }

  /** The locations the example above reads, part 3. */
  lemma Tr5Orientations3()
    ensures Orient3D(Point3(1.0, 0.0, 0.0), Point3(0.0, 0.0, 0.0), Point3(0.0, 0.5, 1.0), Point3(0.0, 1.5, 0.0)) == Above
  {
    Orient3DIs(1.0, 0.0, 0.0, 0.0, 0.0, 0.0, 0.0, 0.5, 1.0, 0.0, 1.5, 0.0, Above);
  }

  /** test/algorithm/src/triangle_triangle.cpp, are_intersecting (tr_5, tr): the QR sides of both triangles overlap. */
  lemma Tr5SwappedExample()
    ensures TriangleTriangleIntersect(Triangle(Point3(0.0, 0.5, 0.0), Point3(0.0, 1.5, 0.0), Point3(0.0, 0.5, 1.0), TriangleSpecies), Triangle(Point3(0.0, 1.0, 0.0), Point3(1.0, 0.0, 0.0), Point3(0.0, 0.0, 0.0), TriangleSpecies))
  {
    Tr5SwappedOrientations1();
    Tr5SwappedOrientations2();
    Tr5SwappedOrientations3();
  }

  /** The locations the example above reads, part 1. */
  lemma Tr5SwappedOrientations1()
    ensures Orient3D(Point3(0.0, 1.0, 0.0), Point3(1.0, 0.0, 0.0), Point3(0.0, 0.0, 0.0), Point3(0.0, 0.5, 0.0)) == On
    ensures Orient3D(Point3(0.0, 1.0, 0.0), Point3(1.0, 0.0, 0.0), Point3(0.0, 0.0, 0.0), Point3(0.0, 1.5, 0.0)) == On
    ensures Orient3D(Point3(0.0, 1.0, 0.0), Point3(1.0, 0.0, 0.0), Point3(0.0, 0.0, 0.0), Point3(0.0, 0.5, 1.0)) == Below
    ensures Orient3D(Point3(0.0, 0.5, 0.0), Point3(0.0, 1.5, 0.0), Point3(0.0, 0.5, 1.0), Point3(0.0, 1.0, 0.0)) == On
  {
    Orient3DIs(0.0, 1.0, 0.0, 1.0, 0.0, 0.0, 0.0, 0.0, 0.0, 0.0, 0.5, 0.0, On);
    Orient3DIs(0.0, 1.0, 0.0, 1.0, 0.0, 0.0, 0.0, 0.0, 0.0, 0.0, 1.5, 0.0, On);
    Orient3DIs(0.0, 1.0, 0.0, 1.0, 0.0, 0.0, 0.0, 0.0, 0.0, 0.0, 0.5, 1.0, Below);
    Orient3DIs(0.0, 0.5, 0.0, 0.0, 1.5, 0.0, 0.0, 0.5, 1.0, 0.0, 1.0, 0.0, On);
  }

  /** The locations the example above reads, part 2. */
  lemma Tr5SwappedOrientations2()
    ensures Orient3D(Point3(0.0, 0.5, 0.0), Point3(0.0, 1.5, 0.0), Point3(0.0, 0.5, 1.0), Point3(1.0, 0.0, 0.0)) == Above
    ensures Orient3D(Point3(0.0, 0.5, 0.0), Point3(0.0, 1.5, 0.0), Point3(0.0, 0.5, 1.0), Point3(0.0, 0.0, 0.0)) == On
    ensures Orient3D(Point3(0.0, 1.0, 0.0), Point3(0.0, 0.0, 0.0), Point3(1.0, 0.0, 0.0), Point3(0.0, 0.5, 1.0)) == Above
    ensures Orient3D(Point3(0.0, 1.0, 0.0), Point3(0.0, 0.0, 0.0), Point3(1.0, 0.0, 0.0), Point3(0.0, 0.5, 0.0)) == On
  {
    Orient3DIs(0.0, 0.5, 0.0, 0.0, 1.5, 0.0, 0.0, 0.5, 1.0, 1.0, 0.0, 0.0, Above);
    Orient3DIs(0.0, 0.5, 0.0, 0.0, 1.5, 0.0, 0.0, 0.5, 1.0, 0.0, 0.0, 0.0, On);
    Orient3DIs(0.0, 1.0, 0.0, 0.0, 0.0, 0.0, 1.0, 0.0, 0.0, 0.0, 0.5, 1.0, Above);
    Orient3DIs(0.0, 1.0, 0.0, 0.0, 0.0, 0.0, 1.0, 0.0, 0.0, 0.0, 0.5, 0.0, On);
  }

  /** The locations the example above reads, part 3. */
  lemma Tr5SwappedOrientations3()
    ensures Orient3D(Point3(0.0, 1.0, 0.0), Point3(0.0, 0.0, 0.0), Point3(1.0, 0.0, 0.0), Point3(0.0, 1.5, 0.0)) == On
    ensures Orient3D(Point3(0.0, 0.5, 1.0), Point3(0.0, 0.5, 0.0), Point3(0.0, 1.5, 0.0), Point3(1.0, 0.0, 0.0)) == Above
    ensures Orient3D(Point3(0.0, 0.5, 1.0), Point3(0.0, 0.5, 0.0), Point3(1.0, 0.0, 0.0), Point3(0.0, 1.0, 0.0)) == Below
    ensures Orient3D(Point3(0.0, 0.5, 1.0), Point3(0.0, 1.5, 0.0), Point3(1.0, 0.0, 0.0), Point3(0.0, 0.0, 0.0)) == Above
  {
    Orient3DIs(0.0, 1.0, 0.0, 0.0, 0.0, 0.0, 1.0, 0.0, 0.0, 0.0, 1.5, 0.0, On);
    Orient3DIs(0.0, 0.5, 1.0, 0.0, 0.5, 0.0, 0.0, 1.5, 0.0, 1.0, 0.0, 0.0, Above);
    Orient3DIs(0.0, 0.5, 1.0, 0.0, 0.5, 0.0, 1.0, 0.0, 0.0, 0.0, 1.0, 0.0, Below);
    Orient3DIs(0.0, 0.5, 1.0, 0.0, 1.5, 0.0, 1.0, 0.0, 0.0, 0.0, 0.0, 0.0, Above);
  }

  /** test/algorithm/src/triangle_triangle.cpp, are_intersecting (tr, tr_6): R1 coincides with R2. */
  lemma Tr6Example()
    ensures TriangleTriangleIntersect(Triangle(Point3(0.0, 1.0, 0.0), Point3(1.0, 0.0, 0.0), Point3(0.0, 0.0, 0.0), TriangleSpecies), Triangle(Point3(0.0, 1.0, 0.0), Point3(0.0, 2.0, 0.0), Point3(0.0, 1.0, 1.0), TriangleSpecies))
  {
    Tr6Orientations1();
    Tr6Orientations2();
    Tr6Orientations3();
  }

  /** The locations the example above reads, part 1. */
  lemma Tr6Orientations1()
    ensures Orient3D(Point3(0.0, 1.0, 0.0), Point3(0.0, 2.0, 0.0), Point3(0.0, 1.0, 1.0), Point3(0.0, 1.0, 0.0)) == On
    ensures Orient3D(Point3(0.0, 1.0, 0.0), Point3(0.0, 2.0, 0.0), Point3(0.0, 1.0, 1.0), Point3(1.0, 0.0, 0.0)) == Above
    ensures Orient3D(Point3(0.0, 1.0, 0.0), Point3(0.0, 2.0, 0.0), Point3(0.0, 1.0, 1.0), Point3(0.0, 0.0, 0.0)) == On
    ensures Orient3D(Point3(0.0, 1.0, 0.0), Point3(1.0, 0.0, 0.0), Point3(0.0, 0.0, 0.0), Point3(0.0, 1.0, 0.0)) == On
  {
    Orient3DIs(0.0, 1.0, 0.0, 0.0, 2.0, 0.0, 0.0, 1.0, 1.0, 0.0, 1.0, 0.0, On);
    Orient3DIs(0.0, 1.0, 0.0, 0.0, 2.0, 0.0, 0.0, 1.0, 1.0, 1.0, 0.0, 0.0, Above);
    Orient3DIs(0.0, 1.0, 0.0, 0.0, 2.0, 0.0, 0.0, 1.0, 1.0, 0.0, 0.0, 0.0, On);
    Orient3DIs(0.0, 1.0, 0.0, 1.0, 0.0, 0.0, 0.0, 0.0, 0.0, 0.0, 1.0, 0.0, On);
  }

  /** The locations the example above reads, part 2. */
  lemma Tr6Orientations2()
    ensures Orient3D(Point3(0.0, 1.0, 0.0), Point3(1.0, 0.0, 0.0), Point3(0.0, 0.0, 0.0), Point3(0.0, 2.0, 0.0)) == On
    ensures Orient3D(Point3(0.0, 1.0, 0.0), Point3(1.0, 0.0, 0.0), Point3(0.0, 0.0, 0.0), Point3(0.0, 1.0, 1.0)) == Below
    ensures Orient3D(Point3(1.0, 0.0, 0.0), Point3(0.0, 1.0, 0.0), Point3(0.0, 0.0, 0.0), Point3(0.0, 1.0, 1.0)) == Above
    ensures Orient3D(Point3(1.0, 0.0, 0.0), Point3(0.0, 1.0, 0.0), Point3(0.0, 1.0, 1.0), Point3(0.0, 1.0, 0.0)) == On
  {
    Orient3DIs(0.0, 1.0, 0.0, 1.0, 0.0, 0.0, 0.0, 0.0, 0.0, 0.0, 2.0, 0.0, On);
    Orient3DIs(0.0, 1.0, 0.0, 1.0, 0.0, 0.0, 0.0, 0.0, 0.0, 0.0, 1.0, 1.0, Below);
    Orient3DIs(1.0, 0.0, 0.0, 0.0, 1.0, 0.0, 0.0, 0.0, 0.0, 0.0, 1.0, 1.0, Above);
    Orient3DIs(1.0, 0.0, 0.0, 0.0, 1.0, 0.0, 0.0, 1.0, 1.0, 0.0, 1.0, 0.0, On);
  }

  /** The locations the example above reads, part 3. */
  lemma Tr6Orientations3()
    ensures Orient3D(Point3(1.0, 0.0, 0.0), Point3(0.0, 0.0, 0.0), Point3(0.0, 1.0, 1.0), Point3(0.0, 2.0, 0.0)) == Above
  {
    Orient3DIs(1.0, 0.0, 0.0, 0.0, 0.0, 0.0, 0.0, 1.0, 1.0, 0.0, 2.0, 0.0, Above);
  }

  /** test/algorithm/src/triangle_triangle.cpp, are_intersecting (tr_6, tr): R1 coincides with R2. */
  lemma Tr6SwappedExample()
    ensures TriangleTriangleIntersect(Triangle(Point3(0.0, 1.0, 0.0), Point3(0.0, 2.0, 0.0), Point3(0.0, 1.0, 1.0), TriangleSpecies), Triangle(Point3(0.0, 1.0, 0.0), Point3(1.0, 0.0, 0.0), Point3(0.0, 0.0, 0.0), TriangleSpecies))
  {
    Tr6SwappedOrientations1();
    Tr6SwappedOrientations2();
    Tr6SwappedOrientations3();
  }

  /** The locations the example above reads, part 1. */
  lemma Tr6SwappedOrientations1()
    ensures Orient3D(Point3(0.0, 1.0, 0.0), Point3(1.0, 0.0, 0.0), Point3(0.0, 0.0, 0.0), Point3(0.0, 1.0, 0.0)) == On
    ensures Orient3D(Point3(0.0, 1.0, 0.0), Point3(1.0, 0.0, 0.0), Point3(0.0, 0.0, 0.0), Point3(0.0, 2.0, 0.0)) == On
    ensures Orient3D(Point3(0.0, 1.0, 0.0), Point3(1.0, 0.0, 0.0), Point3(0.0, 0.0, 0.0), Point3(0.0, 1.0, 1.0)) == Below
    ensures Orient3D(Point3(0.0, 1.0, 0.0), Point3(0.0, 2.0, 0.0), Point3(0.0, 1.0, 1.0), Point3(0.0, 1.0, 0.0)) == On
  {
    Orient3DIs(0.0, 1.0, 0.0, 1.0, 0.0, 0.0, 0.0, 0.0, 0.0, 0.0, 1.0, 0.0, On);
    Orient3DIs(0.0, 1.0, 0.0, 1.0, 0.0, 0.0, 0.0, 0.0, 0.0, 0.0, 2.0, 0.0, On);
    Orient3DIs(0.0, 1.0, 0.0, 1.0, 0.0, 0.0, 0.0, 0.0, 0.0, 0.0, 1.0, 1.0, Below);
    Orient3DIs(0.0, 1.0, 0.0, 0.0, 2.0, 0.0, 0.0, 1.0, 1.0, 0.0, 1.0, 0.0, On);
  }

  /** The locations the example above reads, part 2. */
  lemma Tr6SwappedOrientations2()
    ensures Orient3D(Point3(0.0, 1.0, 0.0), Point3(0.0, 2.0, 0.0), Point3(0.0, 1.0, 1.0), Point3(1.0, 0.0, 0.0)) == Above
    ensures Orient3D(Point3(0.0, 1.0, 0.0), Point3(0.0, 2.0, 0.0), Point3(0.0, 1.0, 1.0), Point3(0.0, 0.0, 0.0)) == On
    ensures Orient3D(Point3(0.0, 1.0, 0.0), Point3(0.0, 0.0, 0.0), Point3(1.0, 0.0, 0.0), Point3(0.0, 1.0, 1.0)) == Above
    ensures Orient3D(Point3(0.0, 1.0, 0.0), Point3(0.0, 0.0, 0.0), Point3(1.0, 0.0, 0.0), Point3(0.0, 1.0, 0.0)) == On
  {
    Orient3DIs(0.0, 1.0, 0.0, 0.0, 2.0, 0.0, 0.0, 1.0, 1.0, 1.0, 0.0, 0.0, Above);
    Orient3DIs(0.0, 1.0, 0.0, 0.0, 2.0, 0.0, 0.0, 1.0, 1.0, 0.0, 0.0, 0.0, On);
    Orient3DIs(0.0, 1.0, 0.0, 0.0, 0.0, 0.0, 1.0, 0.0, 0.0, 0.0, 1.0, 1.0, Above);
    Orient3DIs(0.0, 1.0, 0.0, 0.0, 0.0, 0.0, 1.0, 0.0, 0.0, 0.0, 1.0, 0.0, On);
  }

  /** The locations the example above reads, part 3. */
  lemma Tr6SwappedOrientations3()
    ensures Orient3D(Point3(0.0, 1.0, 0.0), Point3(0.0, 0.0, 0.0), Point3(1.0, 0.0, 0.0), Point3(0.0, 2.0, 0.0)) == On
    ensures Orient3D(Point3(0.0, 1.0, 1.0), Point3(0.0, 1.0, 0.0), Point3(0.0, 2.0, 0.0), Point3(1.0, 0.0, 0.0)) == Above
    ensures Orient3D(Point3(0.0, 1.0, 1.0), Point3(0.0, 1.0, 0.0), Point3(1.0, 0.0, 0.0), Point3(0.0, 1.0, 0.0)) == On
    ensures Orient3D(Point3(0.0, 1.0, 1.0), Point3(0.0, 2.0, 0.0), Point3(1.0, 0.0, 0.0), Point3(0.0, 0.0, 0.0)) == Above
  {
    Orient3DIs(0.0, 1.0, 0.0, 0.0, 0.0, 0.0, 1.0, 0.0, 0.0, 0.0, 2.0, 0.0, On);
    Orient3DIs(0.0, 1.0, 1.0, 0.0, 1.0, 0.0, 0.0, 2.0, 0.0, 1.0, 0.0, 0.0, Above);
    Orient3DIs(0.0, 1.0, 1.0, 0.0, 1.0, 0.0, 1.0, 0.0, 0.0, 0.0, 1.0, 0.0, On);
    Orient3DIs(0.0, 1.0, 1.0, 0.0, 2.0, 0.0, 1.0, 0.0, 0.0, 0.0, 0.0, 0.0, Above);
  }

  /** test/algorithm/src/triangle_triangle.cpp, are_intersecting (tr, tr_7): Q1 coincides with Q2. */
  lemma Tr7Example()
    ensures TriangleTriangleIntersect(Triangle(Point3(0.0, 1.0, 0.0), Point3(1.0, 0.0, 0.0), Point3(0.0, 0.0, 0.0), TriangleSpecies), Triangle(Point3(0.0, -1.0, 0.0), Point3(0.0, 0.0, 0.0), Point3(0.0, -1.0, 1.0), TriangleSpecies))
  {
    Tr7Orientations1();
    Tr7Orientations2();
    Tr7Orientations3();
  }

  /** The locations the example above reads, part 1. */
  lemma Tr7Orientations1()
    ensures Orient3D(Point3(0.0, -1.0, 0.0), Point3(0.0, 0.0, 0.0), Point3(0.0, -1.0, 1.0), Point3(0.0, 1.0, 0.0)) == On
    ensures Orient3D(Point3(0.0, -1.0, 0.0), Point3(0.0, 0.0, 0.0), Point3(0.0, -1.0, 1.0), Point3(1.0, 0.0, 0.0)) == Above
    ensures Orient3D(Point3(0.0, -1.0, 0.0), Point3(0.0, 0.0, 0.0), Point3(0.0, -1.0, 1.0), Point3(0.0, 0.0, 0.0)) == On
    ensures Orient3D(Point3(0.0, 1.0, 0.0), Point3(1.0, 0.0, 0.0), Point3(0.0, 0.0, 0.0), Point3(0.0, -1.0, 0.0)) == On
  {
    Orient3DIs(0.0, -1.0, 0.0, 0.0, 0.0, 0.0, 0.0, -1.0, 1.0, 0.0, 1.0, 0.0, On);
    Orient3DIs(0.0, -1.0, 0.0, 0.0, 0.0, 0.0, 0.0, -1.0, 1.0, 1.0, 0.0, 0.0, Above);
    Orient3DIs(0.0, -1.0, 0.0, 0.0, 0.0, 0.0, 0.0, -1.0, 1.0, 0.0, 0.0, 0.0, On);
    Orient3DIs(0.0, 1.0, 0.0, 1.0, 0.0, 0.0, 0.0, 0.0, 0.0, 0.0, -1.0, 0.0, On);
  }

  /** The locations the example above reads, part 2. */
  lemma Tr7Orientations2()
    ensures Orient3D(Point3(0.0, 1.0, 0.0), Point3(1.0, 0.0, 0.0), Point3(0.0, 0.0, 0.0), Point3(0.0, 0.0, 0.0)) == On
    ensures Orient3D(Point3(0.0, 1.0, 0.0), Point3(1.0, 0.0, 0.0), Point3(0.0, 0.0, 0.0), Point3(0.0, -1.0, 1.0)) == Below
    ensures Orient3D(Point3(1.0, 0.0, 0.0), Point3(0.0, 1.0, 0.0), Point3(0.0, 0.0, 0.0), Point3(0.0, -1.0, 1.0)) == Above
    ensures Orient3D(Point3(1.0, 0.0, 0.0), Point3(0.0, 1.0, 0.0), Point3(0.0, -1.0, 1.0), Point3(0.0, -1.0, 0.0)) == Below
  {
    Orient3DIs(0.0, 1.0, 0.0, 1.0, 0.0, 0.0, 0.0, 0.0, 0.0, 0.0, 0.0, 0.0, On);
    Orient3DIs(0.0, 1.0, 0.0, 1.0, 0.0, 0.0, 0.0, 0.0, 0.0, 0.0, -1.0, 1.0, Below);
    Orient3DIs(1.0, 0.0, 0.0, 0.0, 1.0, 0.0, 0.0, 0.0, 0.0, 0.0, -1.0, 1.0, Above);
    Orient3DIs(1.0, 0.0, 0.0, 0.0, 1.0, 0.0, 0.0, -1.0, 1.0, 0.0, -1.0, 0.0, Below);
  }

  /** The locations the example above reads, part 3. */
  lemma Tr7Orientations3()
    ensures Orient3D(Point3(1.0, 0.0, 0.0), Point3(0.0, 0.0, 0.0), Point3(0.0, -1.0, 1.0), Point3(0.0, 0.0, 0.0)) == On
  {
    Orient3DIs(1.0, 0.0, 0.0, 0.0, 0.0, 0.0, 0.0, -1.0, 1.0, 0.0, 0.0, 0.0, On);
  }

  /** test/algorithm/src/triangle_triangle.cpp, are_intersecting (tr_7, tr): Q1 coincides with Q2. */
  lemma Tr7SwappedExample()
    ensures TriangleTriangleIntersect(Triangle(Point3(0.0, -1.0, 0.0), Point3(0.0, 0.0, 0.0), Point3(0.0, -1.0, 1.0), TriangleSpecies), Triangle(Point3(0.0, 1.0, 0.0), Point3(1.0, 0.0, 0.0), Point3(0.0, 0.0, 0.0), TriangleSpecies))
  {
    Tr7SwappedOrientations1();
    Tr7SwappedOrientations2();
    Tr7SwappedOrientations3();
  }

  /** The locations the example above reads, part 1. */
  lemma Tr7SwappedOrientations1()
    ensures Orient3D(Point3(0.0, 1.0, 0.0), Point3(1.0, 0.0, 0.0), Point3(0.0, 0.0, 0.0), Point3(0.0, -1.0, 0.0)) == On
    ensures Orient3D(Point3(0.0, 1.0, 0.0), Point3(1.0, 0.0, 0.0), Point3(0.0, 0.0, 0.0), Point3(0.0, 0.0, 0.0)) == On
    ensures Orient3D(Point3(0.0, 1.0, 0.0), Point3(1.0, 0.0, 0.0), Point3(0.0, 0.0, 0.0), Point3(0.0, -1.0, 1.0)) == Below
    ensures Orient3D(Point3(0.0, -1.0, 0.0), Point3(0.0, 0.0, 0.0), Point3(0.0, -1.0, 1.0), Point3(0.0, 1.0, 0.0)) == On
  {
    Orient3DIs(0.0, 1.0, 0.0, 1.0, 0.0, 0.0, 0.0, 0.0, 0.0, 0.0, -1.0, 0.0, On);
    Orient3DIs(0.0, 1.0, 0.0, 1.0, 0.0, 0.0, 0.0, 0.0, 0.0, 0.0, 0.0, 0.0, On);
    Orient3DIs(0.0, 1.0, 0.0, 1.0, 0.0, 0.0, 0.0, 0.0, 0.0, 0.0, -1.0, 1.0, Below);
    Orient3DIs(0.0, -1.0, 0.0, 0.0, 0.0, 0.0, 0.0, -1.0, 1.0, 0.0, 1.0, 0.0, On);
  }

  /** The locations the example above reads, part 2. */
  lemma Tr7SwappedOrientations2()
    ensures Orient3D(Point3(0.0, -1.0, 0.0), Point3(0.0, 0.0, 0.0), Point3(0.0, -1.0, 1.0), Point3(1.0, 0.0, 0.0)) == Above
    ensures Orient3D(Point3(0.0, -1.0, 0.0), Point3(0.0, 0.0, 0.0), Point3(0.0, -1.0, 1.0), Point3(0.0, 0.0, 0.0)) == On
    ensures Orient3D(Point3(0.0, 1.0, 0.0), Point3(0.0, 0.0, 0.0), Point3(1.0, 0.0, 0.0), Point3(0.0, -1.0, 1.0)) == Above
    ensures Orient3D(Point3(0.0, 1.0, 0.0), Point3(0.0, 0.0, 0.0), Point3(1.0, 0.0, 0.0), Point3(0.0, -1.0, 0.0)) == On
  {
    Orient3DIs(0.0, -1.0, 0.0, 0.0, 0.0, 0.0, 0.0, -1.0, 1.0, 1.0, 0.0, 0.0, Above);
    Orient3DIs(0.0, -1.0, 0.0, 0.0, 0.0, 0.0, 0.0, -1.0, 1.0, 0.0, 0.0, 0.0, On);
    Orient3DIs(0.0, 1.0, 0.0, 0.0, 0.0, 0.0, 1.0, 0.0, 0.0, 0.0, -1.0, 1.0, Above);
    Orient3DIs(0.0, 1.0, 0.0, 0.0, 0.0, 0.0, 1.0, 0.0, 0.0, 0.0, -1.0, 0.0, On);
  }

  /** The locations the example above reads, part 3. */
  lemma Tr7SwappedOrientations3()
    ensures Orient3D(Point3(0.0, 1.0, 0.0), Point3(0.0, 0.0, 0.0), Point3(1.0, 0.0, 0.0), Point3(0.0, 0.0, 0.0)) == On
    ensures Orient3D(Point3(0.0, -1.0, 1.0), Point3(0.0, -1.0, 0.0), Point3(0.0, 0.0, 0.0), Point3(1.0, 0.0, 0.0)) == Above
    ensures Orient3D(Point3(0.0, -1.0, 1.0), Point3(0.0, -1.0, 0.0), Point3(1.0, 0.0, 0.0), Point3(0.0, 1.0, 0.0)) == Below
    ensures Orient3D(Point3(0.0, -1.0, 1.0), Point3(0.0, 0.0, 0.0), Point3(1.0, 0.0, 0.0), Point3(0.0, 0.0, 0.0)) == On
  {
    Orient3DIs(0.0, 1.0, 0.0, 0.0, 0.0, 0.0, 1.0, 0.0, 0.0, 0.0, 0.0, 0.0, On);
    Orient3DIs(0.0, -1.0, 1.0, 0.0, -1.0, 0.0, 0.0, 0.0, 0.0, 1.0, 0.0, 0.0, Above);
    Orient3DIs(0.0, -1.0, 1.0, 0.0, -1.0, 0.0, 1.0, 0.0, 0.0, 0.0, 1.0, 0.0, Below);
    Orient3DIs(0.0, -1.0, 1.0, 0.0, 0.0, 0.0, 1.0, 0.0, 0.0, 0.0, 0.0, 0.0, On);
  }

  /** test/algorithm/src/triangle_triangle.cpp, are_intersecting (tr, tr_8): P1 coincides with P2. */
  lemma Tr8Example()
    ensures TriangleTriangleIntersect(Triangle(Point3(0.0, 1.0, 0.0), Point3(1.0, 0.0, 0.0), Point3(0.0, 0.0, 0.0), TriangleSpecies), Triangle(Point3(1.0, 0.0, -1.0), Point3(1.0, 1.0, -1.0), Point3(1.0, 0.0, 0.0), TriangleSpecies))
  {
    Tr8Orientations1();
    Tr8Orientations2();
  }

  /** The locations the example above reads, part 1. */
  lemma Tr8Orientations1()
    ensures Orient3D(Point3(1.0, 0.0, -1.0), Point3(1.0, 1.0, -1.0), Point3(1.0, 0.0, 0.0), Point3(0.0, 1.0, 0.0)) == Below
    ensures Orient3D(Point3(1.0, 0.0, -1.0), Point3(1.0, 1.0, -1.0), Point3(1.0, 0.0, 0.0), Point3(1.0, 0.0, 0.0)) == On
    ensures Orient3D(Point3(1.0, 0.0, -1.0), Point3(1.0, 1.0, -1.0), Point3(1.0, 0.0, 0.0), Point3(0.0, 0.0, 0.0)) == Below
    ensures Orient3D(Point3(0.0, 1.0, 0.0), Point3(1.0, 0.0, 0.0), Point3(0.0, 0.0, 0.0), Point3(1.0, 0.0, -1.0)) == Above
  {
    Orient3DIs(1.0, 0.0, -1.0, 1.0, 1.0, -1.0, 1.0, 0.0, 0.0, 0.0, 1.0, 0.0, Below);
    Orient3DIs(1.0, 0.0, -1.0, 1.0, 1.0, -1.0, 1.0, 0.0, 0.0, 1.0, 0.0, 0.0, On);
    Orient3DIs(1.0, 0.0, -1.0, 1.0, 1.0, -1.0, 1.0, 0.0, 0.0, 0.0, 0.0, 0.0, Below);
    Orient3DIs(0.0, 1.0, 0.0, 1.0, 0.0, 0.0, 0.0, 0.0, 0.0, 1.0, 0.0, -1.0, Above);
  }

  /** The locations the example above reads, part 2. */
  lemma Tr8Orientations2()
    ensures Orient3D(Point3(0.0, 1.0, 0.0), Point3(1.0, 0.0, 0.0), Point3(0.0, 0.0, 0.0), Point3(1.0, 1.0, -1.0)) == Above
    ensures Orient3D(Point3(0.0, 1.0, 0.0), Point3(1.0, 0.0, 0.0), Point3(0.0, 0.0, 0.0), Point3(1.0, 0.0, 0.0)) == On
    ensures Orient3D(Point3(1.0, 0.0, 0.0), Point3(0.0, 1.0, 0.0), Point3(0.0, 0.0, 0.0), Point3(1.0, 0.0, 0.0)) == On
  {
    Orient3DIs(0.0, 1.0, 0.0, 1.0, 0.0, 0.0, 0.0, 0.0, 0.0, 1.0, 1.0, -1.0, Above);
    Orient3DIs(0.0, 1.0, 0.0, 1.0, 0.0, 0.0, 0.0, 0.0, 0.0, 1.0, 0.0, 0.0, On);
    Orient3DIs(1.0, 0.0, 0.0, 0.0, 1.0, 0.0, 0.0, 0.0, 0.0, 1.0, 0.0, 0.0, On);
  }

  /** test/algorithm/src/triangle_triangle.cpp, are_intersecting (tr_8, tr): P1 coincides with P2. */
  lemma Tr8SwappedExample()
    ensures TriangleTriangleIntersect(Triangle(Point3(1.0, 0.0, -1.0), Point3(1.0, 1.0, -1.0), Point3(1.0, 0.0, 0.0), TriangleSpecies), Triangle(Point3(0.0, 1.0, 0.0), Point3(1.0, 0.0, 0.0), Point3(0.0, 0.0, 0.0), TriangleSpecies))
  {
    Tr8SwappedOrientations1();
    Tr8SwappedOrientations2();
    Tr8SwappedOrientations3();
  }

  /** The locations the example above reads, part 1. */
  lemma Tr8SwappedOrientations1()
    ensures Orient3D(Point3(0.0, 1.0, 0.0), Point3(1.0, 0.0, 0.0), Point3(0.0, 0.0, 0.0), Point3(1.0, 0.0, -1.0)) == Above
    ensures Orient3D(Point3(0.0, 1.0, 0.0), Point3(1.0, 0.0, 0.0), Point3(0.0, 0.0, 0.0), Point3(1.0, 1.0, -1.0)) == Above
    ensures Orient3D(Point3(0.0, 1.0, 0.0), Point3(1.0, 0.0, 0.0), Point3(0.0, 0.0, 0.0), Point3(1.0, 0.0, 0.0)) == On
    ensures Orient3D(Point3(1.0, 0.0, -1.0), Point3(1.0, 1.0, -1.0), Point3(1.0, 0.0, 0.0), Point3(0.0, 1.0, 0.0)) == Below
  {
    Orient3DIs(0.0, 1.0, 0.0, 1.0, 0.0, 0.0, 0.0, 0.0, 0.0, 1.0, 0.0, -1.0, Above);
    Orient3DIs(0.0, 1.0, 0.0, 1.0, 0.0, 0.0, 0.0, 0.0, 0.0, 1.0, 1.0, -1.0, Above);
    Orient3DIs(0.0, 1.0, 0.0, 1.0, 0.0, 0.0, 0.0, 0.0, 0.0, 1.0, 0.0, 0.0, On);
    Orient3DIs(1.0, 0.0, -1.0, 1.0, 1.0, -1.0, 1.0, 0.0, 0.0, 0.0, 1.0, 0.0, Below);
  }

  /** The locations the example above reads, part 2. */
  lemma Tr8SwappedOrientations2()
    ensures Orient3D(Point3(1.0, 0.0, -1.0), Point3(1.0, 1.0, -1.0), Point3(1.0, 0.0, 0.0), Point3(1.0, 0.0, 0.0)) == On
    ensures Orient3D(Point3(1.0, 0.0, -1.0), Point3(1.0, 1.0, -1.0), Point3(1.0, 0.0, 0.0), Point3(0.0, 0.0, 0.0)) == Below
    ensures Orient3D(Point3(0.0, 1.0, 0.0), Point3(0.0, 0.0, 0.0), Point3(1.0, 0.0, 0.0), Point3(1.0, 0.0, 0.0)) == On
    ensures Orient3D(Point3(0.0, 1.0, 0.0), Point3(0.0, 0.0, 0.0), Point3(1.0, 0.0, 0.0), Point3(1.0, 0.0, -1.0)) == Below
  {
    Orient3DIs(1.0, 0.0, -1.0, 1.0, 1.0, -1.0, 1.0, 0.0, 0.0, 1.0, 0.0, 0.0, On);
    Orient3DIs(1.0, 0.0, -1.0, 1.0, 1.0, -1.0, 1.0, 0.0, 0.0, 0.0, 0.0, 0.0, Below);
    Orient3DIs(0.0, 1.0, 0.0, 0.0, 0.0, 0.0, 1.0, 0.0, 0.0, 1.0, 0.0, 0.0, On);
    Orient3DIs(0.0, 1.0, 0.0, 0.0, 0.0, 0.0, 1.0, 0.0, 0.0, 1.0, 0.0, -1.0, Below);
  }

  /** The locations the example above reads, part 3. */
  lemma Tr8SwappedOrientations3()
    ensures Orient3D(Point3(0.0, 1.0, 0.0), Point3(0.0, 0.0, 0.0), Point3(1.0, 0.0, 0.0), Point3(1.0, 1.0, -1.0)) == Below
    ensures Orient3D(Point3(1.0, 0.0, 0.0), Point3(1.0, 0.0, -1.0), Point3(1.0, 1.0, -1.0), Point3(1.0, 0.0, 0.0)) == On
  {
    Orient3DIs(0.0, 1.0, 0.0, 0.0, 0.0, 0.0, 1.0, 0.0, 0.0, 1.0, 1.0, -1.0, Below);
    Orient3DIs(1.0, 0.0, 0.0, 1.0, 0.0, -1.0, 1.0, 1.0, -1.0, 1.0, 0.0, 0.0, On);
  }

  /** test/algorithm/src/triangle_triangle.cpp, are_intersecting (tr, tr_9): the segments cut from the common line coincide. */
  lemma Tr9Example()
    ensures TriangleTriangleIntersect(Triangle(Point3(0.0, 1.0, 0.0), Point3(1.0, 0.0, 0.0), Point3(0.0, 0.0, 0.0), TriangleSpecies), Triangle(Point3(0.5, 0.0, -0.5), Point3(0.5, 1.0, -0.5), Point3(0.5, 0.0, 5.0), TriangleSpecies))
  {
    Tr9Orientations1();
    Tr9Orientations2();
    Tr9Orientations3();
  }

  /** The locations the example above reads, part 1. */
  lemma Tr9Orientations1()
    ensures Orient3D(Point3(0.5, 0.0, -0.5), Point3(0.5, 1.0, -0.5), Point3(0.5, 0.0, 5.0), Point3(0.0, 1.0, 0.0)) == Below
    ensures Orient3D(Point3(0.5, 0.0, -0.5), Point3(0.5, 1.0, -0.5), Point3(0.5, 0.0, 5.0), Point3(1.0, 0.0, 0.0)) == Above
    ensures Orient3D(Point3(0.5, 0.0, -0.5), Point3(0.5, 1.0, -0.5), Point3(0.5, 0.0, 5.0), Point3(0.0, 0.0, 0.0)) == Below
    ensures Orient3D(Point3(0.0, 1.0, 0.0), Point3(1.0, 0.0, 0.0), Point3(0.0, 0.0, 0.0), Point3(0.5, 0.0, -0.5)) == Above
  {
    Orient3DIs(0.5, 0.0, -0.5, 0.5, 1.0, -0.5, 0.5, 0.0, 5.0, 0.0, 1.0, 0.0, Below);
    Orient3DIs(0.5, 0.0, -0.5, 0.5, 1.0, -0.5, 0.5, 0.0, 5.0, 1.0, 0.0, 0.0, Above);
    Orient3DIs(0.5, 0.0, -0.5, 0.5, 1.0, -0.5, 0.5, 0.0, 5.0, 0.0, 0.0, 0.0, Below);
    Orient3DIs(0.0, 1.0, 0.0, 1.0, 0.0, 0.0, 0.0, 0.0, 0.0, 0.5, 0.0, -0.5, Above);
  }

  /** The locations the example above reads, part 2. */
  lemma Tr9Orientations2()
    ensures Orient3D(Point3(0.0, 1.0, 0.0), Point3(1.0, 0.0, 0.0), Point3(0.0, 0.0, 0.0), Point3(0.5, 1.0, -0.5)) == Above
    ensures Orient3D(Point3(0.0, 1.0, 0.0), Point3(1.0, 0.0, 0.0), Point3(0.0, 0.0, 0.0), Point3(0.5, 0.0, 5.0)) == Below
    ensures Orient3D(Point3(1.0, 0.0, 0.0), Point3(0.0, 1.0, 0.0), Point3(0.0, 0.0, 0.0), Point3(0.5, 0.0, 5.0)) == Above
    ensures Orient3D(Point3(1.0, 0.0, 0.0), Point3(0.0, 1.0, 0.0), Point3(0.5, 0.0, 5.0), Point3(0.5, 0.0, -0.5)) == Below
  {
    Orient3DIs(0.0, 1.0, 0.0, 1.0, 0.0, 0.0, 0.0, 0.0, 0.0, 0.5, 1.0, -0.5, Above);
    Orient3DIs(0.0, 1.0, 0.0, 1.0, 0.0, 0.0, 0.0, 0.0, 0.0, 0.5, 0.0, 5.0, Below);
    Orient3DIs(1.0, 0.0, 0.0, 0.0, 1.0, 0.0, 0.0, 0.0, 0.0, 0.5, 0.0, 5.0, Above);
    Orient3DIs(1.0, 0.0, 0.0, 0.0, 1.0, 0.0, 0.5, 0.0, 5.0, 0.5, 0.0, -0.5, Below);
  }

  /** The locations the example above reads, part 3. */
  lemma Tr9Orientations3()
    ensures Orient3D(Point3(1.0, 0.0, 0.0), Point3(0.0, 0.0, 0.0), Point3(0.5, 0.0, 5.0), Point3(0.5, 1.0, -0.5)) == Above
  {
    Orient3DIs(1.0, 0.0, 0.0, 0.0, 0.0, 0.0, 0.5, 0.0, 5.0, 0.5, 1.0, -0.5, Above);
  }

  /** test/algorithm/src/triangle_triangle.cpp, are_intersecting (tr_9, tr): the segments cut from the common line coincide. */
  lemma Tr9SwappedExample()
    ensures TriangleTriangleIntersect(Triangle(Point3(0.5, 0.0, -0.5), Point3(0.5, 1.0, -0.5), Point3(0.5, 0.0, 5.0), TriangleSpecies), Triangle(Point3(0.0, 1.0, 0.0), Point3(1.0, 0.0, 0.0), Point3(0.0, 0.0, 0.0), TriangleSpecies))
  {
    Tr9SwappedOrientations1();
    Tr9SwappedOrientations2();
    Tr9SwappedOrientations3();
  }

  /** The locations the example above reads, part 1. */
  lemma Tr9SwappedOrientations1()
    ensures Orient3D(Point3(0.0, 1.0, 0.0), Point3(1.0, 0.0, 0.0), Point3(0.0, 0.0, 0.0), Point3(0.5, 0.0, -0.5)) == Above
    ensures Orient3D(Point3(0.0, 1.0, 0.0), Point3(1.0, 0.0, 0.0), Point3(0.0, 0.0, 0.0), Point3(0.5, 1.0, -0.5)) == Above
    ensures Orient3D(Point3(0.0, 1.0, 0.0), Point3(1.0, 0.0, 0.0), Point3(0.0, 0.0, 0.0), Point3(0.5, 0.0, 5.0)) == Below
    ensures Orient3D(Point3(0.5, 0.0, -0.5), Point3(0.5, 1.0, -0.5), Point3(0.5, 0.0, 5.0), Point3(0.0, 1.0, 0.0)) == Below
  {
    Orient3DIs(0.0, 1.0, 0.0, 1.0, 0.0, 0.0, 0.0, 0.0, 0.0, 0.5, 0.0, -0.5, Above);
    Orient3DIs(0.0, 1.0, 0.0, 1.0, 0.0, 0.0, 0.0, 0.0, 0.0, 0.5, 1.0, -0.5, Above);
    Orient3DIs(0.0, 1.0, 0.0, 1.0, 0.0, 0.0, 0.0, 0.0, 0.0, 0.5, 0.0, 5.0, Below);
    Orient3DIs(0.5, 0.0, -0.5, 0.5, 1.0, -0.5, 0.5, 0.0, 5.0, 0.0, 1.0, 0.0, Below);
  }

  /** The locations the example above reads, part 2. */
  lemma Tr9SwappedOrientations2()
    ensures Orient3D(Point3(0.5, 0.0, -0.5), Point3(0.5, 1.0, -0.5), Point3(0.5, 0.0, 5.0), Point3(1.0, 0.0, 0.0)) == Above
    ensures Orient3D(Point3(0.5, 0.0, -0.5), Point3(0.5, 1.0, -0.5), Point3(0.5, 0.0, 5.0), Point3(0.0, 0.0, 0.0)) == Below
    ensures Orient3D(Point3(0.0, 1.0, 0.0), Point3(0.0, 0.0, 0.0), Point3(1.0, 0.0, 0.0), Point3(0.5, 0.0, 5.0)) == Above
    ensures Orient3D(Point3(0.0, 1.0, 0.0), Point3(0.0, 0.0, 0.0), Point3(1.0, 0.0, 0.0), Point3(0.5, 0.0, -0.5)) == Below
  {
    Orient3DIs(0.5, 0.0, -0.5, 0.5, 1.0, -0.5, 0.5, 0.0, 5.0, 1.0, 0.0, 0.0, Above);
    Orient3DIs(0.5, 0.0, -0.5, 0.5, 1.0, -0.5, 0.5, 0.0, 5.0, 0.0, 0.0, 0.0, Below);
    Orient3DIs(0.0, 1.0, 0.0, 0.0, 0.0, 0.0, 1.0, 0.0, 0.0, 0.5, 0.0, 5.0, Above);
    Orient3DIs(0.0, 1.0, 0.0, 0.0, 0.0, 0.0, 1.0, 0.0, 0.0, 0.5, 0.0, -0.5, Below);
  }

  /** The locations the example above reads, part 3. */
  lemma Tr9SwappedOrientations3()
    ensures Orient3D(Point3(0.0, 1.0, 0.0), Point3(0.0, 0.0, 0.0), Point3(1.0, 0.0, 0.0), Point3(0.5, 1.0, -0.5)) == Below
    ensures Orient3D(Point3(0.5, 0.0, 5.0), Point3(0.5, 0.0, -0.5), Point3(0.5, 1.0, -0.5), Point3(1.0, 0.0, 0.0)) == Above
    ensures Orient3D(Point3(0.5, 0.0, 5.0), Point3(0.5, 0.0, -0.5), Point3(1.0, 0.0, 0.0), Point3(0.0, 1.0, 0.0)) == Below
    ensures Orient3D(Point3(0.5, 0.0, 5.0), Point3(0.5, 1.0, -0.5), Point3(1.0, 0.0, 0.0), Point3(0.0, 0.0, 0.0)) == Above
  {
    Orient3DIs(0.0, 1.0, 0.0, 0.0, 0.0, 0.0, 1.0, 0.0, 0.0, 0.5, 1.0, -0.5, Below);
    Orient3DIs(0.5, 0.0, 5.0, 0.5, 0.0, -0.5, 0.5, 1.0, -0.5, 1.0, 0.0, 0.0, Above);
    Orient3DIs(0.5, 0.0, 5.0, 0.5, 0.0, -0.5, 1.0, 0.0, 0.0, 0.0, 1.0, 0.0, Below);
    Orient3DIs(0.5, 0.0, 5.0, 0.5, 1.0, -0.5, 1.0, 0.0, 0.0, 0.0, 0.0, 0.0, Above);
  }

  /** test/algorithm/src/triangle_triangle.cpp, are_intersecting (tr, tr_10): the segments cut from the common line overlap. */
  lemma Tr10Example()
    ensures TriangleTriangleIntersect(Triangle(Point3(0.0, 1.0, 0.0), Point3(1.0, 0.0, 0.0), Point3(0.0, 0.0, 0.0), TriangleSpecies), Triangle(Point3(0.5, 0.25, -0.5), Point3(0.5, 1.25, -0.5), Point3(0.5, 0.25, 5.0), TriangleSpecies))
  {
    Tr10Orientations1();
    Tr10Orientations2();
    Tr10Orientations3();
  }

  /** The locations the example above reads, part 1. */
  lemma Tr10Orientations1()
    ensures Orient3D(Point3(0.5, 0.25, -0.5), Point3(0.5, 1.25, -0.5), Point3(0.5, 0.25, 5.0), Point3(0.0, 1.0, 0.0)) == Below
    ensures Orient3D(Point3(0.5, 0.25, -0.5), Point3(0.5, 1.25, -0.5), Point3(0.5, 0.25, 5.0), Point3(1.0, 0.0, 0.0)) == Above
    ensures Orient3D(Point3(0.5, 0.25, -0.5), Point3(0.5, 1.25, -0.5), Point3(0.5, 0.25, 5.0), Point3(0.0, 0.0, 0.0)) == Below
    ensures Orient3D(Point3(0.0, 1.0, 0.0), Point3(1.0, 0.0, 0.0), Point3(0.0, 0.0, 0.0), Point3(0.5, 0.25, -0.5)) == Above
  {
    Orient3DIs(0.5, 0.25, -0.5, 0.5, 1.25, -0.5, 0.5, 0.25, 5.0, 0.0, 1.0, 0.0, Below);
    Orient3DIs(0.5, 0.25, -0.5, 0.5, 1.25, -0.5, 0.5, 0.25, 5.0, 1.0, 0.0, 0.0, Above);
    Orient3DIs(0.5, 0.25, -0.5, 0.5, 1.25, -0.5, 0.5, 0.25, 5.0, 0.0, 0.0, 0.0, Below);
    Orient3DIs(0.0, 1.0, 0.0, 1.0, 0.0, 0.0, 0.0, 0.0, 0.0, 0.5, 0.25, -0.5, Above);
  }

  /** The locations the example above reads, part 2. */
  lemma Tr10Orientations2()
    ensures Orient3D(Point3(0.0, 1.0, 0.0), Point3(1.0, 0.0, 0.0), Point3(0.0, 0.0, 0.0), Point3(0.5, 1.25, -0.5)) == Above
    ensures Orient3D(Point3(0.0, 1.0, 0.0), Point3(1.0, 0.0, 0.0), Point3(0.0, 0.0, 0.0), Point3(0.5, 0.25, 5.0)) == Below
    ensures Orient3D(Point3(1.0, 0.0, 0.0), Point3(0.0, 1.0, 0.0), Point3(0.0, 0.0, 0.0), Point3(0.5, 0.25, 5.0)) == Above
    ensures Orient3D(Point3(1.0, 0.0, 0.0), Point3(0.0, 1.0, 0.0), Point3(0.5, 0.25, 5.0), Point3(0.5, 0.25, -0.5)) == Below
  {
    Orient3DIs(0.0, 1.0, 0.0, 1.0, 0.0, 0.0, 0.0, 0.0, 0.0, 0.5, 1.25, -0.5, Above);
    Orient3DIs(0.0, 1.0, 0.0, 1.0, 0.0, 0.0, 0.0, 0.0, 0.0, 0.5, 0.25, 5.0, Below);
    Orient3DIs(1.0, 0.0, 0.0, 0.0, 1.0, 0.0, 0.0, 0.0, 0.0, 0.5, 0.25, 5.0, Above);
    Orient3DIs(1.0, 0.0, 0.0, 0.0, 1.0, 0.0, 0.5, 0.25, 5.0, 0.5, 0.25, -0.5, Below);
  }

  /** The locations the example above reads, part 3. */
  lemma Tr10Orientations3()
    ensures Orient3D(Point3(1.0, 0.0, 0.0), Point3(0.0, 0.0, 0.0), Point3(0.5, 0.25, 5.0), Point3(0.5, 1.25, -0.5)) == Above
  {
    Orient3DIs(1.0, 0.0, 0.0, 0.0, 0.0, 0.0, 0.5, 0.25, 5.0, 0.5, 1.25, -0.5, Above);
  }

  /** test/algorithm/src/triangle_triangle.cpp, are_intersecting (tr_10, tr): the segments cut from the common line overlap. */
  lemma Tr10SwappedExample()
    ensures TriangleTriangleIntersect(Triangle(Point3(0.5, 0.25, -0.5), Point3(0.5, 1.25, -0.5), Point3(0.5, 0.25, 5.0), TriangleSpecies), Triangle(Point3(0.0, 1.0, 0.0), Point3(1.0, 0.0, 0.0), Point3(0.0, 0.0, 0.0), TriangleSpecies))
  {
    Tr10SwappedOrientations1();
    Tr10SwappedOrientations2();
    Tr10SwappedOrientations3();
  }

  /** The locations the example above reads, part 1. */
  lemma Tr10SwappedOrientations1()
    ensures Orient3D(Point3(0.0, 1.0, 0.0), Point3(1.0, 0.0, 0.0), Point3(0.0, 0.0, 0.0), Point3(0.5, 0.25, -0.5)) == Above
    ensures Orient3D(Point3(0.0, 1.0, 0.0), Point3(1.0, 0.0, 0.0), Point3(0.0, 0.0, 0.0), Point3(0.5, 1.25, -0.5)) == Above
    ensures Orient3D(Point3(0.0, 1.0, 0.0), Point3(1.0, 0.0, 0.0), Point3(0.0, 0.0, 0.0), Point3(0.5, 0.25, 5.0)) == Below
    ensures Orient3D(Point3(0.5, 0.25, -0.5), Point3(0.5, 1.25, -0.5), Point3(0.5, 0.25, 5.0), Point3(0.0, 1.0, 0.0)) == Below
  {
    Orient3DIs(0.0, 1.0, 0.0, 1.0, 0.0, 0.0, 0.0, 0.0, 0.0, 0.5, 0.25, -0.5, Above);
    Orient3DIs(0.0, 1.0, 0.0, 1.0, 0.0, 0.0, 0.0, 0.0, 0.0, 0.5, 1.25, -0.5, Above);
    Orient3DIs(0.0, 1.0, 0.0, 1.0, 0.0, 0.0, 0.0, 0.0, 0.0, 0.5, 0.25, 5.0, Below);
    Orient3DIs(0.5, 0.25, -0.5, 0.5, 1.25, -0.5, 0.5, 0.25, 5.0, 0.0, 1.0, 0.0, Below);
  }

  /** The locations the example above reads, part 2. */
  lemma Tr10SwappedOrientations2()
    ensures Orient3D(Point3(0.5, 0.25, -0.5), Point3(0.5, 1.25, -0.5), Point3(0.5, 0.25, 5.0), Point3(1.0, 0.0, 0.0)) == Above
    ensures Orient3D(Point3(0.5, 0.25, -0.5), Point3(0.5, 1.25, -0.5), Point3(0.5, 0.25, 5.0), Point3(0.0, 0.0, 0.0)) == Below
    ensures Orient3D(Point3(0.0, 1.0, 0.0), Point3(0.0, 0.0, 0.0), Point3(1.0, 0.0, 0.0), Point3(0.5, 0.25, 5.0)) == Above
    ensures Orient3D(Point3(0.0, 1.0, 0.0), Point3(0.0, 0.0, 0.0), Point3(1.0, 0.0, 0.0), Point3(0.5, 0.25, -0.5)) == Below
  {
    Orient3DIs(0.5, 0.25, -0.5, 0.5, 1.25, -0.5, 0.5, 0.25, 5.0, 1.0, 0.0, 0.0, Above);
    Orient3DIs(0.5, 0.25, -0.5, 0.5, 1.25, -0.5, 0.5, 0.25, 5.0, 0.0, 0.0, 0.0, Below);
    Orient3DIs(0.0, 1.0, 0.0, 0.0, 0.0, 0.0, 1.0, 0.0, 0.0, 0.5, 0.25, 5.0, Above);
    Orient3DIs(0.0, 1.0, 0.0, 0.0, 0.0, 0.0, 1.0, 0.0, 0.0, 0.5, 0.25, -0.5, Below);
  }

  /** The locations the example above reads, part 3. */
  lemma Tr10SwappedOrientations3()
    ensures Orient3D(Point3(0.0, 1.0, 0.0), Point3(0.0, 0.0, 0.0), Point3(1.0, 0.0, 0.0), Point3(0.5, 1.25, -0.5)) == Below
    ensures Orient3D(Point3(0.5, 0.25, 5.0), Point3(0.5, 0.25, -0.5), Point3(0.5, 1.25, -0.5), Point3(1.0, 0.0, 0.0)) == Above
    ensures Orient3D(Point3(0.5, 0.25, 5.0), Point3(0.5, 0.25, -0.5), Point3(1.0, 0.0, 0.0), Point3(0.0, 1.0, 0.0)) == Below
    ensures Orient3D(Point3(0.5, 0.25, 5.0), Point3(0.5, 1.25, -0.5), Point3(1.0, 0.0, 0.0), Point3(0.0, 0.0, 0.0)) == Above
  {
    Orient3DIs(0.0, 1.0, 0.0, 0.0, 0.0, 0.0, 1.0, 0.0, 0.0, 0.5, 1.25, -0.5, Below);
    Orient3DIs(0.5, 0.25, 5.0, 0.5, 0.25, -0.5, 0.5, 1.25, -0.5, 1.0, 0.0, 0.0, Above);
    Orient3DIs(0.5, 0.25, 5.0, 0.5, 0.25, -0.5, 1.0, 0.0, 0.0, 0.0, 1.0, 0.0, Below);
    Orient3DIs(0.5, 0.25, 5.0, 0.5, 1.25, -0.5, 1.0, 0.0, 0.0, 0.0, 0.0, 0.0, Above);
  }

  /** test/algorithm/src/triangle_triangle.cpp, are_intersecting (tr, tr_11): the segments cut from the common line share one point. */
  lemma Tr11Example()
    ensures TriangleTriangleIntersect(Triangle(Point3(0.0, 1.0, 0.0), Point3(1.0, 0.0, 0.0), Point3(0.0, 0.0, 0.0), TriangleSpecies), Triangle(Point3(0.5, 0.5, -0.5), Point3(0.5, 1.5, -0.5), Point3(0.5, 0.5, 5.0), TriangleSpecies))
  {
    Tr11Orientations1();
    Tr11Orientations2();
    Tr11Orientations3();
  }

  /** The locations the example above reads, part 1. */
  lemma Tr11Orientations1()
    ensures Orient3D(Point3(0.5, 0.5, -0.5), Point3(0.5, 1.5, -0.5), Point3(0.5, 0.5, 5.0), Point3(0.0, 1.0, 0.0)) == Below
    ensures Orient3D(Point3(0.5, 0.5, -0.5), Point3(0.5, 1.5, -0.5), Point3(0.5, 0.5, 5.0), Point3(1.0, 0.0, 0.0)) == Above
    ensures Orient3D(Point3(0.5, 0.5, -0.5), Point3(0.5, 1.5, -0.5), Point3(0.5, 0.5, 5.0), Point3(0.0, 0.0, 0.0)) == Below
    ensures Orient3D(Point3(0.0, 1.0, 0.0), Point3(1.0, 0.0, 0.0), Point3(0.0, 0.0, 0.0), Point3(0.5, 0.5, -0.5)) == Above
  {
    Orient3DIs(0.5, 0.5, -0.5, 0.5, 1.5, -0.5, 0.5, 0.5, 5.0, 0.0, 1.0, 0.0, Below);
    Orient3DIs(0.5, 0.5, -0.5, 0.5, 1.5, -0.5, 0.5, 0.5, 5.0, 1.0, 0.0, 0.0, Above);
    Orient3DIs(0.5, 0.5, -0.5, 0.5, 1.5, -0.5, 0.5, 0.5, 5.0, 0.0, 0.0, 0.0, Below);
    Orient3DIs(0.0, 1.0, 0.0, 1.0, 0.0, 0.0, 0.0, 0.0, 0.0, 0.5, 0.5, -0.5, Above);
  }

  /** The locations the example above reads, part 2. */
  lemma Tr11Orientations2()
    ensures Orient3D(Point3(0.0, 1.0, 0.0), Point3(1.0, 0.0, 0.0), Point3(0.0, 0.0, 0.0), Point3(0.5, 1.5, -0.5)) == Above
    ensures Orient3D(Point3(0.0, 1.0, 0.0), Point3(1.0, 0.0, 0.0), Point3(0.0, 0.0, 0.0), Point3(0.5, 0.5, 5.0)) == Below
    ensures Orient3D(Point3(1.0, 0.0, 0.0), Point3(0.0, 1.0, 0.0), Point3(0.0, 0.0, 0.0), Point3(0.5, 0.5, 5.0)) == Above
    ensures Orient3D(Point3(1.0, 0.0, 0.0), Point3(0.0, 1.0, 0.0), Point3(0.5, 0.5, 5.0), Point3(0.5, 0.5, -0.5)) == On
  {
    Orient3DIs(0.0, 1.0, 0.0, 1.0, 0.0, 0.0, 0.0, 0.0, 0.0, 0.5, 1.5, -0.5, Above);
    Orient3DIs(0.0, 1.0, 0.0, 1.0, 0.0, 0.0, 0.0, 0.0, 0.0, 0.5, 0.5, 5.0, Below);
    Orient3DIs(1.0, 0.0, 0.0, 0.0, 1.0, 0.0, 0.0, 0.0, 0.0, 0.5, 0.5, 5.0, Above);
    Orient3DIs(1.0, 0.0, 0.0, 0.0, 1.0, 0.0, 0.5, 0.5, 5.0, 0.5, 0.5, -0.5, On);
  }

  /** The locations the example above reads, part 3. */
  lemma Tr11Orientations3()
    ensures Orient3D(Point3(1.0, 0.0, 0.0), Point3(0.0, 0.0, 0.0), Point3(0.5, 0.5, 5.0), Point3(0.5, 1.5, -0.5)) == Above
  {
    Orient3DIs(1.0, 0.0, 0.0, 0.0, 0.0, 0.0, 0.5, 0.5, 5.0, 0.5, 1.5, -0.5, Above);
  }

  /** test/algorithm/src/triangle_triangle.cpp, are_intersecting (tr_11, tr): the segments cut from the common line share one point. */
  lemma Tr11SwappedExample()
    ensures TriangleTriangleIntersect(Triangle(Point3(0.5, 0.5, -0.5), Point3(0.5, 1.5, -0.5), Point3(0.5, 0.5, 5.0), TriangleSpecies), Triangle(Point3(0.0, 1.0, 0.0), Point3(1.0, 0.0, 0.0), Point3(0.0, 0.0, 0.0), TriangleSpecies))
  {
    Tr11SwappedOrientations1();
    Tr11SwappedOrientations2();
    Tr11SwappedOrientations3();
  }

  /** The locations the example above reads, part 1. */
  lemma Tr11SwappedOrientations1()
    ensures Orient3D(Point3(0.0, 1.0, 0.0), Point3(1.0, 0.0, 0.0), Point3(0.0, 0.0, 0.0), Point3(0.5, 0.5, -0.5)) == Above
    ensures Orient3D(Point3(0.0, 1.0, 0.0), Point3(1.0, 0.0, 0.0), Point3(0.0, 0.0, 0.0), Point3(0.5, 1.5, -0.5)) == Above
    ensures Orient3D(Point3(0.0, 1.0, 0.0), Point3(1.0, 0.0, 0.0), Point3(0.0, 0.0, 0.0), Point3(0.5, 0.5, 5.0)) == Below
    ensures Orient3D(Point3(0.5, 0.5, -0.5), Point3(0.5, 1.5, -0.5), Point3(0.5, 0.5, 5.0), Point3(0.0, 1.0, 0.0)) == Below
  {
    Orient3DIs(0.0, 1.0, 0.0, 1.0, 0.0, 0.0, 0.0, 0.0, 0.0, 0.5, 0.5, -0.5, Above);
    Orient3DIs(0.0, 1.0, 0.0, 1.0, 0.0, 0.0, 0.0, 0.0, 0.0, 0.5, 1.5, -0.5, Above);
    Orient3DIs(0.0, 1.0, 0.0, 1.0, 0.0, 0.0, 0.0, 0.0, 0.0, 0.5, 0.5, 5.0, Below);
    Orient3DIs(0.5, 0.5, -0.5, 0.5, 1.5, -0.5, 0.5, 0.5, 5.0, 0.0, 1.0, 0.0, Below);
  }

  /** The locations the example above reads, part 2. */
  lemma Tr11SwappedOrientations2()
    ensures Orient3D(Point3(0.5, 0.5, -0.5), Point3(0.5, 1.5, -0.5), Point3(0.5, 0.5, 5.0), Point3(1.0, 0.0, 0.0)) == Above
    ensures Orient3D(Point3(0.5, 0.5, -0.5), Point3(0.5, 1.5, -0.5), Point3(0.5, 0.5, 5.0), Point3(0.0, 0.0, 0.0)) == Below
    ensures Orient3D(Point3(0.0, 1.0, 0.0), Point3(0.0, 0.0, 0.0), Point3(1.0, 0.0, 0.0), Point3(0.5, 0.5, 5.0)) == Above
    ensures Orient3D(Point3(0.0, 1.0, 0.0), Point3(0.0, 0.0, 0.0), Point3(1.0, 0.0, 0.0), Point3(0.5, 0.5, -0.5)) == Below
  {
    Orient3DIs(0.5, 0.5, -0.5, 0.5, 1.5, -0.5, 0.5, 0.5, 5.0, 1.0, 0.0, 0.0, Above);
    Orient3DIs(0.5, 0.5, -0.5, 0.5, 1.5, -0.5, 0.5, 0.5, 5.0, 0.0, 0.0, 0.0, Below);
    Orient3DIs(0.0, 1.0, 0.0, 0.0, 0.0, 0.0, 1.0, 0.0, 0.0, 0.5, 0.5, 5.0, Above);
    Orient3DIs(0.0, 1.0, 0.0, 0.0, 0.0, 0.0, 1.0, 0.0, 0.0, 0.5, 0.5, -0.5, Below);
  }

  /** The locations the example above reads, part 3. */
  lemma Tr11SwappedOrientations3()
    ensures Orient3D(Point3(0.0, 1.0, 0.0), Point3(0.0, 0.0, 0.0), Point3(1.0, 0.0, 0.0), Point3(0.5, 1.5, -0.5)) == Below
    ensures Orient3D(Point3(0.5, 0.5, 5.0), Point3(0.5, 0.5, -0.5), Point3(0.5, 1.5, -0.5), Point3(1.0, 0.0, 0.0)) == Above
    ensures Orient3D(Point3(0.5, 0.5, 5.0), Point3(0.5, 0.5, -0.5), Point3(1.0, 0.0, 0.0), Point3(0.0, 1.0, 0.0)) == On
    ensures Orient3D(Point3(0.5, 0.5, 5.0), Point3(0.5, 1.5, -0.5), Point3(1.0, 0.0, 0.0), Point3(0.0, 0.0, 0.0)) == Above
  {
    Orient3DIs(0.0, 1.0, 0.0, 0.0, 0.0, 0.0, 1.0, 0.0, 0.0, 0.5, 1.5, -0.5, Below);
    Orient3DIs(0.5, 0.5, 5.0, 0.5, 0.5, -0.5, 0.5, 1.5, -0.5, 1.0, 0.0, 0.0, Above);
    Orient3DIs(0.5, 0.5, 5.0, 0.5, 0.5, -0.5, 1.0, 0.0, 0.0, 0.0, 1.0, 0.0, On);
    Orient3DIs(0.5, 0.5, 5.0, 0.5, 1.5, -0.5, 1.0, 0.0, 0.0, 0.0, 0.0, 0.0, Above);
  }

  /** test/algorithm/src/triangle_triangle.cpp, are_intersecting (tr, tr_12): the segments cut from the common line share one point, second case. */
  lemma Tr12Example()
    ensures TriangleTriangleIntersect(Triangle(Point3(0.0, 1.0, 0.0), Point3(1.0, 0.0, 0.0), Point3(0.0, 0.0, 0.0), TriangleSpecies), Triangle(Point3(0.5, -0.5, -0.5), Point3(0.5, 5.0, -0.5), Point3(0.5, -0.5, 5.0), TriangleSpecies))
  {
    Tr12Orientations1();
    Tr12Orientations2();
    Tr12Orientations3();
  }

  /** The locations the example above reads, part 1. */
  lemma Tr12Orientations1()
    ensures Orient3D(Point3(0.5, -0.5, -0.5), Point3(0.5, 5.0, -0.5), Point3(0.5, -0.5, 5.0), Point3(0.0, 1.0, 0.0)) == Below
    ensures Orient3D(Point3(0.5, -0.5, -0.5), Point3(0.5, 5.0, -0.5), Point3(0.5, -0.5, 5.0), Point3(1.0, 0.0, 0.0)) == Above
    ensures Orient3D(Point3(0.5, -0.5, -0.5), Point3(0.5, 5.0, -0.5), Point3(0.5, -0.5, 5.0), Point3(0.0, 0.0, 0.0)) == Below
    ensures Orient3D(Point3(0.0, 1.0, 0.0), Point3(1.0, 0.0, 0.0), Point3(0.0, 0.0, 0.0), Point3(0.5, -0.5, -0.5)) == Above
  {
    Orient3DIs(0.5, -0.5, -0.5, 0.5, 5.0, -0.5, 0.5, -0.5, 5.0, 0.0, 1.0, 0.0, Below);
    Orient3DIs(0.5, -0.5, -0.5, 0.5, 5.0, -0.5, 0.5, -0.5, 5.0, 1.0, 0.0, 0.0, Above);
    Orient3DIs(0.5, -0.5, -0.5, 0.5, 5.0, -0.5, 0.5, -0.5, 5.0, 0.0, 0.0, 0.0, Below);
    Orient3DIs(0.0, 1.0, 0.0, 1.0, 0.0, 0.0, 0.0, 0.0, 0.0, 0.5, -0.5, -0.5, Above);
  }

  /** The locations the example above reads, part 2. */
  lemma Tr12Orientations2()
    ensures Orient3D(Point3(0.0, 1.0, 0.0), Point3(1.0, 0.0, 0.0), Point3(0.0, 0.0, 0.0), Point3(0.5, 5.0, -0.5)) == Above
    ensures Orient3D(Point3(0.0, 1.0, 0.0), Point3(1.0, 0.0, 0.0), Point3(0.0, 0.0, 0.0), Point3(0.5, -0.5, 5.0)) == Below
    ensures Orient3D(Point3(1.0, 0.0, 0.0), Point3(0.0, 1.0, 0.0), Point3(0.0, 0.0, 0.0), Point3(0.5, -0.5, 5.0)) == Above
    ensures Orient3D(Point3(1.0, 0.0, 0.0), Point3(0.0, 1.0, 0.0), Point3(0.5, -0.5, 5.0), Point3(0.5, -0.5, -0.5)) == Below
  {
    Orient3DIs(0.0, 1.0, 0.0, 1.0, 0.0, 0.0, 0.0, 0.0, 0.0, 0.5, 5.0, -0.5, Above);
    Orient3DIs(0.0, 1.0, 0.0, 1.0, 0.0, 0.0, 0.0, 0.0, 0.0, 0.5, -0.5, 5.0, Below);
    Orient3DIs(1.0, 0.0, 0.0, 0.0, 1.0, 0.0, 0.0, 0.0, 0.0, 0.5, -0.5, 5.0, Above);
    Orient3DIs(1.0, 0.0, 0.0, 0.0, 1.0, 0.0, 0.5, -0.5, 5.0, 0.5, -0.5, -0.5, Below);
  }

  /** The locations the example above reads, part 3. */
  lemma Tr12Orientations3()
    ensures Orient3D(Point3(1.0, 0.0, 0.0), Point3(0.0, 0.0, 0.0), Point3(0.5, -0.5, 5.0), Point3(0.5, 5.0, -0.5)) == Above
  {
    Orient3DIs(1.0, 0.0, 0.0, 0.0, 0.0, 0.0, 0.5, -0.5, 5.0, 0.5, 5.0, -0.5, Above);
  }

  /** test/algorithm/src/triangle_triangle.cpp, are_intersecting (tr_12, tr): the segments cut from the common line share one point, second case. */
  lemma Tr12SwappedExample()
    ensures TriangleTriangleIntersect(Triangle(Point3(0.5, -0.5, -0.5), Point3(0.5, 5.0, -0.5), Point3(0.5, -0.5, 5.0), TriangleSpecies), Triangle(Point3(0.0, 1.0, 0.0), Point3(1.0, 0.0, 0.0), Point3(0.0, 0.0, 0.0), TriangleSpecies))
  {
    Tr12SwappedOrientations1();
    Tr12SwappedOrientations2();
    Tr12SwappedOrientations3();
  }

  /** The locations the example above reads, part 1. */
  lemma Tr12SwappedOrientations1()
    ensures Orient3D(Point3(0.0, 1.0, 0.0), Point3(1.0, 0.0, 0.0), Point3(0.0, 0.0, 0.0), Point3(0.5, -0.5, -0.5)) == Above
    ensures Orient3D(Point3(0.0, 1.0, 0.0), Point3(1.0, 0.0, 0.0), Point3(0.0, 0.0, 0.0), Point3(0.5, 5.0, -0.5)) == Above
    ensures Orient3D(Point3(0.0, 1.0, 0.0), Point3(1.0, 0.0, 0.0), Point3(0.0, 0.0, 0.0), Point3(0.5, -0.5, 5.0)) == Below
    ensures Orient3D(Point3(0.5, -0.5, -0.5), Point3(0.5, 5.0, -0.5), Point3(0.5, -0.5, 5.0), Point3(0.0, 1.0, 0.0)) == Below
  {
    Orient3DIs(0.0, 1.0, 0.0, 1.0, 0.0, 0.0, 0.0, 0.0, 0.0, 0.5, -0.5, -0.5, Above);
    Orient3DIs(0.0, 1.0, 0.0, 1.0, 0.0, 0.0, 0.0, 0.0, 0.0, 0.5, 5.0, -0.5, Above);
    Orient3DIs(0.0, 1.0, 0.0, 1.0, 0.0, 0.0, 0.0, 0.0, 0.0, 0.5, -0.5, 5.0, Below);
    Orient3DIs(0.5, -0.5, -0.5, 0.5, 5.0, -0.5, 0.5, -0.5, 5.0, 0.0, 1.0, 0.0, Below);
  }

  /** The locations the example above reads, part 2. */
  lemma Tr12SwappedOrientations2()
    ensures Orient3D(Point3(0.5, -0.5, -0.5), Point3(0.5, 5.0, -0.5), Point3(0.5, -0.5, 5.0), Point3(1.0, 0.0, 0.0)) == Above
    ensures Orient3D(Point3(0.5, -0.5, -0.5), Point3(0.5, 5.0, -0.5), Point3(0.5, -0.5, 5.0), Point3(0.0, 0.0, 0.0)) == Below
    ensures Orient3D(Point3(0.0, 1.0, 0.0), Point3(0.0, 0.0, 0.0), Point3(1.0, 0.0, 0.0), Point3(0.5, -0.5, 5.0)) == Above
    ensures Orient3D(Point3(0.0, 1.0, 0.0), Point3(0.0, 0.0, 0.0), Point3(1.0, 0.0, 0.0), Point3(0.5, -0.5, -0.5)) == Below
  {
    Orient3DIs(0.5, -0.5, -0.5, 0.5, 5.0, -0.5, 0.5, -0.5, 5.0, 1.0, 0.0, 0.0, Above);
    Orient3DIs(0.5, -0.5, -0.5, 0.5, 5.0, -0.5, 0.5, -0.5, 5.0, 0.0, 0.0, 0.0, Below);
    Orient3DIs(0.0, 1.0, 0.0, 0.0, 0.0, 0.0, 1.0, 0.0, 0.0, 0.5, -0.5, 5.0, Above);
    Orient3DIs(0.0, 1.0, 0.0, 0.0, 0.0, 0.0, 1.0, 0.0, 0.0, 0.5, -0.5, -0.5, Below);
  }

  /** The locations the example above reads, part 3. */
  lemma Tr12SwappedOrientations3()
    ensures Orient3D(Point3(0.0, 1.0, 0.0), Point3(0.0, 0.0, 0.0), Point3(1.0, 0.0, 0.0), Point3(0.5, 5.0, -0.5)) == Below
    ensures Orient3D(Point3(0.5, -0.5, 5.0), Point3(0.5, -0.5, -0.5), Point3(0.5, 5.0, -0.5), Point3(1.0, 0.0, 0.0)) == Above
    ensures Orient3D(Point3(0.5, -0.5, 5.0), Point3(0.5, -0.5, -0.5), Point3(1.0, 0.0, 0.0), Point3(0.0, 1.0, 0.0)) == Below
    ensures Orient3D(Point3(0.5, -0.5, 5.0), Point3(0.5, 5.0, -0.5), Point3(1.0, 0.0, 0.0), Point3(0.0, 0.0, 0.0)) == Above
  {
    Orient3DIs(0.0, 1.0, 0.0, 0.0, 0.0, 0.0, 1.0, 0.0, 0.0, 0.5, 5.0, -0.5, Below);
    Orient3DIs(0.5, -0.5, 5.0, 0.5, -0.5, -0.5, 0.5, 5.0, -0.5, 1.0, 0.0, 0.0, Above);
    Orient3DIs(0.5, -0.5, 5.0, 0.5, -0.5, -0.5, 1.0, 0.0, 0.0, 0.0, 1.0, 0.0, Below);
    Orient3DIs(0.5, -0.5, 5.0, 0.5, 5.0, -0.5, 1.0, 0.0, 0.0, 0.0, 0.0, 0.0, Above);
  }

  /** test/algorithm/src/triangle_triangle.cpp, are_intersecting (tr, tr_13): one segment cut from the common line contains the other. */
  lemma Tr13Example()
    ensures TriangleTriangleIntersect(Triangle(Point3(0.0, 1.0, 0.0), Point3(1.0, 0.0, 0.0), Point3(0.0, 0.0, 0.0), TriangleSpecies), Triangle(Point3(0.5, 0.125, -0.5), Point3(0.5, 0.625, -0.5), Point3(0.5, 0.125, 0.5), TriangleSpecies))
  {
    Tr13Orientations1();
    Tr13Orientations2();
    Tr13Orientations3();
  }

  /** The locations the example above reads, part 1. */
  lemma Tr13Orientations1()
    ensures Orient3D(Point3(0.5, 0.125, -0.5), Point3(0.5, 0.625, -0.5), Point3(0.5, 0.125, 0.5), Point3(0.0, 1.0, 0.0)) == Below
    ensures Orient3D(Point3(0.5, 0.125, -0.5), Point3(0.5, 0.625, -0.5), Point3(0.5, 0.125, 0.5), Point3(1.0, 0.0, 0.0)) == Above
    ensures Orient3D(Point3(0.5, 0.125, -0.5), Point3(0.5, 0.625, -0.5), Point3(0.5, 0.125, 0.5), Point3(0.0, 0.0, 0.0)) == Below
    ensures Orient3D(Point3(0.0, 1.0, 0.0), Point3(1.0, 0.0, 0.0), Point3(0.0, 0.0, 0.0), Point3(0.5, 0.125, -0.5)) == Above
  {
    Orient3DIs(0.5, 0.125, -0.5, 0.5, 0.625, -0.5, 0.5, 0.125, 0.5, 0.0, 1.0, 0.0, Below);
    Orient3DIs(0.5, 0.125, -0.5, 0.5, 0.625, -0.5, 0.5, 0.125, 0.5, 1.0, 0.0, 0.0, Above);
    Orient3DIs(0.5, 0.125, -0.5, 0.5, 0.625, -0.5, 0.5, 0.125, 0.5, 0.0, 0.0, 0.0, Below);
    Orient3DIs(0.0, 1.0, 0.0, 1.0, 0.0, 0.0, 0.0, 0.0, 0.0, 0.5, 0.125, -0.5, Above);
  }

  /** The locations the example above reads, part 2. */
  lemma Tr13Orientations2()
    ensures Orient3D(Point3(0.0, 1.0, 0.0), Point3(1.0, 0.0, 0.0), Point3(0.0, 0.0, 0.0), Point3(0.5, 0.625, -0.5)) == Above
    ensures Orient3D(Point3(0.0, 1.0, 0.0), Point3(1.0, 0.0, 0.0), Point3(0.0, 0.0, 0.0), Point3(0.5, 0.125, 0.5)) == Below
    ensures Orient3D(Point3(1.0, 0.0, 0.0), Point3(0.0, 1.0, 0.0), Point3(0.0, 0.0, 0.0), Point3(0.5, 0.125, 0.5)) == Above
    ensures Orient3D(Point3(1.0, 0.0, 0.0), Point3(0.0, 1.0, 0.0), Point3(0.5, 0.125, 0.5), Point3(0.5, 0.125, -0.5)) == Below
  {
    Orient3DIs(0.0, 1.0, 0.0, 1.0, 0.0, 0.0, 0.0, 0.0, 0.0, 0.5, 0.625, -0.5, Above);
    Orient3DIs(0.0, 1.0, 0.0, 1.0, 0.0, 0.0, 0.0, 0.0, 0.0, 0.5, 0.125, 0.5, Below);
    Orient3DIs(1.0, 0.0, 0.0, 0.0, 1.0, 0.0, 0.0, 0.0, 0.0, 0.5, 0.125, 0.5, Above);
    Orient3DIs(1.0, 0.0, 0.0, 0.0, 1.0, 0.0, 0.5, 0.125, 0.5, 0.5, 0.125, -0.5, Below);
  }

  /** The locations the example above reads, part 3. */
  lemma Tr13Orientations3()
    ensures Orient3D(Point3(1.0, 0.0, 0.0), Point3(0.0, 0.0, 0.0), Point3(0.5, 0.125, 0.5), Point3(0.5, 0.625, -0.5)) == Above
  {
    Orient3DIs(1.0, 0.0, 0.0, 0.0, 0.0, 0.0, 0.5, 0.125, 0.5, 0.5, 0.625, -0.5, Above);
  }

  /** test/algorithm/src/triangle_triangle.cpp, are_intersecting (tr_13, tr): one segment cut from the common line contains the other. */
  lemma Tr13SwappedExample()
    ensures TriangleTriangleIntersect(Triangle(Point3(0.5, 0.125, -0.5), Point3(0.5, 0.625, -0.5), Point3(0.5, 0.125, 0.5), TriangleSpecies), Triangle(Point3(0.0, 1.0, 0.0), Point3(1.0, 0.0, 0.0), Point3(0.0, 0.0, 0.0), TriangleSpecies))
  {
    Tr13SwappedOrientations1();
    Tr13SwappedOrientations2();
    Tr13SwappedOrientations3();
  }

  /** The locations the example above reads, part 1. */
  lemma Tr13SwappedOrientations1()
    ensures Orient3D(Point3(0.0, 1.0, 0.0), Point3(1.0, 0.0, 0.0), Point3(0.0, 0.0, 0.0), Point3(0.5, 0.125, -0.5)) == Above
    ensures Orient3D(Point3(0.0, 1.0, 0.0), Point3(1.0, 0.0, 0.0), Point3(0.0, 0.0, 0.0), Point3(0.5, 0.625, -0.5)) == Above
    ensures Orient3D(Point3(0.0, 1.0, 0.0), Point3(1.0, 0.0, 0.0), Point3(0.0, 0.0, 0.0), Point3(0.5, 0.125, 0.5)) == Below
    ensures Orient3D(Point3(0.5, 0.125, -0.5), Point3(0.5, 0.625, -0.5), Point3(0.5, 0.125, 0.5), Point3(0.0, 1.0, 0.0)) == Below
  {
    Orient3DIs(0.0, 1.0, 0.0, 1.0, 0.0, 0.0, 0.0, 0.0, 0.0, 0.5, 0.125, -0.5, Above);
    Orient3DIs(0.0, 1.0, 0.0, 1.0, 0.0, 0.0, 0.0, 0.0, 0.0, 0.5, 0.625, -0.5, Above);
    Orient3DIs(0.0, 1.0, 0.0, 1.0, 0.0, 0.0, 0.0, 0.0, 0.0, 0.5, 0.125, 0.5, Below);
    Orient3DIs(0.5, 0.125, -0.5, 0.5, 0.625, -0.5, 0.5, 0.125, 0.5, 0.0, 1.0, 0.0, Below);
  }

  /** The locations the example above reads, part 2. */
  lemma Tr13SwappedOrientations2()
    ensures Orient3D(Point3(0.5, 0.125, -0.5), Point3(0.5, 0.625, -0.5), Point3(0.5, 0.125, 0.5), Point3(1.0, 0.0, 0.0)) == Above
    ensures Orient3D(Point3(0.5, 0.125, -0.5), Point3(0.5, 0.625, -0.5), Point3(0.5, 0.125, 0.5), Point3(0.0, 0.0, 0.0)) == Below
    ensures Orient3D(Point3(0.0, 1.0, 0.0), Point3(0.0, 0.0, 0.0), Point3(1.0, 0.0, 0.0), Point3(0.5, 0.125, 0.5)) == Above
    ensures Orient3D(Point3(0.0, 1.0, 0.0), Point3(0.0, 0.0, 0.0), Point3(1.0, 0.0, 0.0), Point3(0.5, 0.125, -0.5)) == Below
  {
    Orient3DIs(0.5, 0.125, -0.5, 0.5, 0.625, -0.5, 0.5, 0.125, 0.5, 1.0, 0.0, 0.0, Above);
    Orient3DIs(0.5, 0.125, -0.5, 0.5, 0.625, -0.5, 0.5, 0.125, 0.5, 0.0, 0.0, 0.0, Below);
    Orient3DIs(0.0, 1.0, 0.0, 0.0, 0.0, 0.0, 1.0, 0.0, 0.0, 0.5, 0.125, 0.5, Above);
    Orient3DIs(0.0, 1.0, 0.0, 0.0, 0.0, 0.0, 1.0, 0.0, 0.0, 0.5, 0.125, -0.5, Below);
  }

  /** The locations the example above reads, part 3. */
  lemma Tr13SwappedOrientations3()
    ensures Orient3D(Point3(0.0, 1.0, 0.0), Point3(0.0, 0.0, 0.0), Point3(1.0, 0.0, 0.0), Point3(0.5, 0.625, -0.5)) == Below
    ensures Orient3D(Point3(0.5, 0.125, 0.5), Point3(0.5, 0.125, -0.5), Point3(0.5, 0.625, -0.5), Point3(1.0, 0.0, 0.0)) == Above
    ensures Orient3D(Point3(0.5, 0.125, 0.5), Point3(0.5, 0.125, -0.5), Point3(1.0, 0.0, 0.0), Point3(0.0, 1.0, 0.0)) == Below
    ensures Orient3D(Point3(0.5, 0.125, 0.5), Point3(0.5, 0.625, -0.5), Point3(1.0, 0.0, 0.0), Point3(0.0, 0.0, 0.0)) == Above
  {
    Orient3DIs(0.0, 1.0, 0.0, 0.0, 0.0, 0.0, 1.0, 0.0, 0.0, 0.5, 0.625, -0.5, Below);
    Orient3DIs(0.5, 0.125, 0.5, 0.5, 0.125, -0.5, 0.5, 0.625, -0.5, 1.0, 0.0, 0.0, Above);
    Orient3DIs(0.5, 0.125, 0.5, 0.5, 0.125, -0.5, 1.0, 0.0, 0.0, 0.0, 1.0, 0.0, Below);
    Orient3DIs(0.5, 0.125, 0.5, 0.5, 0.625, -0.5, 1.0, 0.0, 0.0, 0.0, 0.0, 0.0, Above);
  }

  /** test/algorithm/src/triangle_triangle.cpp, are_intersecting (tr, tr_14): the triangles miss each other. */
  lemma Tr14Example()
    ensures !TriangleTriangleIntersect(Triangle(Point3(0.0, 1.0, 0.0), Point3(1.0, 0.0, 0.0), Point3(0.0, 0.0, 0.0), TriangleSpecies), Triangle(Point3(0.5, 1.0, -0.5), Point3(0.5, 2.0, -0.5), Point3(0.5, 1.0, 0.5), TriangleSpecies))
  {
    Tr14Orientations1();
    Tr14Orientations2();
    Tr14Orientations3();
  }

  /** The locations the example above reads, part 1. */
  lemma Tr14Orientations1()
    ensures Orient3D(Point3(0.5, 1.0, -0.5), Point3(0.5, 2.0, -0.5), Point3(0.5, 1.0, 0.5), Point3(0.0, 1.0, 0.0)) == Below
    ensures Orient3D(Point3(0.5, 1.0, -0.5), Point3(0.5, 2.0, -0.5), Point3(0.5, 1.0, 0.5), Point3(1.0, 0.0, 0.0)) == Above
    ensures Orient3D(Point3(0.5, 1.0, -0.5), Point3(0.5, 2.0, -0.5), Point3(0.5, 1.0, 0.5), Point3(0.0, 0.0, 0.0)) == Below
    ensures Orient3D(Point3(0.0, 1.0, 0.0), Point3(1.0, 0.0, 0.0), Point3(0.0, 0.0, 0.0), Point3(0.5, 1.0, -0.5)) == Above
  {
    Orient3DIs(0.5, 1.0, -0.5, 0.5, 2.0, -0.5, 0.5, 1.0, 0.5, 0.0, 1.0, 0.0, Below);
    Orient3DIs(0.5, 1.0, -0.5, 0.5, 2.0, -0.5, 0.5, 1.0, 0.5, 1.0, 0.0, 0.0, Above);
    Orient3DIs(0.5, 1.0, -0.5, 0.5, 2.0, -0.5, 0.5, 1.0, 0.5, 0.0, 0.0, 0.0, Below);
    Orient3DIs(0.0, 1.0, 0.0, 1.0, 0.0, 0.0, 0.0, 0.0, 0.0, 0.5, 1.0, -0.5, Above);
  }

  /** The locations the example above reads, part 2. */
  lemma Tr14Orientations2()
    ensures Orient3D(Point3(0.0, 1.0, 0.0), Point3(1.0, 0.0, 0.0), Point3(0.0, 0.0, 0.0), Point3(0.5, 2.0, -0.5)) == Above
    ensures Orient3D(Point3(0.0, 1.0, 0.0), Point3(1.0, 0.0, 0.0), Point3(0.0, 0.0, 0.0), Point3(0.5, 1.0, 0.5)) == Below
    ensures Orient3D(Point3(1.0, 0.0, 0.0), Point3(0.0, 1.0, 0.0), Point3(0.0, 0.0, 0.0), Point3(0.5, 1.0, 0.5)) == Above
    ensures Orient3D(Point3(1.0, 0.0, 0.0), Point3(0.0, 1.0, 0.0), Point3(0.5, 1.0, 0.5), Point3(0.5, 1.0, -0.5)) == Above
  {
    Orient3DIs(0.0, 1.0, 0.0, 1.0, 0.0, 0.0, 0.0, 0.0, 0.0, 0.5, 2.0, -0.5, Above);
    Orient3DIs(0.0, 1.0, 0.0, 1.0, 0.0, 0.0, 0.0, 0.0, 0.0, 0.5, 1.0, 0.5, Below);
    Orient3DIs(1.0, 0.0, 0.0, 0.0, 1.0, 0.0, 0.0, 0.0, 0.0, 0.5, 1.0, 0.5, Above);
    Orient3DIs(1.0, 0.0, 0.0, 0.0, 1.0, 0.0, 0.5, 1.0, 0.5, 0.5, 1.0, -0.5, Above);
  }

  /** The locations the example above reads, part 3. */
  lemma Tr14Orientations3()
    ensures Orient3D(Point3(1.0, 0.0, 0.0), Point3(0.0, 0.0, 0.0), Point3(0.5, 1.0, 0.5), Point3(0.5, 2.0, -0.5)) == Above
  {
    Orient3DIs(1.0, 0.0, 0.0, 0.0, 0.0, 0.0, 0.5, 1.0, 0.5, 0.5, 2.0, -0.5, Above);
  }

  /** test/algorithm/src/triangle_triangle.cpp, are_intersecting (tr_14, tr): the triangles miss each other. */
  lemma Tr14SwappedExample()
    ensures !TriangleTriangleIntersect(Triangle(Point3(0.5, 1.0, -0.5), Point3(0.5, 2.0, -0.5), Point3(0.5, 1.0, 0.5), TriangleSpecies), Triangle(Point3(0.0, 1.0, 0.0), Point3(1.0, 0.0, 0.0), Point3(0.0, 0.0, 0.0), TriangleSpecies))
  {
    Tr14SwappedOrientations1();
    Tr14SwappedOrientations2();
    Tr14SwappedOrientations3();
  }

  /** The locations the example above reads, part 1. */
  lemma Tr14SwappedOrientations1()
    ensures Orient3D(Point3(0.0, 1.0, 0.0), Point3(1.0, 0.0, 0.0), Point3(0.0, 0.0, 0.0), Point3(0.5, 1.0, -0.5)) == Above
    ensures Orient3D(Point3(0.0, 1.0, 0.0), Point3(1.0, 0.0, 0.0), Point3(0.0, 0.0, 0.0), Point3(0.5, 2.0, -0.5)) == Above
    ensures Orient3D(Point3(0.0, 1.0, 0.0), Point3(1.0, 0.0, 0.0), Point3(0.0, 0.0, 0.0), Point3(0.5, 1.0, 0.5)) == Below
    ensures Orient3D(Point3(0.5, 1.0, -0.5), Point3(0.5, 2.0, -0.5), Point3(0.5, 1.0, 0.5), Point3(0.0, 1.0, 0.0)) == Below
  {
    Orient3DIs(0.0, 1.0, 0.0, 1.0, 0.0, 0.0, 0.0, 0.0, 0.0, 0.5, 1.0, -0.5, Above);
    Orient3DIs(0.0, 1.0, 0.0, 1.0, 0.0, 0.0, 0.0, 0.0, 0.0, 0.5, 2.0, -0.5, Above);
    Orient3DIs(0.0, 1.0, 0.0, 1.0, 0.0, 0.0, 0.0, 0.0, 0.0, 0.5, 1.0, 0.5, Below);
    Orient3DIs(0.5, 1.0, -0.5, 0.5, 2.0, -0.5, 0.5, 1.0, 0.5, 0.0, 1.0, 0.0, Below);
  }

  /** The locations the example above reads, part 2. */
  lemma Tr14SwappedOrientations2()
    ensures Orient3D(Point3(0.5, 1.0, -0.5), Point3(0.5, 2.0, -0.5), Point3(0.5, 1.0, 0.5), Point3(1.0, 0.0, 0.0)) == Above
    ensures Orient3D(Point3(0.5, 1.0, -0.5), Point3(0.5, 2.0, -0.5), Point3(0.5, 1.0, 0.5), Point3(0.0, 0.0, 0.0)) == Below
    ensures Orient3D(Point3(0.0, 1.0, 0.0), Point3(0.0, 0.0, 0.0), Point3(1.0, 0.0, 0.0), Point3(0.5, 1.0, 0.5)) == Above
    ensures Orient3D(Point3(0.0, 1.0, 0.0), Point3(0.0, 0.0, 0.0), Point3(1.0, 0.0, 0.0), Point3(0.5, 1.0, -0.5)) == Below
  {
    Orient3DIs(0.5, 1.0, -0.5, 0.5, 2.0, -0.5, 0.5, 1.0, 0.5, 1.0, 0.0, 0.0, Above);
    Orient3DIs(0.5, 1.0, -0.5, 0.5, 2.0, -0.5, 0.5, 1.0, 0.5, 0.0, 0.0, 0.0, Below);
    Orient3DIs(0.0, 1.0, 0.0, 0.0, 0.0, 0.0, 1.0, 0.0, 0.0, 0.5, 1.0, 0.5, Above);
    Orient3DIs(0.0, 1.0, 0.0, 0.0, 0.0, 0.0, 1.0, 0.0, 0.0, 0.5, 1.0, -0.5, Below);
  }

  /** The locations the example above reads, part 3. */
  lemma Tr14SwappedOrientations3()
    ensures Orient3D(Point3(0.0, 1.0, 0.0), Point3(0.0, 0.0, 0.0), Point3(1.0, 0.0, 0.0), Point3(0.5, 2.0, -0.5)) == Below
    ensures Orient3D(Point3(0.5, 1.0, 0.5), Point3(0.5, 1.0, -0.5), Point3(0.5, 2.0, -0.5), Point3(1.0, 0.0, 0.0)) == Above
    ensures Orient3D(Point3(0.5, 1.0, 0.5), Point3(0.5, 1.0, -0.5), Point3(1.0, 0.0, 0.0), Point3(0.0, 1.0, 0.0)) == Above
    ensures Orient3D(Point3(0.5, 1.0, 0.5), Point3(0.5, 2.0, -0.5), Point3(1.0, 0.0, 0.0), Point3(0.0, 0.0, 0.0)) == Above
  {
    Orient3DIs(0.0, 1.0, 0.0, 0.0, 0.0, 0.0, 1.0, 0.0, 0.0, 0.5, 2.0, -0.5, Below);
    Orient3DIs(0.5, 1.0, 0.5, 0.5, 1.0, -0.5, 0.5, 2.0, -0.5, 1.0, 0.0, 0.0, Above);
    Orient3DIs(0.5, 1.0, 0.5, 0.5, 1.0, -0.5, 1.0, 0.0, 0.0, 0.0, 1.0, 0.0, Above);
    Orient3DIs(0.5, 1.0, 0.5, 0.5, 2.0, -0.5, 1.0, 0.0, 0.0, 0.0, 0.0, 0.0, Above);
  }

  /** test/algorithm/src/triangle_triangle.cpp, Triangle_Triangle_2D_Easy_Cases, are_intersecting (tr_1, tr): coplanar, P1 inside the other triangle. */
  lemma PlanarInteriorExample()
    ensures TriangleTriangleIntersect(Triangle(Point3(0.25, 0.25, 0.0), Point3(0.25, 1.25, 0.0), Point3(1.25, 0.25, 0.0), TriangleSpecies),
      Triangle(Point3(0.0, 1.0, 0.0), Point3(0.0, 0.0, 0.0), Point3(1.0, 0.0, 0.0), TriangleSpecies))
  {
    assert FromPoints(Point3(0.25, 0.25, 0.0), Point3(0.25, 1.25, 0.0)) == Vector(0.0, 1.0, 0.0);
    assert FromPoints(Point3(0.25, 0.25, 0.0), Point3(1.25, 0.25, 0.0)) == Vector(1.0, 0.0, 0.0);
    assert VectorProduct(Vector(0.0, 1.0, 0.0), Vector(1.0, 0.0, 0.0)).z == -1.0;
    GroundCoplanar(Triangle(Point3(0.25, 0.25, 0.0), Point3(0.25, 1.25, 0.0), Point3(1.25, 0.25, 0.0), TriangleSpecies),
      Triangle(Point3(0.0, 1.0, 0.0), Point3(0.0, 0.0, 0.0), Point3(1.0, 0.0, 0.0), TriangleSpecies));
    PlanarInteriorOrientations1();
    PlanarInteriorOrientations2();
    PlanarInteriorOrientations3();
  }

  /** The orientations the example above reads, part 1. */
  lemma PlanarInteriorOrientations1()
    ensures Orient2D(Point2(0.25, 0.25), Point2(0.25, 1.25), Point2(1.25, 0.25)) == Negative
    ensures Orient2D(Point2(0.0, 1.0), Point2(0.0, 0.0), Point2(1.0, 0.0)) == Positive
  {
    Orient2DIs(0.25, 0.25, 0.25, 1.25, 1.25, 0.25, Negative);
    Orient2DIs(0.0, 1.0, 0.0, 0.0, 1.0, 0.0, Positive);
  }

  /** The orientations the example above reads, part 2. */
  lemma PlanarInteriorOrientations2()
    ensures Orient2D(Point2(0.0, 1.0), Point2(0.0, 0.0), Point2(0.25, 0.25)) == Positive
    ensures Orient2D(Point2(0.0, 0.0), Point2(1.0, 0.0), Point2(0.25, 0.25)) == Positive
  {
    Orient2DIs(0.0, 1.0, 0.0, 0.0, 0.25, 0.25, Positive);
    Orient2DIs(0.0, 0.0, 1.0, 0.0, 0.25, 0.25, Positive);
  }

  /** The orientations the example above reads, part 3. */
  lemma PlanarInteriorOrientations3()
    ensures Orient2D(Point2(1.0, 0.0), Point2(0.0, 1.0), Point2(0.25, 0.25)) == Positive
  {
    Orient2DIs(1.0, 0.0, 0.0, 1.0, 0.25, 0.25, Positive);
  }

  /** test/algorithm/src/triangle_triangle.cpp, Triangle_Triangle_2D_Easy_Cases, are_intersecting (tr, tr_1). */
  lemma PlanarInteriorSwappedExample()
    ensures TriangleTriangleIntersect(Triangle(Point3(0.0, 1.0, 0.0), Point3(0.0, 0.0, 0.0), Point3(1.0, 0.0, 0.0), TriangleSpecies),
      Triangle(Point3(0.25, 0.25, 0.0), Point3(0.25, 1.25, 0.0), Point3(1.25, 0.25, 0.0), TriangleSpecies))
  {
    assert FromPoints(Point3(0.0, 1.0, 0.0), Point3(0.0, 0.0, 0.0)) == Vector(0.0, -1.0, 0.0);
    assert FromPoints(Point3(0.0, 1.0, 0.0), Point3(1.0, 0.0, 0.0)) == Vector(1.0, -1.0, 0.0);
    assert VectorProduct(Vector(0.0, -1.0, 0.0), Vector(1.0, -1.0, 0.0)).z == 1.0;
    GroundCoplanar(Triangle(Point3(0.0, 1.0, 0.0), Point3(0.0, 0.0, 0.0), Point3(1.0, 0.0, 0.0), TriangleSpecies),
      Triangle(Point3(0.25, 0.25, 0.0), Point3(0.25, 1.25, 0.0), Point3(1.25, 0.25, 0.0), TriangleSpecies));
    PlanarInteriorSwappedOrientations1();
    PlanarInteriorSwappedOrientations2();
    PlanarInteriorSwappedOrientations3();
    PlanarInteriorSwappedOrientations4();
    PlanarInteriorSwappedOrientations5();
  }

  /** The orientations the example above reads, part 1. */
  lemma PlanarInteriorSwappedOrientations1()
    ensures Orient2D(Point2(0.0, 1.0), Point2(0.0, 0.0), Point2(1.0, 0.0)) == Positive
    ensures Orient2D(Point2(0.25, 0.25), Point2(0.25, 1.25), Point2(1.25, 0.25)) == Negative
  {
    Orient2DIs(0.0, 1.0, 0.0, 0.0, 1.0, 0.0, Positive);
    Orient2DIs(0.25, 0.25, 0.25, 1.25, 1.25, 0.25, Negative);
  }

  /** The orientations the example above reads, part 2. */
  lemma PlanarInteriorSwappedOrientations2()
    ensures Orient2D(Point2(0.25, 0.25), Point2(1.25, 0.25), Point2(0.0, 1.0)) == Positive
    ensures Orient2D(Point2(1.25, 0.25), Point2(0.25, 1.25), Point2(0.0, 1.0)) == Positive
  {
    Orient2DIs(0.25, 0.25, 1.25, 0.25, 0.0, 1.0, Positive);
    Orient2DIs(1.25, 0.25, 0.25, 1.25, 0.0, 1.0, Positive);
  }

  /** The orientations the example above reads, part 3. */
  lemma PlanarInteriorSwappedOrientations3()
    ensures Orient2D(Point2(0.25, 1.25), Point2(0.25, 0.25), Point2(0.0, 1.0)) == Negative
    ensures Orient2D(Point2(0.25, 1.25), Point2(0.25, 0.25), Point2(0.0, 0.0)) == Negative
  {
    Orient2DIs(0.25, 1.25, 0.25, 0.25, 0.0, 1.0, Negative);
    Orient2DIs(0.25, 1.25, 0.25, 0.25, 0.0, 0.0, Negative);
  }

  /** The orientations the example above reads, part 4. */
  lemma PlanarInteriorSwappedOrientations4()
    ensures Orient2D(Point2(0.25, 1.25), Point2(0.25, 0.25), Point2(1.0, 0.0)) == Positive
    ensures Orient2D(Point2(0.0, 0.0), Point2(0.25, 1.25), Point2(1.0, 0.0)) == Negative
  {
    Orient2DIs(0.25, 1.25, 0.25, 0.25, 1.0, 0.0, Positive);
    Orient2DIs(0.0, 0.0, 0.25, 1.25, 1.0, 0.0, Negative);
  }

  /** The orientations the example above reads, part 5. */
  lemma PlanarInteriorSwappedOrientations5()
    ensures Orient2D(Point2(0.0, 1.0), Point2(0.25, 0.25), Point2(1.0, 0.0)) == Positive
  {
    Orient2DIs(0.0, 1.0, 0.25, 0.25, 1.0, 0.0, Positive);
  }

  /** test/algorithm/src/triangle_triangle.cpp, Triangle_Triangle_2D_R1, are_intersecting (tr_1, tr): coplanar, P1 in R1 with Q1 and R1 in R11. */
  lemma PlanarRegionR11Example()
    ensures !TriangleTriangleIntersect(Triangle(Point3(1.0, 1.0, 0.0), Point3(0.5, 1.5, 0.0), Point3(0.75, 0.75, 0.0), TriangleSpecies),
      Triangle(Point3(0.0, 1.0, 0.0), Point3(0.0, 0.0, 0.0), Point3(1.0, 0.0, 0.0), TriangleSpecies))
  {
    assert FromPoints(Point3(1.0, 1.0, 0.0), Point3(0.5, 1.5, 0.0)) == Vector(-0.5, 0.5, 0.0);
    assert FromPoints(Point3(1.0, 1.0, 0.0), Point3(0.75, 0.75, 0.0)) == Vector(-0.25, -0.25, 0.0);
    assert VectorProduct(Vector(-0.5, 0.5, 0.0), Vector(-0.25, -0.25, 0.0)).z == 0.25;
    GroundCoplanar(Triangle(Point3(1.0, 1.0, 0.0), Point3(0.5, 1.5, 0.0), Point3(0.75, 0.75, 0.0), TriangleSpecies),
      Triangle(Point3(0.0, 1.0, 0.0), Point3(0.0, 0.0, 0.0), Point3(1.0, 0.0, 0.0), TriangleSpecies));
    PlanarRegionR11Orientations1();
    PlanarRegionR11Orientations2();
    PlanarRegionR11Orientations3();
    PlanarRegionR11Orientations4();
  }

  /** The orientations the example above reads, part 1. */
  lemma PlanarRegionR11Orientations1()
    ensures Orient2D(Point2(1.0, 1.0), Point2(0.5, 1.5), Point2(0.75, 0.75)) == Positive
    ensures Orient2D(Point2(0.0, 1.0), Point2(0.0, 0.0), Point2(1.0, 0.0)) == Positive
  {
    Orient2DIs(1.0, 1.0, 0.5, 1.5, 0.75, 0.75, Positive);
    Orient2DIs(0.0, 1.0, 0.0, 0.0, 1.0, 0.0, Positive);
  }

  /** The orientations the example above reads, part 2. */
  lemma PlanarRegionR11Orientations2()
    ensures Orient2D(Point2(0.0, 1.0), Point2(0.0, 0.0), Point2(1.0, 1.0)) == Positive
    ensures Orient2D(Point2(0.0, 0.0), Point2(1.0, 0.0), Point2(1.0, 1.0)) == Positive
  {
    Orient2DIs(0.0, 1.0, 0.0, 0.0, 1.0, 1.0, Positive);
    Orient2DIs(0.0, 0.0, 1.0, 0.0, 1.0, 1.0, Positive);
  }

  /** The orientations the example above reads, part 3. */
  lemma PlanarRegionR11Orientations3()
    ensures Orient2D(Point2(1.0, 0.0), Point2(0.0, 1.0), Point2(1.0, 1.0)) == Negative
    ensures Orient2D(Point2(1.0, 0.0), Point2(0.0, 1.0), Point2(0.5, 1.5)) == Negative
  {
    Orient2DIs(1.0, 0.0, 0.0, 1.0, 1.0, 1.0, Negative);
    Orient2DIs(1.0, 0.0, 0.0, 1.0, 0.5, 1.5, Negative);
  }

  /** The orientations the example above reads, part 4. */
  lemma PlanarRegionR11Orientations4()
    ensures Orient2D(Point2(1.0, 0.0), Point2(0.0, 1.0), Point2(0.75, 0.75)) == Negative
  {
    Orient2DIs(1.0, 0.0, 0.0, 1.0, 0.75, 0.75, Negative);
  }

  /** test/algorithm/src/triangle_triangle.cpp, Triangle_Triangle_2D_R1, are_intersecting (tr, tr_1). */
  lemma PlanarRegionR11SwappedExample()
    ensures !TriangleTriangleIntersect(Triangle(Point3(0.0, 1.0, 0.0), Point3(0.0, 0.0, 0.0), Point3(1.0, 0.0, 0.0), TriangleSpecies),
      Triangle(Point3(1.0, 1.0, 0.0), Point3(0.5, 1.5, 0.0), Point3(0.75, 0.75, 0.0), TriangleSpecies))
  {
    assert FromPoints(Point3(0.0, 1.0, 0.0), Point3(0.0, 0.0, 0.0)) == Vector(0.0, -1.0, 0.0);
    assert FromPoints(Point3(0.0, 1.0, 0.0), Point3(1.0, 0.0, 0.0)) == Vector(1.0, -1.0, 0.0);
    assert VectorProduct(Vector(0.0, -1.0, 0.0), Vector(1.0, -1.0, 0.0)).z == 1.0;
    GroundCoplanar(Triangle(Point3(0.0, 1.0, 0.0), Point3(0.0, 0.0, 0.0), Point3(1.0, 0.0, 0.0), TriangleSpecies),
      Triangle(Point3(1.0, 1.0, 0.0), Point3(0.5, 1.5, 0.0), Point3(0.75, 0.75, 0.0), TriangleSpecies));
    PlanarRegionR11SwappedOrientations1();
    PlanarRegionR11SwappedOrientations2();
    PlanarRegionR11SwappedOrientations3();
    PlanarRegionR11SwappedOrientations4();
    PlanarRegionR11SwappedOrientations5();
  }

  /** The orientations the example above reads, part 1. */
  lemma PlanarRegionR11SwappedOrientations1()
    ensures Orient2D(Point2(0.0, 1.0), Point2(0.0, 0.0), Point2(1.0, 0.0)) == Positive
    ensures Orient2D(Point2(1.0, 1.0), Point2(0.5, 1.5), Point2(0.75, 0.75)) == Positive
  {
    Orient2DIs(0.0, 1.0, 0.0, 0.0, 1.0, 0.0, Positive);
    Orient2DIs(1.0, 1.0, 0.5, 1.5, 0.75, 0.75, Positive);
  }

  /** The orientations the example above reads, part 2. */
  lemma PlanarRegionR11SwappedOrientations2()
    ensures Orient2D(Point2(1.0, 1.0), Point2(0.5, 1.5), Point2(0.0, 1.0)) == Positive
    ensures Orient2D(Point2(0.5, 1.5), Point2(0.75, 0.75), Point2(0.0, 1.0)) == Negative
  {
    Orient2DIs(1.0, 1.0, 0.5, 1.5, 0.0, 1.0, Positive);
    Orient2DIs(0.5, 1.5, 0.75, 0.75, 0.0, 1.0, Negative);
  }

  /** The orientations the example above reads, part 3. */
  lemma PlanarRegionR11SwappedOrientations3()
    ensures Orient2D(Point2(0.75, 0.75), Point2(1.0, 1.0), Point2(0.0, 1.0)) == Positive
    ensures Orient2D(Point2(0.5, 1.5), Point2(0.75, 0.75), Point2(0.0, 0.0)) == Negative
  {
    Orient2DIs(0.75, 0.75, 1.0, 1.0, 0.0, 1.0, Positive);
    Orient2DIs(0.5, 1.5, 0.75, 0.75, 0.0, 0.0, Negative);
  }

  /** The orientations the example above reads, part 4. */
  lemma PlanarRegionR11SwappedOrientations4()
    ensures Orient2D(Point2(0.5, 1.5), Point2(0.75, 0.75), Point2(1.0, 0.0)) == Neutral
    ensures Orient2D(Point2(0.0, 0.0), Point2(0.5, 1.5), Point2(1.0, 0.0)) == Negative
  {
    Orient2DIs(0.5, 1.5, 0.75, 0.75, 1.0, 0.0, Neutral);
    Orient2DIs(0.0, 0.0, 0.5, 1.5, 1.0, 0.0, Negative);
  }

  /** The orientations the example above reads, part 5. */
  lemma PlanarRegionR11SwappedOrientations5()
    ensures Orient2D(Point2(0.0, 1.0), Point2(0.75, 0.75), Point2(1.0, 0.0)) == Negative
  {
    Orient2DIs(0.0, 1.0, 0.75, 0.75, 1.0, 0.0, Negative);
  }
}
