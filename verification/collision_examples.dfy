/** A worked input for the collision manager: a point on a cell's dividing plane and a
    triangle having that point as a vertex. The straddle test of insert_shape as written
    sends them to sibling leaves, so they are never tested against each other; with the
    inclusive test they meet at the root and both get reported. */
module TouchingInput {
  import opened Points
  import opened Triangles
  import opened Boxes
  import opened Shapes
  import opened Octrees

  /** The point (1, 0, 0). */
  function TouchingPoint(): Primitive
  {
    PointPrim(Point3(1.0, 0.0, 0.0))
  }

  /** The triangle (1, 0, 0), (2, 0, 0), (1, 1, 0), which has the point as its first vertex. */
  function TouchingTriangle(): Primitive
  {
    TrianglePrim(Triangle(Point3(1.0, 0.0, 0.0), Point3(2.0, 0.0, 0.0), Point3(1.0, 1.0, 0.0), TriangleSpecies))
  }

  /** The point as shape 0 and the triangle as shape 1, with the boxes the Shape
      constructors give them (TouchingShapesMade). */
  function TouchingShapes(): seq<IndexedShape>
  {
    [IndexedShape(Shape(TouchingPoint(), Box(Point3(1.0, 0.0, 0.0), 0.0, 0.0, 0.0)), 0),
     IndexedShape(Shape(TouchingTriangle(), Box(Point3(1.5, 0.5, 0.0), 0.5, 0.5, 0.0)), 1)]
  }

  /** The triangle's vertices, in order. */
  function TouchingVertices(): seq<Point3>
  {
    [Point3(1.0, 0.0, 0.0), Point3(2.0, 0.0, 0.0), Point3(1.0, 1.0, 0.0)]
  }

  /** The first vertex is the lowest along every axis. */
  lemma TriangleMinima()
    ensures MinElement(TouchingVertices(), 0) == 0
    ensures MinElement(TouchingVertices(), 1) == 0
    ensures MinElement(TouchingVertices(), 2) == 0
  {
    var pts := TouchingVertices();
    assert pts[..2] == [pts[0], pts[1]] && [pts[0], pts[1]][..1] == [pts[0]];
  }

  /** The second vertex is the highest along x, the third along y, the first along z. */
  lemma TriangleMaxima()
    ensures MaxElement(TouchingVertices(), 0) == 1
    ensures MaxElement(TouchingVertices(), 1) == 2
    ensures MaxElement(TouchingVertices(), 2) == 0
  {
    var pts := TouchingVertices();
    assert pts[..2] == [pts[0], pts[1]] && [pts[0], pts[1]][..1] == [pts[0]];
  }

  /** The triangle's box spans x from 1 to 2, y from 0 to 1, and is flat along z. */
  lemma TriangleRangeBox()
    ensures RangeBox(TouchingVertices()) == Box(Point3(1.5, 0.5, 0.0), 0.5, 0.5, 0.0)
  {
    var pts := TouchingVertices();
    TriangleMinima();
    TriangleMaxima();
    var lo := Point3(pts[0].x, pts[0].y, pts[0].z);
    var hi := Point3(pts[1].x, pts[2].y, pts[0].z);
    assert lo == Point3(1.0, 0.0, 0.0) && hi == Point3(2.0, 1.0, 0.0);
    TriangleCorners();
  }

  /** The box spanned by the corners (1, 0, 0) and (2, 1, 0). */
  lemma TriangleCorners()
    ensures TwoPointBox(Point3(1.0, 0.0, 0.0), Point3(2.0, 1.0, 0.0)) == Box(Point3(1.5, 0.5, 0.0), 0.5, 0.5, 0.0)
  {
    TwoPointBoxOrdered(Point3(1.0, 0.0, 0.0), Point3(2.0, 1.0, 0.0));
  }

  /** The box a point shape gets is the point with zero half-widths. */
  lemma PointShapeBox(pt: Point3)
    ensures MakeShape(PointPrim(pt)) == Shape(PointPrim(pt), Box(pt, 0.0, 0.0, 0.0))
  {
  }

  /** The box a triangle shape gets is the range box of its vertices. */
  lemma TriangleShapeBox(tr: Triangle<Point3>)
    ensures MakeShape(TrianglePrim(tr)) == Shape(TrianglePrim(tr), RangeBox([tr.P, tr.Q, tr.R]))
  {
  }

  /** The two shapes are what the Shape constructors build from the primitives. */
  lemma TouchingShapesMade()
    ensures TouchingShapes()[0].shape == MakeShape(TouchingPoint())
    ensures TouchingShapes()[1].shape == MakeShape(TouchingTriangle())
  {
    PointShapeBox(Point3(1.0, 0.0, 0.0));
    TriangleShapeBox(TouchingTriangle().tr);
    TriangleRangeBox();
  }

  /** The parameter loop over two shapes widens the extent by the first box, then by the
      second. */
  lemma ExtentOfTwo(a: IndexedShape, b: IndexedShape, e: Extent)
    ensures ExtentOf([a, b], e) == Widen(Widen(e, a.shape.box), b.shape.box)
  {
    assert [a, b][1..] == [b] && [b][1..] == [];
    assert ExtentOf([b], Widen(e, a.shape.box)) == ExtentOf([], Widen(Widen(e, a.shape.box), b.shape.box));
  }

  /** Widening the extent of the origin by the point's box reaches x = 1. */
  lemma TouchingExtentFirst(e: Extent, b0: Box)
    requires e.lo.x == 0.0 && e.lo.y == 0.0 && e.lo.z == 0.0
    requires e.hi.x == 0.0 && e.hi.y == 0.0 && e.hi.z == 0.0
    requires b0 == Box(Point3(1.0, 0.0, 0.0), 0.0, 0.0, 0.0)
    ensures Widen(e, b0).lo.x == 0.0 && Widen(e, b0).lo.y == 0.0 && Widen(e, b0).lo.z == 0.0
    ensures Widen(e, b0).hi.x == 1.0 && Widen(e, b0).hi.y == 0.0 && Widen(e, b0).hi.z == 0.0
  {
  }

  /** Widening that by the triangle's box reaches (2, 1, 0). */
  lemma TouchingExtentSecond(e: Extent, b1: Box)
    requires e.lo.x == 0.0 && e.lo.y == 0.0 && e.lo.z == 0.0
    requires e.hi.x == 1.0 && e.hi.y == 0.0 && e.hi.z == 0.0
    requires b1 == Box(Point3(1.5, 0.5, 0.0), 0.5, 0.5, 0.0)
    ensures Widen(e, b1).lo.x == 0.0 && Widen(e, b1).lo.y == 0.0 && Widen(e, b1).lo.z == 0.0
    ensures Widen(e, b1).hi.x == 2.0 && Widen(e, b1).hi.y == 1.0 && Widen(e, b1).hi.z == 0.0
  {
  }

  /** The cube of that extent is centred at (1, 1, 1) with half-width 1. */
  lemma TouchingCube(e: Extent)
    requires e.lo.x == 0.0 && e.lo.y == 0.0 && e.lo.z == 0.0
    requires e.hi.x == 2.0 && e.hi.y == 1.0 && e.hi.z == 0.0
    ensures CubeOf(e).0.x == 1.0 && CubeOf(e).0.y == 1.0 && CubeOf(e).0.z == 1.0
    ensures CubeOf(e).1 == 1.0
  {
    assert MinOf3(e.lo.x, e.lo.y, e.lo.z) == 0.0;
    assert MaxOf3(e.hi.x, e.hi.y, e.hi.z) == 2.0;
  }

  /** The parameters are the cube of the extent the loop reaches from the origin. */
  lemma ParametersByExtent(ss: seq<IndexedShape>)
    ensures var origin := Point3(0.0, 0.0, 0.0);
      CalculateOctreeParameters(ss) == CubeOf(ExtentOf(ss, Extent(origin, origin)))
  {
  }

  /** Starting from the origin, two shapes with these boxes widen the extent to the
      corners (0, 0, 0) and (2, 1, 0). */
  lemma ExtentOfTouching(ss: seq<IndexedShape>, e: Extent)
    requires |ss| == 2
    requires e.lo.x == 0.0 && e.lo.y == 0.0 && e.lo.z == 0.0
    requires e.hi.x == 0.0 && e.hi.y == 0.0 && e.hi.z == 0.0
    requires ss[0].shape.box == Box(Point3(1.0, 0.0, 0.0), 0.0, 0.0, 0.0)
    requires ss[1].shape.box == Box(Point3(1.5, 0.5, 0.0), 0.5, 0.5, 0.0)
    ensures ExtentOf(ss, e) == Extent(Point3(0.0, 0.0, 0.0), Point3(2.0, 1.0, 0.0))
  {
    assert ss == [ss[0], ss[1]];
    ExtentOfTwo(ss[0], ss[1], e);
    TouchingExtentFirst(e, ss[0].shape.box);
    TouchingExtentSecond(Widen(e, ss[0].shape.box), ss[1].shape.box);
  }

  /** Shapes whose extent from the origin reaches (2, 1, 0) give the root cell centred
      at (1, 1, 1) with half-width 1. */
  lemma ParametersOfExtent(ss: seq<IndexedShape>)
    requires ExtentOf(ss, Extent(Point3(0.0, 0.0, 0.0), Point3(0.0, 0.0, 0.0))) == Extent(Point3(0.0, 0.0, 0.0), Point3(2.0, 1.0, 0.0))
    ensures CalculateOctreeParameters(ss) == (Point3(1.0, 1.0, 1.0), 1.0)
  {
    ParametersByExtent(ss);
    TouchingCube(ExtentOf(ss, Extent(Point3(0.0, 0.0, 0.0), Point3(0.0, 0.0, 0.0))));
  }

  /** Two shapes with these boxes give the root cell centred at (1, 1, 1) with
      half-width 1. */
  lemma ParametersOfTwo(ss: seq<IndexedShape>)
    requires |ss| == 2
    requires ss[0].shape.box == Box(Point3(1.0, 0.0, 0.0), 0.0, 0.0, 0.0)
    requires ss[1].shape.box == Box(Point3(1.5, 0.5, 0.0), 0.5, 0.5, 0.0)
    ensures CalculateOctreeParameters(ss) == (Point3(1.0, 1.0, 1.0), 1.0)
  {
    var origin := Point3(0.0, 0.0, 0.0);
    ExtentOfTouching(ss, Extent(origin, origin));
    ParametersOfExtent(ss);
  }

  /** The root cell of the touching input is centred at (1, 1, 1) with half-width 1. */
  lemma TouchingParameters()
    ensures CalculateOctreeParameters(TouchingShapes()) == (Point3(1.0, 1.0, 1.0), 1.0)
  {
    ParametersOfTwo(TouchingShapes());
  }
}

/** What the collision manager reports for the touching input. */
module CollisionExamples {
  import opened Wrappers
  import opened Points
  import opened Vectors
  import opened Triangles
  import opened MagicProduct
  import opened SpaceToPlane
  import opened PointTriangle
  import opened Boxes
  import opened Shapes
  import opened Octrees
  import opened CollisionManager
  import opened TouchingInput

  /** In a tree of height 2, two different shapes that fit in different octants of the
      root go to different leaves, so the walk tests no pair. */
  lemma SeparatedTreeTestsNothing(rule: StraddleRule, tree: Node, ss: seq<IndexedShape>, k0: nat, k1: nat)
    requires Distributes(rule, tree, ss) && Full(tree, 2)
    requires |ss| == 2 && ss[0] != ss[1]
    requires Octant(rule, tree.center, ss[0].shape.box) == Some(k0)
    requires Octant(rule, tree.center, ss[1].shape.box) == Some(k1)
    requires k0 != k1
    ensures TreePairs(tree, []) == {}
  {
    LeafTargetsUnnested(rule, tree, ss, k0, k1);
    UnnestedTargetsTestNothing(rule, tree, ss);
  }

  /** In a tree of height 2, two shapes that fit in different octants of the root have
      targets [k0] and [k1], neither a prefix of the other. */
  lemma LeafTargetsUnnested(rule: StraddleRule, tree: Node, ss: seq<IndexedShape>, k0: nat, k1: nat)
    requires Full(tree, 2) && |ss| == 2
    requires Octant(rule, tree.center, ss[0].shape.box) == Some(k0)
    requires Octant(rule, tree.center, ss[1].shape.box) == Some(k1)
    requires k0 != k1
    ensures forall i, j | 0 <= i < |ss| && 0 <= j < |ss| && i != j ::
      !(TargetPath(rule, tree, ss[i].shape.box) <= TargetPath(rule, tree, ss[j].shape.box))
  {
    TargetInLeafChild(rule, tree, ss[0].shape.box, k0);
    TargetInLeafChild(rule, tree, ss[1].shape.box, k1);
    assert [k0][0] != [k1][0];
  }

  /** Two different shapes that fit in different octants of the root cell go to
      different leaves of a tree of height 2; the manager then reports nothing, whatever
      the shapes. */
  lemma SeparatedPairUntested(rule: StraddleRule, dir: Directions, ss: seq<IndexedShape>, c: Point3, k0: nat, k1: nat)
    requires |ss| == 2 && ss[0] != ss[1]
    requires CalculateOctreeParameters(ss).0 == c
    requires Octant(rule, c, ss[0].shape.box) == Some(k0)
    requires Octant(rule, c, ss[1].shape.box) == Some(k1)
    requires k0 != k1
    ensures Collide(rule, dir, 2, ss) == Success({})
  {
    var tree := MakeOctree(rule, 2, ss).value;
    BuiltDistributes(rule, 2, ss);
    SeparatedTreeTestsNothing(rule, tree, ss, k0, k1);
    IntersectAllSpec(PairTestOf(dir), tree);
    assert Hits(PairTestOf(dir), {}) == {};
  }

  /** Under the inclusive rule, two shapes with indexes 0 and 1 and proper boxes that
      intersect in either order are reported, and nothing else is. */
  lemma InclusiveReportsBoth(dir: Directions, ss: seq<IndexedShape>)
    requires |ss| == 2 && ss[0].index == 0 && ss[1].index == 1
    requires Proper(ss[0].shape.box) && Proper(ss[1].shape.box)
    requires ShapesIntersect(dir, ss[0].shape, ss[1].shape) && ShapesIntersect(dir, ss[1].shape, ss[0].shape)
    ensures Collide(Inclusive, dir, 2, ss) == Success({0, 1})
  {
    InclusiveFindsEveryPair(dir, 2, ss, 0, 1);
    var r := Collide(Inclusive, dir, 2, ss).value;
    IndexesOfTwo(ss);
    forall x | x in r
      ensures x == 0 || x == 1
    {
      ReportsOnlyIntersecting(Inclusive, dir, 2, ss, x);
    }
    BothAndOnly(r);
  }

  /** Two shapes with indexes 0 and 1 have distinct indexes, and every index of theirs
      is 0 or 1. */
  lemma IndexesOfTwo(ss: seq<IndexedShape>)
    requires |ss| == 2 && ss[0].index == 0 && ss[1].index == 1
    ensures forall i, j | 0 <= i < j < |ss| :: ss[i].index != ss[j].index
    ensures forall i | 0 <= i < |ss| :: ss[i].index == 0 || ss[i].index == 1
  {
  }

  /** A set holding 0 and 1 and nothing else is {0, 1}. */
  lemma BothAndOnly(r: set<nat>)
    requires 0 in r && 1 in r
    requires forall x | x in r :: x == 0 || x == 1
    ensures r == {0, 1}
  {
  }

  /** The point is the triangle's first vertex, and the triangle is counter-clockwise
      seen from above, so the point is In_Vertex. */
  lemma TouchingVertex()
    ensures PointTriangleIntersect(TouchingPoint().pt, TouchingTriangle().tr)
  {
    FirstVertexIntersects(TouchingTriangle().tr);
    TouchingProjection();
  }

  /** The triangle lies in the plane z = 0, so it is projected along z. */
  lemma TouchingAxis()
    ensures TriangleAxis(TouchingTriangle().tr) == Z
  {
    var tr := TouchingTriangle().tr;
    assert VectorProduct(FromPoints(tr.P, tr.Q), FromPoints(tr.P, tr.R)).z == 1.0;
    GroundTriangleAxis(tr);
  }

  /** Projected along z the triangle is counter-clockwise. */
  lemma TouchingProjection()
    ensures ProjectedOrientation(TouchingTriangle().tr) == Positive
  {
    var tr := TouchingTriangle().tr;
    TouchingAxis();
    ProjectedAlongZ(tr);
    assert Det2(Point2(1.0, 0.0), Point2(2.0, 0.0), Point2(1.0, 1.0)) == 1.0;
  }

  /** A triangle projected along z keeps its x and y coordinates. */
  lemma ProjectedAlongZ(tr: Triangle<Point3>)
    requires TriangleAxis(tr) == Z
    ensures ProjectedOrientation(tr) == Orient2D(Point2(tr.P.x, tr.P.y), Point2(tr.Q.x, tr.Q.y), Point2(tr.R.x, tr.R.y))
  {
  }

  /** The two boxes overlap: the point's box is the triangle box's lower x face. */
  lemma TouchingOverlap()
    ensures AreOverlapping(TouchingShapes()[0].shape.box, TouchingShapes()[1].shape.box)
  {
  }

  /** A point shape and a triangle shape whose boxes overlap intersect, in either order,
      exactly when the point meets the triangle. */
  lemma PointTriangleShapes(dir: Directions, a: Shape, b: Shape)
    requires a.primitive.PointPrim? && b.primitive.TrianglePrim?
    requires AreOverlapping(a.box, b.box)
    ensures ShapesIntersect(dir, a, b) == PointTriangleIntersect(a.primitive.pt, b.primitive.tr)
    ensures ShapesIntersect(dir, b, a) == PointTriangleIntersect(a.primitive.pt, b.primitive.tr)
  {
    OverlapSymmetric(a.box, b.box);
  }

  /** The two shapes intersect, in either argument order: the point is a vertex of the
      triangle. */
  lemma TouchingIntersect(dir: Directions)
    ensures ShapesIntersect(dir, TouchingShapes()[0].shape, TouchingShapes()[1].shape)
    ensures ShapesIntersect(dir, TouchingShapes()[1].shape, TouchingShapes()[0].shape)
  {
    TouchingVertex();
    TouchingOverlap();
    PointTriangleShapes(dir, TouchingShapes()[0].shape, TouchingShapes()[1].shape);
  }

  /** As written, the manager reports nothing for the touching input: the point goes to
      child 0 of the root and the triangle to child 1. */
  lemma TouchingAsWritten(dir: Directions)
    ensures Collide(AsWritten, dir, 2, TouchingShapes()) == Success({})
  {
    TouchingParameters();
    PointOnPlaneOctant();
    TouchingBoxOctant();
    SeparatedPairUntested(AsWritten, dir, TouchingShapes(), Point3(1.0, 1.0, 1.0), 0, 1);
  }

  /** With the inclusive rule, the manager reports both shapes of the touching input. */
  lemma TouchingInclusive(dir: Directions)
    ensures Collide(Inclusive, dir, 2, TouchingShapes()) == Success({0, 1})
  {
    TouchingIntersect(dir);
    InclusiveReportsBoth(dir, TouchingShapes());
  }

  /** The straddle test of insert_shape as written loses an intersecting pair: the point
      and the triangle intersect, in either order, yet the manager reports neither; with
      the inclusive test it reports both. */
  lemma AsWrittenMissesTouchingPair(dir: Directions)
    ensures ShapesIntersect(dir, TouchingShapes()[0].shape, TouchingShapes()[1].shape)
    ensures ShapesIntersect(dir, TouchingShapes()[1].shape, TouchingShapes()[0].shape)
    ensures Collide(AsWritten, dir, 2, TouchingShapes()) == Success({})
    ensures Collide(Inclusive, dir, 2, TouchingShapes()) == Success({0, 1})
  {
    TouchingIntersect(dir);
    TouchingAsWritten(dir);
    TouchingInclusive(dir);
  }
}
