# Triangles: a verified model of the intersection core

Triangles finds every intersecting pair among a set of 3D primitives — points,
segments and triangles — and reports the indexes of the shapes involved. This project
models its core in Dafny and proves properties of the model:

- the tolerant comparator (`double_comparison.hpp`, epsilon 1e-6, absolute then relative
  branch) and the 2D/3D point and vector algebra built on it, including the snapping of
  almost-cancelling components to exact zero;
- segments, triangles with their species (point, segment or triangle) fixed at
  construction, and the three relabellings swap_QR, swap_clockwise and
  swap_counterclockwise;
- `magic_product`, the orientation of a point against a line (2D) or a plane (3D), and the
  projection of coplanar primitives onto a coordinate plane;
- the six pairwise intersection predicates (point-point, point-segment, point-triangle,
  segment-segment, segment-triangle, triangle-triangle), including the planar region tests
  of `intersection_2D.hpp` and the relabelling `transform_triangle` of the 3D
  triangle-triangle test, and the dispatch on species in `intersection.hpp`;
- the axis-aligned bounding boxes, shapes (a primitive plus its box and an index), the
  octree (parameters from the input's extent, the full tree of cells, insertion of each
  shape at the deepest cell whose dividing planes it does not straddle), and the collision
  manager's ancestor-stack walk `intersect_all`.

Coordinates are Dafny reals, so the model is exact arithmetic with the source's tolerance
rules written out; the square root is a parameter. The helpers `are_codirectional` and
`are_oppositely_directed` are not part of this model and are threaded through as the
function values of a `Directions` parameter. Every proved statement therefore holds for
every choice of them. The walk of `intersect_all` is modelled for any pair test; its
declarative partner, the set of pairs it tests, is proved equal to it. Test vectors of the
repository's own unit tests appear as lemmas about the model: all planar and spatial
triangle pairs of its triangle-triangle tests, and a selection from the other tests.

## Model

| member | source | states |
|---|---|---|
| Comparison.Abs | include/double_comparison.hpp:26 | the absolute value is non-negative and is either the argument or its negation |
| Comparison.Max | include/double_comparison.hpp:31 | the maximum bounds both arguments and is one of them |
| Comparison.AreEqual | include/double_comparison.hpp:21-32 | identical values compare equal; equality implies the difference is below epsilon absolutely or relative to one of the magnitudes |
| Comparison.IsZero | include/double_comparison.hpp:34-35 | is_zero holds exactly on the open interval (-1e-6, 1e-6): the relative branch never fires against 0 |
| Comparison.Less | include/double_comparison.hpp:37-38 | less holds exactly when the second value exceeds the first by at least the tolerance, absolutely and relative to the larger magnitude |
| Comparison.Greater | include/double_comparison.hpp:43-44 | greater holds only when the first value exceeds the second by at least the absolute tolerance |
| Comparison.LessEqual | include/double_comparison.hpp:40-41 | less_equal holds exactly when greater does not |
| Comparison.GreaterEqual | include/double_comparison.hpp:46-47 | greater_equal holds exactly when less does not |
| Comparison.AreEqualSymmetric | include/double_comparison.hpp:21-32 | are_equal is reflexive and symmetric |
| Comparison.AreEqualNotTransitive | include/double_comparison.hpp:21-32 | are_equal is not transitive: 0 ≈ 6e-7 ≈ 1.2e-6 but 0 is not ≈ 1.2e-6 |
| Comparison.Trichotomy | include/double_comparison.hpp:37-44 | for every pair exactly one of less, are_equal, greater holds |
| Comparison.NonStrictAreComplements | include/double_comparison.hpp:37-47 | less_equal is the negation of greater, greater_equal the negation of less, and the strict and non-strict forms are converses of each other |
| Comparison.AreEqualNegated | include/double_comparison.hpp:21-32 | negating both arguments does not change are_equal, so is_zero(x) == is_zero(-x) |
| Comparison.GreaterZeroIsSign | include/double_comparison.hpp:34-44 | greater(x, 0) means x is positive and not tolerant-zero; a value that is not tolerant-zero is greater than 0 on exactly one of its two signs |
| Comparison.ComparisonExamples | test/basic_tests/src/double_comparison.cpp:9-33 | 0 ≈ -0, ±eps/2 ≈ 0 and ±1e-10 ≈ 0, while ±1 and ±83745.2 are not ≈ 0 |
| Comparison.RelativeToleranceExample | include/double_comparison.hpp:28-31 | 1e7 ≈ 1e7+1 through the relative branch; 1 and 1.000002 are apart |
| Points.EqReflexiveSymmetric | include/primitives/point.hpp:24-71 | tolerant point equality in 2D and 3D is reflexive and symmetric |
| Points.Eq2 | include/primitives/point.hpp:24-27 | identical 2D points compare equal |
| Points.Eq3 | include/primitives/point.hpp:67-71 | identical 3D points compare equal, and equal 3D points have equal (x, y) projections |
| Points.Distance2 | include/primitives/point.hpp:32-44 | tolerant-equal 2D points are at distance exactly 0; otherwise the distance is the root of the squared difference |
| Points.Distance3 | include/primitives/point.hpp:76-89 | tolerant-equal 3D points are at distance exactly 0; otherwise the distance is the root of the squared difference |
| Points.PointExamples | test/basic_tests/src/point.cpp:10-42 | (1,2,3) equals (1.000001,2.000002,3.000003) in both orders and differs from (2,3,4) in both orders; (1e7,0,0) and (1e7+1,0,0) are at distance 0 |
| Vectors.SnapDiff | include/primitives/vector.hpp:28-30 | a snapped component is exactly 0 iff the coordinates are tolerant-equal, and is second − first otherwise |
| Vectors.SnapSum | include/primitives/vector.hpp:44-46 | a snapped sum is exactly 0 iff the summands are tolerant-opposite, and is their plain sum otherwise |
| Vectors.FromPoints | include/primitives/vector.hpp:27-30 | the two-point vector is the zero vector iff the points are tolerant-equal, and each non-zero component is the coordinate difference |
| Vectors.FromPoints2 | include/primitives/vector.hpp:32-34 | the 2D two-point vector has z = 0 and is zero iff the 2D points are tolerant-equal |
| Vectors.Add | include/primitives/vector.hpp:42-55 | each component of the sum is exactly 0 iff the operands' components are tolerant-opposite |
| Vectors.Sub | include/primitives/vector.hpp:57-70 | the difference is the zero vector iff the operands are tolerant-equal, and each non-zero component is the plain difference |
| Vectors.Neg | include/primitives/vector.hpp:81 | unary minus cancels each component exactly |
| Vectors.Scale | include/primitives/vector.hpp:72-79 | scaling by 1 is the identity and scaling by 0 gives the zero vector |
| Vectors.Norm | include/primitives/vector.hpp:83 | the squared norm is non-negative and 0 on the zero vector |
| Vectors.ScalarProduct | include/primitives/vector.hpp:120-131 | the snapped scalar product is 0 whenever an operand is the zero vector |
| Vectors.VectorProduct | include/primitives/vector.hpp:133-149 | each component of the snapped cross product is exactly 0 iff its two partial products are tolerant-equal; a zero operand gives the zero vector |
| Vectors.IsZeroVec | include/primitives/vector.hpp:102-105 | a vector is zero exactly when every component lies in the open interval (-1e-6, 1e-6); the zero vector is zero |
| Vectors.TripleProduct | include/primitives/vector.hpp:151-155 | the triple product is exactly 0 whenever one of the three vectors is zero |
| Vectors.AreCollinear | include/primitives/vector.hpp:159-163 | the zero vector is collinear with every vector, in either position |
| Vectors.AreCoplanar | include/primitives/vector.hpp:179-183 | three vectors one of which is zero are coplanar |
| Vectors.AreOrthogonal | include/primitives/vector.hpp:185-189 | the zero vector is orthogonal to every vector, in either position |
| Vectors.VectorProductApproximatesCross | include/primitives/vector.hpp:133-149 | every component of the snapped cross product is either 0 or the exact cross product's component |
| Vectors.VectorProductAntisymmetric | include/primitives/vector.hpp:133-163 | vector_product(b, a) is the negation of vector_product(a, b), so are_collinear is symmetric |
| Vectors.SnapDiffSwapped | include/primitives/vector.hpp:28-30 | swapping the two coordinates negates a snapped component |
| Vectors.CollinearWithSelfAndZero | include/primitives/vector.hpp:133-163 | vector_product(v, v) is exactly the zero vector, so v is collinear with itself and with the zero vector |
| Vectors.SubSelfAndAddNeg | include/primitives/vector.hpp:42-81 | v − v and v + (−v) are exactly the zero vector |
| Vectors.ScalarProductCommutative | include/primitives/vector.hpp:120-131 | scalar_product is commutative, so are_orthogonal is symmetric |
| Vectors.CoplanarWithZero | include/primitives/vector.hpp:151-183 | three vectors one of which is the zero vector are coplanar, in any position |
| Vectors.CollinearIfProductsEqual | include/primitives/vector.hpp:133-163 | vectors whose exact cross product vanishes have a snapped cross product of exactly zero and are collinear |
| Vectors.ScaledAreCollinear | include/primitives/vector.hpp:159-163 | two multiples of one vector are collinear |
| Segments.SwapPoints | include/primitives/segment.hpp:27 | swap_points exchanges P and Q |
| Segments.SwapPointsInvolution | include/primitives/segment.hpp:27 | swap_points applied twice restores the segment |
| Segments.SegEqReflexive | include/primitives/segment.hpp:30-34 | ordered endpoint-wise segment equality is reflexive |
| Segments.SegEq3 | include/primitives/segment.hpp:30-34 | identical segments compare equal |
| Triangles.Species.Code | include/primitives/triangle.hpp:16-21 | the species codes are −1, 0 and 1 |
| Triangles.Classify3 | include/primitives/triangle.hpp:30-76 | the species is point iff P == Q and Q == R tolerantly; segment means PQ and PR are collinear and triangle means they are not |
| Triangles.Classify2 | include/primitives/triangle.hpp:30-76 | the same classification for 2D triangles; a Segment classification means the edge vectors PQ and PR are collinear |
| Triangles.MakeTriangle3 | include/primitives/triangle.hpp:30-41 | the constructor keeps the vertices in order and fixes the species from them |
| Triangles.MakeTriangle2 | include/primitives/triangle.hpp:30-41 | the same for 2D triangles |
| Triangles.SwapQR | include/primitives/triangle.hpp:45 | swap_QR maps (P,Q,R) to (P,R,Q) and keeps the species tag |
| Triangles.SwapClockwise | include/primitives/triangle.hpp:47-51 | swap_clockwise maps (P,Q,R) to (R,P,Q) and keeps the species tag |
| Triangles.SwapCounterclockwise | include/primitives/triangle.hpp:53-57 | swap_counterclockwise maps (P,Q,R) to (Q,R,P) and keeps the species tag |
| Triangles.RelabellingAlgebra | include/primitives/triangle.hpp:45-57 | the two rotations are mutual inverses, each has order three, two clockwise turns are one counter-clockwise turn, and swap_QR is an involution |
| Triangles.TriEq3 | include/primitives/triangle.hpp:60-64 | triangles with identical vertices compare equal, whatever their species tags |
| Triangles.RepeatedVertexIsDegenerate | include/primitives/triangle.hpp:30-76 | a triple with two equal vertices is never classified as a triangle |
| Triangles.PointSpeciesIsCollinear | include/primitives/triangle.hpp:66-76 | a point-species triple also passes the collinearity test |
| Triangles.SwapQRExample | test/basic_tests/src/triangle.cpp:8-18 | swap_QR exchanges Q and R of the test triangle |
| Triangles.RelativePointExample | test/basic_tests/src/triangle.cpp:56-66 | the triple pt_21, pt_22, pt_23, whose coordinates agree only up to the tolerance, classifies as a point |
| Triangles.GenericTripleExample | test/basic_tests/src/triangle.cpp:68-78 | the generic triple pt_31, pt_32, pt_33 does not classify as a point |
| Triangles.ProportionalSpeciesExample | test/basic_tests/src/triangle.cpp:83-93 | the triple P, P/2, P/3 classifies as segment |
| MagicProduct.Loc2D.Code | include/intersection/magic_product.hpp:13-18 | the 2D location codes are −1, 0, 1, with 0 exactly for Neutral |
| MagicProduct.Loc2D.Flip | include/intersection/magic_product.hpp:13-18 | flipping a 2D location negates its code |
| MagicProduct.Loc3D.Code | include/intersection/magic_product.hpp:41-46 | the 3D location codes are −1, 0, 1, with 0 exactly for On |
| MagicProduct.Loc3D.Flip | include/intersection/magic_product.hpp:41-46 | flipping a 3D location negates its code |
| MagicProduct.Sign2 | include/intersection/magic_product.hpp:33-38 | Neutral iff the value is tolerant-zero, Positive iff it is positive and not tolerant-zero, Negative iff negative and not tolerant-zero |
| MagicProduct.Sign3 | include/intersection/magic_product.hpp:73-78 | On iff the value is tolerant-zero, Above iff positive and not tolerant-zero, Below iff negative and not tolerant-zero |
| MagicProduct.Orient2D | include/intersection/magic_product.hpp:28-39 | the 2D magic_product is Neutral iff the orientation determinant of (P, Q, M) is tolerant-zero and Positive iff it is clearly positive |
| MagicProduct.Orient3D | include/intersection/magic_product.hpp:57-79 | the 3D magic_product is On iff det(M−P, M−Q, M−R) is tolerant-zero and Above iff it is clearly positive |
| MagicProduct.SignNegated | include/intersection/magic_product.hpp:33-78 | negating the determinant flips Positive/Negative and Above/Below and keeps Neutral/On |
| MagicProduct.Det2Symmetries | include/intersection/magic_product.hpp:31 | the 2D determinant is invariant under cyclic rotation of its arguments and changes sign when two are exchanged |
| MagicProduct.Orient2DSymmetries | include/intersection/magic_product.hpp:28-39 | the 2D sign is unchanged by cyclic rotation of (P, Q, M) and flips when P and Q are exchanged |
| MagicProduct.Orient2DDegenerate | include/intersection/magic_product.hpp:28-39 | three points two of which coincide are Neutral |
| MagicProduct.Det3Symmetries | include/intersection/magic_product.hpp:61-71 | the 3D determinant changes sign when Q and R are exchanged and is invariant under rotation of (P, Q, R) |
| MagicProduct.Orient3DSymmetries | include/intersection/magic_product.hpp:57-79 | exchanging Q and R flips Above and Below and keeps On; rotating (P, Q, R) keeps the location |
| MagicProduct.Orient3DAgainstGroundPlane | test/algorithm/src/magic_product.cpp:11-17 | against the plane through (1,0,0), (0,1,0), (0,0,0) the determinant is M.z, so the location is the tolerant sign of M.z |
| MagicProduct.Orient3DExamples | test/algorithm/src/magic_product.cpp:15-19 | the test points with z = 48.14, 0 and −2.865 are Above, On and Below; exchanging Q and R turns Above into Below |
| MagicProduct.Orient2DExamples | test/algorithm/src/intersection_2D_test.cpp:44-54 | the unit right triangle is Positive in every rotation and Negative reversed; collinear points are Neutral |
| MagicProduct.Orient2DAt | include/intersection/magic_product.hpp:28-39 | the 2D location of points given by coordinates is the tolerant sign of the determinant written out in them |
| MagicProduct.Orient2DIs | include/intersection/magic_product.hpp:33-38 | a determinant of at least ε gives Positive, at most −ε gives Negative, strictly between gives Neutral |
| MagicProduct.Orient3DAt | include/intersection/magic_product.hpp:57-79 | the 3D location of points given by coordinates is the tolerant sign of the determinant written out in them |
| MagicProduct.Orient3DIs | include/intersection/magic_product.hpp:73-78 | a determinant of at least ε gives Above, at most −ε gives Below, strictly between gives On |
| SpaceToPlane.ChooseAxis | include/intersection/space_to_plane.hpp:22-38 | the dropped axis carries a normal component that no other component tolerantly exceeds; for collinear vectors, which only a debug build rejects, the axis is never X, and it is Z when the normal is exactly zero |
| SpaceToPlane.LargestUpToTolerance | include/intersection/space_to_plane.hpp:32-37 | each of the three branches of deduce_coordinate_to_set_zero selects a value not tolerantly exceeded by the other two |
| SpaceToPlane.ChooseAxisSymmetric | include/intersection/space_to_plane.hpp:22-38 | exchanging the two spanning vectors does not change the dropped axis |
| SpaceToPlane.PointTriangleToPlane | include/intersection/space_to_plane.hpp:120-132 | the point and each triangle vertex are projected with the axis chosen from the triangle's PQ and PR |
| SpaceToPlane.TrianglePointToPlane | include/intersection/space_to_plane.hpp:134-138 | the (tr, pt) overload returns the same pair as (pt, tr) |
| SpaceToPlane.SegmentsToPlane | include/intersection/space_to_plane.hpp:140-151 | both segments are projected with one axis chosen from both direction vectors |
| SpaceToPlane.SegmentTriangleToPlane | include/intersection/space_to_plane.hpp:153-165 | the segment and the triangle are projected with the triangle's axis |
| SpaceToPlane.TriangleSegmentToPlane | include/intersection/space_to_plane.hpp:167-171 | the (tr, seg) overload returns the same pair as (seg, tr) |
| SpaceToPlane.TrianglesToPlane | include/intersection/space_to_plane.hpp:173-184 | both triangles are projected with the first triangle's axis |
| SpaceToPlane.ProjectPoint | include/intersection/space_to_plane.hpp:40-56 | projection loses only the dropped coordinate: lifting the projected point back with it restores the point |
| SpaceToPlane.ProjectSegment | include/intersection/space_to_plane.hpp:59-86 | both endpoints are projected so that lifting each back with its dropped coordinate restores it |
| SpaceToPlane.ProjectTriangle | include/intersection/space_to_plane.hpp:88-118 | the three vertices are projected so that lifting each back restores it, and the 2D constructor classifies the projected triangle afresh |
| SpaceToPlane.SegmentsToPlaneSymmetric | include/intersection/space_to_plane.hpp:140-151 | exchanging the two segments exchanges the projected pair |
| SpaceToPlane.ProjectionKeepsNormalComponent | include/intersection/space_to_plane.hpp:40-57 | over exact reals the 2D determinant of a projected triangle equals the dropped-axis component of (Q−P)×(R−P) |
| SpaceToPlane.ProjectionCommutesWithRelabelling | include/intersection/space_to_plane.hpp:88-118 | projecting a triangle commutes with swap_QR and swap_clockwise |
| PointPoint.PointPointIntersect | include/intersection/point_point.hpp:9-13 | two points intersect exactly when they compare equal with the coordinate tolerance; identical points intersect |
| PointPoint.PointPointExample | test/basic_tests/src/point.cpp:8-21 | (1,2,3) and (1.000001,2.000002,3.000003) intersect in both orders; (1,2,3) and (2,3,4) do not, in either order |
| PointPoint.PointPointSymmetric | include/intersection/point_point.hpp:9-13 | every point intersects itself, and the predicate is symmetric |
| PointSegment.PointSegmentIntersect | include/intersection/point_segment.hpp:14-27 | a point off the segment's line never intersects it; on the line the verdict is are_oppositely_directed(PM, QM) |
| PointSegment.SegmentPointIntersect | include/intersection/point_segment.hpp:29-33 | the (segment, point) overload agrees with (point, segment) |
| PointSegment.EndpointDecidedByDirection | include/intersection/point_segment.hpp:17-24 | a point tolerant-equal to P always passes the collinearity test, so only the direction helper decides |
| PointSegment.PointOffLineExample | test/algorithm/src/point_segment.cpp:11-13 | the origin against (1,0,0)–(0,−1,0) is false for every direction helper |
| PointSegment.PointOnLineExamples | test/algorithm/src/point_segment.cpp:15-25 | for the origin on the line of seg_2 and seg_4 the verdict is the direction helper's on the two endpoint vectors |
| PointTriangle.DeducePtLocation | include/intersection/point_triangle.hpp:28-54 | the product-and-sum table read as edge counts: Inside iff all three edges Positive; In_Vertex iff two Neutral and one Positive; On_Side iff one Neutral with two equal others, or two Neutral and one Negative; In_R1 iff one Negative and two Positive or all Negative; In_R2 for the rest — so every one of the 27 triples gets exactly one location |
| PointTriangle.DeducePtLocationSymmetric | include/intersection/point_triangle.hpp:28-54 | the location does not depend on the order of the three edges |
| PointTriangle.PointTriangleIntersect | include/intersection/point_triangle.hpp:58-81 | a point off the triangle's plane never intersects it; in the plane it intersects iff its projected location is Inside, In_Vertex or On_Side |
| PointTriangle.TrianglePointIntersect | include/intersection/point_triangle.hpp:83-87 | the (tr, pt) overload agrees with (pt, tr) |
| PointTriangle.FirstVertexIntersects | include/intersection/point_triangle.hpp:58-81 | a triangle's own vertex P intersects it iff its projection is not flat, whichever way the projection turns |
| PointTriangle.PointTriangleByParts | include/intersection/point_triangle.hpp:65-77 | for a point in the plane the verdict is the location deduced from the three projected edge orientations |
| PointTriangle.GroundTriangleAxis | include/intersection/space_to_plane.hpp:22-38 | a non-flat triangle in the plane z = 0 is projected along z |
| PointTriangle.GroundPointIsOn | include/intersection/magic_product.hpp:57-79 | a point of the plane z = 0 is On the plane of a triangle lying in it |
| PointTriangle.GroundVerdict | include/intersection/point_triangle.hpp:65-77 | for a point and a non-flat triangle in z = 0 the verdict follows from the (x, y) edge orientations |
| PointTriangle.DeduceExamples | include/intersection/point_triangle.hpp:28-54 | (+,−,−) is In_R2, (+,+,+) Inside, (0,+,0) In_Vertex, (0,−,−) On_Side and (−,−,−) In_R1 |
| PointTriangle.PointOutOfPlaneExample | test/algorithm/src/point_triangle.cpp:11-13 | the origin off the plane of tr_1 does not intersect it |
| PointTriangle.PointOutsideExample | test/algorithm/src/point_triangle.cpp:15-17 | the origin in the plane of tr_2 but outside it does not intersect it |
| PointTriangle.PointAtVertexExample | test/algorithm/src/point_triangle.cpp:19-21 | the origin at a vertex of tr_3 intersects it |
| PointTriangle.PointOnSideExample | test/algorithm/src/point_triangle.cpp:23-25 | the origin on a side of the clockwise tr_4 intersects it, since (0,−,−) is On_Side |
| PointTriangle.PointInteriorExample | test/algorithm/src/point_triangle.cpp:27-29 | the origin inside tr_5 intersects it |
| PointTriangle.ClockwiseInteriorIsRejected | include/intersection/point_triangle.hpp:69-77 | the projected triangle is not made counter-clockwise: the origin strictly inside tr_5 with Q and R exchanged sees (−,−,−), is In_R1 and is reported as not intersecting |
| SegmentSegment.CodeProductPositive | include/intersection/segment_segment.hpp:45-47 | the product of two location codes is positive exactly when both are the same strict side |
| SegmentSegment.Intersect2D | include/intersection/segment_segment.hpp:40-57 | the planar test passes iff neither segment has both endpoints strictly on one side of the other's line |
| SegmentSegment.Intersect2DSymmetric | include/intersection/segment_segment.hpp:40-57 | the planar test does not depend on the order of the segments |
| SegmentSegment.SharedEndpointIntersects2D | include/intersection/segment_segment.hpp:40-57 | planar segments sharing an endpoint pass, whichever endpoints coincide |
| SegmentSegment.SegmentSegmentIntersect | include/intersection/segment_segment.hpp:13-59 | segments failing the P1Q1, P2Q2, P1Q2 coplanarity test never intersect; parallel ones intersect iff P1Q2 is on the same line and the direction test says they overlap; otherwise iff neither projected segment lies strictly on one side of the other |
| SegmentSegment.SegmentSegmentSymmetric | include/intersection/segment_segment.hpp:13-59 | non-parallel segments coplanar in both orders get the same verdict in both orders |
| SegmentSegment.SharedEndpointIntersects | include/intersection/segment_segment.hpp:38-57 | non-parallel coplanar segments with a common endpoint intersect |
| SegmentSegment.GroundSegments | include/intersection/segment_segment.hpp:38-57 | for non-parallel segments in z = 0 the verdict is the planar test on the (x, y) coordinates |
| SegmentSegment.SkewLinesExample | test/algorithm/src/segment_segment.cpp:11-14 | seg and seg_1 on skew lines do not intersect, in either order |
| SegmentSegment.LinesMeetOutsideExample | test/algorithm/src/segment_segment.cpp:19-23 | seg and seg_2 do not intersect, in either order |
| SegmentSegment.LinesMeetBeyondBothExample | test/algorithm/src/segment_segment.cpp:25-28 | seg and seg_3 do not intersect, in either order |
| SegmentSegment.CommonEndExample | test/algorithm/src/segment_segment.cpp:30-33 | seg and seg_4 sharing an end intersect, in either order |
| SegmentSegment.EndInInteriorExample | test/algorithm/src/segment_segment.cpp:35-38 | seg and seg_5 intersect, in either order |
| SegmentSegment.InteriorsCrossExample | test/algorithm/src/segment_segment.cpp:40-43 | seg and seg_6 crossing in their interiors intersect, in either order |
| SegmentSegment.ParallelLinesExample | test/algorithm/src/segment_segment.cpp:46-49 | seg and seg_7 on distinct parallel lines do not intersect, in either order, whatever the direction helpers say |
| SegmentTriangle.CoplanarIntersect | include/intersection/segment_triangle.hpp:26-34 | a segment in the triangle's plane is decided by the planar test on both projections, with the projected triangle made counter-clockwise |
| SegmentTriangle.CrossingOrderAsWritten | include/intersection/segment_triangle.hpp:40-42 | the source's reordering swaps the endpoints exactly when Q is not Below the plane, and keeps the segment otherwise |
| SegmentTriangle.CrossingOrder | include/intersection/segment_triangle.hpp:40-42 | the corrected reordering returns the segment or its swap with the higher endpoint first |
| SegmentTriangle.SegmentTriangleIntersectAsWritten | include/intersection/segment_triangle.hpp:14-48 | endpoints strictly on one side of the plane miss; two endpoints On go to the planar test; otherwise the three edge tests run on the segment reordered as the source does it |
| SegmentTriangle.SegmentTriangleIntersect | include/intersection/segment_triangle.hpp:14-48 | the same three cases, with the crossing test run on the higher-endpoint-first order |
| SegmentTriangle.TriangleSegmentIntersect | include/intersection/segment_triangle.hpp:50-54 | the (tr, seg) overload forwards to the (seg, tr) test with the source's endpoint order; it agrees with the corrected order unless the segment runs from Above the plane to a point On it |
| SegmentTriangle.CrossingIgnoresEndpointOrder | include/intersection/segment_triangle.hpp:38-47 | with the corrected order, a segment whose endpoints lie at different heights gets the same answer whichever endpoint is named first |
| SegmentTriangle.AsWrittenDiffersOnlyAboveOn | include/intersection/segment_triangle.hpp:40-42 | the source's order and the corrected order agree unless P is Above the plane and Q is On it |
| SegmentTriangle.AsWrittenMissesTouchFromAbove | include/intersection/segment_triangle.hpp:40-46 | the segment (1,−13,−6)→(0,0,0) ends at a vertex of the test triangle, yet the source's order reports no intersection; the reversed segment and the corrected predicate report one |
| SegmentTriangle.GroundCoplanar | include/intersection/segment_triangle.hpp:24-34 | a segment and a non-flat triangle in z = 0 are both On, and the verdict is the planar test on (x, y) with the triangle made counter-clockwise |
| SegmentTriangle.TestTriangleCoplanar | test/algorithm/src/segment_triangle.cpp:9 | the clockwise test triangle is relabelled (0,1),(0,0),(1,0) before the planar test |
| SegmentTriangle.AboveThePlaneExample | test/algorithm/src/segment_triangle.cpp:14-16 | seg_1 on one side of the plane does not intersect |
| SegmentTriangle.EndInsideExample | test/algorithm/src/segment_triangle.cpp:18-20 | seg_2 ending inside the triangle intersects |
| SegmentTriangle.EndAtVertexExample | test/algorithm/src/segment_triangle.cpp:22-24 | seg_3 ending at a vertex intersects |
| SegmentTriangle.EndOnSideExample | test/algorithm/src/segment_triangle.cpp:26-28 | seg_4 ending on a side intersects |
| SegmentTriangle.VertexInsideSegmentExample | test/algorithm/src/segment_triangle.cpp:30-32 | seg_5 through a vertex intersects |
| SegmentTriangle.SideCrossesSegmentExample | test/algorithm/src/segment_triangle.cpp:34-36 | seg_6 through a side intersects |
| SegmentTriangle.InteriorsCrossExample | test/algorithm/src/segment_triangle.cpp:38-40 | seg_7 through the interior intersects |
| SegmentTriangle.CoplanarEndInsideExample | test/algorithm/src/segment_triangle.cpp:47-49 | coplanar seg_8 with an end inside intersects |
| SegmentTriangle.CoplanarEndOnSideExample | test/algorithm/src/segment_triangle.cpp:51-53 | coplanar seg_9 with an end on a side intersects |
| SegmentTriangle.CoplanarEndAtVertexExample | test/algorithm/src/segment_triangle.cpp:55-57 | coplanar seg_10 with an end at a vertex intersects |
| SegmentTriangle.CoplanarBothInR1Example | test/algorithm/src/segment_triangle.cpp:59-61 | coplanar seg_11 with both ends in R1 does not intersect |
| SegmentTriangle.CoplanarR1ToSideExample | test/algorithm/src/segment_triangle.cpp:63-65 | coplanar seg_12 from R1 to the side RP intersects |
| SegmentTriangle.CoplanarR1ToR12Example | test/algorithm/src/segment_triangle.cpp:67-69 | coplanar seg_13 from R1 to R12 does not intersect |
| SegmentTriangle.CoplanarR1AcrossToR13Example | test/algorithm/src/segment_triangle.cpp:71-73 | coplanar seg_14 from R1 across the triangle to R13 intersects |
| SegmentTriangle.CoplanarR1ToR14Example | test/algorithm/src/segment_triangle.cpp:75-77 | coplanar seg_15 from R1 to R14 does not intersect |
| Intersection2D.Normalized | include/intersection/intersection_2D.hpp:122-138 | only a cyclic rotation is applied; in In_R1 beyond exactly one edge, that edge becomes RP and the other two are Positive; in In_R2 inside exactly one edge, that edge becomes PQ and the other two are not Positive |
| Intersection2D.MakeCounterclockwise | include/intersection/triangle_triangle.hpp:154-158 | the callers' preparation returns the triangle or its swap_QR, which turns counter-clockwise unless the projection is flat |
| Intersection2D.SegmentTestR1 | include/intersection/intersection_2D.hpp:21-30 | with seg.P beyond the edge RP: a Q beyond RP's line keeps the segment out; otherwise the segment meets the triangle exactly when Q lies in the wedge at seg.P between the rays to P and to R |
| Intersection2D.SegmentTestR2 | include/intersection/intersection_2D.hpp:32-44 | with seg.P in the region of vertex R: a Q beyond RP's line or beyond QR keeps the segment out; otherwise it meets the triangle exactly when Q lies in the wedge at seg.P between the rays to P and to Q and not beyond QR |
| Intersection2D.SegmentR1EndingAtEdge | include/intersection/intersection_2D.hpp:21-30 | a segment from beyond the edge RP that ends at P or at R meets the triangle |
| Intersection2D.SegmentR2EndingAtVertex | include/intersection/intersection_2D.hpp:32-44 | a segment from the region of vertex R that ends at R meets the triangle |
| Intersection2D.TriangleTestR1 | include/intersection/intersection_2D.hpp:48-70 | with P1 beyond the edge RP, for each region of Q1: R11 with R1 also beyond RP is a miss; Q1 alone beyond RP leaves edge Q1R1 to decide against R2 and P1P2; R12 is a miss, R13 (the wedge at P1 between P2 and R2) a hit, and R14 leaves R1 to decide against P2 |
| Intersection2D.TriangleR1TouchingEdge | include/intersection/intersection_2D.hpp:48-70 | a triangle with P1 beyond the edge RP and Q1 at P or at R meets the other triangle |
| Intersection2D.TriangleTestR2 | include/intersection/intersection_2D.hpp:72-103 | with P1 in the region of vertex R, for each region of Q1: beyond RP with R1 also beyond is a miss, otherwise the side of Q1R1 picks which wedge R1 must lie in (R21 to R23); beyond QR (R24) it needs P1 to see Q1 past Q2 and R1 inside; otherwise (R22, R25) the wedges at P1 decide |
| Intersection2D.TriangleR2TouchingVertex | include/intersection/intersection_2D.hpp:72-103 | a triangle with P1 in the region of vertex R and Q1 at R meets the other triangle |
| Intersection2D.SegmentIntersect2D | include/intersection/intersection_2D.hpp:105-143 | a segment whose P is Inside, In_Vertex or On_Side intersects at once; in In_R1 or In_R2 the matching region test decides on the rotated triangle; the throwing default cannot be reached |
| Intersection2D.TriangleIntersect2D | include/intersection/intersection_2D.hpp:105-143 | the same dispatch with the triangle region tests |
| Intersection2D.AreaIdentity | include/intersection/intersection_2D.hpp:108-110 | the three edge determinants of a point sum to the triangle's own determinant |
| Intersection2D.CounterclockwiseBoundsNegatives | include/intersection/intersection_2D.hpp:122-129 | no point is beyond all three edges of a counter-clockwise triangle, so In_R1 there means beyond exactly one edge |
| Intersection2D.InR2HasOnePositive | include/intersection/intersection_2D.hpp:131-138 | outside the all-Neutral case, In_R2 means inside exactly one edge |
| Intersection2D.RotationPermutesEdges | include/primitives/triangle.hpp:47-51 | swap_clockwise permutes the three edge orientations cyclically and keeps the location and the counts |
| Intersection2D.NormalizedIsCanonical | include/intersection/intersection_2D.hpp:122-138 | for a counter-clockwise triangle the rotation chosen does not depend on which vertex is labelled P |
| Intersection2D.SegmentIntersect2DRotationInvariant | include/intersection/intersection_2D.hpp:105-143 | the planar segment verdict does not change when a counter-clockwise triangle is relabelled cyclically |
| Intersection2D.TriangleIntersect2DRotationInvariant | include/intersection/intersection_2D.hpp:105-143 | the planar triangle verdict does not change when a counter-clockwise triangle is relabelled cyclically |
| Intersection2D.RegionR1Case1Example | test/algorithm/src/intersection_2D_test.cpp:63-75 | T1_1 against T2 does not intersect |
| Intersection2D.RegionR1Case4Example | test/algorithm/src/intersection_2D_test.cpp:63-78 | T1_4 against T2 intersects |
| Intersection2D.RegionR1Case9Example | test/algorithm/src/intersection_2D_test.cpp:63-83 | T1_9 against T2 intersects |
| Intersection2D.RegionR2Case3Example | test/algorithm/src/intersection_2D_test.cpp:88-108 | T1_3 against T2 intersects |
| Intersection2D.RegionR2Case11Example | test/algorithm/src/intersection_2D_test.cpp:88-116 | T1_11 against T2 does not intersect |
| Intersection2D.RegionR2Case15Example | test/algorithm/src/intersection_2D_test.cpp:88-120 | T1_15 against T2 intersects |
| TriangleTriangle.TransformTriangle | include/intersection/triangle_triangle.hpp:18-96 | transform_triangle only rotates the first triangle (clockwise, counter-clockwise or not at all), and either leaves the second triangle and its Q/R locations alone or swaps its Q and R together with their locations |
| TriangleTriangle.RelabellingIsolates | include/intersection/triangle_triangle.hpp:27-93 | for every non-uniform triple of locations, the rotation chosen and the flip of every label when the plane is reflected leave P alone on its side: P above with Q and R not above, or P on with Q and R below |
| TriangleTriangle.LocationsUnderRelabelling | include/primitives/triangle.hpp:47-57 | rotating the plane's points keeps each vertex's location against it; swapping the plane's Q and R flips every location |
| TriangleTriangle.TransformIsolates | include/intersection/triangle_triangle.hpp:18-96 | called with the true locations of a triangle that reaches the other's plane, transform_triangle isolates its P against the relabelled plane, and the Q/R locations it hands back are the true ones of the relabelled second triangle |
| TriangleTriangle.Canonicalize | include/intersection/triangle_triangle.hpp:110-117 | the two relabellings of are_intersecting_3D return a vertex permutation of each input triangle |
| TriangleTriangle.CanonicalIsIsolated | include/intersection/triangle_triangle.hpp:102-121 | when each triangle reaches the other's plane, after both relabellings each P lies alone on its side of the other plane, and the location recomputed between the steps is tr_1m's P against tr_2m |
| TriangleTriangle.AreIntersecting3D | include/intersection/triangle_triangle.hpp:98-133 | when the second triangle's vertices all lie on one side of the first one's plane, or all on it, the spatial test answers false |
| TriangleTriangle.TriangleTriangleIntersect | include/intersection/triangle_triangle.hpp:137-167 | a triangle strictly on one side of the other's plane never meets it, whichever of the two it is; three On locations hand over to the planar test; every other case goes to the spatial test with the first triangle's locations |
| TriangleTriangle.GroundCoplanar | include/intersection/triangle_triangle.hpp:148-160 | two triangles in the plane z = 0, the first not flat, are coplanar, and the verdict is the planar test on their (x, y) coordinates, each made counter-clockwise |
| TriangleTriangleExamples.Tr1Example | test/algorithm/src/triangle_triangle.cpp:11-15 | tr and tr_1 lie in parallel planes and do not intersect |
| TriangleTriangleExamples.Tr1SwappedExample | test/algorithm/src/triangle_triangle.cpp:11-16 | tr_1 and tr do not intersect |
| TriangleTriangleExamples.Tr2Example | test/algorithm/src/triangle_triangle.cpp:18-20 | tr and tr_2 do not intersect: neither crosses the other's plane |
| TriangleTriangleExamples.Tr2SwappedExample | test/algorithm/src/triangle_triangle.cpp:18-21 | tr_2 and tr do not intersect |
| TriangleTriangleExamples.Tr3Example | test/algorithm/src/triangle_triangle.cpp:23-25 | tr and tr_3 do not intersect though their planes cross |
| TriangleTriangleExamples.Tr3SwappedExample | test/algorithm/src/triangle_triangle.cpp:23-26 | tr_3 and tr do not intersect |
| TriangleTriangleExamples.Tr4Example | test/algorithm/src/triangle_triangle.cpp:28-30 | tr and tr_4, whose QR sides coincide, intersect |
| TriangleTriangleExamples.Tr4SwappedExample | test/algorithm/src/triangle_triangle.cpp:28-31 | tr_4 and tr intersect |
| TriangleTriangleExamples.Tr5Example | test/algorithm/src/triangle_triangle.cpp:33-35 | tr and tr_5, whose QR sides overlap, intersect |
| TriangleTriangleExamples.Tr5SwappedExample | test/algorithm/src/triangle_triangle.cpp:33-36 | tr_5 and tr intersect |
| TriangleTriangleExamples.Tr6Example | test/algorithm/src/triangle_triangle.cpp:38-40 | tr and tr_6, sharing the vertex R, intersect |
| TriangleTriangleExamples.Tr6SwappedExample | test/algorithm/src/triangle_triangle.cpp:38-41 | tr_6 and tr intersect |
| TriangleTriangleExamples.Tr7Example | test/algorithm/src/triangle_triangle.cpp:43-45 | tr and tr_7, sharing the vertex Q, intersect |
| TriangleTriangleExamples.Tr7SwappedExample | test/algorithm/src/triangle_triangle.cpp:43-46 | tr_7 and tr intersect |
| TriangleTriangleExamples.Tr8Example | test/algorithm/src/triangle_triangle.cpp:48-50 | tr and tr_8, sharing the vertex P, intersect |
| TriangleTriangleExamples.Tr8SwappedExample | test/algorithm/src/triangle_triangle.cpp:48-51 | tr_8 and tr intersect |
| TriangleTriangleExamples.Tr9Example | test/algorithm/src/triangle_triangle.cpp:53-55 | tr and tr_9, whose cuts of the common line coincide, intersect |
| TriangleTriangleExamples.Tr9SwappedExample | test/algorithm/src/triangle_triangle.cpp:53-56 | tr_9 and tr intersect |
| TriangleTriangleExamples.Tr10Example | test/algorithm/src/triangle_triangle.cpp:58-60 | tr and tr_10, whose cuts overlap, intersect |
| TriangleTriangleExamples.Tr10SwappedExample | test/algorithm/src/triangle_triangle.cpp:58-61 | tr_10 and tr intersect |
| TriangleTriangleExamples.Tr11Example | test/algorithm/src/triangle_triangle.cpp:63-65 | tr and tr_11, whose cuts share one point, intersect |
| TriangleTriangleExamples.Tr11SwappedExample | test/algorithm/src/triangle_triangle.cpp:63-66 | tr_11 and tr intersect |
| TriangleTriangleExamples.Tr12Example | test/algorithm/src/triangle_triangle.cpp:68-70 | tr and tr_12, whose cuts share one point, intersect |
| TriangleTriangleExamples.Tr12SwappedExample | test/algorithm/src/triangle_triangle.cpp:68-71 | tr_12 and tr intersect |
| TriangleTriangleExamples.Tr13Example | test/algorithm/src/triangle_triangle.cpp:73-75 | tr and tr_13, one cut inside the other, intersect |
| TriangleTriangleExamples.Tr13SwappedExample | test/algorithm/src/triangle_triangle.cpp:73-76 | tr_13 and tr intersect |
| TriangleTriangleExamples.Tr14Example | test/algorithm/src/triangle_triangle.cpp:78-80 | tr and tr_14, whose cuts are disjoint, do not intersect |
| TriangleTriangleExamples.Tr14SwappedExample | test/algorithm/src/triangle_triangle.cpp:78-81 | tr_14 and tr do not intersect |
| TriangleTriangleExamples.PlanarInteriorExample | test/algorithm/src/triangle_triangle.cpp:88-92 | coplanar tr_1, whose P lies inside tr, intersects tr |
| TriangleTriangleExamples.PlanarInteriorSwappedExample | test/algorithm/src/triangle_triangle.cpp:88-93 | tr intersects tr_1 |
| TriangleTriangleExamples.PlanarRegionR11Example | test/algorithm/src/triangle_triangle.cpp:128-138 | coplanar tr_1 with P in R1 and Q, R in R11 does not intersect tr |
| TriangleTriangleExamples.PlanarRegionR11SwappedExample | test/algorithm/src/triangle_triangle.cpp:128-139 | tr does not intersect tr_1 |
| PlanarExamples.PlanarEasyCase2Example | test/algorithm/src/triangle_triangle.cpp:97-98 | tr_2 intersects tr in the plane z = 0 |
| PlanarExamples.PlanarEasyCase2SwappedExample | test/algorithm/src/triangle_triangle.cpp:97-99 | tr intersects tr_2 in the plane z = 0 |
| PlanarExamples.PlanarEasyCase3Example | test/algorithm/src/triangle_triangle.cpp:101-102 | tr_3 intersects tr in the plane z = 0 |
| PlanarExamples.PlanarEasyCase3SwappedExample | test/algorithm/src/triangle_triangle.cpp:101-103 | tr intersects tr_3 in the plane z = 0 |
| PlanarExamples.PlanarEasyCase4Example | test/algorithm/src/triangle_triangle.cpp:105-106 | tr_4 intersects tr in the plane z = 0 |
| PlanarExamples.PlanarEasyCase4SwappedExample | test/algorithm/src/triangle_triangle.cpp:105-107 | tr intersects tr_4 in the plane z = 0 |
| PlanarExamples.PlanarEasyCase5Example | test/algorithm/src/triangle_triangle.cpp:112-113 | tr_5 intersects tr in the plane z = 0 |
| PlanarExamples.PlanarEasyCase5SwappedExample | test/algorithm/src/triangle_triangle.cpp:112-114 | tr intersects tr_5 in the plane z = 0 |
| PlanarExamples.PlanarEasyCase6Example | test/algorithm/src/triangle_triangle.cpp:116-117 | tr_6 intersects tr in the plane z = 0 |
| PlanarExamples.PlanarEasyCase6SwappedExample | test/algorithm/src/triangle_triangle.cpp:116-118 | tr intersects tr_6 in the plane z = 0 |
| PlanarExamples.PlanarEasyCase7Example | test/algorithm/src/triangle_triangle.cpp:120-121 | tr_7 intersects tr in the plane z = 0 |
| PlanarExamples.PlanarEasyCase7SwappedExample | test/algorithm/src/triangle_triangle.cpp:120-122 | tr intersects tr_7 in the plane z = 0 |
| PlanarExamples.PlanarR1Case2Example | test/algorithm/src/triangle_triangle.cpp:142-143 | tr_2 intersects tr in the plane z = 0 |
| PlanarExamples.PlanarR1Case2SwappedExample | test/algorithm/src/triangle_triangle.cpp:142-144 | tr intersects tr_2 in the plane z = 0 |
| PlanarExamples.PlanarR1Case3Example | test/algorithm/src/triangle_triangle.cpp:147-148 | tr_3 intersects tr in the plane z = 0 |
| PlanarExamples.PlanarR1Case3SwappedExample | test/algorithm/src/triangle_triangle.cpp:147-149 | tr intersects tr_3 in the plane z = 0 |
| PlanarExamples.PlanarR1Case4Example | test/algorithm/src/triangle_triangle.cpp:152-153 | tr_4 intersects tr in the plane z = 0 |
| PlanarExamples.PlanarR1Case4SwappedExample | test/algorithm/src/triangle_triangle.cpp:152-154 | tr intersects tr_4 in the plane z = 0 |
| PlanarExamples.PlanarR1Case5Example | test/algorithm/src/triangle_triangle.cpp:159-160 | tr_5 does not intersect tr in the plane z = 0 |
| PlanarExamples.PlanarR1Case5SwappedExample | test/algorithm/src/triangle_triangle.cpp:159-161 | tr does not intersect tr_5 in the plane z = 0 |
| PlanarExamples.PlanarR1Case6Example | test/algorithm/src/triangle_triangle.cpp:165-166 | tr_6 intersects tr in the plane z = 0 |
| PlanarExamples.PlanarR1Case6SwappedExample | test/algorithm/src/triangle_triangle.cpp:165-167 | tr intersects tr_6 in the plane z = 0 |
| PlanarExamples.PlanarR1Case7Example | test/algorithm/src/triangle_triangle.cpp:169-170 | tr_7 intersects tr in the plane z = 0 |
| PlanarExamples.PlanarR1Case7SwappedExample | test/algorithm/src/triangle_triangle.cpp:169-171 | tr intersects tr_7 in the plane z = 0 |
| PlanarExamples.PlanarR1Case8Example | test/algorithm/src/triangle_triangle.cpp:173-174 | tr_8 intersects tr in the plane z = 0 |
| PlanarExamples.PlanarR1Case8SwappedExample | test/algorithm/src/triangle_triangle.cpp:173-175 | tr intersects tr_8 in the plane z = 0 |
| PlanarExamples.PlanarR1Case9Example | test/algorithm/src/triangle_triangle.cpp:177-178 | tr_9 intersects tr in the plane z = 0 |
| PlanarExamples.PlanarR1Case9SwappedExample | test/algorithm/src/triangle_triangle.cpp:177-179 | tr intersects tr_9 in the plane z = 0 |
| PlanarExamples.PlanarR1Case10Example | test/algorithm/src/triangle_triangle.cpp:181-182 | tr_10 intersects tr in the plane z = 0 |
| PlanarExamples.PlanarR1Case10SwappedExample | test/algorithm/src/triangle_triangle.cpp:181-183 | tr intersects tr_10 in the plane z = 0 |
| PlanarExamples.PlanarR1Case11Example | test/algorithm/src/triangle_triangle.cpp:190-191 | tr_11 intersects tr in the plane z = 0 |
| PlanarExamples.PlanarR1Case11SwappedExample | test/algorithm/src/triangle_triangle.cpp:190-192 | tr intersects tr_11 in the plane z = 0 |
| PlanarExamples.PlanarR1Case12Example | test/algorithm/src/triangle_triangle.cpp:194-195 | tr_12 intersects tr in the plane z = 0 |
| PlanarExamples.PlanarR1Case12SwappedExample | test/algorithm/src/triangle_triangle.cpp:194-196 | tr intersects tr_12 in the plane z = 0 |
| PlanarExamples.PlanarR1Case13Example | test/algorithm/src/triangle_triangle.cpp:198-199 | tr_13 intersects tr in the plane z = 0 |
| PlanarExamples.PlanarR1Case13SwappedExample | test/algorithm/src/triangle_triangle.cpp:198-200 | tr intersects tr_13 in the plane z = 0 |
| PlanarExamples.PlanarR1Case14Example | test/algorithm/src/triangle_triangle.cpp:202-203 | tr_14 intersects tr in the plane z = 0 |
| PlanarExamples.PlanarR1Case14SwappedExample | test/algorithm/src/triangle_triangle.cpp:202-204 | tr intersects tr_14 in the plane z = 0 |
| PlanarExamples.PlanarR1Case15Example | test/algorithm/src/triangle_triangle.cpp:206-207 | tr_15 intersects tr in the plane z = 0 |
| PlanarExamples.PlanarR1Case15SwappedExample | test/algorithm/src/triangle_triangle.cpp:206-208 | tr intersects tr_15 in the plane z = 0 |
| PlanarExamples.PlanarR1Case16Example | test/algorithm/src/triangle_triangle.cpp:210-211 | tr_16 does not intersect tr in the plane z = 0 |
| PlanarExamples.PlanarR1Case16SwappedExample | test/algorithm/src/triangle_triangle.cpp:210-212 | tr does not intersect tr_16 in the plane z = 0 |
| PlanarExamples.PlanarR1Case17Example | test/algorithm/src/triangle_triangle.cpp:214-215 | tr_17 does not intersect tr in the plane z = 0 |
| PlanarExamples.PlanarR1Case17SwappedExample | test/algorithm/src/triangle_triangle.cpp:214-216 | tr does not intersect tr_17 in the plane z = 0 |
| PlanarExamples.PlanarR21Case1Example | test/algorithm/src/triangle_triangle.cpp:228-229 | tr_1 does not intersect tr in the plane z = 0 |
| PlanarExamples.PlanarR21Case1SwappedExample | test/algorithm/src/triangle_triangle.cpp:228-230 | tr does not intersect tr_1 in the plane z = 0 |
| PlanarExamples.PlanarR21Case2Example | test/algorithm/src/triangle_triangle.cpp:240-241 | tr_2 does not intersect tr in the plane z = 0 |
| PlanarExamples.PlanarR21Case2SwappedExample | test/algorithm/src/triangle_triangle.cpp:240-242 | tr does not intersect tr_2 in the plane z = 0 |
| PlanarExamples.PlanarR21Case3Example | test/algorithm/src/triangle_triangle.cpp:246-247 | tr_3 intersects tr in the plane z = 0 |
| PlanarExamples.PlanarR21Case3SwappedExample | test/algorithm/src/triangle_triangle.cpp:246-248 | tr intersects tr_3 in the plane z = 0 |
| PlanarExamples.PlanarR21Case4Example | test/algorithm/src/triangle_triangle.cpp:252-253 | tr_4 intersects tr in the plane z = 0 |
| PlanarExamples.PlanarR21Case4SwappedExample | test/algorithm/src/triangle_triangle.cpp:252-254 | tr intersects tr_4 in the plane z = 0 |
| PlanarExamples.PlanarR21Case5Example | test/algorithm/src/triangle_triangle.cpp:258-259 | tr_5 intersects tr in the plane z = 0 |
| PlanarExamples.PlanarR21Case5SwappedExample | test/algorithm/src/triangle_triangle.cpp:258-260 | tr intersects tr_5 in the plane z = 0 |
| PlanarExamples.PlanarR21Case6Example | test/algorithm/src/triangle_triangle.cpp:264-265 | tr_6 does not intersect tr in the plane z = 0 |
| PlanarExamples.PlanarR21Case6SwappedExample | test/algorithm/src/triangle_triangle.cpp:264-266 | tr does not intersect tr_6 in the plane z = 0 |
| PlanarExamples.PlanarR21Case7Example | test/algorithm/src/triangle_triangle.cpp:275-276 | tr_7 intersects tr in the plane z = 0 |
| PlanarExamples.PlanarR21Case7SwappedExample | test/algorithm/src/triangle_triangle.cpp:275-277 | tr intersects tr_7 in the plane z = 0 |
| PlanarExamples.PlanarR21Case8Example | test/algorithm/src/triangle_triangle.cpp:281-282 | tr_8 intersects tr in the plane z = 0 |
| PlanarExamples.PlanarR21Case8SwappedExample | test/algorithm/src/triangle_triangle.cpp:281-283 | tr intersects tr_8 in the plane z = 0 |
| PlanarExamples.PlanarR21Case9Example | test/algorithm/src/triangle_triangle.cpp:287-288 | tr_9 intersects tr in the plane z = 0 |
| PlanarExamples.PlanarR21Case9SwappedExample | test/algorithm/src/triangle_triangle.cpp:287-289 | tr intersects tr_9 in the plane z = 0 |
| PlanarExamples.PlanarR21Case10Example | test/algorithm/src/triangle_triangle.cpp:293-294 | tr_10 does not intersect tr in the plane z = 0 |
| PlanarExamples.PlanarR21Case10SwappedExample | test/algorithm/src/triangle_triangle.cpp:293-295 | tr does not intersect tr_10 in the plane z = 0 |
| PlanarExamples.PlanarR21Case11Example | test/algorithm/src/triangle_triangle.cpp:304-305 | tr_11 intersects tr in the plane z = 0 |
| PlanarExamples.PlanarR21Case11SwappedExample | test/algorithm/src/triangle_triangle.cpp:304-306 | tr intersects tr_11 in the plane z = 0 |
| PlanarExamples.PlanarR21Case12Example | test/algorithm/src/triangle_triangle.cpp:310-311 | tr_12 intersects tr in the plane z = 0 |
| PlanarExamples.PlanarR21Case12SwappedExample | test/algorithm/src/triangle_triangle.cpp:310-312 | tr intersects tr_12 in the plane z = 0 |
| PlanarExamples.PlanarR21Case13Example | test/algorithm/src/triangle_triangle.cpp:316-317 | tr_13 intersects tr in the plane z = 0 |
| PlanarExamples.PlanarR21Case13SwappedExample | test/algorithm/src/triangle_triangle.cpp:316-318 | tr intersects tr_13 in the plane z = 0 |
| PlanarExamples.PlanarR21Case14Example | test/algorithm/src/triangle_triangle.cpp:322-323 | tr_14 intersects tr in the plane z = 0 |
| PlanarExamples.PlanarR21Case14SwappedExample | test/algorithm/src/triangle_triangle.cpp:322-324 | tr intersects tr_14 in the plane z = 0 |
| PlanarExamples.PlanarR21Case15Example | test/algorithm/src/triangle_triangle.cpp:328-329 | tr_15 does not intersect tr in the plane z = 0 |
| PlanarExamples.PlanarR21Case15SwappedExample | test/algorithm/src/triangle_triangle.cpp:328-330 | tr does not intersect tr_15 in the plane z = 0 |
| PlanarExamples.PlanarR21Case16Example | test/algorithm/src/triangle_triangle.cpp:334-335 | tr_16 does not intersect tr in the plane z = 0 |
| PlanarExamples.PlanarR21Case16SwappedExample | test/algorithm/src/triangle_triangle.cpp:334-336 | tr does not intersect tr_16 in the plane z = 0 |
| PlanarExamples.PlanarR21Case17Example | test/algorithm/src/triangle_triangle.cpp:340-341 | tr_17 does not intersect tr in the plane z = 0 |
| PlanarExamples.PlanarR21Case17SwappedExample | test/algorithm/src/triangle_triangle.cpp:340-342 | tr does not intersect tr_17 in the plane z = 0 |
| PlanarExamples.PlanarR21Case18Example | test/algorithm/src/triangle_triangle.cpp:346-347 | tr_18 does not intersect tr in the plane z = 0 |
| PlanarExamples.PlanarR21Case18SwappedExample | test/algorithm/src/triangle_triangle.cpp:346-348 | tr does not intersect tr_18 in the plane z = 0 |
| PlanarExamples.PlanarR21Case19Example | test/algorithm/src/triangle_triangle.cpp:352-353 | tr_19 does not intersect tr in the plane z = 0 |
| PlanarExamples.PlanarR21Case19SwappedExample | test/algorithm/src/triangle_triangle.cpp:352-354 | tr does not intersect tr_19 in the plane z = 0 |
| PlanarExamples.PlanarR22R25Case1Example | test/algorithm/src/triangle_triangle.cpp:367-368 | tr_1 does not intersect tr in the plane z = 0 |
| PlanarExamples.PlanarR22R25Case1SwappedExample | test/algorithm/src/triangle_triangle.cpp:367-369 | tr does not intersect tr_1 in the plane z = 0 |
| PlanarExamples.PlanarR22R25Case2Example | test/algorithm/src/triangle_triangle.cpp:377-378 | tr_2 intersects tr in the plane z = 0 |
| PlanarExamples.PlanarR22R25Case2SwappedExample | test/algorithm/src/triangle_triangle.cpp:377-379 | tr intersects tr_2 in the plane z = 0 |
| PlanarExamples.PlanarR22R25Case3Example | test/algorithm/src/triangle_triangle.cpp:383-384 | tr_3 intersects tr in the plane z = 0 |
| PlanarExamples.PlanarR22R25Case3SwappedExample | test/algorithm/src/triangle_triangle.cpp:383-385 | tr intersects tr_3 in the plane z = 0 |
| PlanarExamples.PlanarR22R25Case4Example | test/algorithm/src/triangle_triangle.cpp:389-390 | tr_4 intersects tr in the plane z = 0 (the expectation of a commented-out line) |
| PlanarExamples.PlanarR22R25Case4SwappedExample | test/algorithm/src/triangle_triangle.cpp:389-391 | tr intersects tr_4 in the plane z = 0 |
| PlanarExamples.PlanarR22R25Case5Example | test/algorithm/src/triangle_triangle.cpp:395-396 | tr_5 intersects tr in the plane z = 0 |
| PlanarExamples.PlanarR22R25Case5SwappedExample | test/algorithm/src/triangle_triangle.cpp:395-397 | tr intersects tr_5 in the plane z = 0 |
| PlanarExamples.PlanarR22R25Case6Example | test/algorithm/src/triangle_triangle.cpp:401-402 | tr_6 does not intersect tr in the plane z = 0 |
| PlanarExamples.PlanarR22R25Case6SwappedExample | test/algorithm/src/triangle_triangle.cpp:401-403 | tr does not intersect tr_6 in the plane z = 0 |
| PlanarExamples.PlanarR22R25Case7Example | test/algorithm/src/triangle_triangle.cpp:407-408 | tr_7 does not intersect tr in the plane z = 0 |
| PlanarExamples.PlanarR22R25Case7SwappedExample | test/algorithm/src/triangle_triangle.cpp:407-409 | tr does not intersect tr_7 in the plane z = 0 |
| PlanarExamples.PlanarR22R25Case8Example | test/algorithm/src/triangle_triangle.cpp:413-414 | tr_8 does not intersect tr in the plane z = 0 |
| PlanarExamples.PlanarR22R25Case8SwappedExample | test/algorithm/src/triangle_triangle.cpp:413-415 | tr does not intersect tr_8 in the plane z = 0 |
| PlanarExamples.PlanarR22R25Case9Example | test/algorithm/src/triangle_triangle.cpp:419-420 | tr_9 does not intersect tr in the plane z = 0 |
| PlanarExamples.PlanarR22R25Case9SwappedExample | test/algorithm/src/triangle_triangle.cpp:419-421 | tr does not intersect tr_9 in the plane z = 0 |
| PlanarExamples.PlanarR22R25Case10Example | test/algorithm/src/triangle_triangle.cpp:425-426 | tr_10 does not intersect tr in the plane z = 0 |
| PlanarExamples.PlanarR22R25Case10SwappedExample | test/algorithm/src/triangle_triangle.cpp:425-427 | tr does not intersect tr_10 in the plane z = 0 |
| PlanarExamples.PlanarR22R25Case11Example | test/algorithm/src/triangle_triangle.cpp:434-435 | tr_11 does not intersect tr in the plane z = 0 |
| PlanarExamples.PlanarR22R25Case11SwappedExample | test/algorithm/src/triangle_triangle.cpp:434-436 | tr does not intersect tr_11 in the plane z = 0 |
| PlanarExamples.PlanarR24Case1Example | test/algorithm/src/triangle_triangle.cpp:448-449 | tr_1 intersects tr in the plane z = 0 |
| PlanarExamples.PlanarR24Case1SwappedExample | test/algorithm/src/triangle_triangle.cpp:448-450 | tr intersects tr_1 in the plane z = 0 |
| PlanarExamples.PlanarR24Case2Example | test/algorithm/src/triangle_triangle.cpp:454-455 | tr_2 intersects tr in the plane z = 0 |
| PlanarExamples.PlanarR24Case2SwappedExample | test/algorithm/src/triangle_triangle.cpp:454-456 | tr intersects tr_2 in the plane z = 0 |
| PlanarExamples.PlanarR24Case3Example | test/algorithm/src/triangle_triangle.cpp:460-461 | tr_3 intersects tr in the plane z = 0 |
| PlanarExamples.PlanarR24Case3SwappedExample | test/algorithm/src/triangle_triangle.cpp:460-462 | tr intersects tr_3 in the plane z = 0 |
| PlanarExamples.PlanarR24Case4Example | test/algorithm/src/triangle_triangle.cpp:466-467 | tr_4 intersects tr in the plane z = 0 |
| PlanarExamples.PlanarR24Case4SwappedExample | test/algorithm/src/triangle_triangle.cpp:466-468 | tr intersects tr_4 in the plane z = 0 |
| PlanarExamples.PlanarR24Case5Example | test/algorithm/src/triangle_triangle.cpp:472-473 | tr_5 does not intersect tr in the plane z = 0 |
| PlanarExamples.PlanarR24Case5SwappedExample | test/algorithm/src/triangle_triangle.cpp:472-474 | tr does not intersect tr_5 in the plane z = 0 |
| PlanarExamples.PlanarR24Case6Example | test/algorithm/src/triangle_triangle.cpp:478-479 | tr_6 does not intersect tr in the plane z = 0 |
| PlanarExamples.PlanarR24Case6SwappedExample | test/algorithm/src/triangle_triangle.cpp:478-480 | tr does not intersect tr_6 in the plane z = 0 |
| PlanarExamples.PlanarR24Case7Example | test/algorithm/src/triangle_triangle.cpp:484-485 | tr_7 does not intersect tr in the plane z = 0 |
| PlanarExamples.PlanarR24Case7SwappedExample | test/algorithm/src/triangle_triangle.cpp:484-486 | tr does not intersect tr_7 in the plane z = 0 |
| PlanarExamples.PlanarR24Case8Example | test/algorithm/src/triangle_triangle.cpp:490-491 | tr_8 does not intersect tr in the plane z = 0 |
| PlanarExamples.PlanarR24Case8SwappedExample | test/algorithm/src/triangle_triangle.cpp:490-492 | tr does not intersect tr_8 in the plane z = 0 |
| PlanarExamples.PlanarR24Case9Example | test/algorithm/src/triangle_triangle.cpp:496-497 | tr_9 does not intersect tr in the plane z = 0 |
| PlanarExamples.PlanarR24Case9SwappedExample | test/algorithm/src/triangle_triangle.cpp:496-498 | tr does not intersect tr_9 in the plane z = 0 |
| PlanarExamples.PlanarR22R23Case1Example | test/algorithm/src/triangle_triangle.cpp:511-512 | tr_1 intersects tr in the plane z = 0 |
| PlanarExamples.PlanarR22R23Case1SwappedExample | test/algorithm/src/triangle_triangle.cpp:511-513 | tr intersects tr_1 in the plane z = 0 |
| PlanarExamples.PlanarR22R23Case2Example | test/algorithm/src/triangle_triangle.cpp:515-516 | tr_2 does not intersect tr in the plane z = 0 |
| PlanarExamples.PlanarR22R23Case2SwappedExample | test/algorithm/src/triangle_triangle.cpp:515-517 | tr does not intersect tr_2 in the plane z = 0 |
| TransformTriangleExamples.AboveAboveOnExample | test/algorithm/src/transform_triangle.cpp:25-39 | tr_1 with P Above, Q Above, R On against the plane z = 0: tr_1 is turned clockwise to (R, P, Q) and tr_2 is reflected to (P, R, Q), whatever locations tr_2 carries |
| TransformTriangleExamples.AboveAboveBelowExample | test/algorithm/src/transform_triangle.cpp:41-55 | tr_1 with P Above, Q Above, R Below against the plane z = 0: tr_1 is turned clockwise to (R, P, Q) and tr_2 is reflected to (P, R, Q), whatever locations tr_2 carries |
| TransformTriangleExamples.AboveOnAboveExample | test/algorithm/src/transform_triangle.cpp:57-71 | tr_1 with P Above, Q On, R Above against the plane z = 0: tr_1 is turned counter-clockwise to (Q, R, P) and tr_2 is reflected to (P, R, Q), whatever locations tr_2 carries |
| TransformTriangleExamples.AboveOnOnExample | test/algorithm/src/transform_triangle.cpp:73-87 | tr_1 with P Above, Q On, R On against the plane z = 0: tr_1 is kept and tr_2 is kept, whatever locations tr_2 carries |
| TransformTriangleExamples.AboveOnBelowExample | test/algorithm/src/transform_triangle.cpp:89-103 | tr_1 with P Above, Q On, R Below against the plane z = 0: tr_1 is kept and tr_2 is kept, whatever locations tr_2 carries |
| TransformTriangleExamples.AboveBelowAboveExample | test/algorithm/src/transform_triangle.cpp:105-119 | tr_1 with P Above, Q Below, R Above against the plane z = 0: tr_1 is turned counter-clockwise to (Q, R, P) and tr_2 is reflected to (P, R, Q), whatever locations tr_2 carries |
| TransformTriangleExamples.AboveBelowOnExample | test/algorithm/src/transform_triangle.cpp:121-135 | tr_1 with P Above, Q Below, R On against the plane z = 0: tr_1 is kept and tr_2 is kept, whatever locations tr_2 carries |
| TransformTriangleExamples.AboveBelowBelowExample | test/algorithm/src/transform_triangle.cpp:137-151 | tr_1 with P Above, Q Below, R Below against the plane z = 0: tr_1 is kept and tr_2 is kept, whatever locations tr_2 carries |
| TransformTriangleExamples.OnAboveAboveExample | test/algorithm/src/transform_triangle.cpp:156-170 | tr_1 with P On, Q Above, R Above against the plane z = 0: tr_1 is kept and tr_2 is reflected to (P, R, Q), whatever locations tr_2 carries |
| TransformTriangleExamples.OnAboveOnExample | test/algorithm/src/transform_triangle.cpp:172-186 | tr_1 with P On, Q Above, R On against the plane z = 0: tr_1 is turned counter-clockwise to (Q, R, P) and tr_2 is kept, whatever locations tr_2 carries |
| TransformTriangleExamples.OnAboveBelowExample | test/algorithm/src/transform_triangle.cpp:188-202 | tr_1 with P On, Q Above, R Below against the plane z = 0: tr_1 is turned counter-clockwise to (Q, R, P) and tr_2 is kept, whatever locations tr_2 carries |
| TransformTriangleExamples.OnOnAboveExample | test/algorithm/src/transform_triangle.cpp:204-218 | tr_1 with P On, Q On, R Above against the plane z = 0: tr_1 is turned clockwise to (R, P, Q) and tr_2 is kept, whatever locations tr_2 carries |
| TransformTriangleExamples.OnOnBelowExample | test/algorithm/src/transform_triangle.cpp:220-234 | tr_1 with P On, Q On, R Below against the plane z = 0: tr_1 is turned clockwise to (R, P, Q) and tr_2 is reflected to (P, R, Q), whatever locations tr_2 carries |
| TransformTriangleExamples.OnBelowAboveExample | test/algorithm/src/transform_triangle.cpp:236-250 | tr_1 with P On, Q Below, R Above against the plane z = 0: tr_1 is turned clockwise to (R, P, Q) and tr_2 is kept, whatever locations tr_2 carries |
| TransformTriangleExamples.OnBelowOnExample | test/algorithm/src/transform_triangle.cpp:252-266 | tr_1 with P On, Q Below, R On against the plane z = 0: tr_1 is turned counter-clockwise to (Q, R, P) and tr_2 is reflected to (P, R, Q), whatever locations tr_2 carries |
| TransformTriangleExamples.OnBelowBelowExample | test/algorithm/src/transform_triangle.cpp:268-282 | tr_1 with P On, Q Below, R Below against the plane z = 0: tr_1 is kept and tr_2 is kept, whatever locations tr_2 carries |
| TransformTriangleExamples.BelowAboveAboveExample | test/algorithm/src/transform_triangle.cpp:287-301 | tr_1 with P Below, Q Above, R Above against the plane z = 0: tr_1 is kept and tr_2 is reflected to (P, R, Q), whatever locations tr_2 carries |
| TransformTriangleExamples.BelowAboveOnExample | test/algorithm/src/transform_triangle.cpp:303-317 | tr_1 with P Below, Q Above, R On against the plane z = 0: tr_1 is kept and tr_2 is reflected to (P, R, Q), whatever locations tr_2 carries |
| TransformTriangleExamples.BelowAboveBelowExample | test/algorithm/src/transform_triangle.cpp:319-333 | tr_1 with P Below, Q Above, R Below against the plane z = 0: tr_1 is turned counter-clockwise to (Q, R, P) and tr_2 is kept, whatever locations tr_2 carries |
| TransformTriangleExamples.BelowOnAboveExample | test/algorithm/src/transform_triangle.cpp:335-349 | tr_1 with P Below, Q On, R Above against the plane z = 0: tr_1 is kept and tr_2 is reflected to (P, R, Q), whatever locations tr_2 carries |
| TransformTriangleExamples.BelowOnOnExample | test/algorithm/src/transform_triangle.cpp:351-365 | tr_1 with P Below, Q On, R On against the plane z = 0: tr_1 is kept and tr_2 is reflected to (P, R, Q), whatever locations tr_2 carries |
| TransformTriangleExamples.BelowOnBelowExample | test/algorithm/src/transform_triangle.cpp:367-381 | tr_1 with P Below, Q On, R Below against the plane z = 0: tr_1 is turned counter-clockwise to (Q, R, P) and tr_2 is kept, whatever locations tr_2 carries |
| TransformTriangleExamples.BelowBelowAboveExample | test/algorithm/src/transform_triangle.cpp:383-397 | tr_1 with P Below, Q Below, R Above against the plane z = 0: tr_1 is turned clockwise to (R, P, Q) and tr_2 is kept, whatever locations tr_2 carries |
| TransformTriangleExamples.BelowBelowOnExample | test/algorithm/src/transform_triangle.cpp:399-413 | tr_1 with P Below, Q Below, R On against the plane z = 0: tr_1 is turned clockwise to (R, P, Q) and tr_2 is kept, whatever locations tr_2 carries |
| Intersection.DeduceIntersectionType | include/intersection/intersection.hpp:33-61 | the species sum picks exactly one predicate per unordered pair of species: both points, point and segment, point and triangle, both segments, segment and triangle, both triangles; the throwing default cannot be reached |
| Intersection.SpanningSegment | include/intersection/intersection.hpp:63-75 | when PR and QR point apart the segment is PQ; otherwise it is PR when PR is strictly longer and QR when QR is at least as long |
| Intersection.TriangleToSegment | include/intersection/intersection.hpp:63-75 | a degenerate triangle is reduced to a segment joining two of its vertices in vertex order: PQ when PR and QR point apart, otherwise PR or QR |
| Intersection.AreIntersecting | include/intersection/intersection.hpp:79-125 | for each of the nine species pairs the predicate called, with the segment or point each degenerate argument reduces to; a segment paired with a triangle goes, in either argument order, to the segment-triangle test with the segment first and the source's endpoint order |
| Intersection.AreIntersectingSymmetric | include/intersection/intersection.hpp:84-117 | for two points or two primitives of different species the verdict does not depend on the argument order |
| Intersection.AreIntersectingCorrected | include/intersection/intersection.hpp:111-117 | the same dispatch with the corrected endpoint order: a segment and a triangle, in either order, go to the corrected segment-triangle test |
| Intersection.CorrectedDiffersOnlyAboveOn | include/intersection/intersection.hpp:111-117 | the two dispatches agree on every pair except a segment running from Above a triangle's plane to a point On it |
| Boxes.PointBox | include/space_partitioning/axis_aligned_bounding_box.hpp:32-33 | the box of a single point has zero half-widths, is centred on it, and is its tight bounding box |
| Boxes.TwoPointBox | include/space_partitioning/axis_aligned_bounding_box.hpp:35-41 | the box of two points is proper and on each axis its two faces are the two points' coordinates, in either order |
| Boxes.TwoPointBoxBounds | include/space_partitioning/axis_aligned_bounding_box.hpp:35-41 | the two-point box holds both points and each of its faces passes through one of them |
| Boxes.TwoPointBoxOrdered | include/space_partitioning/axis_aligned_bounding_box.hpp:35-41 | given a lower and an upper corner, the two-point box has their midpoint as centre and half their differences as half-widths |
| Boxes.MinElement | include/space_partitioning/axis_aligned_bounding_box.hpp:45-47 | std::min_element with a strict less returns the first position of a least coordinate on the axis |
| Boxes.MaxElement | include/space_partitioning/axis_aligned_bounding_box.hpp:48-50 | std::max_element with a strict less returns the first position of a greatest coordinate on the axis |
| Boxes.RangeBox | include/space_partitioning/axis_aligned_bounding_box.hpp:43-50 | the box of a non-empty range is proper and on each axis runs from the least coordinate to the greatest one |
| Boxes.RangeBoxBounds | include/space_partitioning/axis_aligned_bounding_box.hpp:43-50 | the box of a range holds every point and each face passes through one of them |
| Boxes.RangeBoxHolds | include/space_partitioning/axis_aligned_bounding_box.hpp:43-50 | every point of the range lies inside its box |
| Boxes.RangeBoxTight | include/space_partitioning/axis_aligned_bounding_box.hpp:43-50 | on each axis both faces of the range's box are attained by points of the range |
| Boxes.AreOverlapping | include/space_partitioning/axis_aligned_bounding_box.hpp:68-77 | two boxes overlap exactly when on every axis the distance of their centres is at most the sum of their half-widths |
| Boxes.MeetingCorner | include/space_partitioning/axis_aligned_bounding_box.hpp:68-77 | the candidate common point takes on each axis the larger of the two lower faces |
| Boxes.OverlapIffCommonPoint | include/space_partitioning/axis_aligned_bounding_box.hpp:68-77 | two proper boxes overlap if and only if they share a point: the meeting corner when they overlap, and any common point forces the overlap |
| Boxes.OverlapSymmetric | include/space_partitioning/axis_aligned_bounding_box.hpp:68-77 | overlap is symmetric, and a proper box overlaps itself |
| Shapes.Vertices | include/space_partitioning/shape.hpp:36-42 | a primitive contributes one to three points to its box |
| Shapes.MakeShape | include/space_partitioning/shape.hpp:36-42 | every Shape constructor keeps the primitive and gives it a proper box that holds every vertex and whose faces pass through vertices |
| Shapes.BoundsAreExtremes | include/space_partitioning/shape.hpp:52-60 | along every axis left_bound <= right_bound on a constructed shape, every vertex lies between them, and each is the coordinate of some vertex |
| Shapes.PrimitivesIntersect | include/space_partitioning/shape.hpp:89-93 | two point primitives intersect exactly when they compare equal; a segment and a triangle, in either order, go to the segment-triangle test with the source's endpoint order |
| Shapes.ShapesIntersect | include/space_partitioning/shape.hpp:84-97 | shapes whose boxes do not overlap never intersect; shapes whose boxes overlap intersect exactly when the predicate of their two primitives, as the source dispatches it, says so |
| Shapes.ShapesIntersectSymmetric | include/space_partitioning/shape.hpp:84-97 | for two points or two primitives of different kinds the verdict does not depend on the argument order, for the primitives and for the shapes |
| Shapes.BoxTestIsExact | include/space_partitioning/shape.hpp:84-97 | the box test is exact while point equality is tolerant: two points 0.0000005 apart are equal as primitives, yet their shapes do not intersect |
| Octrees.Pow8Mod7 | include/space_partitioning/octree.hpp:105-108 | 8^height is one more than a multiple of 7, so the division in max_size is exact |
| Octrees.MaxSizeRecurrence | include/space_partitioning/octree.hpp:105-108 | max_size of a height is one root plus eight copies of max_size of the height below, the node count of a full octree |
| Octrees.MaxSize | include/space_partitioning/octree.hpp:105-108 | max_size times 7, plus 1, is 8 to the power of the height, so the division is exact |
| Octrees.Build | include/space_partitioning/octree.hpp:131-152 | build_subtree returns a cell with the given centre and half-width, full to the given height (eight children at half the half-width, child k offset along +x, +y, +z by its bits) and storing no shape |
| Octrees.ChildCenter | include/space_partitioning/octree.hpp:141-149 | a child's centre lies one step from the parent's along every axis, on the + side of axis i exactly when bit i of the child number is set |
| Octrees.BuildSize | include/space_partitioning/octree.hpp:89-92 | the tree build_subtree makes has exactly max_size() nodes, the count reserved for it |
| Octrees.OctantLoop | include/space_partitioning/node.hpp:62-79 | the axis loop stops without an octant exactly when some remaining axis is straddled; otherwise it keeps the bits chosen so far and sets bit i exactly when the box centre lies on the + side of axis i |
| Octrees.Octant | include/space_partitioning/node.hpp:62-79 | no octant exactly when the box straddles one of the three dividing planes; otherwise a child number below 8 whose bit i says the box lies on the + side of axis i |
| Octrees.Straddles | include/space_partitioning/node.hpp:67-73 | under either rule, a box whose half-width tolerantly exceeds its distance to the plane straddles it and a box whose distance to the plane tolerantly exceeds its half-width does not; as written, a straddling box reaches strictly past the plane |
| Octrees.Insert | include/space_partitioning/node.hpp:59-85 | insert_shape moves or resizes no cell, keeps the number of children, and either leaves the root's list alone or appends the shape to it |
| Octrees.TargetPath | include/space_partitioning/node.hpp:59-85 | the child numbers insert_shape descends through name a node of the tree |
| Octrees.InsertKeepsFrame | include/space_partitioning/node.hpp:59-85 | insert_shape changes no node's centre, half-width or children layout; only shape lists grow |
| Octrees.TargetIsValid | include/space_partitioning/node.hpp:59-85 | the cell insert_shape stores a box at is a node of the tree |
| Octrees.InsertAppendsAtTarget | include/space_partitioning/node.hpp:59-85 | inserting a shape appends it to the shape list of its target cell and leaves every other cell's list unchanged |
| Octrees.InsertAllContent | include/space_partitioning/octree.hpp:117-123 | after inserting a range, every node holds its former shapes followed, in input order, by exactly the shapes of the range whose target it is |
| Octrees.InsertAll | include/space_partitioning/octree.hpp:117-123 | inserting a range moves or resizes no cell and keeps the number of children |
| Octrees.FilterHoldsEach | include/space_partitioning/octree.hpp:117-123 | every inserted shape is among the shapes stored at its own target |
| Octrees.FilterMember | include/space_partitioning/octree.hpp:117-123 | a node holds only shapes of the input whose target it is |
| Octrees.FilterDistinct | include/space_partitioning/octree.hpp:117-123 | distinct input shapes stay distinct in every node's list |
| Octrees.FilterOrder | include/space_partitioning/octree.hpp:117-123 | two shapes with the same target keep their input order in that node's list |
| Octrees.ExtentOf | include/space_partitioning/octree.hpp:31-47 | the running minima and maxima only widen and end up covering the box of every shape |
| Octrees.MinOf3 | include/space_partitioning/octree.hpp:49 | the least of three values, one of them |
| Octrees.MaxOf3 | include/space_partitioning/octree.hpp:50 | the greatest of three values, one of them |
| Octrees.CubeOfEncloses | include/space_partitioning/octree.hpp:49-55 | the cube from the least lower coordinate to the greatest upper one encloses every box the extent covers |
| Octrees.CalculateOctreeParameters | include/space_partitioning/octree.hpp:23-56 | the result is a cube of non-negative half-width centred on the diagonal x = y = z that encloses every shape's box and the origin |
| Octrees.BuildThenInsert | include/space_partitioning/octree.hpp:84-95 | building and then inserting gives a full tree of max_size() nodes with the chosen centre and half-width, each node holding exactly the shapes whose target it is |
| Octrees.MakeOctree | include/space_partitioning/octree.hpp:84-95 | height 0 is refused with Empty_Octree and nothing else is; otherwise the tree is full with max_size() nodes, its root cube is the parameter cube enclosing every box, and every node holds in input order exactly the shapes whose target it is |
| Octrees.AxisSidesAgree | include/space_partitioning/node.hpp:67-79 | with a straddle test that counts touching, two overlapping boxes that both clear a dividing plane lie on the same side of it |
| Octrees.OctantsAgree | include/space_partitioning/node.hpp:67-79 | with that test, two overlapping boxes that both fit in an octant fit in the same octant |
| Octrees.InclusiveTargetsNest | include/space_partitioning/node.hpp:59-85 | with that test, the targets of two overlapping boxes lie on one path from the root: one is a prefix of the other |
| Octrees.TargetInLeafChild | include/space_partitioning/node.hpp:81-84 | in a full tree of height 2, a box that fits in octant k of the root is stored at leaf k |
| Octrees.PointNeverStraddles | include/space_partitioning/node.hpp:67-79 | with the strict comparison a point's zero half-width is never exceeded, so a point shape always gets an octant, even on a dividing plane |
| Octrees.PointSinksToLeaf | include/space_partitioning/node.hpp:59-85 | as written, a point shape inserted into a full tree of height h descends h − 1 levels, to a leaf |
| Octrees.PointOnPlaneOctant | include/space_partitioning/node.hpp:67-79 | as written, a point lying on the dividing plane x = 1 is sent to child 0; counting touching as straddling keeps it at the cell |
| Octrees.TouchingBoxOctant | include/space_partitioning/node.hpp:67-79 | a box touching the plane x = 1 from the + side is sent to child 1 |
| Octrees.AsWrittenSplitsTouching | include/space_partitioning/node.hpp:71 | as written, two overlapping boxes, one a point on the dividing plane, are sent to different children |
| CollisionManager.RowSpec | include/collision_manager.hpp:70-80 | the inner loop adds to the indexes found so far exactly both indexes of every intersecting pair of shape_1 with the current node's shapes before the stopping point, which is shape_1's own position when it belongs to that node |
| CollisionManager.LevelCrossSpec | include/collision_manager.hpp:68-81 | for a node of the stack other than the current one, the middle loop adds exactly the hits among all pairs of its shapes with the current node's shapes |
| CollisionManager.LevelOwnSpec | include/collision_manager.hpp:68-81 | for the current node itself, the middle loop adds exactly the hits among the pairs of each shape with every earlier shape of that node |
| CollisionManager.StackSpec | include/collision_manager.hpp:64-82 | the stack loop adds exactly the hits among the pairs of every ancestor's shape with each current shape, together with the pairs within the current node |
| CollisionManager.VisitSpec | include/collision_manager.hpp:62-91 | one call of intersect_all on a node, stack pushed and popped, adds exactly the hits of the declarative pair set of its subtree |
| CollisionManager.ChildrenSpec | include/collision_manager.hpp:84-88 | the recursion into the existing children, in child order, adds exactly the hits of their subtrees' pair sets |
| CollisionManager.IntersectAllSpec | include/collision_manager.hpp:51 | the indexes intersect_all collects from the root are exactly both indexes of every intersecting pair in the declarative pair set of the whole tree |
| CollisionManager.IntersectAll | include/collision_manager.hpp:51-91 | intersect_all from the root reports exactly the indexes of the intersecting pairs among the declarative set of tested pairs |
| CollisionManager.IntersectAllIdempotent | include/collision_manager.hpp:51-91 | a second intersect_all, starting from the indexes the first left and an empty ancestor stack, leaves the index set unchanged |
| CollisionManager.SlotsToPairs | include/collision_manager.hpp:62-91 | every shape of a node is tested, as shape_2, against every shape stored above it |
| CollisionManager.OwnSlotsToPairs | include/collision_manager.hpp:70-73 | every shape of a node is tested, as shape_1, against every earlier shape of the same node |
| CollisionManager.PairsToSlots | include/collision_manager.hpp:62-91 | conversely, every tested pair comes from one node: shape_2 is stored there, and shape_1 is stored above it or earlier in it |
| CollisionManager.Collide | include/collision_manager.hpp:43-51 | the manager over an octree of height 0 fails exactly as the octree constructor does; any other height succeeds and reports exactly the indexes of the intersecting pairs among those the walk tests in the built tree, each tested with the source's predicates |
| CollisionManager.TestedPairDistinct | include/collision_manager.hpp:70-73 | with no repeated input shape, the address test means every tested pair joins two different input shapes |
| CollisionManager.TestedPairNests | include/collision_manager.hpp:62-91 | every tested pair joins two input shapes whose targets nest: shape_1's target is shape_2's or lies above it |
| CollisionManager.OwnPairOnce | include/collision_manager.hpp:68-80 | within one node with no repeated shape, a pair the middle and inner loops test is never also tested the other way round |
| CollisionManager.SameTargetOwn | include/collision_manager.hpp:66-81 | a tested pair whose two shapes have the same target is tested by the loops over that node alone |
| CollisionManager.TestedOnce | include/collision_manager.hpp:66-81 | with no repeated input shape, a pair tested in one order is never tested in the other order |
| CollisionManager.UnnestedTargetsTestNothing | include/collision_manager.hpp:62-91 | when no two different input shapes have nested targets, no pair is tested at all |
| CollisionManager.BuiltDistributes | include/collision_manager.hpp:44 | the octree the manager builds stores at every node exactly the input shapes whose target it is |
| CollisionManager.ReportedPair | include/collision_manager.hpp:75-79 | every collected index belongs to a tested pair whose shapes intersect |
| CollisionManager.ReportsOnlyIntersecting | include/collision_manager.hpp:62-91 | with distinct indexes, every index the manager reports belongs to an input shape that intersects another input shape |
| CollisionManager.SameTargetPair | include/collision_manager.hpp:68-80 | two shapes with the same target are tested against each other there, the later one as shape_1 |
| CollisionManager.NestedTargetPair | include/collision_manager.hpp:64-82 | a shape whose target lies strictly above another's is tested, as shape_1, against it |
| CollisionManager.InclusiveTestsOverlapping | include/space_partitioning/node.hpp:59-85 | when touching counts as straddling, every two input shapes with overlapping proper boxes are tested against each other in one order or the other |
| CollisionManager.InclusiveFindsEveryPair | include/collision_manager.hpp:62-91 | when touching counts as straddling, two input shapes with proper boxes that intersect in either order both get reported |
| TouchingInput.TouchingShapesMade | include/space_partitioning/shape.hpp:36-42 | the two worked shapes carry exactly the boxes the Shape constructors build for the point (1, 0, 0) and the triangle (1, 0, 0), (2, 0, 0), (1, 1, 0) |
| TouchingInput.TouchingParameters | include/space_partitioning/octree.hpp:23-56 | for the worked input the root cell is centred at (1, 1, 1) with half-width 1 |
| CollisionExamples.SeparatedPairUntested | include/space_partitioning/node.hpp:59-85 | in a tree of height 2, two different shapes fitting in different octants of the root reach different leaves, and the manager reports nothing whatever the shapes |
| CollisionExamples.InclusiveReportsBoth | include/collision_manager.hpp:62-91 | when touching counts as straddling, two shapes 0 and 1 with proper boxes that intersect in either order give exactly {0, 1} |
| CollisionExamples.TouchingVertex | include/intersection/point_triangle.hpp:58-81 | the point is the triangle's first vertex and the triangle is counter-clockwise seen from above, so the point meets it |
| CollisionExamples.TouchingIntersect | include/space_partitioning/shape.hpp:84-97 | the point shape and the triangle shape intersect in either argument order |
| CollisionExamples.TouchingAsWritten | include/space_partitioning/node.hpp:71 | with the straddle test as written the manager reports nothing for the worked input |
| CollisionExamples.TouchingInclusive | include/collision_manager.hpp:62-91 | when touching counts as straddling the manager reports both worked shapes |
| CollisionExamples.AsWrittenMissesTouchingPair | include/space_partitioning/node.hpp:71 | the worked point and triangle intersect in either order, yet as written the manager reports neither, while counting touching as straddling reports both |

## Left out

- Input and output: the drivers, the data generator, `show_intersecting`, `dump` and every `operator<<` print or parse text and are not modelled.
- Floating point: coordinates are exact reals. The rounding of double arithmetic, NaN and infinities are not modelled; the tolerance rules are.
- Square roots: `module`, `normalize`, `are_parallel` and `are_antiparallel` need them and are left out; `distance` takes the square root as a parameter.
- SpaceToPlane.ChooseAxis: the debug-only assertion of `space_to_plane.hpp:25` that the two vectors are not collinear is not modelled. The model picks an axis for collinear vectors as a release build does.
- The `std::runtime_error` defaults of `project_point`, `project_segment` and `project_triangle` cannot be reached with a three-valued `Axis` and are not modelled.
- `are_codirectional` and `are_oppositely_directed` are not part of this model; they are the uninterpreted `Directions` parameter.
- The older `Geom_Objects` variants of the predicates, `intersector.hpp`, `object.hpp` and `primitive_traits` are superseded copies and are left out.
- Degenerate input: the source reports a degenerate segment or triangle by exception in some constructors. The model uses the species tag throughout, so those error paths are not modelled separately.
- `Triangle::begin` and `end`: the iteration over the vertices is the three-element sequence `Shapes.Vertices`.
- The octree's node arena and child pointers become a recursive tree whose nodes are named by paths of child numbers. The `std::pow` on `double` in `max_size` is computed exactly.
- The tree's height is an explicit parameter of `CollisionManager.Collide`, because the octree's constructor requires one and the collision manager's constructor passes none.
- How many times a pair is tested is not modelled: the walk is a fold into a `set`, so a pair tested twice would leave the same index set. `CollisionManager.TestedOnce` proves instead that no pair is tested in both orders.
- The collision manager's ancestor stack is a function argument. Its restoration by `pop_back` and its reserved capacity are therefore implicit.
- The index set is a Dafny `set`, so the uniqueness and ascending order of `std::set` hold by construction.
- The planar tests of `intersection_2D_test.cpp` call an older entry point. They are used only where its formulas agree with `intersection_2D.hpp`.
- The line commented out at `test/algorithm/src/triangle_triangle.cpp:390` is stated as `PlanarExamples.PlanarR22R25Case4Example` with the expectation written on it; the model meets that expectation, but nothing is claimed about why the line was disabled.
- SegmentTriangle.CoplanarIntersect: `segment_triangle.hpp:33` passes the projected triangle and segment in the opposite order to the declared parameters of `are_intersecting_2D`. The model uses the declared order, segment first.
- CollisionManager.ReportsOnlyIntersecting: it requires distinct shape indexes, which the source's ingestion order provides but does not check.
- CollisionManager.InclusiveFindsEveryPair: it requires proper boxes, as every shape constructor builds them. It also requires the pair test to hold in both argument orders, because the walk fixes which shape comes first.
- TriangleTriangle.AreIntersecting3D: its contract states only the reject case, a second triangle that does not cross the first one's plane. The verdicts of the interval test on the common line are pinned only by the test-vector lemmas of `TriangleTriangleExamples`.

## Findings

| source | as written | input that shows it | evidently intended | confidence | as-written member | corrected member |
|---|---|---|---|---|---|---|
| include/intersection/segment_triangle.hpp:41 | the endpoints are swapped whenever Q is not Below the triangle's plane | the segment (1,−13,−6)→(0,0,0) against the triangle (0,1,0),(1,0,0),(0,0,0): P is Above and Q is On, so the endpoints are swapped, the crossing test reads the plane upside down, and the segment ending at vertex R is reported as missing | swap only when Q lies strictly higher than P, so that the crossing test always starts at the higher endpoint | not executed | SegmentTriangle.AsWrittenMissesTouchFromAbove | SegmentTriangle.CrossingIgnoresEndpointOrder |
| include/space_partitioning/node.hpp:71 | a box straddles a dividing plane only when its half-width strictly exceeds its distance to the plane (`cmp::less`) | the point (1,0,0) and the triangle (1,0,0),(2,0,0),(1,1,0) with tree height 2 and root cell centred at (1,1,1), half-width 1: the point goes to child 0, the triangle to child 1, and the manager reports nothing although they intersect | a box touching the plane also straddles it (`cmp::less_equal`), so touching shapes stay in a common ancestor and are tested | not executed | CollisionExamples.AsWrittenMissesTouchingPair | CollisionManager.InclusiveFindsEveryPair |
