/** Orientation predicates (include/intersection/magic_product.hpp): the tolerant sign
    of a 2x2 or 3x3 determinant, reported with the source's integer codes. */
module MagicProduct {
  import opened Comparison
  import opened Points

  /** Loc_2D: where a point lies with respect to a directed line in the plane. */
  datatype Loc2D = Negative | Neutral | Positive
  {
    function Code(): (c: int)
      ensures -1 <= c <= 1
      ensures c == 0 <==> this == Neutral
    {
      match this
      case Negative => -1
      case Neutral => 0
      case Positive => 1
    }

    /** The location seen from the other side. */
    function Flip(): (r: Loc2D)
      ensures r.Code() == -Code()
    {
      match this
      case Negative => Positive
      case Neutral => Neutral
      case Positive => Negative
    }
  }

  /** Loc_3D: where a point lies with respect to an oriented plane. */
  datatype Loc3D = Below | On | Above
  {
    function Code(): (c: int)
      ensures -1 <= c <= 1
      ensures c == 0 <==> this == On
    {
      match this
      case Below => -1
      case On => 0
      case Above => 1
    }

    function Flip(): (r: Loc3D)
      ensures r.Code() == -Code()
    {
      match this
      case Below => Above
      case On => On
      case Above => Below
    }
  }

  /** The determinant behind the 2D predicate: (P - M) x (Q - M). */
  function Det2(P: Point2, Q: Point2, M: Point2): real
  {
    (P.x - M.x) * (Q.y - M.y) - (P.y - M.y) * (Q.x - M.x)
  }

  /** The determinant behind the 3D predicate: the triple product (M - P, M - Q, M - R). */
  function Det3(P: Point3, Q: Point3, R: Point3, M: Point3): real
  {
    var e21, e22, e23 := M.x - Q.x, M.y - Q.y, M.z - Q.z;
    var e31, e32, e33 := M.x - R.x, M.y - R.y, M.z - R.z;
    (M.x - P.x) * (e22 * e33 - e23 * e32)
    - (M.y - P.y) * (e21 * e33 - e23 * e31)
    + (M.z - P.z) * (e21 * e32 - e22 * e31)
  }

  /** Tolerant sign: zero first, then strictly greater than zero, else negative. */
  function Sign2(product: real): (l: Loc2D)
    ensures l == Neutral <==> IsZero(product)
    ensures l == Positive <==> !IsZero(product) && product > 0.0
    ensures l == Negative <==> !IsZero(product) && product < 0.0
  {
    if IsZero(product) then Neutral
    else if Greater(product, 0.0) then Positive
    else Negative
  }

  function Sign3(product: real): (l: Loc3D)
    ensures l == On <==> IsZero(product)
    ensures l == Above <==> !IsZero(product) && product > 0.0
    ensures l == Below <==> !IsZero(product) && product < 0.0
  {
    if IsZero(product) then On
    else if Greater(product, 0.0) then Above
    else Below
  }

  /** magic_product on 2D points: Positive when P, Q, M turn counter-clockwise. */
  function Orient2D(P: Point2, Q: Point2, M: Point2): (l: Loc2D)
    ensures l == Neutral <==> IsZero(Det2(P, Q, M))
    ensures l == Positive <==> !IsZero(Det2(P, Q, M)) && Det2(P, Q, M) > 0.0
  {
    Sign2(Det2(P, Q, M))
  }

  /** magic_product on 3D points: the side of plane PQR on which M lies. */
  function Orient3D(P: Point3, Q: Point3, R: Point3, M: Point3): (l: Loc3D)
    ensures l == On <==> IsZero(Det3(P, Q, R, M))
    ensures l == Above <==> !IsZero(Det3(P, Q, R, M)) && Det3(P, Q, R, M) > 0.0
  {
    Sign3(Det3(P, Q, R, M))
  }

  /** The tolerant sign of a negated value is the flipped sign. */
  lemma SignNegated(product: real)
    ensures Sign2(-product) == Sign2(product).Flip()
    ensures Sign3(-product) == Sign3(product).Flip()
  {
  }

  /** The 2D determinant is invariant under cyclic rotation of its three points and
      changes sign when the two line points are exchanged. */
  lemma Det2Symmetries(P: Point2, Q: Point2, M: Point2)
    ensures Det2(Q, M, P) == Det2(P, Q, M)
    ensures Det2(M, P, Q) == Det2(P, Q, M)
    ensures Det2(Q, P, M) == -Det2(P, Q, M)
  {
  }

  /** Orientation is a property of the cyclic order: rotating the three points keeps it,
      reversing the line flips it. */
  lemma Orient2DSymmetries(P: Point2, Q: Point2, M: Point2)
    ensures Orient2D(Q, M, P) == Orient2D(P, Q, M)
    ensures Orient2D(M, P, Q) == Orient2D(P, Q, M)
    ensures Orient2D(Q, P, M) == Orient2D(P, Q, M).Flip()
  {
    Det2Symmetries(P, Q, M);
    SignNegated(Det2(P, Q, M));
  }

  /** A point on the line through itself is Neutral. */
  lemma Orient2DDegenerate(P: Point2, Q: Point2)
    ensures Orient2D(P, Q, P) == Neutral && Orient2D(P, Q, Q) == Neutral
    ensures Orient2D(P, P, Q) == Neutral
  {
  }

  /** Exchanging the last two plane points negates the 3D determinant; a cyclic
      rotation of the plane points keeps it. */
  lemma Det3Symmetries(P: Point3, Q: Point3, R: Point3, M: Point3)
    ensures Det3(P, R, Q, M) == -Det3(P, Q, R, M)
    ensures Det3(Q, R, P, M) == Det3(P, Q, R, M)
  {
  }

  /** The side of a plane depends only on the cyclic order of its three points:
      swapping two of them flips every location. */
  lemma Orient3DSymmetries(P: Point3, Q: Point3, R: Point3, M: Point3)
    ensures Orient3D(P, R, Q, M) == Orient3D(P, Q, R, M).Flip()
    ensures Orient3D(Q, R, P, M) == Orient3D(P, Q, R, M)
    ensures Orient3D(R, P, Q, M) == Orient3D(P, Q, R, M)
  {
    Det3Symmetries(P, Q, R, M);
    Det3Symmetries(Q, R, P, M);
    SignNegated(Det3(P, Q, R, M));
  }

  /** Against the plane through (1,0,0), (0,1,0) and the origin the determinant is the
      height of M, so the location is the tolerant sign of M's z coordinate
      (test/algorithm/src/magic_product.cpp). */
  lemma Orient3DAgainstGroundPlane(M: Point3)
    ensures Det3(Point3(1.0, 0.0, 0.0), Point3(0.0, 1.0, 0.0), Point3(0.0, 0.0, 0.0), M) == M.z
    ensures Orient3D(Point3(1.0, 0.0, 0.0), Point3(0.0, 1.0, 0.0), Point3(0.0, 0.0, 0.0), M) == Sign3(M.z)
  {
  }

  /** The test vectors themselves. */
  lemma Orient3DExamples()
    ensures Orient3D(Point3(1.0, 0.0, 0.0), Point3(0.0, 1.0, 0.0), Point3(0.0, 0.0, 0.0),
                     Point3(802.82, -872.85, 48.14)) == Above
    ensures Orient3D(Point3(1.0, 0.0, 0.0), Point3(0.0, 1.0, 0.0), Point3(0.0, 0.0, 0.0),
                     Point3(802.82, -872.85, 0.0)) == On
    ensures Orient3D(Point3(1.0, 0.0, 0.0), Point3(0.0, 1.0, 0.0), Point3(0.0, 0.0, 0.0),
                     Point3(802.82, -872.85, -2.865)) == Below
    ensures Orient3D(Point3(1.0, 0.0, 0.0), Point3(0.0, 0.0, 0.0), Point3(0.0, 1.0, 0.0),
                     Point3(802.82, -872.85, 48.14)) == Below
  {
    Orient3DAgainstGroundPlane(Point3(802.82, -872.85, 48.14));
    Orient3DAgainstGroundPlane(Point3(802.82, -872.85, 0.0));
    Orient3DAgainstGroundPlane(Point3(802.82, -872.85, -2.865));
    Orient3DSymmetries(Point3(1.0, 0.0, 0.0), Point3(0.0, 1.0, 0.0), Point3(0.0, 0.0, 0.0),
                       Point3(802.82, -872.85, 48.14));
  }

  /** Test vectors of test/algorithm/src/intersection_2D_test.cpp: the unit right triangle
      is counter-clockwise in every rotation and clockwise when reversed. */
  lemma Orient2DExamples()
    ensures Orient2D(Point2(0.0, 0.0), Point2(1.0, 0.0), Point2(0.0, 1.0)) == Positive
    ensures Orient2D(Point2(1.0, 0.0), Point2(0.0, 1.0), Point2(0.0, 0.0)) == Positive
    ensures Orient2D(Point2(0.0, 1.0), Point2(0.0, 0.0), Point2(1.0, 0.0)) == Positive
    ensures Orient2D(Point2(1.0, 0.0), Point2(0.0, 0.0), Point2(0.0, 1.0)) == Negative
    ensures Orient2D(Point2(0.0, 0.0), Point2(1.0, 1.0), Point2(2.0, 2.0)) == Neutral
  {
  }

  /** The orientation of three points given by their coordinates: the tolerant sign of
      the determinant written out in them. */
  lemma Orient2DAt(px: real, py: real, qx: real, qy: real, mx: real, my: real)
    ensures Orient2D(Point2(px, py), Point2(qx, qy), Point2(mx, my))
         == Sign2((px - mx) * (qy - my) - (py - my) * (qx - mx))
  {
  }

  /** An orientation fact from the raw determinant: Positive from at least Epsilon, Negative
      from at most -Epsilon, Neutral strictly between. */
  lemma Orient2DIs(px: real, py: real, qx: real, qy: real, mx: real, my: real, l: Loc2D)
    requires var v := (px - mx) * (qy - my) - (py - my) * (qx - mx);
      match l
      case Positive => v >= Epsilon
      case Negative => v <= -Epsilon
      case Neutral => -Epsilon < v < Epsilon
    ensures Orient2D(Point2(px, py), Point2(qx, qy), Point2(mx, my)) == l
  {
    Orient2DAt(px, py, qx, qy, mx, my);
  }

  /** The 3D location given by coordinates: the tolerant sign of the determinant
      written out in them. */
  lemma Orient3DAt(px: real, py: real, pz: real, qx: real, qy: real, qz: real,
                   rx: real, ry: real, rz: real, mx: real, my: real, mz: real)
    ensures Orient3D(Point3(px, py, pz), Point3(qx, qy, qz), Point3(rx, ry, rz), Point3(mx, my, mz))
         == Sign3((mx - px) * ((my - qy) * (mz - rz) - (mz - qz) * (my - ry))
                  - (my - py) * ((mx - qx) * (mz - rz) - (mz - qz) * (mx - rx))
                  + (mz - pz) * ((mx - qx) * (my - ry) - (my - qy) * (mx - rx)))
  {
  }

  /** A location fact from the raw determinant, with the thresholds of Orient2DIs. */
  lemma Orient3DIs(px: real, py: real, pz: real, qx: real, qy: real, qz: real,
                   rx: real, ry: real, rz: real, mx: real, my: real, mz: real, l: Loc3D)
    requires var v := (mx - px) * ((my - qy) * (mz - rz) - (mz - qz) * (my - ry))
                      - (my - py) * ((mx - qx) * (mz - rz) - (mz - qz) * (mx - rx))
                      + (mz - pz) * ((mx - qx) * (my - ry) - (my - qy) * (mx - rx));
      match l
      case Above => v >= Epsilon
      case Below => v <= -Epsilon
      case On => -Epsilon < v < Epsilon
    ensures Orient3D(Point3(px, py, pz), Point3(qx, qy, qz), Point3(rx, ry, rz), Point3(mx, my, mz)) == l
  {
    Orient3DAt(px, py, pz, qx, qy, qz, rx, ry, rz, mx, my, mz);
  }
}
