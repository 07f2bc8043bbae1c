/** Triangle-triangle intersection (include/intersection/triangle_triangle.hpp): the
    vertex-relabelling scheme of Guigue and Devillers. Each triangle is relabelled so that
    its first vertex P lies alone on one side of the other triangle's plane; two
    orientation tests on the relabelled pair then decide whether the segments the
    triangles cut from the common line overlap. */
module TriangleTriangle {
  import opened Comparison
  import opened Points
  import opened Vectors
  import opened Triangles
  import opened MagicProduct
  import opened SpaceToPlane
  import opened PointTriangle
  import opened Intersection2D

  /** Where the three vertices of `tr` lie with respect to the plane of `plane`. */
  function Locations(tr: Triangle<Point3>, plane: Triangle<Point3>): (Loc3D, Loc3D, Loc3D)
  {
    (Orient3D(plane.P, plane.Q, plane.R, tr.P),
     Orient3D(plane.P, plane.Q, plane.R, tr.Q),
     Orient3D(plane.P, plane.Q, plane.R, tr.R))
  }

  /** All three locations agree: the triangle does not cross the plane. */
  predicate Uniform(l: (Loc3D, Loc3D, Loc3D))
  {
    l.0 == l.1 && l.1 == l.2
  }

  /** The shape the relabelling aims at: P strictly above the plane with Q and R not above
      it, or P on the plane with Q and R strictly below it. */
  predicate Isolated(l: (Loc3D, Loc3D, Loc3D))
  {
    (l.0 == Above && l.1 != Above && l.2 != Above) || (l.0 == On && l.1 == Below && l.2 == Below)
  }

  /** The relabellings of the first triangle: a cyclic rotation of its vertices. */
  datatype Turn = Keep | Clockwise | Counterclockwise

  function Turned<T>(turn: Turn, t: Triangle<T>): (r: Triangle<T>)
  {
    match turn
    case Keep => t
    case Clockwise => SwapClockwise(t)
    case Counterclockwise => SwapCounterclockwise(t)
  }

  /** The six vertex orders of a triangle: three rotations, each possibly reflected. */
  predicate IsPermutation(r: Triangle<Point3>, t: Triangle<Point3>)
  {
    r == t || r == SwapClockwise(t) || r == SwapCounterclockwise(t)
    || r == SwapQR(t) || r == SwapQR(SwapClockwise(t)) || r == SwapQR(SwapCounterclockwise(t))
  }

  /** The result of transform_triangle: both relabelled triangles, and the locations of the
      second triangle's Q and R, exchanged whenever those two vertices are. */
  datatype Relabelled = Relabelled(first: Triangle<Point3>, second: Triangle<Point3>, q2: Loc3D, r2: Loc3D)

  /** The decision of transform_triangle from the locations of the first triangle's
      vertices: how to rotate the first triangle, and whether to exchange Q and R of the
      second (which flips the orientation of its plane). */
  function Relabelling(p1: Loc3D, q1: Loc3D, r1: Loc3D): (Turn, bool)
  {
    match p1
    case Above =>
      if q1 == Above && r1 != Above then (Clockwise, true)
      else if q1 != Above && r1 == Above then (Counterclockwise, true)
      else (Keep, false)
    case On =>
      if q1 == Above then
        if r1 == Above then (Keep, true) else (Counterclockwise, false)
      else if r1 == Above then (Clockwise, false)
      else if q1 == On && r1 == Below then (Clockwise, true)
      else if q1 == Below && r1 == On then (Counterclockwise, true)
      else (Keep, false)
    case Below =>
      if q1 == r1 then (Keep, true)
      else if q1 == Below then (Clockwise, false)
      else if r1 == Below then (Counterclockwise, false)
      else (Keep, true)
  }

  /** transform_triangle: the first triangle is only rotated; the second keeps P and has
      Q and R either untouched or exchanged together with their locations. */
  function TransformTriangle(tr1: Triangle<Point3>, p1: Loc3D, q1: Loc3D, r1: Loc3D,
                             tr2: Triangle<Point3>, q2: Loc3D, r2: Loc3D): (m: Relabelled)
    ensures m.first == tr1 || m.first == SwapClockwise(tr1) || m.first == SwapCounterclockwise(tr1)
    ensures (m.second == tr2 && m.q2 == q2 && m.r2 == r2)
         || (m.second == SwapQR(tr2) && m.q2 == r2 && m.r2 == q2)
  {
    var (turn, reflect) := Relabelling(p1, q1, r1);
    if reflect then Relabelled(Turned(turn, tr1), SwapQR(tr2), r2, q2)
    else Relabelled(Turned(turn, tr1), tr2, q2, r2)
  }

  /** On location labels alone: relabelling a triple that is not uniform with the chosen
      rotation, and flipping every label when the plane is reflected, isolates the first. */
  lemma {:induction false} RelabellingIsolates(p1: Loc3D, q1: Loc3D, r1: Loc3D)
    requires !Uniform((p1, q1, r1))
    ensures var (turn, reflect) := Relabelling(p1, q1, r1);
      var t := Turned(turn, Triangle(p1, q1, r1, TriangleSpecies));
      Isolated(if reflect then (t.P.Flip(), t.Q.Flip(), t.R.Flip()) else (t.P, t.Q, t.R))
  {
  }

  /** A rotation of the plane's points keeps every location, a reflection flips it. */
  lemma LocationsUnderRelabelling(tr: Triangle<Point3>, plane: Triangle<Point3>)
    ensures Locations(tr, SwapClockwise(plane)) == Locations(tr, plane)
    ensures Locations(tr, SwapCounterclockwise(plane)) == Locations(tr, plane)
    ensures var l := Locations(tr, plane);
      Locations(tr, SwapQR(plane)) == (l.0.Flip(), l.1.Flip(), l.2.Flip())
  {
    Orient3DSymmetries(plane.P, plane.Q, plane.R, tr.P);
    Orient3DSymmetries(plane.P, plane.Q, plane.R, tr.Q);
    Orient3DSymmetries(plane.P, plane.Q, plane.R, tr.R);
  }

  /** transform_triangle called with the actual locations of a triangle that crosses or
      touches the other's plane leaves its first vertex isolated against the relabelled
      plane; the Q and R locations it hands back are those of the relabelled second
      triangle against the relabelled first one whenever the ones handed in were. */
  lemma TransformIsolates(tr1: Triangle<Point3>, tr2: Triangle<Point3>, q2: Loc3D, r2: Loc3D)
    requires !Uniform(Locations(tr1, tr2))
    ensures var (p1, q1, r1) := Locations(tr1, tr2);
      var m := TransformTriangle(tr1, p1, q1, r1, tr2, q2, r2);
      Isolated(Locations(m.first, m.second))
      && (Locations(tr2, tr1).1 == q2 && Locations(tr2, tr1).2 == r2 ==>
            Locations(m.second, m.first) == (Locations(tr2, tr1).0, m.q2, m.r2))
  {
    TransformIsolatesFirst(tr1, tr2, q2, r2);
    if Locations(tr2, tr1).1 == q2 && Locations(tr2, tr1).2 == r2 {
      TransformTracksSecond(tr1, tr2, q2, r2);
    }
  }

  /** The first half of TransformIsolates: the relabelled first triangle's P is isolated
      against the relabelled plane. */
  lemma {:induction false} TransformIsolatesFirst(tr1: Triangle<Point3>, tr2: Triangle<Point3>, q2: Loc3D, r2: Loc3D)
    requires !Uniform(Locations(tr1, tr2))
    ensures var (p1, q1, r1) := Locations(tr1, tr2);
      var m := TransformTriangle(tr1, p1, q1, r1, tr2, q2, r2);
      Isolated(Locations(m.first, m.second))
  {
    var (p1, q1, r1) := Locations(tr1, tr2);
    RelabellingIsolates(p1, q1, r1);
    var (turn, reflect) := Relabelling(p1, q1, r1);
    var t := Turned(turn, tr1);
    var l := Turned(turn, Triangle(p1, q1, r1, TriangleSpecies));
    assert Locations(t, tr2) == (l.P, l.Q, l.R);
    LocationsUnderRelabelling(t, tr2);
    var m := TransformTriangle(tr1, p1, q1, r1, tr2, q2, r2);
    assert m.first == t;
  }

  /** The second half of TransformIsolates: the locations handed back for the second
      triangle's Q and R are its locations against the relabelled first triangle. */
  lemma {:induction false} TransformTracksSecond(tr1: Triangle<Point3>, tr2: Triangle<Point3>, q2: Loc3D, r2: Loc3D)
    requires Locations(tr2, tr1).1 == q2 && Locations(tr2, tr1).2 == r2
    ensures var (p1, q1, r1) := Locations(tr1, tr2);
      var m := TransformTriangle(tr1, p1, q1, r1, tr2, q2, r2);
      Locations(m.second, m.first) == (Locations(tr2, tr1).0, m.q2, m.r2)
  {
    var (p1, q1, r1) := Locations(tr1, tr2);
    LocationsUnderRelabelling(tr2, tr1);
    var m := TransformTriangle(tr1, p1, q1, r1, tr2, q2, r2);
    assert Locations(m.second, m.first) == Locations(m.second, tr1);
  }

  /** Both relabellings of are_intersecting_3D: first the first triangle against the
      second, then the second against the first. The pair it returns is (tr_1m, tr_2m);
      `firstP` is the location of tr_1m's P recomputed between the two steps. */
  datatype Canonical = Canonical(first: Triangle<Point3>, second: Triangle<Point3>, firstP: Loc3D)

  function Canonicalize(tr1: Triangle<Point3>, tr2: Triangle<Point3>,
                        p1: Loc3D, q1: Loc3D, r1: Loc3D, p2: Loc3D, q2: Loc3D, r2: Loc3D): (c: Canonical)
    ensures IsPermutation(c.first, tr1) && IsPermutation(c.second, tr2)
  {
    var m := TransformTriangle(tr1, p1, q1, r1, tr2, q2, r2);
    var (p1m, q1m, r1m) := Locations(m.first, m.second);
    var n := TransformTriangle(m.second, p2, m.q2, m.r2, m.first, q1m, r1m);
    Canonical(n.second, n.first, p1m)
  }

  /** After both relabellings each triangle's P lies alone on its side of the other's
      plane, and the recomputed location of tr_1m's P is its location against tr_2m. In
      particular, when both P lie on the other plane, every other vertex is strictly
      below it, so the triangles can only meet at their P. */
  lemma {:induction false} CanonicalIsIsolated(tr1: Triangle<Point3>, tr2: Triangle<Point3>)
    requires !Uniform(Locations(tr1, tr2)) && !Uniform(Locations(tr2, tr1))
    ensures var (p1, q1, r1) := Locations(tr1, tr2);
      var (p2, q2, r2) := Locations(tr2, tr1);
      var c := Canonicalize(tr1, tr2, p1, q1, r1, p2, q2, r2);
      Isolated(Locations(c.first, c.second)) && Isolated(Locations(c.second, c.first))
      && c.firstP == Locations(c.first, c.second).0
  {
    var (p1, q1, r1) := Locations(tr1, tr2);
    var (p2, q2, r2) := Locations(tr2, tr1);
    TransformIsolates(tr1, tr2, q2, r2);
    var m := TransformTriangle(tr1, p1, q1, r1, tr2, q2, r2);
    var (p1m, q1m, r1m) := Locations(m.first, m.second);
    assert Locations(m.second, m.first) == (p2, m.q2, m.r2);
    TransformIsolates(m.second, m.first, q1m, r1m);
    var n := TransformTriangle(m.second, p2, m.q2, m.r2, m.first, q1m, r1m);
    assert Locations(n.second, n.first) == (p1m, n.q2, n.r2);
    var l := Locations(m.first, m.second);
    assert n.second == m.first || (n.second == SwapQR(m.first) && n.q2 == l.2 && n.r2 == l.1);
  }

  /** are_intersecting_3D for triangles that do not lie in one plane, given where the
      first one's vertices lie against the second one's plane: the second triangle not
      crossing the first one's plane settles it; otherwise, on the relabelled pair, two
      triangles touching the common line at their P meet exactly when those points are
      equal, and otherwise the segments they cut from the line overlap exactly when the
      two mutual orientations allow it. */
  function AreIntersecting3D(tr1: Triangle<Point3>, tr2: Triangle<Point3>, p1: Loc3D, q1: Loc3D, r1: Loc3D): (r: bool)
    ensures Uniform(Locations(tr2, tr1)) ==> !r
  {
    var (p2, q2, r2) := Locations(tr2, tr1);
    if p2 == q2 && q2 == r2 then false
    else
      var c := Canonicalize(tr1, tr2, p1, q1, r1, p2, q2, r2);
      var (a, b) := (c.first, c.second);
      if c.firstP == On && Orient3D(a.P, a.Q, a.R, b.P) == On then Eq3(a.P, b.P)
      else Orient3D(a.P, a.R, b.P, b.R) != Below && Orient3D(a.P, a.Q, b.P, b.Q) != Above
  }

  /** The coplanar case: both triangles projected along the first one's axis, each made
      counter-clockwise, then the planar test. */
  function CoplanarIntersect(tr1: Triangle<Point3>, tr2: Triangle<Point3>): bool
  {
    var (a, b) := TrianglesToPlane(tr1, tr2);
    TriangleIntersect2D(MakeCounterclockwise(a), MakeCounterclockwise(b))
  }

  /** One triangle lies strictly on one side of the other's plane. */
  predicate Separated(tr1: Triangle<Point3>, tr2: Triangle<Point3>)
  {
    (Uniform(Locations(tr1, tr2)) && Locations(tr1, tr2).0 != On)
    || (!Uniform(Locations(tr1, tr2)) && Uniform(Locations(tr2, tr1)) && Locations(tr2, tr1).0 != On)
  }

  /** are_intersecting(tr_1, tr_2): a triangle strictly on one side of the other's plane
      misses it; a triangle lying in the other's plane goes to the planar test; otherwise
      the spatial test decides. */
  function TriangleTriangleIntersect(tr1: Triangle<Point3>, tr2: Triangle<Point3>): (r: bool)
    ensures Separated(tr1, tr2) ==> !r
    ensures Locations(tr1, tr2) == (On, On, On) ==> r == CoplanarIntersect(tr1, tr2)
    ensures !Uniform(Locations(tr1, tr2)) ==>
      r == AreIntersecting3D(tr1, tr2, Locations(tr1, tr2).0, Locations(tr1, tr2).1, Locations(tr1, tr2).2)
  {
    var (p1, q1, r1) := Locations(tr1, tr2);
    if p1 == q1 && q1 == r1 then
      if p1 == On then CoplanarIntersect(tr1, tr2) else false
    else AreIntersecting3D(tr1, tr2, p1, q1, r1)
  }

  /** Two triangles lying in the plane z = 0, the first one not flat, are coplanar, and
      the planar test sees their plain (x, y) coordinates. */
  lemma GroundCoplanar(tr1: Triangle<Point3>, tr2: Triangle<Point3>)
    requires tr1.P.z == 0.0 && tr1.Q.z == 0.0 && tr1.R.z == 0.0
    requires tr2.P.z == 0.0 && tr2.Q.z == 0.0 && tr2.R.z == 0.0
    requires !IsZero(VectorProduct(FromPoints(tr1.P, tr1.Q), FromPoints(tr1.P, tr1.R)).z)
    ensures Locations(tr1, tr2) == (On, On, On)
    ensures TriangleTriangleIntersect(tr1, tr2)
      == TriangleIntersect2D(
           MakeCounterclockwise(MakeTriangle2(Point2(tr1.P.x, tr1.P.y), Point2(tr1.Q.x, tr1.Q.y), Point2(tr1.R.x, tr1.R.y))),
           MakeCounterclockwise(MakeTriangle2(Point2(tr2.P.x, tr2.P.y), Point2(tr2.Q.x, tr2.Q.y), Point2(tr2.R.x, tr2.R.y))))
  {
    GroundPointIsOn(tr2, tr1.P);
    GroundPointIsOn(tr2, tr1.Q);
    GroundPointIsOn(tr2, tr1.R);
    GroundTriangleAxis(tr1);
  }
}
