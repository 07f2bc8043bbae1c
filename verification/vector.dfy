/** Free vectors with tolerance-snapping arithmetic (include/primitives/vector.hpp).
    Every sum or difference whose operands compare equal (or opposite) is
    replaced by an exact zero, so that near-cancellations do not leave noise. */
module Vectors {
  import opened Comparison
  import opened Points

  datatype Vector = Vector(x: real, y: real, z: real)

  const Zero: Vector := Vector(0.0, 0.0, 0.0)

  /** The snapped difference `second - first` used by the two-point constructors and by
      subtraction: zero exactly when the operands compare equal. */
  function SnapDiff(first: real, second: real): (d: real)
    ensures d == 0.0 <==> AreEqual(first, second)
    ensures d != 0.0 ==> d == second - first
    ensures IsZero(d) <==> AreEqual(first, second)
  {
    if AreEqual(first, second) then 0.0 else second - first
  }

  /** The snapped sum used by operator+= and the scalar product: zero exactly when
      the first operand compares equal to the negated second. */
  function SnapSum(first: real, second: real): (s: real)
    ensures s == 0.0 <==> AreEqual(first, -second)
    ensures s != 0.0 ==> s == first + second
  {
    if AreEqual(first, -second) then 0.0 else first + second
  }

  /** Vector from `first` to `second`. */
  function FromPoints(first: Point3, second: Point3): (v: Vector)
    ensures v == Zero <==> Eq3(first, second)
    ensures v.x != 0.0 ==> v.x == second.x - first.x
    ensures v.y != 0.0 ==> v.y == second.y - first.y
    ensures v.z != 0.0 ==> v.z == second.z - first.z
  {
    Vector(SnapDiff(first.x, second.x), SnapDiff(first.y, second.y), SnapDiff(first.z, second.z))
  }

  /** Vector from `first` to `second` in the plane; the third component is zero. */
  function FromPoints2(first: Point2, second: Point2): (v: Vector)
    ensures v.z == 0.0
    ensures v == Zero <==> Eq2(first, second)
  {
    Vector(SnapDiff(first.x, second.x), SnapDiff(first.y, second.y), 0.0)
  }

  /** operator== on vectors: every component tolerantly equal. */
  predicate VecEq(a: Vector, b: Vector)
  {
    AreEqual(a.x, b.x) && AreEqual(a.y, b.y) && AreEqual(a.z, b.z)
  }

  /** operator+ (through +=). */
  function Add(lhs: Vector, rhs: Vector): (v: Vector)
    ensures v.x == 0.0 <==> AreEqual(lhs.x, -rhs.x)
    ensures v.y == 0.0 <==> AreEqual(lhs.y, -rhs.y)
    ensures v.z == 0.0 <==> AreEqual(lhs.z, -rhs.z)
  {
    Vector(SnapSum(lhs.x, rhs.x), SnapSum(lhs.y, rhs.y), SnapSum(lhs.z, rhs.z))
  }

  /** operator- (through -=). */
  function Sub(lhs: Vector, rhs: Vector): (v: Vector)
    ensures v == Zero <==> VecEq(lhs, rhs)
    ensures v.x != 0.0 ==> v.x == lhs.x - rhs.x
    ensures v.y != 0.0 ==> v.y == lhs.y - rhs.y
    ensures v.z != 0.0 ==> v.z == lhs.z - rhs.z
  {
    Vector(SnapDiff(rhs.x, lhs.x), SnapDiff(rhs.y, lhs.y), SnapDiff(rhs.z, lhs.z))
  }

  /** Unary minus. */
  function Neg(v: Vector): (r: Vector)
    ensures r.x + v.x == 0.0 && r.y + v.y == 0.0 && r.z + v.z == 0.0
  {
    Vector(-v.x, -v.y, -v.z)
  }

  /** operator*= by a scalar. */
  function Scale(v: Vector, coeff: real): (r: Vector)
    ensures coeff == 1.0 ==> r == v
    ensures coeff == 0.0 ==> r == Zero
  {
    Vector(v.x * coeff, v.y * coeff, v.z * coeff)
  }

  /** Squared length. */
  function Norm(v: Vector): (n: real)
    ensures n >= 0.0
    ensures v == Zero ==> n == 0.0
  {
    SquareNonNegative(v.x);
    SquareNonNegative(v.y);
    SquareNonNegative(v.z);
    v.x * v.x + v.y * v.y + v.z * v.z
  }

  lemma SquareNonNegative(a: real)
    ensures a * a >= 0.0
    ensures a != 0.0 ==> a * a > 0.0
  {
    if a < 0.0 {
      PositiveProduct(-a, -a);
      assert a * a == (-a) * (-a);
    } else if a > 0.0 {
      PositiveProduct(a, a);
    }
  }

  lemma PositiveProduct(a: real, b: real)
    requires a > 0.0 && b > 0.0
    ensures a * b > 0.0
  {
  }

  /** is_zero on vectors: every component tolerantly zero. */
  predicate IsZeroVec(v: Vector)
    ensures v == Zero ==> IsZeroVec(v)
    ensures IsZeroVec(v) <==> -Epsilon < v.x < Epsilon && -Epsilon < v.y < Epsilon && -Epsilon < v.z < Epsilon
  {
    IsZero(v.x) && IsZero(v.y) && IsZero(v.z)
  }

  /** scalar_product with the two-step snapped summation of the source. */
  function ScalarProduct(lhs: Vector, rhs: Vector): (s: real)
    ensures lhs == Zero || rhs == Zero ==> s == 0.0
  {
    var xx := lhs.x * rhs.x;
    var yy := lhs.y * rhs.y;
    var zz := lhs.z * rhs.z;
    SnapSum(SnapSum(xx, yy), zz)
  }

  /** vector_product: each component is the snapped difference of its two products. */
  function VectorProduct(lhs: Vector, rhs: Vector): (v: Vector)
    ensures lhs == Zero || rhs == Zero ==> v == Zero
    ensures v.x == 0.0 <==> AreEqual(lhs.y * rhs.z, lhs.z * rhs.y)
    ensures v.y == 0.0 <==> AreEqual(lhs.z * rhs.x, lhs.x * rhs.z)
    ensures v.z == 0.0 <==> AreEqual(lhs.x * rhs.y, lhs.y * rhs.x)
  {
    assert lhs == Zero || rhs == Zero ==>
      lhs.z * rhs.y == lhs.y * rhs.z == lhs.x * rhs.z == lhs.z * rhs.x == lhs.y * rhs.x == lhs.x * rhs.y == 0.0;
    Vector(SnapDiff(lhs.z * rhs.y, lhs.y * rhs.z),
           SnapDiff(lhs.x * rhs.z, lhs.z * rhs.x),
           SnapDiff(lhs.y * rhs.x, lhs.x * rhs.y))
  }

  /** triple_product: a . (b x c), with the snapped operations. */
  function TripleProduct(a: Vector, b: Vector, c: Vector): (r: real)
    ensures a == Zero || b == Zero || c == Zero ==> r == 0.0
  {
    ScalarProduct(a, VectorProduct(b, c))
  }

  /** are_collinear: the snapped cross product is tolerantly zero. */
  predicate AreCollinear(a: Vector, b: Vector)
    ensures a == Zero || b == Zero ==> AreCollinear(a, b)
  {
    IsZeroVec(VectorProduct(a, b))
  }

  /** are_coplanar: the snapped triple product is tolerantly zero. */
  predicate AreCoplanar(a: Vector, b: Vector, c: Vector)
    ensures a == Zero || b == Zero || c == Zero ==> AreCoplanar(a, b, c)
  {
    IsZero(TripleProduct(a, b, c))
  }

  /** are_orthogonal: the snapped scalar product is tolerantly zero. */
  predicate AreOrthogonal(a: Vector, b: Vector)
    ensures a == Zero || b == Zero ==> AreOrthogonal(a, b)
  {
    IsZero(ScalarProduct(a, b))
  }

  /** The direction tests are_codirectional and are_oppositely_directed are used by the
      predicates but defined outside the modelled files; they are a parameter of the model. */
  datatype Directions = Directions(codirectional: (Vector, Vector) -> bool,
                                   opposite: (Vector, Vector) -> bool)

  /** Exact cross product, the reference the snapped one approximates. */
  function Cross(a: Vector, b: Vector): Vector
  {
    Vector(a.y * b.z - a.z * b.y, a.z * b.x - a.x * b.z, a.x * b.y - a.y * b.x)
  }

  /** Each snapped cross-product component is the exact one or a snapped zero. */
  lemma VectorProductApproximatesCross(a: Vector, b: Vector)
    ensures var v, c := VectorProduct(a, b), Cross(a, b);
      (v.x == c.x || (v.x == 0.0 && AreEqual(a.y * b.z, a.z * b.y)))
      && (v.y == c.y || (v.y == 0.0 && AreEqual(a.z * b.x, a.x * b.z)))
      && (v.z == c.z || (v.z == 0.0 && AreEqual(a.x * b.y, a.y * b.x)))
  {
  }

  /** Swapping the factors negates the snapped cross product, as it does the exact one;
      in particular collinearity does not depend on the order. */
  lemma VectorProductAntisymmetric(a: Vector, b: Vector)
    ensures VectorProduct(b, a) == Neg(VectorProduct(a, b))
    ensures AreCollinear(a, b) <==> AreCollinear(b, a)
  {
    SnapDiffSwapped(a.z * b.y, a.y * b.z);
    SnapDiffSwapped(a.x * b.z, a.z * b.x);
    SnapDiffSwapped(a.y * b.x, a.x * b.y);
    assert b.z * a.y == a.y * b.z && b.y * a.z == a.z * b.y;
    assert b.x * a.z == a.z * b.x && b.z * a.x == a.x * b.z;
    assert b.y * a.x == a.x * b.y && b.x * a.y == a.y * b.x;
  }

  /** Swapping the operands of a snapped difference negates it. */
  lemma SnapDiffSwapped(first: real, second: real)
    ensures SnapDiff(second, first) == -SnapDiff(first, second)
  {
    AreEqualSymmetric(first, second);
  }

  /** Every vector is collinear with itself and with the zero vector. */
  lemma CollinearWithSelfAndZero(v: Vector)
    ensures VectorProduct(v, v) == Zero
    ensures AreCollinear(v, v) && AreCollinear(v, Zero) && AreCollinear(Zero, v)
  {
    assert v.y * v.z == v.z * v.y;
    assert v.z * v.x == v.x * v.z;
    assert v.x * v.y == v.y * v.x;
  }

  /** Snapped subtraction of a vector from itself, and addition of its negation, give zero. */
  lemma SubSelfAndAddNeg(v: Vector)
    ensures Sub(v, v) == Zero
    ensures Add(v, Neg(v)) == Zero
  {
  }

  /** The scalar product is commutative. */
  lemma ScalarProductCommutative(a: Vector, b: Vector)
    ensures ScalarProduct(a, b) == ScalarProduct(b, a)
    ensures AreOrthogonal(a, b) <==> AreOrthogonal(b, a)
  {
    assert a.x * b.x == b.x * a.x;
    assert a.y * b.y == b.y * a.y;
    assert a.z * b.z == b.z * a.z;
  }

  /** Whenever a zero vector takes part, the triple product is zero and the vectors are coplanar. */
  lemma CoplanarWithZero(a: Vector, b: Vector)
    ensures AreCoplanar(Zero, a, b) && AreCoplanar(a, Zero, b) && AreCoplanar(a, b, Zero)
  {
  }

  /** Equal cross-multiplied components make the snapped cross product exactly zero. */
  lemma CollinearIfProductsEqual(v: Vector, w: Vector)
    requires v.y * w.z == v.z * w.y && v.z * w.x == v.x * w.z && v.x * w.y == v.y * w.x
    ensures VectorProduct(v, w) == Zero
    ensures AreCollinear(v, w)
  {
  }

  lemma ProductRearranged(p: real, q: real, a: real, b: real)
    ensures (p * a) * (q * b) == (q * a) * (p * b)
  {
    calc {
      (p * a) * (q * b);
      (p * q) * (a * b);
      (q * a) * (p * b);
    }
  }

  /** Two multiples of one vector are collinear. */
  lemma ScaledAreCollinear(u: Vector, a: real, b: real)
    ensures AreCollinear(Scale(u, a), Scale(u, b))
  {
    var v, w := Scale(u, a), Scale(u, b);
    assert v == Vector(u.x * a, u.y * a, u.z * a);
    assert w == Vector(u.x * b, u.y * b, u.z * b);
    ProductRearranged(u.y, u.z, a, b);
    ProductRearranged(u.z, u.x, a, b);
    ProductRearranged(u.x, u.y, a, b);
    CollinearIfProductsEqual(v, w);
  }
}
