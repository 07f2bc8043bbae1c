/** Tolerant comparison of coordinates (include/double_comparison.hpp).
    Two numbers are equal when their distance is below an absolute
    tolerance, or below the larger magnitude scaled by a relative one.
    Every ordering predicate of the library is derived from this test. */
module Comparison {

  /** The default tolerance, 1e-6, used both as absolute and relative difference. */
  const Epsilon: real := 0.000001

  function Abs(x: real): (r: real)
    ensures r >= 0.0
    ensures r == x || r == -x
  {
    if x < 0.0 then -x else x
  }

  /** std::max: returns the first argument unless it is smaller than the second. */
  function Max(a: real, b: real): (r: real)
    ensures r >= a && r >= b
    ensures r == a || r == b
  {
    if a < b then b else a
  }

  /** are_equal with the default zero and relative tolerances. */
  predicate AreEqual(first: real, second: real)
    ensures first == second ==> AreEqual(first, second)
    ensures AreEqual(first, second) ==> Abs(first - second) < Epsilon || Abs(first - second) < Abs(first) * Epsilon || Abs(first - second) < Abs(second) * Epsilon
  {
    var diff := Abs(first - second);
    if diff < Epsilon then true
    else diff < Max(Abs(first), Abs(second)) * Epsilon
  }

  /** is_zero: equality to zero, which only the absolute tolerance can grant. */
  predicate IsZero(value: real)
    ensures IsZero(value) <==> -Epsilon < value < Epsilon
  {
    AreEqual(value, 0.0)
  }

  /** cmp::less: strictly smaller by more than the tolerance, both absolutely and
      relative to the larger magnitude. */
  predicate Less(first: real, second: real)
    ensures Less(first, second) <==>
      second - first >= Epsilon && second - first >= Max(Abs(first), Abs(second)) * Epsilon
  {
    first < second && !AreEqual(first, second)
  }

  /** cmp::greater: the converse of less. */
  predicate Greater(first: real, second: real)
    ensures Greater(first, second) ==> first - second >= Epsilon
  {
    first > second && !AreEqual(first, second)
  }

  /** cmp::less_equal: everything that is not greater. */
  predicate LessEqual(first: real, second: real)
    ensures LessEqual(first, second) <==> !Greater(first, second)
  {
    first < second || AreEqual(first, second)
  }

  /** cmp::greater_equal: everything that is not less. */
  predicate GreaterEqual(first: real, second: real)
    ensures GreaterEqual(first, second) <==> !Less(first, second)
  {
    first > second || AreEqual(first, second)
  }

  /** Tolerant equality is reflexive and symmetric (it is not transitive). */
  lemma AreEqualSymmetric(a: real, b: real)
    ensures AreEqual(a, a)
    ensures AreEqual(a, b) <==> AreEqual(b, a)
  {
    assert Abs(a - b) == Abs(b - a);
  }

  /** Tolerant equality is not transitive: chains of near values drift apart. */
  lemma AreEqualNotTransitive()
    ensures AreEqual(0.0, 0.0000006) && AreEqual(0.0000006, 0.0000012)
    ensures !AreEqual(0.0, 0.0000012)
  {
  }

  /** Exactly one of less, equal and greater holds for every pair. */
  lemma Trichotomy(a: real, b: real)
    ensures Less(a, b) || AreEqual(a, b) || Greater(a, b)
    ensures !(Less(a, b) && AreEqual(a, b))
    ensures !(Less(a, b) && Greater(a, b))
    ensures !(AreEqual(a, b) && Greater(a, b))
  {
  }

  /** The non-strict predicates are the negations of the strict ones. */
  lemma NonStrictAreComplements(a: real, b: real)
    ensures LessEqual(a, b) <==> !Greater(a, b)
    ensures GreaterEqual(a, b) <==> !Less(a, b)
    ensures Less(a, b) <==> Greater(b, a)
    ensures LessEqual(a, b) <==> GreaterEqual(b, a)
  {
  }

  /** Negating both sides keeps tolerant equality. */
  lemma AreEqualNegated(a: real, b: real)
    ensures AreEqual(-a, -b) <==> AreEqual(a, b)
  {
    assert Abs(-a - -b) == Abs(a - b);
    assert Abs(-a) == Abs(a) && Abs(-b) == Abs(b);
  }

  /** Strict comparison against zero agrees with the exact sign once zero is excluded. */
  lemma GreaterZeroIsSign(value: real)
    ensures Greater(value, 0.0) <==> !IsZero(value) && value > 0.0
    ensures !IsZero(value) ==> (Greater(value, 0.0) || Greater(-value, 0.0))
    ensures !(Greater(value, 0.0) && Greater(-value, 0.0))
  {
  }

  /** Test vectors of test/basic_tests/src/double_comparison.cpp. */
  lemma ComparisonExamples()
    ensures AreEqual(0.0, -0.0)
    ensures !AreEqual(1.0, 0.0) && !AreEqual(-1.0, 0.0)
    ensures !AreEqual(83745.2, 0.0) && !AreEqual(-83745.2, 0.0)
    ensures AreEqual(Epsilon / 2.0, 0.0) && AreEqual(-Epsilon / 2.0, 0.0)
    ensures AreEqual(0.0000000001, 0.0) && AreEqual(-0.0000000001, 0.0)
  {
  }

  /** The relative branch: large numbers one millionth apart compare equal. */
  lemma RelativeToleranceExample()
    ensures AreEqual(10000000.0, 10000001.0)
    ensures !AreEqual(1.0, 1.000002)
  {
  }
}
