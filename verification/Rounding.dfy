/**
 * Rounding of exact amounts to whole paise (or thousandths of a unit):
 * decimal.js ROUND_HALF_UP, which takes ties away from zero.
 */
module Rounding {

  function HalfUp(x: real): (r: int)
  {
    if x < 0.0 then -(0.5 - x).Floor else (x + 0.5).Floor
  }

  lemma {:induction false} HalfUpMonotone(x: real, y: real)
    requires x <= y
    ensures HalfUp(x) <= HalfUp(y)
  {}

  lemma {:induction false} HalfUpWithinHalf(x: real)
    ensures -0.5 <= HalfUp(x) as real - x <= 0.5
    ensures x >= 0.0 ==> HalfUp(x) as real - x > -0.5
  {}

  lemma {:induction false} HalfUpOfInt(n: int)
    ensures HalfUp(n as real) == n
  {}

  /** A tie below zero rounds away from it, so a shift that crosses zero is not respected. */
  lemma {:induction false} HalfUpShiftFailsAcrossZero()
    ensures HalfUp(-0.5 + 1.0) != HalfUp(-0.5) + 1
  {}

  lemma {:induction false} FloorShift(y: real, n: int)
    ensures (y + n as real).Floor == y.Floor + n
  {}

  /** Halfway between two whole paise. */
  predicate IsTie(x: real) { (x + 0.5).Floor as real == x + 0.5 }

  /** Below zero a tie rounds one paisa lower than it does above; every other amount rounds alike. */
  lemma {:induction false} HalfUpByFloor(x: real)
    ensures HalfUp(x) == (x + 0.5).Floor - (if x < 0.0 && IsTie(x) then 1 else 0)
  {
    var y := x + 0.5;
    var k := y.Floor;
    assert k as real <= y < (k + 1) as real;
    if x < 0.0 {
      var up := 1.0 - y;
      assert 0.5 - x == up;
      FloorShift(-y, 1);
      if IsTie(x) {
        assert -y == (-k) as real;
      } else {
        assert (-k - 1) as real < -y < (-k) as real;
      }
    }
  }

  /** Rounding respects a shift by whole paise except for a tie that the shift takes across zero, either way. */
  lemma {:induction false} HalfUpShiftExactly(x: real, n: int)
    ensures HalfUp(x + n as real) == HalfUp(x) + n <==>
      !IsTie(x) || (x < 0.0 <==> x + n as real < 0.0)
  {
    hide HalfUp;
    HalfUpByFloor(x);
    HalfUpByFloor(x + n as real);
    FloorShift(x + 0.5, n);
    assert (x + n as real) + 0.5 == (x + 0.5) + n as real;
  }

  // ---------------------------------------------------------------------------
  // Products and quotients of exact amounts
  // ---------------------------------------------------------------------------

  lemma {:induction false} MulLessEq(a: real, b: real, c: real)
    requires a <= b && 0.0 <= c
    ensures a * c <= b * c
  {}

  lemma {:induction false} MulLess(a: real, b: real, c: real)
    requires a < b && 0.0 < c
    ensures a * c < b * c
  {}

  /** A quotient compares with a bound as its numerator does with the bound times the denominator. */
  lemma {:induction false} CompareQuotient(n: real, d: real, k: real)
    requires d > 0.0
    ensures n / d <= k <==> n <= k * d
    ensures k <= n / d <==> k * d <= n
  {
    var x := n / d;
    assert x * d == n;
    if x < k {
      MulLess(x, k, d);
    } else if k < x {
      MulLess(k, x, d);
    }
  }

  /** The closed integer form of the rounded quotient of a non-negative amount. */
  lemma {:induction false} HalfUpIsIntegerDivision(n: nat, d: nat)
    requires d > 0
    ensures HalfUp(n as real / d as real) == (2 * n + d) / (2 * d)
  {
    HalfShift(n as real, d as real);
    FloorOfQuotient(2 * n + d, 2 * d);
  }

  lemma {:induction false} FloorOfQuotient(n: nat, d: nat)
    requires d > 0
    ensures (n as real / d as real).Floor == n / d
  {
    var q := n / d;
    assert n == d * q + n % d;
    var low, high := d * q, d * (q + 1);
    assert low <= n < high;
    AsReal(d, q);
    AsReal(d, q + 1);
    CompareQuotient(n as real, d as real, q as real);
    CompareQuotient(n as real, d as real, (q + 1) as real);
  }

  lemma {:induction false} AsReal(a: int, b: int)
    ensures (a * b) as real == b as real * a as real
  {}

  lemma {:induction false} HalfShift(n: real, d: real)
    requires d > 0.0
    ensures n / d + 0.5 == (2.0 * n + d) / (2.0 * d)
    ensures n >= 0.0 ==> n / d >= 0.0
  {
    var x := n / d;
    assert x * d == n;
    assert (x + 0.5) * (2.0 * d) == 2.0 * (x * d) + d;
    CompareQuotient(2.0 * n + d, 2.0 * d, x + 0.5);
    CompareQuotient(n, d, 0.0);
  }
}
