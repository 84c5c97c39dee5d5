/**
 * Comparisons of numerals (lambda.js:24-30), all derived from IS_ZERO and
 * saturating subtraction: `m <= n` exactly when `m - n` saturates to zero.
 */
module Comparison {
  import opened Numerals
  import opened Arithmetic
  import opened Logic

  /**
   * IS_ZERO (lambda.js:24): the numeral `n`, used at the carrier of
   * booleans, applied to the step `_ => FALSE` and the base TRUE.
   */
  function IsZero(n: nat): (r: bool)
    ensures r <==> n == 0
  {
    var step := (_: bool) => false;
    assert n > 0 ==> Iter(step, n, true) == step(Iter(step, n - 1, true));
    Numeral<bool>(n)(step)(true)
  }

  /** IS_LESS_THAN_EQUAL (lambda.js:26): `m - n` is zero. */
  function IsLessThanEqual(m: nat, n: nat): (r: bool)
    ensures r <==> m <= n
  {
    IsZero(Sub(m, n))
  }

  /** IS_LESS_THAN (lambda.js:25): not `n <= m`. */
  function IsLessThan(m: nat, n: nat): (r: bool)
    ensures r <==> m < n
  {
    Not(IsLessThanEqual(n, m))
  }

  /** IS_EQUAL (lambda.js:27): `m <= n` and `n <= m`. */
  function IsEqual(m: nat, n: nat): (r: bool)
    ensures r <==> m == n
  {
    And(IsLessThanEqual(m, n), IsLessThanEqual(n, m))
  }

  /** IS_NOT_EQUAL (lambda.js:28): not `m <= n`, or not `n <= m`. */
  function IsNotEqual(m: nat, n: nat): (r: bool)
    ensures r <==> m != n
  {
    Or(Not(IsLessThanEqual(m, n)), Not(IsLessThanEqual(n, m)))
  }

  /** IS_GREATER_THAN_EQUAL (lambda.js:29): `n <= m`. */
  function IsGreaterThanEqual(m: nat, n: nat): (r: bool)
    ensures r <==> m >= n
  {
    IsLessThanEqual(n, m)
  }

  /** IS_GREATER_THAN (lambda.js:30): not `m <= n`. */
  function IsGreaterThan(m: nat, n: nat): (r: bool)
    ensures r <==> m > n
  {
    Not(IsLessThanEqual(m, n))
  }

  /** IS_NOT_EQUAL, written with De Morgan's law, selects as NOT of IS_EQUAL does. */
  lemma NotEqualIsNotOfEqual(m: nat, n: nat)
    ensures IsNotEqual(m, n) == Not(IsEqual(m, n))
  {
  }

  /** IS_ZERO of a successor is FALSE. */
  lemma IsZeroSucc(n: nat)
    ensures IsZero(0)
    ensures !IsZero(Succ(n))
  {
  }
}
