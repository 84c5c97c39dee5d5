/**
 * The checks lambda.js runs on its own definitions (lambda.js:78-187),
 * stated as lemmas on numeral and boolean indices. Each `ensures` is one
 * check, written with the same operations and arguments; REFUTE(t) is
 * ASSERT(NOT(t)) (lambda.js:60), so a refuted check appears under `Not`.
 */
module Scenarios {
  import opened Logic
  import opened Arithmetic
  import opened Comparison
  import Pairs
  import Lists

  /** TRUE, FALSE, AND, OR, XOR, NOT and IF (lambda.js:78-100). */
  lemma LogicScenarios()
    ensures True<bool>()(true)(false)
    ensures Not(False<bool>()(true)(false))
    ensures And(true, true)
    ensures And(And(Or(true, false), Or(false, true)), Not(Or(false, false)))
    ensures And(And(Xor(true, false), Xor(false, true)), Not(Xor(true, true)))
    ensures Not(Not(true))
    ensures And(If(true, true, false), Not(If(false, true, false)))
  {
  }

  /** SUCCESSOR through ABS_DIFFERENCE (lambda.js:105-126). */
  lemma ArithmeticScenarios()
    ensures IsEqual(Succ(0), 1)
    ensures IsEqual(0, Pred(1))
    ensures IsEqual(Succ(1), Add(1, 1))
    ensures IsEqual(0, Sub(1, 1))
    ensures IsEqual(4, Mul(2, 2))
    ensures And(IsEqual(9, Pow(3, 2)), IsEqual(8, Pow(2, 3)))
    ensures And(IsEqual(1, AbsDiff(3, 2)), IsEqual(1, AbsDiff(2, 3)))
  {
  }

  /** IS_ZERO through IS_GREATER_THAN (lambda.js:128-150). */
  lemma ComparisonScenarios()
    ensures IsZero(0)
    ensures IsLessThan(0, 1)
    ensures And(IsLessThanEqual(1, 1), IsLessThanEqual(0, 1))
    ensures And(IsEqual(0, 0), IsEqual(1, 1))
    ensures IsNotEqual(0, 1)
    ensures And(IsGreaterThanEqual(1, 1), IsGreaterThanEqual(1, 0))
    ensures IsGreaterThan(1, 0)
  {
  }

  /** A flat pair of numerals, as CAR and the inner CDR read it. */
  type Flat = Pairs.Pair<nat, nat, nat>

  /** A numeral paired with a flat pair, as CAR reads it. */
  type Nested = Pairs.Pair<nat, Flat, nat>

  /** CONS($one)($three), the inner pair of the nested checks. */
  function OneThree(): Flat
  {
    Pairs.Cons<nat, nat, nat>(1, 3)
  }

  /**
   * IS_NULL, CAR, CDR and CONS on flat pairs and on pairs whose second
   * component is again a pair (lambda.js:152-165).
   */
  lemma PairScenarios()
    ensures Pairs.IsNull(Pairs.Nil<nat, nat>())
    ensures And(IsEqual(Pairs.Car(Pairs.Cons<nat, nat, nat>(5, 1)), 5),
                IsEqual(Pairs.Car(Pairs.Cons<nat, Flat, nat>(2, OneThree())), 2))
    ensures And(IsEqual(Pairs.Cdr(Pairs.Cons<nat, nat, nat>(5, 1)), 1),
                IsEqual(Pairs.Car(Pairs.Cdr(Pairs.Cons<nat, Flat, Flat>(2, OneThree()))), 1))
    ensures And(IsEqual(Pairs.Cdr(Pairs.Cdr(Pairs.Cons<nat, Flat, Flat>(2, OneThree()))), 3),
                IsEqual(Pairs.Car(Pairs.Cdr(Pairs.Cons<nat, Nested, Nested>(5, Pairs.Cons<nat, Flat, nat>(2, OneThree())))), 2))
  {
    Pairs.CarCdrCons<nat, nat>(5, 1);
    Pairs.CarCdrCons<nat, nat>(1, 3);
    Pairs.CarCdrCons<nat, Flat>(2, OneThree());
    Pairs.CarCdrCons<nat, Nested>(5, Pairs.Cons<nat, Flat, nat>(2, OneThree()));
  }

  /** RANGE(3)(5) and its MAP under `v => POWER(v)(2)` (lambda.js:167-187). */
  lemma ListScenarios()
    ensures Lists.Range(3, 5) == Lists.Cons(3, Lists.Cons(4, Lists.Cons(5, Lists.Nil)))
    ensures Lists.Map(Lists.Range(3, 5), (v: nat) => Pow(v, 2))
         == Lists.Cons(Pow(3, 2), Lists.Cons(Pow(4, 2), Lists.Cons(Pow(5, 2), Lists.Nil)))
    ensures Lists.Map(Lists.Range(3, 5), (v: nat) => Pow(v, 2))
         == Lists.Cons(9, Lists.Cons(16, Lists.Cons(25, Lists.Nil)))
  {
    assert Lists.Range(5, 5) == Lists.Cons(5, Lists.Nil);
    assert Lists.Range(4, 5) == Lists.Cons(4, Lists.Range(5, 5));
    assert Lists.Range(3, 5) == Lists.Cons(3, Lists.Range(4, 5));
  }
}
