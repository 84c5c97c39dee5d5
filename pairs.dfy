/**
 * Pairs (lambda.js:31-32, 40-42).
 *
 * A pair hands its two components to a selector and returns whatever the
 * selector returns. `Pair<A, B, R>` is a pair of an `A` and a `B`
 * instantiated at result carrier `R`: CAR uses it at `R = A`, CDR at
 * `R = B`, IS_NULL at the carrier of booleans. NIL is the sentinel that
 * ignores its selector and answers TRUE. Since the components may have
 * different types, a pair may hold a numeral and another pair.
 */
module Pairs {

  type Pair<!A, !B, !R> = (A -> B -> R) -> R

  /** CONS (lambda.js:40): `f => f(x)(y)`. */
  function Cons<A, B, R>(x: A, y: B): Pair<A, B, R>
  {
    (f: A -> B -> R) => f(x)(y)
  }

  /** CAR (lambda.js:41): apply the pair to TRUE, `t => f => t`. */
  function Car<A, B>(p: Pair<A, B, A>): A
  {
    p((t: A) => (f: B) => t)
  }

  /** CDR (lambda.js:42): apply the pair to FALSE, `t => f => f`. */
  function Cdr<A, B>(p: Pair<A, B, B>): B
  {
    p((t: A) => (f: B) => f)
  }

  /** NIL (lambda.js:32): answers TRUE whatever it is applied to. */
  function Nil<A, B>(): Pair<A, B, bool>
  {
    (_: A -> B -> bool) => true
  }

  /** IS_NULL (lambda.js:31): apply the pair to `x => y => FALSE`. */
  function IsNull<A, B>(p: Pair<A, B, bool>): bool
  {
    p((x: A) => (y: B) => false)
  }

  /** CAR and CDR give back exactly what CONS stored, for any two values. */
  lemma CarCdrCons<A, B>(a: A, b: B)
    ensures Car(Cons(a, b)) == a
    ensures Cdr(Cons(a, b)) == b
  {
  }

  /** Only the sentinel answers IS_NULL with TRUE. */
  lemma IsNullNil<A, B>(a: A, b: B)
    ensures IsNull(Nil<A, B>())
    ensures !IsNull(Cons<A, B, bool>(a, b))
  {
  }
}
