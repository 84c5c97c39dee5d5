/**
 * Church booleans (lambda.js:14-20).
 *
 * A boolean is a selector: given two values it returns the first (TRUE) or
 * the second (FALSE) and builds nothing new. As with numerals, a
 * polymorphic boolean is named by a Dafny `bool`, and `Select<T>(b)` is its
 * instance at carrier `T`. AND, OR, XOR and NOT apply their first argument
 * at the carrier of booleans themselves, as lambda.js:16-19 do; IF applies
 * it at any carrier, as lambda.js:20 allows.
 */
module Logic {

  /** A Church boolean instantiated at carrier `T`. */
  type Selector<!T> = T -> T -> T

  /** TRUE (lambda.js:14). */
  function True<T>(): Selector<T>
  {
    (t: T) => (f: T) => t
  }

  /** FALSE (lambda.js:15). */
  function False<T>(): Selector<T>
  {
    (t: T) => (f: T) => f
  }

  /** The boolean named by `b`, instantiated at `T`. */
  function Select<T>(b: bool): Selector<T>
  {
    if b then True() else False()
  }

  /** Booleans are pure selectors: each returns one of its two arguments. */
  lemma SelectPicksArgument<T>(b: bool, t: T, f: T)
    ensures True<T>()(t)(f) == t && False<T>()(t)(f) == f
    ensures Select<T>(b)(t)(f) == t || Select<T>(b)(t)(f) == f
    ensures Select<T>(b)(t)(f) == t <== b
    ensures Select<T>(b)(t)(f) == f <== !b
  {
  }

  /** AND (lambda.js:16): `p(q)(p)`. */
  function And(p: bool, q: bool): (r: bool)
    ensures r <==> p && q
  {
    Select<bool>(p)(q)(p)
  }

  /** OR (lambda.js:17): `p(p)(q)`. */
  function Or(p: bool, q: bool): (r: bool)
    ensures r <==> p || q
  {
    Select<bool>(p)(p)(q)
  }

  /** NOT (lambda.js:19): `c(FALSE)(TRUE)`. */
  function Not(c: bool): (r: bool)
    ensures r <==> !c
  {
    Select<bool>(c)(false)(true)
  }

  /** XOR (lambda.js:18): `p(NOT(q))(q)`. */
  function Xor(p: bool, q: bool): (r: bool)
    ensures r <==> p != q
  {
    Select<bool>(p)(Not(q))(q)
  }

  /** IF (lambda.js:20): `c(t)(f)`, at any carrier. */
  function If<T>(c: bool, t: T, f: T): (r: T)
    ensures c ==> r == t
    ensures !c ==> r == f
  {
    Select<T>(c)(t)(f)
  }
}
