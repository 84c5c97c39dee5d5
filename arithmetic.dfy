/**
 * Arithmetic on Church numerals (lambda.js:3-10) and the sample numerals
 * the file builds from them (lambda.js:66-74).
 *
 * Each operation is written twice over. The Church form keeps the lambda
 * shape of lambda.js, instantiated at the carrier types that shape
 * needs, and a lemma proves it denotes the arithmetic result pointwise.
 * The index form (`Succ`, `Pred`, `Add`, ...) treats polymorphic numerals
 * by their `nat` index: it runs the Church form at `nat` and reads the
 * numeral back with `Decode`. SUBTRACTION iterates PREDECESSOR, so it can
 * only be written on indices: there the numeral `n` is used at the carrier
 * of numerals themselves, which is what lambda.js:7 does.
 */
module Arithmetic {
  import opened Numerals

  /** The reference definition of exponentiation. */
  function Exp(a: nat, b: nat): nat
    decreases b
  {
    if b == 0 then 1 else a * Exp(a, b - 1)
  }

  // SUCCESSOR ------------------------------------------------------------------

  /** SUCCESSOR (lambda.js:4): one more application of `f`. */
  function Successor<T>(n: Church<T>): Church<T>
  {
    (f: T -> T) => (x: T) => f(n(f)(x))
  }

  lemma SuccessorDenotes<T>(n: Church<T>, k: nat)
    requires forall f: T -> T, x: T :: n(f)(x) == Iter(f, k, x)
    ensures forall f: T -> T, x: T :: Successor(n)(f)(x) == Iter(f, k + 1, x)
  {
  }

  // PREDECESSOR ----------------------------------------------------------------

  /**
   * The carrier PREDECESSOR runs its numeral at: a container that hands a
   * stored value to whatever extractor it is given.
   */
  type Cont<!T> = (T -> T) -> T

  /** The step `g => h => h(g(f))` of PREDECESSOR. */
  function Shift<T>(f: T -> T): Cont<T> -> Cont<T>
  {
    (g: Cont<T>) => (h: T -> T) => h(g(f))
  }

  /** The starting container `_ => x` of PREDECESSOR: it ignores its extractor. */
  function Discard<T>(x: T): Cont<T>
  {
    (_: T -> T) => x
  }

  /**
   * PREDECESSOR (lambda.js:5): runs `n` steps of `Shift(f)` from
   * `Discard(x)` and extracts the stored value with IDENTITY. The first
   * step only unwraps `x`, so one application of `f` is lost.
   */
  function Predecessor<T>(n: Church<Cont<T>>): Church<T>
  {
    (f: T -> T) => (x: T) => n(Shift(f))(Discard(x))(Identity)
  }

  /** After `k + 1` steps the container holds `f` applied `k` times to `x`. */
  lemma {:induction false} ShiftInvariant<T>(f: T -> T, x: T, k: nat, h: T -> T)
    ensures Iter(Shift(f), k + 1, Discard(x))(h) == h(Iter(f, k, x))
    decreases k
  {
    if k > 0 {
      ShiftInvariant(f, x, k - 1, f);
    }
  }

  /** PREDECESSOR denotes the predecessor, saturating at zero. */
  lemma PredecessorDenotes<T>(n: Church<Cont<T>>, k: nat)
    requires forall f: Cont<T> -> Cont<T>, x: Cont<T> :: n(f)(x) == Iter(f, k, x)
    ensures forall f: T -> T, x: T :: Predecessor(n)(f)(x) == Iter(f, if k == 0 then 0 else k - 1, x)
  {
    forall f: T -> T, x: T
      ensures Predecessor(n)(f)(x) == Iter(f, if k == 0 then 0 else k - 1, x)
    {
      assert Predecessor(n)(f)(x) == Iter(Shift(f), k, Discard(x))(Identity);
      if k > 0 {
        ShiftInvariant(f, x, k - 1, Identity);
      }
    }
  }

  /** PREDECESSOR undoes SUCCESSOR on every numeral, at every carrier. */
  lemma PredecessorOfSuccessor<T>(n: Church<Cont<T>>, k: nat)
    requires forall f: Cont<T> -> Cont<T>, x: Cont<T> :: n(f)(x) == Iter(f, k, x)
    ensures forall f: T -> T, x: T :: Predecessor(Successor(n))(f)(x) == Iter(f, k, x)
  {
    SuccessorDenotes(n, k);
    PredecessorDenotes(Successor(n), k + 1);
  }

  // ADDITION -------------------------------------------------------------------

  /** ADDITION (lambda.js:6): SUCCESSOR applied `n` times to `m`. */
  function Addition<T>(m: Church<T>, n: Church<Church<T>>): Church<T>
  {
    n(Successor)(m)
  }

  /** `b` SUCCESSOR steps from `m` add `b` applications of `f` to those `m` makes. */
  lemma IterSuccessor<T>(m: Church<T>, b: nat, f: T -> T, x: T)
    ensures Iter(Successor, b, m)(f)(x) == Iter(f, b, m(f)(x))
  {
    var run := (c: Church<T>) => c(f)(x);
    IterMap(Successor, run, f, b, m);
  }

  /** ADDITION at one step function and one base value. */
  lemma AdditionAt<T>(m: Church<T>, a: nat, n: Church<Church<T>>, b: nat, f: T -> T, x: T)
    requires m(f)(x) == Iter(f, a, x)
    requires n(Successor)(m) == Iter(Successor, b, m)
    ensures Addition(m, n)(f)(x) == Iter(f, a + b, x)
  {
    IterSuccessor(m, b, f, x);
    IterAdd(f, b, a, x);
  }

  lemma AdditionDenotes<T>(m: Church<T>, a: nat, n: Church<Church<T>>, b: nat)
    requires forall f: T -> T, x: T :: m(f)(x) == Iter(f, a, x)
    requires forall f: Church<T> -> Church<T>, x: Church<T> :: n(f)(x) == Iter(f, b, x)
    ensures forall f: T -> T, x: T :: Addition(m, n)(f)(x) == Iter(f, a + b, x)
  {
    forall f: T -> T, x: T
      ensures Addition(m, n)(f)(x) == Iter(f, a + b, x)
    {
      AdditionAt(m, a, n, b, f, x);
    }
  }

  // MULTIPLICATION -------------------------------------------------------------

  /** MULTIPLICATION (lambda.js:8): `m` rounds of `n` applications of `f`. */
  function Multiplication<T>(m: Church<T>, n: Church<T>): Church<T>
  {
    (f: T -> T) => m(n(f))
  }

  lemma MultiplicationDenotes<T>(m: Church<T>, a: nat, n: Church<T>, b: nat)
    requires forall f: T -> T, x: T :: m(f)(x) == Iter(f, a, x)
    requires forall f: T -> T, x: T :: n(f)(x) == Iter(f, b, x)
    ensures forall f: T -> T, x: T :: Multiplication(m, n)(f)(x) == Iter(f, a * b, x)
  {
    forall f: T -> T, x: T
      ensures Multiplication(m, n)(f)(x) == Iter(f, a * b, x)
    {
      IterCompose(f, n(f), b, a, x);
    }
  }

  // POWER ----------------------------------------------------------------------

  /** POWER (lambda.js:9): the numeral `x` used as the step function of `y`. */
  function Power<T>(x: Church<T>, y: Church<T -> T>): Church<T>
  {
    y(x)
  }

  lemma {:induction false} IterPower<T>(x: Church<T>, a: nat, b: nat, f: T -> T)
    requires forall f: T -> T, z: T :: x(f)(z) == Iter(f, a, z)
    ensures forall z: T :: Iter(x, b, f)(z) == Iter(f, Exp(a, b), z)
    decreases b
  {
    if b > 0 {
      var k: nat := b - 1;
      IterPower(x, a, k, f);
      var g := Iter(x, k, f);
      var e := Exp(a, k);
      assert Iter(x, b, f) == x(g);
      assert Exp(a, b) == a * e;
      forall z: T
        ensures Iter(x, b, f)(z) == Iter(f, Exp(a, b), z)
      {
        IterCompose(f, g, e, a, z);
      }
    }
  }

  lemma PowerDenotes<T>(x: Church<T>, a: nat, y: Church<T -> T>, b: nat)
    requires forall f: T -> T, z: T :: x(f)(z) == Iter(f, a, z)
    requires forall f: Church<T>, g: T -> T :: y(f)(g) == Iter(f, b, g)
    ensures forall f: T -> T, z: T :: Power(x, y)(f)(z) == Iter(f, Exp(a, b), z)
  {
    forall f: T -> T
      ensures forall z: T :: Power(x, y)(f)(z) == Iter(f, Exp(a, b), z)
    {
      IterPower(x, a, b, f);
    }
  }

  // Numerals by index ----------------------------------------------------------

  /** SUCCESSOR on numeral indices. */
  function Succ(n: nat): (r: nat)
    ensures r == n + 1
  {
    SuccessorDenotes(Numeral<nat>(n), n);
    DecodeDenotes(Successor(Numeral(n)), n + 1);
    Decode(Successor(Numeral(n)))
  }

  /** PREDECESSOR on numeral indices: it never goes below zero. */
  function Pred(n: nat): (r: nat)
    ensures r == if n == 0 then 0 else n - 1
  {
    PredecessorDenotes(Numeral<Cont<nat>>(n), n);
    DecodeDenotes(Predecessor(Numeral(n)), if n == 0 then 0 else n - 1);
    Decode(Predecessor(Numeral(n)))
  }

  /** ADDITION on numeral indices. */
  function Add(m: nat, n: nat): (r: nat)
    ensures r == m + n
  {
    AdditionDenotes(Numeral<nat>(m), m, Numeral(n), n);
    DecodeDenotes(Addition(Numeral(m), Numeral(n)), m + n);
    Decode(Addition(Numeral(m), Numeral(n)))
  }

  lemma {:induction false} IterPred(m: nat, n: nat)
    ensures Iter(Pred, n, m) == if n <= m then m - n else 0
    decreases n
  {
    if n > 0 {
      IterPred(m, n - 1);
    }
  }

  /**
   * SUBTRACTION (lambda.js:7): PREDECESSOR applied `n` times to `m`, the
   * numeral `n` being used at the carrier of numerals. Saturates at zero.
   */
  function Sub(m: nat, n: nat): (r: nat)
    ensures r == if n <= m then m - n else 0
  {
    IterPred(m, n);
    Numeral<nat>(n)(Pred)(m)
  }

  /** MULTIPLICATION on numeral indices. */
  function Mul(m: nat, n: nat): (r: nat)
    ensures r == m * n
  {
    MultiplicationDenotes(Numeral<nat>(m), m, Numeral(n), n);
    DecodeDenotes(Multiplication(Numeral(m), Numeral(n)), m * n);
    Decode(Multiplication(Numeral(m), Numeral(n)))
  }

  /** POWER on numeral indices: `x` raised to `y`. */
  function Pow(x: nat, y: nat): (r: nat)
    ensures r == Exp(x, y)
  {
    PowerDenotes(Numeral<nat>(x), x, Numeral(y), y);
    DecodeDenotes(Power(Numeral(x), Numeral(y)), Exp(x, y));
    Decode(Power(Numeral(x), Numeral(y)))
  }

  /** ABS_DIFFERENCE (lambda.js:10): the two saturating differences added. */
  function AbsDiff(x: nat, y: nat): (r: nat)
    ensures r == if x <= y then y - x else x - y
  {
    Add(Sub(x, y), Sub(y, x))
  }

  // Laws -----------------------------------------------------------------------

  /** PREDECESSOR undoes SUCCESSOR and saturates at zero. */
  lemma PredSucc(n: nat)
    ensures Pred(Succ(n)) == n
    ensures Pred(0) == 0
  {
  }

  /** Saturating subtraction: zero below, and undone by addition above. */
  lemma SubAdd(m: nat, n: nat)
    ensures m <= n ==> Sub(m, n) == 0
    ensures n <= m ==> Add(Sub(m, n), n) == m
  {
  }

  lemma MulCommutes(m: nat, n: nat)
    ensures Mul(m, n) == Mul(n, m)
  {
  }

  lemma AbsDiffSymmetric(x: nat, y: nat)
    ensures AbsDiff(x, y) == AbsDiff(y, x)
    ensures AbsDiff(x, y) == 0 <==> x == y
  {
  }

  // Sample numerals (lambda.js:66-74) ------------------------------------------

  function Zero<T>(): Church<T> { f => Identity }
  function One<T>(): Church<T> { Successor(Zero()) }
  function Two<T>(): Church<T> { Successor(One()) }
  function Three<T>(): Church<T> { Successor(Two()) }
  function Four<T>(): Church<T> { Multiplication(Two(), Two()) }
  function Five<T>(): Church<T> { Successor(Four()) }
  function Eight<T>(): Church<T> { Multiplication(Two(), Four()) }
  function Nine<T>(): Church<T> { Successor(Eight()) }
  function Ten<T>(): Church<T> { Multiplication(Two(), Five()) }

  /** Each sample numeral counts what its name says. */
  lemma SampleNumerals<T>()
    ensures forall f: T -> T, x: T :: Zero<T>()(f)(x) == Iter(f, 0, x)
    ensures forall f: T -> T, x: T :: One<T>()(f)(x) == Iter(f, 1, x)
    ensures forall f: T -> T, x: T :: Two<T>()(f)(x) == Iter(f, 2, x)
    ensures forall f: T -> T, x: T :: Three<T>()(f)(x) == Iter(f, 3, x)
    ensures forall f: T -> T, x: T :: Four<T>()(f)(x) == Iter(f, 4, x)
    ensures forall f: T -> T, x: T :: Five<T>()(f)(x) == Iter(f, 5, x)
    ensures forall f: T -> T, x: T :: Eight<T>()(f)(x) == Iter(f, 8, x)
    ensures forall f: T -> T, x: T :: Nine<T>()(f)(x) == Iter(f, 9, x)
    ensures forall f: T -> T, x: T :: Ten<T>()(f)(x) == Iter(f, 10, x)
  {
    SuccessorDenotes(Zero<T>(), 0);
    SuccessorDenotes(One<T>(), 1);
    SuccessorDenotes(Two<T>(), 2);
    MultiplicationDenotes(Two<T>(), 2, Two(), 2);
    SuccessorDenotes(Four<T>(), 4);
    MultiplicationDenotes(Two<T>(), 2, Four(), 4);
    SuccessorDenotes(Eight<T>(), 8);
    MultiplicationDenotes(Two<T>(), 2, Five(), 5);
  }
}
