/**
 * Church numerals.
 *
 * A numeral is a function that takes a step function `f` and a base value
 * `x` and applies `f` to `x` a fixed number of times. In the untyped
 * lambda.js one numeral is used at many carrier types; Dafny has no
 * polymorphic function values, so a polymorphic numeral is named by its
 * `nat` index here and `Numeral<T>(n)` is its instance at carrier `T`.
 * Every numeral equality is stated pointwise: `c` denotes `k` when
 * `c(f)(x) == Iter(f, k, x)` for every step function `f` and base `x`.
 */
module Numerals {

  /** `f` applied `n` times to `x`: the meaning of every numeral. */
  function Iter<T>(f: T -> T, n: nat, x: T): T
    decreases n
  {
    if n == 0 then x else f(Iter(f, n - 1, x))
  }

  /** A Church numeral instantiated at carrier `T`. */
  type Church<!T> = (T -> T) -> T -> T

  /** The numeral with index `n`, instantiated at `T`. */
  function Numeral<T>(n: nat): Church<T>
  {
    f => x => Iter(f, n, x)
  }


  /** IDENTITY (lambda.js:3). */
  function Identity<T>(x: T): T
  {
    x
  }

  /** IDENTITY, used as a numeral, is the numeral one. */
  lemma IdentityIsOne<T>()
    ensures forall f: T -> T, x: T :: Identity(f)(x) == Iter(f, 1, x)
  {
  }

  /** Running `f` for `a` more steps after `b` steps is running it `a + b` steps. */
  lemma {:induction false} IterAdd<T>(f: T -> T, a: nat, b: nat, x: T)
    ensures Iter(f, a, Iter(f, b, x)) == Iter(f, a + b, x)
    decreases a
  {
    if a > 0 {
      IterAdd(f, a - 1, b, x);
    }
  }

  /** Iterating a step that is itself `k` steps of `f` is iterating `f` `a * k` times. */
  lemma {:induction false} IterCompose<T>(f: T -> T, g: T -> T, k: nat, a: nat, x: T)
    requires forall y :: g(y) == Iter(f, k, y)
    ensures Iter(g, a, x) == Iter(f, a * k, x)
    decreases a
  {
    if a > 0 {
      calc {
        Iter(g, a, x);
        g(Iter(g, a - 1, x));
        { IterCompose(f, g, k, a - 1, x); }
        g(Iter(f, (a - 1) * k, x));
        Iter(f, k, Iter(f, (a - 1) * k, x));
        { IterAdd(f, k, (a - 1) * k, x); }
        Iter(f, k + (a - 1) * k, x);
        { assert k + (a - 1) * k == a * k; }
        Iter(f, a * k, x);
      }
    }
  }

  /**
   * A map `h` that turns each `s` step into an `f` step turns `b` steps of
   * `s` into `b` steps of `f`.
   */
  lemma {:induction false} IterMap<A, B>(s: A -> A, h: A -> B, f: B -> B, b: nat, m: A)
    requires forall c :: h(s(c)) == f(h(c))
    ensures h(Iter(s, b, m)) == Iter(f, b, h(m))
    decreases b
  {
    if b > 0 {
      var k: nat := b - 1;
      IterMap(s, h, f, k, m);
    }
  }

  /** The step used to read a numeral back as a number. */
  function Inc(k: nat): nat
  {
    k + 1
  }

  lemma {:induction false} IterInc(n: nat)
    ensures Iter(Inc, n, 0) == n
    decreases n
  {
    if n > 0 {
      IterInc(n - 1);
    }
  }

  /** Reads a numeral instantiated at `nat` back as the number it counts. */
  function Decode(c: Church<nat>): nat
  {
    c(Inc)(0)
  }

  lemma DecodeDenotes(c: Church<nat>, k: nat)
    requires forall f: nat -> nat, x: nat :: c(f)(x) == Iter(f, k, x)
    ensures Decode(c) == k
  {
    IterInc(k);
  }
}
