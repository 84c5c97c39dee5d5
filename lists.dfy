/**
 * Lists and the recursive list operations RANGE and MAP (lambda.js:44-52).
 *
 * In lambda.js a list is NIL or a CONS pair of a head and a tail, the tail
 * being again a list. That type refers to itself, and Dafny accepts neither
 * a type synonym nor a datatype whose own type appears inside the argument
 * of a function type, so the Church pair of a list cell has no Dafny type.
 * The `Nil | Cons` datatype below stands in for those pairs: `Cons` plays
 * CONS, the destructors `car` and `cdr` play CAR and CDR, `Nil` is the
 * sentinel, and `ChurchAgrees` shows each answers as the Church pair of
 * `Pairs` would. The fixed point combinator Y that lambda.js uses for
 * recursion is replaced by Dafny's own recursion, and the thunks that
 * delay the branches of IF by an ordinary conditional.
 */
module Lists {
  import opened Arithmetic
  import opened Comparison
  import Pairs

  datatype List<E> = Nil | Cons(car: E, cdr: List<E>)

  /** The elements of a list, head first. */
  function Elements<E>(xs: List<E>): seq<E>
  {
    match xs
    case Nil => []
    case Cons(h, t) => [h] + Elements(t)
  }

  /** IS_NULL (lambda.js:31), applied to the Church NIL or CONS a list cell stands for. */
  function IsNull<E>(p: List<E>): (r: bool)
    ensures r <==> p.Nil?
  {
    match p
    case Nil => Pairs.IsNull(Pairs.Nil<E, List<E>>())
    case Cons(h, t) => Pairs.IsNull(Pairs.Cons<E, List<E>, bool>(h, t))
  }

  /**
   * The destructors `car` and `cdr` give what CAR and CDR give on the Church
   * CONS of the same head and tail (lambda.js:40-42). The IS_NULL clauses
   * hold by the definition of `IsNull`, which already answers through the
   * Church NIL and CONS; they are listed so the correspondence is complete.
   */
  lemma ChurchAgrees<E>(xs: List<E>)
    ensures xs.Nil? ==> IsNull(xs) == Pairs.IsNull(Pairs.Nil<E, List<E>>())
    ensures xs.Cons? ==> IsNull(xs) == Pairs.IsNull(Pairs.Cons<E, List<E>, bool>(xs.car, xs.cdr))
    ensures xs.Cons? ==> xs.car == Pairs.Car(Pairs.Cons<E, List<E>, E>(xs.car, xs.cdr))
    ensures xs.Cons? ==> xs.cdr == Pairs.Cdr(Pairs.Cons<E, List<E>, List<E>>(xs.car, xs.cdr))
  {
    if xs.Cons? {
      Pairs.CarCdrCons(xs.car, xs.cdr);
      Pairs.IsNullNil(xs.car, xs.cdr);
    }
  }

  /**
   * RANGE (lambda.js:44-47): `m` followed by the range from SUCCESSOR(m),
   * until `m` IS_EQUAL `n`. lambda.js never stops when `m > n`, since
   * `m` only grows, so `m <= n` is required.
   */
  function Range(m: nat, n: nat): List<nat>
    requires m <= n
    decreases n - m
  {
    if IsEqual(m, n) then Cons(m, Nil) else Cons(m, Range(Succ(m), n))
  }

  /** One step of RANGE: below `n` it conses `m` onto the range from `m + 1`. */
  lemma RangeStep(m: nat, n: nat)
    requires m <= n
    ensures m < n ==> Range(m, n) == Cons(m, Range(m + 1, n))
    ensures m == n ==> Range(m, n) == Cons(m, Nil)
  {
  }

  /** RANGE(m)(n) lists `m, m + 1, ..., n` in order. */
  lemma {:induction false} RangeElements(m: nat, n: nat)
    requires m <= n
    ensures |Elements(Range(m, n))| == n - m + 1
    ensures forall i :: 0 <= i < n - m + 1 ==> Elements(Range(m, n))[i] == m + i
    decreases n - m
  {
    RangeStep(m, n);
    if m < n {
      RangeElements(m + 1, n);
      assert Elements(Range(m, n)) == [m] + Elements(Range(m + 1, n));
    }
  }

  /**
   * MAP (lambda.js:49-52): NIL maps to itself; a CONS maps to the CONS of
   * `g` applied to its CAR and the map of its CDR.
   */
  function Map<E, F>(x: List<E>, g: E -> F): List<F>
  {
    if IsNull(x) then Nil else Cons(g(x.car), Map(x.cdr, g))
  }

  /** MAP keeps length and order and applies `g` to every element. */
  lemma {:induction false} MapElements<E, F>(x: List<E>, g: E -> F)
    ensures |Elements(Map(x, g))| == |Elements(x)|
    ensures forall i :: 0 <= i < |Elements(x)| ==> Elements(Map(x, g))[i] == g(Elements(x)[i])
  {
    if x.Cons? {
      MapElements(x.cdr, g);
    }
  }

  lemma MapNil<E, F>(g: E -> F)
    ensures Map(Nil, g) == Nil
  {
  }
}
