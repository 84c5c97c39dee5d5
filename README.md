# Church encodings of lambda.js, modelled and proved in Dafny

lambda.js encodes booleans, natural numbers, pairs and lists as curried
one-argument functions. Recursion comes from the fixed-point combinator Y.
This project models that encoding layer and proves what each definition
denotes.

- **Numerals** (`numerals.dfy`). A numeral applies a step function `f` to a
  base `x` some number of times. `Iter(f, n, x)` is that meaning. JavaScript
  uses one numeral at many carrier types. Dafny has no polymorphic function
  values, so a polymorphic numeral is named by its `nat` index, and
  `Numeral<T>(n)` is its instance at carrier `T`. A Church value `c` *denotes*
  `k` when `c(f)(x) == Iter(f, k, x)` for every `f` and `x`. Numerals are
  compared this way, pointwise, and never by function equality.
- **Arithmetic** (`arithmetic.dfy`). SUCCESSOR, PREDECESSOR, ADDITION,
  MULTIPLICATION and POWER keep the lambda shapes of lambda.js:4-9. Each is
  instantiated at the carrier its shape needs. PREDECESSOR, for example, runs
  its numeral over containers `(T -> T) -> T`. A lemma proves that each one
  denotes the arithmetic result. The index forms `Succ`, `Pred`, `Add`, `Mul`
  and `Pow` run the Church form at `nat` and read the numeral back with
  `Decode` (apply it to `+1` and `0`). SUBTRACTION applies PREDECESSOR `n`
  times, which needs PREDECESSOR as a step on numerals themselves. So `Sub`
  and `AbsDiff` exist on indices only.
- **Logic** (`logic.dfy`). A boolean is a selector. `Select<T>(b)` is the
  boolean `b` at carrier `T`. AND, OR, XOR and NOT apply their first
  argument at the boolean carrier, as lambda.js:16-19 do; IF applies it at
  any carrier (lambda.js:20).
- **Comparison** (`comparison.dfy`). IS_ZERO and the six comparisons come from
  saturating subtraction, as in lambda.js:24-30.
- **Pairs** (`pairs.dfy`). CONS, CAR, CDR, NIL and IS_NULL keep their
  function shapes. A pair has a type for each component and is instantiated
  at its selector's result carrier, so a pair may hold a numeral and another
  pair.
- **Lists** (`lists.dfy`). A list cell's tail is again a list, so the type of
  a Church list refers to itself. Dafny rejects such a cycle both as a type
  synonym and as a datatype wrapping the function type. So RANGE and MAP work
  on a `Nil | Cons` datatype that stands in for the Church pairs, with a
  denotation `Elements` to `seq`. The Y
  combinator is replaced by direct recursion with a `decreases` clause, and
  the delayed IF branches by an ordinary conditional.
- **Examples** (`examples.dfy`). FACTORIAL and FIBONACCI are proved equal to
  reference definitions.
- **Scenarios** (`scenarios.dfy`). The checks lambda.js runs on itself,
  restated as lemmas.

PREDECESSOR (lambda.js:5) threads a container `g => h => h(g(f))`, started
from `_ => x` and read with `u => u`; it uses no pairs. MULTIPLICATION
(lambda.js:8) is the composition form `f => m(n(f))`.

## Model

Each function that keeps a lambda shape of lambda.js (SUCCESSOR,
PREDECESSOR, ADDITION, MULTIPLICATION, POWER, TRUE, FALSE, CONS, CAR, CDR,
NIL, IS_NULL, RANGE, MAP, FACTORIAL, FIBONACCI) appears under the lemma that
proves what it denotes.

| member | source | states |
|---|---|---|
| Numerals.IdentityIsOne | lambda.js:3 | IDENTITY, used as a numeral, applies its step exactly once: it denotes one |
| Numerals.IterMap | lambda.js:6 | a map that turns each step of one function into a step of another turns `b` iterations into `b` iterations; used for ADDITION's `n(SUCCESSOR)(m)` |
| Numerals.IterCompose | lambda.js:8 | iterating a step that is itself `k` steps of `f`, `a` times, is `a * k` steps of `f` |
| Arithmetic.SuccessorDenotes | lambda.js:4 | SUCCESSOR of a numeral denoting `k` denotes `k + 1` |
| Arithmetic.ShiftInvariant | lambda.js:5 | after `k + 1` steps of PREDECESSOR's step from `_ => x`, the container holds `f` applied `k` times to `x` |
| Arithmetic.PredecessorDenotes | lambda.js:5 | PREDECESSOR of a numeral denoting `k` denotes `k - 1`, and zero for zero |
| Arithmetic.PredecessorOfSuccessor | lambda.js:4-5 | PREDECESSOR undoes SUCCESSOR on every numeral at every carrier |
| Arithmetic.IterSuccessor | lambda.js:6 | `b` SUCCESSOR steps from `m` add `b` applications of `f` after those of `m` |
| Arithmetic.AdditionDenotes | lambda.js:6 | ADDITION of numerals denoting `a` and `b` denotes `a + b` |
| Arithmetic.MultiplicationDenotes | lambda.js:8 | MULTIPLICATION of numerals denoting `a` and `b` denotes `a * b` |
| Arithmetic.IterPower | lambda.js:9 | iterating the numeral `a` as a step `b` times from `f` gives `f` applied `a^b` times |
| Arithmetic.PowerDenotes | lambda.js:9 | POWER of numerals denoting `a` and `b` denotes `a^b` |
| Arithmetic.Succ | lambda.js:4 | SUCCESSOR on indices gives `n + 1` |
| Arithmetic.Pred | lambda.js:5 | PREDECESSOR on indices gives `n - 1`, and saturates at zero |
| Arithmetic.Add | lambda.js:6 | ADDITION on indices gives `m + n` |
| Arithmetic.IterPred | lambda.js:7 | `n` predecessor steps from `m` give `m - n`, or zero when `n > m` |
| Arithmetic.Sub | lambda.js:7 | SUBTRACTION gives `m - n` when `n <= m` and zero otherwise |
| Arithmetic.Mul | lambda.js:8 | MULTIPLICATION on indices gives `m * n` |
| Arithmetic.Pow | lambda.js:9 | POWER on indices gives `x^y` (reference `Exp`) |
| Arithmetic.AbsDiff | lambda.js:10 | ABS_DIFFERENCE gives the distance between `x` and `y` |
| Arithmetic.PredSucc | lambda.js:4-5 | PREDECESSOR(SUCCESSOR(n)) is `n`, and PREDECESSOR(0) is 0 |
| Arithmetic.SubAdd | lambda.js:6-7 | SUBTRACTION is zero when `m <= n`, and adding `n` back restores `m` when `n <= m` |
| Arithmetic.MulCommutes | lambda.js:8 | MULTIPLICATION is commutative |
| Arithmetic.AbsDiffSymmetric | lambda.js:10 | ABS_DIFFERENCE is symmetric and is zero exactly on equal arguments |
| Arithmetic.SampleNumerals | lambda.js:66-74 | `$zero` to `$ten`, built from SUCCESSOR and MULTIPLICATION, denote 0, 1, 2, 3, 4, 5, 8, 9, 10 |
| Logic.SelectPicksArgument | lambda.js:14-15 | TRUE returns its first argument and FALSE its second; every boolean returns one of its two arguments |
| Logic.And | lambda.js:16 | `p(q)(p)` selects TRUE iff both are TRUE |
| Logic.Or | lambda.js:17 | `p(p)(q)` selects TRUE iff either is TRUE |
| Logic.Xor | lambda.js:18 | `p(NOT(q))(q)` selects TRUE iff exactly one is TRUE |
| Logic.Not | lambda.js:19 | `c(FALSE)(TRUE)` selects the opposite of `c` |
| Logic.If | lambda.js:20 | IF returns its first branch when the condition is TRUE and its second otherwise |
| Comparison.IsZero | lambda.js:24 | IS_ZERO selects TRUE iff the numeral is zero |
| Comparison.IsLessThan | lambda.js:25 | IS_LESS_THAN selects TRUE iff `m < n` |
| Comparison.IsLessThanEqual | lambda.js:26 | IS_LESS_THAN_EQUAL selects TRUE iff `m <= n` |
| Comparison.IsEqual | lambda.js:27 | IS_EQUAL selects TRUE iff `m == n` |
| Comparison.IsNotEqual | lambda.js:28 | IS_NOT_EQUAL selects TRUE iff `m != n` |
| Comparison.IsGreaterThanEqual | lambda.js:29 | IS_GREATER_THAN_EQUAL selects TRUE iff `m >= n` |
| Comparison.IsGreaterThan | lambda.js:30 | IS_GREATER_THAN selects TRUE iff `m > n` |
| Comparison.NotEqualIsNotOfEqual | lambda.js:27-28 | IS_NOT_EQUAL, written with De Morgan's law, selects exactly as NOT(IS_EQUAL) |
| Comparison.IsZeroSucc | lambda.js:24 | IS_ZERO holds of zero and fails for every SUCCESSOR |
| Pairs.CarCdrCons | lambda.js:40-42 | CAR and CDR of CONS(a)(b) give back `a` and `b` for any values of any two types |
| Pairs.IsNullNil | lambda.js:31-32 | IS_NULL(NIL) is TRUE and IS_NULL(CONS(a)(b)) is FALSE for any values of any two types |
| Lists.IsNull | lambda.js:31-32 | the Church IS_NULL `p(x => y => FALSE)`, applied to the Church NIL or CONS of a list cell, answers TRUE exactly for NIL |
| Lists.ChurchAgrees | lambda.js:40-42 | the list datatype's `car` and `cdr` are what CAR and CDR give on the Church CONS of the same head and tail; its IS_NULL clauses only restate that `Lists.IsNull` answers through the Church NIL and CONS |
| Lists.RangeElements | lambda.js:44-47 | for `m <= n`, RANGE(m)(n) lists `m, m+1, ..., n`: `n - m + 1` elements, element `i` being `m + i` |
| Lists.MapElements | lambda.js:49-52 | MAP keeps length and order and applies `g` to each element |
| Lists.MapNil | lambda.js:49-50 | MAP of NIL is NIL |
| Examples.FactorialIsFact | lambda.js:193-196 | FACTORIAL equals the reference factorial, with FACTORIAL(0) = 1 |
| Examples.FibonacciIsFib | lambda.js:198-203 | FIBONACCI equals the reference Fibonacci sequence |
| Examples.FactorialExample | lambda.js:205-207 | FACTORIAL(5) IS_EQUAL 10*10 + (10+10) |
| Examples.FibonacciExample | lambda.js:209-211 | FIBONACCI(10) IS_EQUAL 5*10 + 5 |
| Scenarios.LogicScenarios | lambda.js:78-100 | the checks of TRUE, FALSE, AND, OR, XOR, NOT and IF hold |
| Scenarios.ArithmeticScenarios | lambda.js:105-126 | the checks of SUCCESSOR through ABS_DIFFERENCE hold, including POWER(3)(2) = 9 and POWER(2)(3) = 8 |
| Scenarios.ComparisonScenarios | lambda.js:128-150 | the checks of IS_ZERO through IS_GREATER_THAN hold |
| Scenarios.PairScenarios | lambda.js:152-165 | IS_NULL(NIL); CAR and CDR of CONS(5)(1); CAR, CAR(CDR) and CDR(CDR) of CONS(2)(CONS(1)(3)); CAR(CDR) of CONS(5)(CONS(2)(CONS(1)(3))) |
| Scenarios.ListScenarios | lambda.js:167-187 | RANGE(3)(5) is `3, 4, 5` then NIL, and its MAP under `v => POWER(v)(2)` is `9, 16, 25` then NIL |

## Left out

- ASSERT, REFUTE and TEST (lambda.js:56-62) and the banner (lambda.js:191) are not modelled. They only format coloured text and print it, and their only logic is IF and NOT, both modelled.
- The Y combinator (lambda.js:36) is not modelled. Its untyped self-application has no Dafny type. Its only job is recursion, and RANGE, MAP, FACTORIAL and FIBONACCI use Dafny's own recursion with `decreases` clauses instead.
- The thunks `_ => ...` applied to `()` in the IF branches (lambda.js:44-52, 193-203) are not modelled. They only delay evaluation, so each is an ordinary conditional.
- Lists.Range: requires `m <= n`. For `m > n` lambda.js recurses for ever, because `m` only grows and never equals `n`.
- Polymorphic numerals and booleans are named by `nat` and `bool` indices. Each Church form is proved at every carrier it is instantiated at, but one function value is never shown to work at several carriers at once.
- SUBTRACTION, ABS_DIFFERENCE and the comparisons have no Church form over a single carrier. Applying PREDECESSOR `n` times needs it at a tower of carrier types, which Dafny cannot express. They are modelled on indices.
- Equality of numerals is pointwise, through `Iter`. The IDENTITY check (lambda.js:102-103) is stated as IDENTITY denoting one, not as equality of two function values.
- CAR and CDR of NIL, and any operation on values that are not encodings, are not modelled. lambda.js gives them no meaning.
- Call-stack depth, which bounds the numerals lambda.js can handle in practice, is not modelled: numerals are unbounded.
