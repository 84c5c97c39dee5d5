/**
 * The worked examples FACTORIAL and FIBONACCI (lambda.js:193-203), written
 * on numeral indices with the Church operations and comparisons. The
 * fixed point combinator Y is replaced by Dafny's own recursion.
 */
module Examples {
  import opened Arithmetic
  import opened Comparison

  /** The reference factorial. */
  function Fact(n: nat): nat
    decreases n
  {
    if n == 0 then 1 else n * Fact(n - 1)
  }

  /** The reference Fibonacci sequence. */
  function Fib(n: nat): nat
    decreases n
  {
    if n <= 1 then n else Fib(n - 1) + Fib(n - 2)
  }

  /**
   * FACTORIAL (lambda.js:193-196): SUCCESSOR(n) when `n` IS_ZERO, which
   * makes 0! one; otherwise `n` times the factorial of PREDECESSOR(n).
   */
  function Factorial(n: nat): nat
    decreases n
  {
    if IsZero(n) then Succ(n) else Mul(n, Factorial(Pred(n)))
  }

  /**
   * FIBONACCI (lambda.js:198-203): `n` itself when `n <= 1`, the one being
   * SUCCESSOR of zero; otherwise the sum for PREDECESSOR(n) and
   * PREDECESSOR(PREDECESSOR(n)).
   */
  function Fibonacci(n: nat): nat
    decreases n
  {
    if IsLessThanEqual(n, Succ(0)) then n else Add(Fibonacci(Pred(n)), Fibonacci(Pred(Pred(n))))
  }

  lemma {:induction false} FactorialIsFact(n: nat)
    ensures Factorial(n) == Fact(n)
    decreases n
  {
    if n > 0 {
      var k: nat := n - 1;
      FactorialIsFact(k);
      assert Pred(n) == k;
      assert !IsZero(n);
      assert Factorial(n) == Mul(n, Factorial(k));
    }
  }

  lemma {:induction false} FibonacciIsFib(n: nat)
    ensures Fibonacci(n) == Fib(n)
    decreases n
  {
    if n > 1 {
      var k: nat, j: nat := n - 1, n - 2;
      FibonacciIsFib(k);
      FibonacciIsFib(j);
      assert Pred(n) == k && Pred(Pred(n)) == j;
      assert !IsLessThanEqual(n, Succ(0));
      assert Fibonacci(n) == Add(Fibonacci(k), Fibonacci(j));
    } else {
      assert IsLessThanEqual(n, Succ(0));
    }
  }

  lemma FactOfFive()
    ensures Fact(5) == 120
  {
    assert Fact(2) == 2;
    assert Fact(3) == 6;
    assert Fact(4) == 24;
  }

  lemma FibOfTen()
    ensures Fib(10) == 55
  {
    assert Fib(2) == 1;
    assert Fib(3) == 2;
    assert Fib(4) == 3;
    assert Fib(5) == 5;
    assert Fib(6) == 8;
    assert Fib(7) == 13;
    assert Fib(8) == 21;
    assert Fib(9) == 34;
  }

  /** The first example lambda.js checks: 5! = 10 * 10 + (10 + 10). */
  lemma FactorialExample()
    ensures IsEqual(Factorial(5), Add(Mul(10, 10), Add(10, 10)))
  {
    FactorialIsFact(5);
    FactOfFive();
  }

  /** The second example lambda.js checks: fib(10) = 5 * 10 + 5. */
  lemma FibonacciExample()
    ensures IsEqual(Fibonacci(10), Add(Mul(5, 10), 5))
  {
    FibonacciIsFib(10);
    FibOfTen();
  }
}
