/**
 The benchmark's naive recursive Fibonacci calculator.

 `Fib` is the value the script's recursion defines: every integer at or
 below 1 (negative integers included) is returned unchanged, every larger
 integer is the sum of the two preceding values. Python integers are
 unbounded, so the model works over `int` with no wrap-around. Python's
 recursion-depth limit, which the script never reaches because its caller
 caps the index at 35, is not modelled.
 */
module Fibonacci {

  /** The script's `fibonacci(n)`; the result is non-negative for every
      non-negative index and at least 1 from index 1 on. */
  function Fib(n: int): (r: int)
    ensures n >= 0 ==> r >= 0
    ensures n >= 1 ==> r >= 1
    decreases n
  {
    if n <= 1 then n else Fib(n - 1) + Fib(n - 2)
  }

  /** The number of invocations of `fibonacci` that evaluating `fibonacci(n)`
      performs, the outermost call included: one call for a base case, and
      for any larger index the call itself plus the calls of its two
      recursive evaluations. */
  function Calls(n: int): (c: int)
    ensures c >= 1
    ensures n >= 2 ==> c >= 3
    decreases n
  {
    if n <= 1 then 1 else 1 + Calls(n - 1) + Calls(n - 2)
  }

  /** An independent, linear-time reference: the pair of consecutive
      Fibonacci numbers at positions k and k + 1, built upwards from (0, 1). */
  function FibPair(k: nat): (p: (int, int))
  {
    if k == 0 then (0, 1) else var p := FibPair(k - 1); (p.1, p.0 + p.1)
  }

  /** Every integer at or below 1, negative ones included, is its own
      result, and evaluating it makes no recursive call. */
  lemma BaseCase(n: int)
    requires n <= 1
    ensures Fib(n) == n
    ensures Calls(n) == 1
  {
  }

  /** A single call (no recursion at all) happens exactly for the base case. */
  lemma NoRecursionIffBaseCase(n: int)
    ensures Calls(n) == 1 <==> n <= 1
  {
  }

  /** From index 2 on the result is the sum of the two preceding results. */
  lemma Recurrence(n: int)
    requires n >= 2
    ensures Fib(n) == Fib(n - 1) + Fib(n - 2)
  {
  }

  /** The recursion agrees with the linear reference at every non-negative index. */
  lemma {:induction false} FibPairAgrees(k: nat)
    ensures FibPair(k) == (Fib(k), Fib(k + 1))
  {
    if k > 0 {
      FibPairAgrees(k - 1);
    }
  }

  /** The evaluation tree of `fibonacci(n)` has 2 * Fib(n + 1) - 1 nodes. */
  lemma {:induction false} CallsCount(n: int)
    requires n >= 0
    ensures Calls(n) == 2 * Fib(n + 1) - 1
  {
    if n >= 2 {
      CallsCount(n - 1);
      CallsCount(n - 2);
    }
  }

  /** The result never decreases as the index grows, over all integers: below
      2 it is the index itself, and from 2 on each step adds a non-negative
      value. */
  lemma {:induction false} Monotone(m: int, n: int)
    requires m <= n
    ensures Fib(m) <= Fib(n)
    decreases n - m
  {
    if m < n {
      Monotone(m, n - 1);
      if n >= 2 {
        assert Fib(n) == Fib(n - 1) + Fib(n - 2);
      }
    }
  }

  /** Two steps along the sequence at least double the value. */
  lemma Doubling(n: int)
    requires n >= 0
    ensures Fib(n + 2) >= 2 * Fib(n)
  {
    Monotone(n, n + 1);
  }

  /** 2 raised to the power k. */
  function Pow2(k: nat): int
  {
    if k == 0 then 1 else 2 * Pow2(k - 1)
  }

  /** The sequence grows at least exponentially: fib(2k + 1) >= 2^k. */
  lemma {:induction false} ExponentialGrowth(k: nat)
    ensures Fib(2 * k + 1) >= Pow2(k)
  {
    if k > 0 {
      ExponentialGrowth(k - 1);
      Doubling(2 * k - 1);
    }
  }

  /** The number of calls grows exponentially in the index: evaluating
      `fibonacci(2k)` makes at least 2^(k+1) - 1 calls, the cost the script
      incurs on purpose. */
  lemma CallsGrow(k: nat)
    ensures Calls(2 * k) >= 2 * Pow2(k) - 1
  {
    CallsCount(2 * k);
    ExponentialGrowth(k);
  }

  /** Small values of the sequence, and the value at index 10. */
  lemma KnownValues()
    ensures Fib(0) == 0 && Fib(1) == 1 && Fib(2) == 1
    ensures Fib(10) == 55
  {
    FibPairAgrees(10);
  }

  /** The value at the script's cap of 35. */
  lemma ValueAtCap()
    ensures Fib(35) == 9227465
  {
    assert FibPair(10) == (55, 89);
    assert FibPair(20) == (6765, 10946);
    assert FibPair(30) == (832040, 1346269);
    assert FibPair(35) == (9227465, 14930352);
    FibPairAgrees(35);
  }
}
