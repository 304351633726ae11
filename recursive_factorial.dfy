/** gp2/FactorialMaster/RecursiveFactorial.java: n! by recursion, in Java's
    64-bit `long`. */
module RecursiveFactorial {

  const LongMin: int := -0x8000_0000_0000_0000
  const LongMax: int := 0x7fff_ffff_ffff_ffff
  const LongModulus: int := 0x1_0000_0000_0000_0000

  /** The `long` that a product of unbounded integers wraps round to: the
      value in the 64-bit range that differs from `x` by a multiple of 2^64. */
  function WrapLong(x: int): (r: int)
    ensures LongMin <= r <= LongMax
    ensures (x - r) % LongModulus == 0
    ensures LongMin <= x <= LongMax ==> r == x
  {
    (x - LongMin) % LongModulus + LongMin
  }

  /** `calculate(n)`: 1 for every `n <= 1`, otherwise `n * calculate(n - 1)`
      multiplied in `long`. */
  function Calculate(n: int): (r: int)
    ensures LongMin <= r <= LongMax
    ensures n <= 1 ==> r == 1
    decreases n
  {
    if n <= 1 then 1 else WrapLong(n * Calculate(n - 1))
  }

  /** The mathematical factorial. */
  function Fact(n: nat): (r: nat)
    ensures r >= 1
  {
    if n == 0 then 1 else n * Fact(n - 1)
  }

  lemma {:induction false} FactMonotone(m: nat, n: nat)
    requires m <= n
    ensures Fact(m) <= Fact(n)
    decreases n - m
  {
    if m < n {
      FactMonotone(m, n - 1);
    }
  }

  /** 20! is the largest factorial that fits in a `long`. */
  lemma FactTwentyFitsLong()
    ensures Fact(20) == 2432902008176640000 <= LongMax
    ensures Fact(21) > LongMax
  {
    assert Fact(20) == 2432902008176640000 by {
      assert Fact(10) == 3628800;
      assert Fact(15) == 1307674368000;
    }
  }

  /** Up to 20 no product overflows, so `calculate` returns n! itself. */
  lemma {:induction false} CalculateIsFactorial(n: int)
    requires 0 <= n <= 20
    ensures Calculate(n) == Fact(n) && Calculate(n) >= 1
    decreases n
  {
    if n > 1 {
      CalculateIsFactorial(n - 1);
      FactMonotone(n, 20);
      FactTwentyFitsLong();
    }
  }

  /** Within the range where nothing overflows, the step is an exact product. */
  lemma CalculateStep(n: int)
    requires 1 < n <= 20
    ensures Calculate(n) == n * Calculate(n - 1)
  {
    CalculateIsFactorial(n);
    CalculateIsFactorial(n - 1);
  }

  /** At 21 the product wraps round to a negative number. */
  lemma CalculateOverflowsAtTwentyOne()
    ensures Calculate(21) == -4249290049419214848
    ensures Calculate(21) != Fact(21)
  {
    CalculateIsFactorial(20);
    FactTwentyFitsLong();
    assert Calculate(21) == WrapLong(21 * Fact(20));
    assert 21 * Fact(20) == 51090942171709440000;
    WrapOfTwentyOneFactorial();
  }

  lemma WrapOfTwentyOneFactorial()
    ensures WrapLong(51090942171709440000) == -4249290049419214848
  {
  }
}
