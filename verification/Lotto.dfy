/**
 `probability` of lotto.cpp over exact reals: a running product of quotients
 that computes a binomial coefficient.
 */
module Lotto {
  /** The number of ways to pick `p` of `n`, by Pascal's recurrence. */
  function Choose(n: nat, p: nat): nat {
    if p == 0 then 1 else if n == 0 then 0 else Choose(n - 1, p - 1) + Choose(n - 1, p)
  }

  lemma MulPlus(k: int, a: int, b: int)
    ensures k * (a + b) == k * a + k * b
  {
  }

  /** Picking and then distinguishing one of the picked: p C(n, p) = n C(n-1, p-1). */
  lemma {:induction false} Absorption(n: nat, p: nat)
    requires n > 0 && p > 0
    ensures p * Choose(n, p) == n * Choose(n - 1, p - 1)
    decreases n
  {
    if n > 1 {
      Absorption(n - 1, p);
      if p > 1 {
        Absorption(n - 1, p - 1);
        AbsorptionStep(n, p, Choose(n - 1, p), Choose(n - 2, p - 2), Choose(n - 2, p - 1));
      }
    } else {
      assert p == 1 || Choose(n, p) == 0;
    }
  }

  lemma AbsorptionStep(n: int, p: int, b: int, x: int, y: int)
    requires p * b == (n - 1) * y && (p - 1) * (x + y) == (n - 1) * x
    ensures p * ((x + y) + b) == n * (x + y)
  {
    MulPlus(p, x + y, b);
    MulPlus(x + y, p - 1, 1);
    MulPlus(n - 1, x, y);
    MulPlus(x + y, n - 1, 1);
  }

  lemma {:induction false} RealProduct(a: nat, b: nat)
    ensures (a * b) as real == (a as real) * (b as real)
    decreases b
  {
    if b > 0 {
      RealProduct(a, b - 1);
      MulPlus(a, b - 1, 1);
      RealMulPlus(a as real, (b - 1) as real, 1.0);
    }
  }

  lemma RealMulPlus(k: real, a: real, b: real)
    ensures k * (a + b) == k * a + k * b
  {
  }

  lemma RealCancel(a: real, b: real, c: real)
    requires c != 0.0 && a * c == b * c
    ensures a == b
  {
  }

  lemma RealQuotient(result: real, n: real, p: real, c: real, d: real)
    requires p != 0.0 && p * c == n * d
    ensures result * n / p * d == result * c
  {
    var t := result * n / p;
    assert t * p == result * n;
    RealMulSwap(t, d, p);
    RealMulAssoc(result, n, d);
    RealMulAssoc(result, p, c);
    RealMulSwap(result, c, p);
    RealCancel(t * d, result * c, p);
  }

  lemma RealMulSwap(a: real, b: real, c: real)
    ensures (a * b) * c == (a * c) * b
  {
  }

  lemma RealMulAssoc(a: real, b: real, c: real)
    ensures (a * b) * c == a * (b * c)
  {
  }

  lemma AbsorptionReal(n: nat, p: nat)
    requires n > 0 && p > 0
    ensures (p as real) * (Choose(n, p) as real) == (n as real) * (Choose(n - 1, p - 1) as real)
  {
    Absorption(n, p);
    RealProduct(p, Choose(n, p));
    RealProduct(n, Choose(n - 1, p - 1));
  }

  /** The loop invariant: the picks left to multiply in make up the total, or the product
      has run into a zero factor. */
  ghost predicate Partial(total: nat, result: real, n: int, p: nat) {
    if n >= 0 then result * (Choose(n, p) as real) == total as real else result == 0.0 && total == 0
  }

  lemma StepPositive(result: real, n: nat, p: nat)
    requires n > 0 && p > 0
    ensures result * (n as real) / (p as real) * (Choose(n - 1, p - 1) as real) == result * (Choose(n, p) as real)
  {
    AbsorptionReal(n, p);
    RealQuotient(result, n as real, p as real, Choose(n, p) as real, Choose(n - 1, p - 1) as real);
  }

  lemma StepZero(total: nat, result: real, n: int, p: nat)
    requires n <= 0 && p > 0 && Partial(total, result, n, p)
    ensures result * (n as real) / (p as real) == 0.0 && total == 0
  {
  }

  /** One turn of the loop. */
  method Factor(result: real, n: real, p: nat, ghost total: nat, ghost m: int) returns (r: real)
    requires p > 0 && n == m as real && Partial(total, result, m, p)
    ensures Partial(total, r, m - 1, p - 1)
  {
    if m > 0 {
      StepPositive(result, m, p);
    } else {
      StepZero(total, result, m, p);
    }
    r := result * n / (p as real);
  }

  /** The loop returns the binomial coefficient, so a whole number, for every pair of
      arguments; for more picks than numbers that is zero. */
  method Probability(numbers: nat, picks: nat) returns (result: real)
    ensures result == Choose(numbers, picks) as real
  {
    result := 1.0;
    var n, p := numbers as real, picks;
    ghost var m: int := numbers;
    while p > 0
      invariant n == m as real
      invariant Partial(Choose(numbers, picks), result, m, p)
      decreases p
    {
      result := Factor(result, n, p, Choose(numbers, picks), m);
      n := n - 1.0;
      p := p - 1;
      m := m - 1;
    }
  }

  lemma {:induction false} MorePicksThanNumbers(n: nat, p: nat)
    ensures Choose(n, p) == 0 <==> p > n
    decreases n
  {
    if n > 0 && p > 0 {
      MorePicksThanNumbers(n - 1, p - 1);
      MorePicksThanNumbers(n - 1, p);
    }
  }
}
