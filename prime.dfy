/** `prime.is_prime`: trial division by every d in [2, n / 2), as written.
    Because the upper end is exclusive, 4 is never divided by 2 and is
    reported prime; every other integer is classified correctly. The
    corrected test includes n / 2. */
module Prime {
  import opened MpiPrime

  /** What the loop as written decides: n > 1 and no d in [2, n / 2)
      divides n. (For n > 1, Python's `//` and Dafny's `/` agree.) */
  predicate NoDivisorBelowHalf(n: int)
  {
    n > 1 && forall d :: 2 <= d < n / 2 ==> n % d != 0
  }

  /** `is_prime` as written. */
  method IsPrime(number: int) returns (r: bool)
    ensures r <==> NoDivisorBelowHalf(number)
  {
    if number <= 1 {
      return false;
    }
    var i := 2;
    while i < number / 2
      invariant 2 <= i
      invariant forall d :: 2 <= d < i ==> number % d != 0
      decreases number / 2 - i
    {
      if number % i == 0 {
        return false;
      }
      i := i + 1;
    }
    return true;
  }

  /** The input that shows the bound is one too small: 4 passes the test
      but is 2 * 2. */
  lemma FourMisclassified()
    ensures NoDivisorBelowHalf(4) && !IsPrimeNumber(4)
  {
    NotPrime(4, 2);
  }

  /** A composite n other than 4 has a divisor below n / 2: the smaller
      factor m of n = m * M, where M >= 3, so n / 2 >= 3 * m / 2 > m. */
  lemma DivisorBelowHalf(n: int, d: int)
    requires 2 <= d < n && n % d == 0 && n != 4
    ensures exists k :: 2 <= k < n / 2 && n % k == 0
  {
    Cofactor(n, d);
    var e := n / d;
    var m, big := if d <= e then d else e, if d <= e then e else d;
    assert m * big == n && n % m == 0;
    if big <= 2 {
      assert false;
    }
    MulMonotone(m, 3, m, big);
    assert 2 <= m < n / 2;
  }

  /** Apart from 4, the test as written is exactly primality. */
  lemma AgreesExceptFour(n: int)
    requires n != 4
    ensures NoDivisorBelowHalf(n) <==> IsPrimeNumber(n)
  {
    if NoDivisorBelowHalf(n) && !IsPrimeNumber(n) {
      var d :| 2 <= d < n && n % d == 0;
      DivisorBelowHalf(n, d);
      assert false;
    }
  }

  /** A composite n has a divisor no larger than n / 2: its cofactor is at
      least 2. */
  lemma DivisorAtMostHalf(n: int, d: int)
    requires 2 <= d < n && n % d == 0
    ensures 2 <= d <= n / 2
  {
    Cofactor(n, d);
    MulMonotone(d, 2, d, n / d);
  }

  /** `is_prime` with the range extended to include n / 2: primality for
      every integer. */
  method IsPrimeCorrected(number: int) returns (r: bool)
    ensures r <==> IsPrimeNumber(number)
  {
    if number <= 1 {
      return false;
    }
    var i := 2;
    while i <= number / 2
      invariant 2 <= i
      invariant forall d :: 2 <= d < i ==> number % d != 0
      decreases number / 2 - i
    {
      if number % i == 0 {
        NotPrime(number, i);
        return false;
      }
      i := i + 1;
    }
    forall d | 2 <= d < number
      ensures number % d != 0
    {
      if number % d == 0 {
        DivisorAtMostHalf(number, d);
        assert false;
      }
    }
    return true;
  }
}
