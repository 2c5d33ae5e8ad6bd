/** `mpi_prime`: two primality tests (6k±1 trial division and plain trial
    division) and the single-core count of numbers satisfying a given test
    over the search interval. */
module MpiPrime {

  /** The search interval of the script: [StartSearch, EndSearch). */
  const StartSearch := 1000000
  const EndSearch := 1001000

  /** n is prime: greater than 1 and with no divisor in [2, n). */
  predicate IsPrimeNumber(n: int)
  {
    n > 1 && forall d :: 2 <= d < n ==> n % d != 0
  }

  // ----- divisibility facts -----

  /** A multiple of a is divisible by a, with the other factor as quotient. */
  lemma ModOfMultiple(a: int, b: int)
    requires a > 0
    ensures (a * b) % a == 0 && (a * b) / a == b
  {
    var q, r := (a * b) / a, (a * b) % a;
    assert a * b == a * q + r && 0 <= r < a;
    assert a * (b - q) == r;
    if b - q >= 1 {
      assert false;
    } else if b - q <= -1 {
      assert false;
    }
  }

  /** Divisibility is transitive. */
  lemma DivisorOfDivisor(n: int, d: int, f: int)
    requires d > 0 && f > 0 && n % d == 0 && d % f == 0
    ensures n % f == 0
  {
    var k, j := n / d, d / f;
    assert n == d * k && d == f * j;
    assert n == f * (j * k);
    ModOfMultiple(f, j * k);
  }

  /** A divisor d of n in [2, n) has a cofactor n / d that also lies in
      [2, n) and divides n. */
  lemma Cofactor(n: int, d: int)
    requires 2 <= d < n && n % d == 0
    ensures var e := n / d; 2 <= e && n % e == 0 && d * e == n
  {
    var e := n / d;
    assert n == d * e;
    if e <= 1 {
      assert false;
    }
    ModOfMultiple(e, d);
  }

  /** With no divisor below i and i * i beyond n, n has no divisor at all:
      the cofactor of a larger divisor would lie below i. */
  lemma NoLargeDivisor(n: int, i: int)
    requires n > 1 && i >= 2 && i * i > n
    requires NoDivisorIn(n, 2, i)
    ensures IsPrimeNumber(n)
  {
    forall d | 2 <= d < n
      ensures n % d != 0
    {
      if n % d == 0 {
        Cofactor(n, d);
        var e := n / d;
        if e >= i {
          MulMonotone(i, i, d, e);
          assert false;
        }
      }
    }
  }

  lemma MulMonotone(a: int, b: int, c: int, d: int)
    requires 0 <= a <= c && 0 <= b <= d
    ensures a * b <= c * d
  {
    assert a * b <= c * b;
  }

  /** A proper divisor witnesses that n is not prime. */
  lemma NotPrime(n: int, d: int)
    requires 2 <= d < n && n % d == 0
    ensures !IsPrimeNumber(n)
  {
  }

  /** A number coprime to f has no divisor that is a multiple of f. */
  lemma NotDivisibleThrough(n: int, d: int, f: int)
    requires d > 0 && f > 0 && d % f == 0 && n % f != 0
    ensures n % d != 0
  {
    if n % d == 0 {
      DivisorOfDivisor(n, d, f);
      assert false;
    }
  }

  /** No d in [lo, hi) divides n. */
  predicate NoDivisorIn(n: int, lo: int, hi: int)
    requires lo >= 1
  {
    forall d :: lo <= d < hi ==> n % d != 0
  }

  /** Past a failed pair 6k - 1, 6k + 1, the next four numbers are
      multiples of 2 or 3, so they divide no n coprime to 6. */
  lemma NextCandidates(n: int, i: int)
    requires i >= 5 && i % 6 == 5 && n % 2 != 0 && n % 3 != 0
    requires n % i != 0 && n % (i + 2) != 0 && NoDivisorIn(n, 2, i)
    ensures NoDivisorIn(n, 2, i + 6)
  {
    var k := i / 6;
    assert i == 6 * k + 5;
    ModOfMultiple(2, 3 * k + 3);
    ModOfMultiple(2, 3 * k + 4);
    ModOfMultiple(2, 3 * k + 5);
    ModOfMultiple(3, 2 * k + 3);
    NotDivisibleThrough(n, i + 1, 2);
    NotDivisibleThrough(n, i + 3, 2);
    NotDivisibleThrough(n, i + 5, 2);
    NotDivisibleThrough(n, i + 4, 3);
  }

  /** A candidate whose square does not exceed n lies below n, and so does
      the candidate two above it: either dividing n shows n is not prime. */
  lemma CandidateBelow(n: int, i: int)
    requires i >= 5 && i * i <= n
    ensures i + 2 < n
    ensures n % i == 0 || n % (i + 2) == 0 ==> !IsPrimeNumber(n)
  {
    MulMonotone(5, i, i, i);
  }

  // ----- the tests -----

  /** `is_prime`: rule out n <= 1, accept 2 and 3, rule out multiples of 2
      and 3, then try the pairs 6k - 1 and 6k + 1 while their square does
      not exceed n. */
  method IsPrime(n: int) returns (r: bool)
    ensures r <==> IsPrimeNumber(n)
  {
    if n <= 1 {
      return false;
    }
    if n <= 3 {
      return true;
    }
    if n % 2 == 0 || n % 3 == 0 {
      if n % 2 == 0 { NotPrime(n, 2); } else { NotPrime(n, 3); }
      return false;
    }
    NotDivisibleThrough(n, 4, 2);
    var i := 5;
    while i * i <= n
      invariant 5 <= i && i % 6 == 5 && NoDivisorIn(n, 2, i)
      decreases n - i
    {
      CandidateBelow(n, i);
      if n % i == 0 || n % (i + 2) == 0 {
        return false;
      }
      NextCandidates(n, i);
      i := i + 6;
    }
    NoLargeDivisor(n, i);
    return true;
  }

  /** `is_prime_slow`: try every divisor in [2, n). */
  method IsPrimeSlow(n: int) returns (r: bool)
    ensures r <==> IsPrimeNumber(n)
  {
    if n <= 1 {
      return false;
    }
    for i := 2 to n
      invariant forall d :: 2 <= d < i ==> n % d != 0
    {
      if n % i == 0 {
        return false;
      }
    }
    return true;
  }

  /** Either test can serve as the script's prime function: they agree on
      every integer. */
  method PrimeFunctionsAgree(n: int) returns (fast: bool, slow: bool)
    ensures fast == slow
    ensures fast <==> IsPrimeNumber(n)
  {
    fast := IsPrime(n);
    slow := IsPrimeSlow(n);
  }

  /** The smallest cases of `is_prime`. */
  lemma SmallCases()
    ensures !IsPrimeNumber(0) && !IsPrimeNumber(1) && !IsPrimeNumber(-7)
    ensures IsPrimeNumber(2) && IsPrimeNumber(3) && !IsPrimeNumber(4) && IsPrimeNumber(5)
  {
    NotPrime(4, 2);
  }

  // ----- counting -----

  /** How many n in [lo, hi) satisfy p. */
  function Count(lo: int, hi: int, p: int -> bool): (c: nat)
    ensures c <= if hi <= lo then 0 else hi - lo
    decreases hi - lo
  {
    if hi <= lo then 0 else Count(lo, hi - 1, p) + if p(hi - 1) then 1 else 0
  }

  /** Counts over adjacent intervals add up. */
  lemma {:induction false} CountSplit(lo: int, mid: int, hi: int, p: int -> bool)
    requires lo <= mid <= hi
    ensures Count(lo, hi, p) == Count(lo, mid, p) + Count(mid, hi, p)
    decreases hi - mid
  {
    if mid < hi {
      CountSplit(lo, mid, hi - 1, p);
    }
  }

  /** No number in the interval satisfies p: the count is 0. */
  lemma {:induction false} CountNone(lo: int, hi: int, p: int -> bool)
    requires forall n :: lo <= n < hi ==> !p(n)
    ensures Count(lo, hi, p) == 0
    decreases hi - lo
  {
    if lo < hi {
      CountNone(lo, hi - 1, p);
    }
  }

  /** `single_core_solution`: count the n in [start, end) that the given
      test accepts, one by one. */
  method SingleCoreSolution(isPrimeFunction: int -> bool, start: int, end: int) returns (amount: nat)
    ensures amount == Count(start, end, isPrimeFunction)
    ensures amount <= if end <= start then 0 else end - start
  {
    amount := 0;
    var i := start;
    while i < end
      invariant start <= i && (i <= end || i == start)
      invariant amount == Count(start, i, isPrimeFunction)
      decreases end - i
    {
      if isPrimeFunction(i) {
        amount := amount + 1;
      }
      i := i + 1;
    }
  }
}
