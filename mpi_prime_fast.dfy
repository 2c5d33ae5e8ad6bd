/** `mpi_prime_fast`: the search interval is cut into blocks of StepSize
    numbers; rank r of size processes checks the blocks r, r + size,
    r + 2 * size, ... whose start lies below the end of the search, and the
    root adds up the gathered counts. The primality test is the one of
    `mpi_prime` (the same code). The message passing is not modelled: the
    gathered list is the list of the ranks' results. */
module MpiPrimeFast {
  import MpiPrime

  const StartSearch := 1
  const EndSearch := 20000000
  const StepSize := 11

  lemma StridePositive(size: int, step: int)
    requires size > 0 && step > 0
    ensures size * step >= step
  {
    MpiPrime.MulMonotone(1, step, size, step);
  }

  /** What the rank whose current block starts at i still finds: the whole
      block [i, i + step) when i lies below the end, then the blocks that
      follow at a stride of size * step. */
  function RankCount(p: int -> bool, i: int, end: int, step: int, size: int): nat
    requires step > 0 && size > 0
    decreases end - i
  {
    if i >= end then 0
    else
      StridePositive(size, step);
      MpiPrime.Count(i, i + step, p) + RankCount(p, i + size * step, end, step, size)
  }

  /** The per-rank loop (the rank's first block starts at
      start + rank * step), counting with the given test. */
  method FoundPrimesLocally(isPrimeFunction: int -> bool, start: int, end: int, step: int, size: int, rank: int)
    returns (found: nat)
    requires step > 0 && size > 0 && 0 <= rank < size
    ensures found == RankCount(isPrimeFunction, start + rank * step, end, step, size)
  {
    var i := start + rank * step;
    found := 0;
    StridePositive(size, step);
    while i < end
      invariant found + RankCount(isPrimeFunction, i, end, step, size)
             == RankCount(isPrimeFunction, start + rank * step, end, step, size)
      decreases end - i
    {
      ghost var before := found;
      for j := i to i + step
        invariant found == before + MpiPrime.Count(i, j, isPrimeFunction)
      {
        if isPrimeFunction(j) {
          found := found + 1;
        }
      }
      i := i + size * step;
    }
  }

  /** The list the root gathers: one count per rank. */
  function Gathered(p: int -> bool, start: int, end: int, step: int, size: int): (counts: seq<nat>)
    requires step > 0 && size > 0
    ensures |counts| == size
  {
    seq(size, r requires 0 <= r < size => RankCount(p, start + r * step, end, step, size))
  }

  /** Python's `sum` of a list of counts. */
  function Total(xs: seq<nat>): nat
  {
    if xs == [] then 0 else xs[0] + Total(xs[1..])
  }

  /** The counts of n consecutive ranks whose first blocks start at i,
      i + step, ..., added up. */
  function Window(p: int -> bool, i: int, n: nat, end: int, step: int, size: int): nat
    requires step > 0 && size > 0
    decreases n
  {
    if n == 0 then 0 else RankCount(p, i, end, step, size) + Window(p, i + step, n - 1, end, step, size)
  }

  /** The number of blocks from i on whose start lies below the end. */
  function Blocks(i: int, end: int, step: int): nat
    requires step > 0
    decreases end - i
  {
    if i >= end then 0 else 1 + Blocks(i + step, end, step)
  }

  lemma OneMoreBlock(b: int, step: int)
    ensures (1 + b) * step == step + b * step
  {
  }

  /** The block count is the ceiling of (end - i) / step: the last block
      starts before the end and the blocks reach it. */
  lemma {:induction false} BlocksCover(i: int, end: int, step: int)
    requires step > 0 && i < end
    ensures var b := Blocks(i, end, step); b >= 1 && i + (b - 1) * step < end <= i + b * step
    decreases end - i
  {
    if i + step < end {
      BlocksCover(i + step, end, step);
    }
  }

  lemma {:induction false} GatheredIsWindow(p: int -> bool, i: int, n: nat, end: int, step: int, size: int)
    requires step > 0 && size > 0
    ensures Total(seq(n, r requires 0 <= r < n => RankCount(p, i + r * step, end, step, size)))
         == Window(p, i, n, end, step, size)
    decreases n
  {
    if n > 0 {
      var s := seq(n, r requires 0 <= r < n => RankCount(p, i + r * step, end, step, size));
      var t := seq(n - 1, r requires 0 <= r < n - 1 => RankCount(p, (i + step) + r * step, end, step, size));
      forall r | 0 <= r < n - 1
        ensures s[1..][r] == t[r]
      {
        assert i + (r + 1) * step == (i + step) + r * step;
      }
      assert s[1..] == t;
      GatheredIsWindow(p, i + step, n - 1, end, step, size);
    }
  }

  lemma {:induction false} WindowAbove(p: int -> bool, i: int, n: nat, end: int, step: int, size: int)
    requires step > 0 && size > 0 && i >= end
    ensures Window(p, i, n, end, step, size) == 0
    decreases n
  {
    if n > 0 {
      WindowAbove(p, i + step, n - 1, end, step, size);
    }
  }

  lemma {:induction false} WindowSnoc(p: int -> bool, i: int, n: nat, end: int, step: int, size: int)
    requires step > 0 && size > 0
    ensures Window(p, i, n + 1, end, step, size)
         == Window(p, i, n, end, step, size) + RankCount(p, i + n * step, end, step, size)
    decreases n
  {
    if n > 0 {
      WindowSnoc(p, i + step, n - 1, end, step, size);
      assert (i + step) + (n - 1) * step == i + n * step;
    }
  }

  /** One step later the window has lost the block at i and gained the
      stride-later blocks of its last rank. */
  lemma WindowStep(p: int -> bool, i: int, end: int, step: int, size: int)
    requires step > 0 && size > 0 && i < end
    ensures Window(p, i, size, end, step, size)
         == MpiPrime.Count(i, i + step, p) + Window(p, i + step, size, end, step, size)
  {
    WindowSnoc(p, i + step, size - 1, end, step, size);
    assert (i + step) + (size - 1) * step == i + size * step;
  }

  /** size consecutive ranks from i on together check every block from i
      to the end exactly once. */
  lemma {:induction false} WindowCounts(p: int -> bool, i: int, end: int, step: int, size: int)
    requires step > 0 && size > 0
    ensures Window(p, i, size, end, step, size) == MpiPrime.Count(i, i + Blocks(i, end, step) * step, p)
    decreases end - i
  {
    if i >= end {
      WindowAbove(p, i, size, end, step, size);
    } else {
      WindowStep(p, i, end, step, size);
      WindowCounts(p, i + step, end, step, size);
      var b := Blocks(i + step, end, step);
      assert Blocks(i, end, step) == 1 + b;
      OneMoreBlock(b, step);
      MpiPrime.CountSplit(i, i + step, (i + step) + b * step, p);
    }
  }

  /** The root's sum counts the numbers in [start, start + B * step) that
      pass the test, where B blocks start below the end: the work is split
      without gaps or overlaps, and may run past the end. */
  lemma GatheredSumCountsAllBlocks(p: int -> bool, start: int, end: int, step: int, size: int)
    requires step > 0 && size > 0
    ensures Total(Gathered(p, start, end, step, size))
         == MpiPrime.Count(start, start + Blocks(start, end, step) * step, p)
  {
    GatheredIsWindow(p, start, size, end, step, size);
    WindowCounts(p, start, end, step, size);
  }

  lemma {:induction false} CountSingle(lo: int, hi: int, j: int)
    ensures MpiPrime.Count(lo, hi, x => x == j) == if lo <= j < hi then 1 else 0
    decreases hi - lo
  {
    if lo < hi {
      CountSingle(lo, hi - 1, j);
    }
  }

  /** Counting only j: j is checked by exactly one rank when it lies in one
      of the blocks, and by none otherwise. */
  lemma CheckedExactlyOnce(j: int, start: int, end: int, step: int, size: int)
    requires step > 0 && size > 0
    ensures Total(Gathered(x => x == j, start, end, step, size))
         == if start <= j < start + Blocks(start, end, step) * step then 1 else 0
  {
    GatheredSumCountsAllBlocks(x => x == j, start, end, step, size);
    CountSingle(start, start + Blocks(start, end, step) * step, j);
  }

  /** With the script's constants, 1818182 blocks start below the end. */
  lemma ScriptBlocks()
    ensures Blocks(StartSearch, EndSearch, StepSize) == 1818182
  {
    BlocksCover(StartSearch, EndSearch, StepSize);
  }

  /** 20000000 and 20000002 are even, 20000001 is a multiple of 3. */
  lemma ScriptOverrunHasNoPrime()
    ensures MpiPrime.Count(EndSearch, 20000003, MpiPrime.IsPrimeNumber) == 0
  {
    MpiPrime.NotPrime(20000000, 2);
    MpiPrime.NotPrime(20000001, 3);
    MpiPrime.NotPrime(20000002, 2);
    MpiPrime.CountNone(EndSearch, 20000003, MpiPrime.IsPrimeNumber);
  }

  /** With the script's constants the blocks run to 20000003, past the end
      of the search; the three extra numbers are even or a multiple of 3,
      so for any number of processes the root finds as many primes as the
      single-core run over [StartSearch, EndSearch). */
  lemma ScriptFindsSinglecoreCount(size: int)
    requires size > 0
    ensures StartSearch + Blocks(StartSearch, EndSearch, StepSize) * StepSize == 20000003
    ensures Total(Gathered(MpiPrime.IsPrimeNumber, StartSearch, EndSearch, StepSize, size))
         == MpiPrime.Count(StartSearch, EndSearch, MpiPrime.IsPrimeNumber)
  {
    ScriptBlocks();
    GatheredSumCountsAllBlocks(MpiPrime.IsPrimeNumber, StartSearch, EndSearch, StepSize, size);
    MpiPrime.CountSplit(StartSearch, EndSearch, 20000003, MpiPrime.IsPrimeNumber);
    ScriptOverrunHasNoPrime();
  }
}
