/** numpy's `RandomState`, as the services use it.

    The generator's algorithm is not modelled. A generator is an infinite supply
    of raw draws fixed when it is created; every call consumes the next draw and
    reads it according to what was asked for: a uniform real between two bounds,
    a coin (`uniform(0, 1) <= p`), an index below a bound, or a normal deviate. */
module Random {

  /** Position k holds the k-th raw draw of a generator. */
  type Stream = nat -> real

  /** What `RandomState(seed)` produces for each seed. */
  type Seeding = int -> Stream

  /** The fractional part of a raw draw: a number in [0, 1). */
  function Frac(x: real): (f: real)
    ensures 0.0 <= f < 1.0
  {
    x - x.Floor as real
  }

  /** `uniform(low, high)` read from draw k: a value between the two bounds,
      whichever way round they are given. */
  function UniformAt(s: Stream, k: nat, low: real, high: real): (x: real)
    ensures low <= high ==> low <= x <= high
    ensures high <= low ==> high <= x <= low
  {
    Lerp(low, high, Frac(s(k)))
  }

  /** The point a fraction f of the way from low to high. */
  function Lerp(low: real, high: real, f: real): (x: real)
    requires 0.0 <= f < 1.0
    ensures low <= high ==> low <= x <= high
    ensures high <= low ==> high <= x <= low
  {
    var x := low + (high - low) * f;
    Between(low, high, f, x);
    x
  }

  /** `normal(loc=0, scale)` read from draw k (the draw is the standard deviate). */
  function NormalAt(s: Stream, k: nat, scale: real): real
  {
    scale * s(k)
  }

  /** `randint(n)` read from draw k: an index in [0, n). numpy raises for n <= 0,
      so every caller checks the bound first. */
  function RandIntAt(s: Stream, k: nat, n: int): (i: nat)
    requires n > 0
    ensures i < n
  {
    var f := Frac(s(k));
    ScaleBelow(n as real, f);
    StrictScaleBelow(n as real, f);
    var x := n as real * f;
    assert 0.0 <= x < n as real;
    assert x.Floor as real <= x;
    x.Floor
  }

  lemma Between(low: real, high: real, f: real, x: real)
    requires 0.0 <= f < 1.0 && x == low + (high - low) * f
    ensures low <= high ==> low <= x <= high
    ensures high <= low ==> high <= x <= low
  {
    if low <= high {
      BetweenUp(low, high, f, x);
    }
    if high <= low {
      assert x == high + (low - high) * (1.0 - f);
      BetweenUp(high, low, 1.0 - f, x);
    }
  }

  lemma BetweenUp(low: real, high: real, f: real, x: real)
    requires 0.0 <= f <= 1.0 && low <= high && x == low + (high - low) * f
    ensures low <= x <= high
  {
    var d := high - low;
    ScaleBelow(d, f);
    var e := d * f;
    assert 0.0 <= e <= d;
    assert e == (high - low) * f;
  }

  lemma MulNonneg(x: real, y: real)
    requires 0.0 <= x && 0.0 <= y
    ensures 0.0 <= x * y
  {
  }

  lemma ScaleBelow(a: real, f: real)
    requires 0.0 <= a && 0.0 <= f <= 1.0
    ensures 0.0 <= a * f <= a
  {
    MulNonneg(a, f);
    MulNonneg(a, 1.0 - f);
    assert a * (1.0 - f) == a - a * f;
  }

  lemma StrictScaleBelow(a: real, f: real)
    requires 0.0 < a && 0.0 <= f < 1.0
    ensures a * f < a
  {
    MulNonneg(a, 1.0 - f);
    assert a * (1.0 - f) == a - a * f;
    assert a * (1.0 - f) != 0.0;
  }

  /** A `numpy.random.RandomState` object: its supply of draws and how many of
      them have been consumed. */
  class RandomState {
    const stream: Stream
    var position: nat

    /** `RandomState(seed)` is `new RandomState(seeding(seed))`. */
    constructor (stream: Stream)
      ensures this.stream == stream && position == 0
    {
      this.stream := stream;
      position := 0;
    }

    method Uniform(low: real, high: real) returns (x: real)
      modifies this
      ensures x == UniformAt(stream, old(position), low, high)
      ensures position == old(position) + 1
    {
      x := UniformAt(stream, position, low, high);
      position := position + 1;
    }

    method Normal(scale: real) returns (x: real)
      modifies this
      ensures x == NormalAt(stream, old(position), scale)
      ensures position == old(position) + 1
    {
      x := NormalAt(stream, position, scale);
      position := position + 1;
    }

    method RandInt(n: int) returns (i: nat)
      requires n > 0
      modifies this
      ensures i == RandIntAt(stream, old(position), n) && i < n
      ensures position == old(position) + 1
    {
      i := RandIntAt(stream, position, n);
      position := position + 1;
    }
  }
}
