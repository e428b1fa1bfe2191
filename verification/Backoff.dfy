/** The backoff arithmetic of the queue, in wrapping 64-bit integers. */
module Backoff {
  import Clock

  const TWO63: int := 0x8000_0000_0000_0000
  const TWO64: int := 0x1_0000_0000_0000_0000
  const TWO43: int := 0x800_0000_0000
  const MAX_MESSAGE_ERROR_BACKOFF: int := 1 * Clock.HOUR
  const MAX_NO_MESSAGES_BACKOFF: int := 30 * Clock.SECOND

  /** Two's complement: what a 64-bit register holds after an operation whose exact result is x. */
  function Wrap64(x: int): (r: int)
    ensures -TWO63 <= r < TWO63
  {
    x - TWO64 * ((x + TWO63) / TWO64)
  }

  function Pow(base: nat, exponent: nat): nat {
    if exponent == 0 then 1 else base * Pow(base, exponent - 1)
  }

  /** Converting a float64 to int64. Powers of two and four are exact in float64 (or +Inf). Out of range
      the result depends on the machine: amd64 gives the smallest int64, arm64 the largest. */
  function ToInt64(x: nat, saturates: bool): (r: int)
    ensures -TWO63 <= r < TWO63
  {
    if x < TWO63 then x else if saturates then TWO63 - 1 else -TWO63
  }

  function Min(a: int, b: int): int { if a <= b then a else b }

  /** time.Duration(math.Pow(base, n - 1)) * time.Second */
  function PowSeconds(base: nat, n: nat, saturates: bool): int
    requires n >= 1
  {
    Wrap64(ToInt64(Pow(base, n - 1), saturates) * Clock.SECOND)
  }

  /** GetMessageErrorBackoff before the jitter. */
  function MessageErrorBackoffBase(nackCount: nat, saturates: bool): int
    requires nackCount >= 1
  {
    var value := Min(PowSeconds(4, nackCount, saturates), MAX_MESSAGE_ERROR_BACKOFF);
    if value <= 0 then MAX_MESSAGE_ERROR_BACKOFF else value
  }

  /** What rand.Float64 returned, and the relative errors of the roundings to float64: of the constants 0.9 and
      0.2, of their product with it, of the sum, and of the product with the backoff. */
  datatype Draw = Draw(random: real, offset: real, scale: real, product: real, sum: real, result: real)

  const UNIT_ROUNDOFF: real := 1.0 / 9007199254740992.0

  predicate IsRounding(error: real) {
    -UNIT_ROUNDOFF <= error <= UNIT_ROUNDOFF
  }

  predicate IsDraw(d: Draw) {
    && 0.0 <= d.random < 1.0
    && IsRounding(d.offset) && IsRounding(d.scale) && IsRounding(d.product) && IsRounding(d.sum) && IsRounding(d.result)
  }

  function RoundedSum(a: real, b: real, error: real): real {
    (a + b) * (1.0 + error)
  }

  function LeastFraction(d: Draw): real {
    0.9 * (1.0 + d.offset)
  }

  function RandomFraction(d: Draw): real {
    (0.2 * (1.0 + d.scale)) * d.random * (1.0 + d.product)
  }

  function Fraction(d: Draw): real {
    RoundedSum(LeastFraction(d), RandomFraction(d), d.sum)
  }

  /** Up to an hour, in nanoseconds, the backoff itself is exact as a float64. */
  function Jitter(base: int, d: Draw): int {
    ((base as real) * Fraction(d) * (1.0 + d.result)).Floor
  }

  function MessageErrorBackoff(nackCount: nat, saturates: bool, d: Draw): int
    requires nackCount >= 1
  {
    Jitter(MessageErrorBackoffBase(nackCount, saturates), d)
  }

  function NoMessagesBackoff(tick: nat, saturates: bool): int
    requires tick >= 1
  {
    var a := PowSeconds(2, tick, saturates);
    if a <= 0 then MAX_NO_MESSAGES_BACKOFF else Min(a, MAX_NO_MESSAGES_BACKOFF)
  }

  // ---------------------------------------------------------------- exactness

  lemma ProductGrows(a: nat, b: nat)
    requires a >= 1
    ensures a * b >= b
  {
    assert (a - 1) * b >= 0;
  }

  lemma {:induction false} PowGrows(base: nat, m: nat, n: nat)
    requires base >= 1 && m <= n
    ensures 1 <= Pow(base, m) <= Pow(base, n)
    decreases n
  {
    if n > 0 {
      PowGrows(base, if m == n then m - 1 else m, n - 1);
      ProductGrows(base, Pow(base, n - 1));
    }
  }

  lemma Regroup(a: nat, b: nat, c: nat)
    ensures a * (b * c) == b * (a * c)
  {
  }

  lemma {:induction false} PowSum(base: nat, m: nat, n: nat)
    ensures Pow(base, m + n) == Pow(base, m) * Pow(base, n)
  {
    if n > 0 {
      PowSum(base, m, n - 1);
      Regroup(Pow(base, m), base, Pow(base, n - 1));
      assert Pow(base, m + n) == base * Pow(base, m + (n - 1));
    }
  }

  /** Wrapping a multiple of 2^43 leaves a multiple of 2^43: never a small positive number. */
  lemma WrappedMultiple(q: int)
    ensures Wrap64(TWO43 * q) <= 0 || Wrap64(TWO43 * q) >= TWO43
  {
    var k := (TWO43 * q + TWO63) / TWO64;
    assert Wrap64(TWO43 * q) == TWO43 * (q - 0x20_0000 * k);
    if q - 0x20_0000 * k >= 1 {
      assert TWO43 * (q - 0x20_0000 * k) >= TWO43;
    }
  }

  /** 10^9 has nine factors of two, so 2^34 seconds and more are multiples of 2^43 ns. */
  lemma LargePowersOverflowSafely(base: nat, n: nat, m: nat, saturates: bool)
    requires n >= m + 1 && Pow(base, m) == 0x4_0000_0000
    ensures PowSeconds(base, n, saturates) <= 0 || PowSeconds(base, n, saturates) >= TWO43
  {
    var p := Pow(base, n - 1);
    if p < TWO63 {
      PowSum(base, m, n - 1 - m);
      var rest := Pow(base, n - 1 - m);
      assert p * Clock.SECOND == TWO43 * (1_953_125 * rest);
      WrappedMultiple(1_953_125 * rest);
    } else if saturates {
      assert (TWO63 - 1) * Clock.SECOND == TWO64 * 500_000_000 - Clock.SECOND;
      assert Wrap64((TWO63 - 1) * Clock.SECOND) == -Clock.SECOND;
    } else {
      assert -TWO63 * Clock.SECOND == -TWO64 * 500_000_000;
      assert Wrap64(-TWO63 * Clock.SECOND) == 0;
    }
  }

  lemma PowersOfFour()
    ensures Pow(4, 6) == 4096 && Pow(4, 16) == 0x1_0000_0000 && Pow(4, 17) == 0x4_0000_0000
  {
    assert Pow(4, 2) == 16 && Pow(4, 3) == 64;
    PowSum(4, 3, 3);
    PowSum(4, 6, 2);
    PowSum(4, 8, 8);
    assert Pow(4, 17) == 4 * Pow(4, 16);
  }

  lemma PowersOfTwo()
    ensures Pow(2, 5) == 32 && Pow(2, 33) == 0x2_0000_0000 && Pow(2, 34) == 0x4_0000_0000
  {
    assert Pow(2, 2) == 4 && Pow(2, 3) == 8;
    PowSum(2, 3, 2);
    PowSum(2, 5, 3);
    PowSum(2, 8, 8);
    PowSum(2, 16, 16);
    assert Pow(2, 33) == 2 * Pow(2, 32);
    assert Pow(2, 34) == 2 * Pow(2, 33);
  }

  /** The n-th failure backs a message off for min(4^(n-1), 3600) seconds, for every n. */
  lemma MessageErrorBackoffExact(n: nat, saturates: bool)
    requires n >= 1
    ensures MessageErrorBackoffBase(n, saturates) == Min(Pow(4, n - 1), 3600) * Clock.SECOND
  {
    PowersOfFour();
    if n <= 17 {
      PowGrows(4, n - 1, 16);
    } else {
      LargePowersOverflowSafely(4, n, 17, saturates);
      PowGrows(4, 17, n - 1);
    }
  }

  /** The n-th empty read in a row waits for min(2^(n-1), 30) seconds, for every n. */
  lemma NoMessagesBackoffExact(n: nat, saturates: bool)
    requires n >= 1
    ensures NoMessagesBackoff(n, saturates) == Min(Pow(2, n - 1), 30) * Clock.SECOND
  {
    PowersOfTwo();
    if n <= 34 {
      PowGrows(2, n - 1, 33);
    } else {
      LargePowersOverflowSafely(2, n, 34, saturates);
      PowGrows(2, 34, n - 1);
    }
  }

  /** The jitter, in float64 arithmetic, moves it by at most ten percent (and a nanosecond), so it stays
      positive. */
  lemma JitterWithinTenPercent(n: nat, saturates: bool, d: Draw)
    requires n >= 1 && IsDraw(d)
    ensures var exact := Min(Pow(4, n - 1), 3600) * Clock.SECOND;
            0 < exact * 9 / 10 - 1 <= MessageErrorBackoff(n, saturates, d) <= exact * 11 / 10
  {
    MessageErrorBackoffExact(n, saturates);
    PowGrows(4, 0, n - 1);
    JitterBounds(MessageErrorBackoffBase(n, saturates), d);
  }

  lemma NotNegative(a: real, b: real)
    requires a >= 0.0 && b >= 0.0
    ensures a * b >= 0.0
  {
  }

  lemma Rounded(x: real, lo: real, hi: real, error: real)
    requires 0.0 <= lo <= x <= hi && IsRounding(error)
    ensures lo * (1.0 - UNIT_ROUNDOFF) <= x * (1.0 + error) <= hi * (1.0 + UNIT_ROUNDOFF)
  {
    NotNegative(x - lo, 1.0 + error);
    NotNegative(lo, error + UNIT_ROUNDOFF);
    assert x * (1.0 + error) - lo * (1.0 - UNIT_ROUNDOFF) == (x - lo) * (1.0 + error) + lo * (error + UNIT_ROUNDOFF);
    NotNegative(hi - x, 1.0 + error);
    NotNegative(hi, UNIT_ROUNDOFF - error);
    assert hi * (1.0 + UNIT_ROUNDOFF) - x * (1.0 + error) == (hi - x) * (1.0 + error) + hi * (UNIT_ROUNDOFF - error);
  }

  lemma ProductBetween(b: real, x: real, lo: real, hi: real)
    requires b >= 0.0 && lo <= x <= hi
    ensures b * lo <= b * x <= b * hi
  {
    NotNegative(b, x - lo);
    NotNegative(b, hi - x);
    assert b * (x - lo) == b * x - b * lo && b * (hi - x) == b * hi - b * x;
  }

  /** More than all the roundings together. */
  const SLACK: real := 0.000000000000001

  /** The jitter's two terms. */
  lemma TermBounds(d: Draw)
    requires IsDraw(d)
    ensures 0.9 * (1.0 - UNIT_ROUNDOFF) <= LeastFraction(d) <= 0.9 * (1.0 + UNIT_ROUNDOFF)
    ensures 0.0 <= RandomFraction(d) <= 0.2 * (1.0 + UNIT_ROUNDOFF) * (1.0 + UNIT_ROUNDOFF)
  {
    Rounded(0.9, 0.9, 0.9, d.offset);
    Rounded(0.2, 0.2, 0.2, d.scale);
    var scale := 0.2 * (1.0 + d.scale);
    ProductBetween(scale, d.random, 0.0, 1.0);
    Rounded(scale * d.random, 0.0, 0.2 * (1.0 + UNIT_ROUNDOFF), d.product);
  }

  lemma FractionBounds(d: Draw)
    requires IsDraw(d)
    ensures 0.9 * (1.0 - SLACK / 2.0) <= Fraction(d) <= 1.1 * (1.0 + SLACK * 3.0 / 4.0)
  {
    TermBounds(d);
    SumBounds(LeastFraction(d), RandomFraction(d), d.sum);
  }

  lemma SumBounds(a: real, b: real, error: real)
    requires 0.9 * (1.0 - UNIT_ROUNDOFF) <= a <= 0.9 * (1.0 + UNIT_ROUNDOFF) && IsRounding(error)
    requires 0.0 <= b <= 0.2 * (1.0 + UNIT_ROUNDOFF) * (1.0 + UNIT_ROUNDOFF)
    ensures 0.9 * (1.0 - SLACK / 2.0) <= RoundedSum(a, b, error) <= 1.1 * (1.0 + SLACK * 3.0 / 4.0)
  {
    var lo, hi := 0.9 * (1.0 - UNIT_ROUNDOFF), 1.1 * (1.0 + 2.0 * UNIT_ROUNDOFF + UNIT_ROUNDOFF * UNIT_ROUNDOFF);
    Rounded(a + b, lo, hi, error);
    assert lo * (1.0 - UNIT_ROUNDOFF) >= 0.9 * (1.0 - SLACK / 2.0);
    assert hi * (1.0 + UNIT_ROUNDOFF) <= 1.1 * (1.0 + SLACK * 3.0 / 4.0);
  }

  lemma JitterBounds(base: int, d: Draw)
    requires 10 <= base <= MAX_MESSAGE_ERROR_BACKOFF && IsDraw(d)
    ensures base * 9 / 10 - 1 <= Jitter(base, d) <= base * 11 / 10
  {
    FractionBounds(d);
    var b := base as real;
    var lo, hi := 0.9 * (1.0 - SLACK / 2.0), 1.1 * (1.0 + SLACK * 3.0 / 4.0);
    ProductBetween(b, Fraction(d), lo, hi);
    Rounded(b * Fraction(d), b * lo, b * hi, d.result);
    var x := b * Fraction(d) * (1.0 + d.result);
    assert b * lo * (1.0 - UNIT_ROUNDOFF) >= b * 0.9 - 0.01;
    assert b * hi * (1.0 + UNIT_ROUNDOFF) <= b * 1.1 + 0.01;
  }
}
