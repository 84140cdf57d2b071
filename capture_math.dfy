/**
 * Unsigned 32-bit arithmetic and the pure conversions on the capture path of
 * PC814.c: tick delta, ticks to microseconds, microseconds to hertz, and the
 * frequency tolerance test.
 */
module CaptureMath {

  /** 2^32, the modulus of every uint32_t computation on the target. */
  const U32: int := 0x1_0000_0000

  /** uint32_t */
  type u32 = x: int | 0 <= x < 0x1_0000_0000

  /** `x++` on a uint32_t: wraps to 0 after 0xFFFFFFFF. */
  function Inc(x: u32): u32 {
    if x == 0xFFFF_FFFF then 0 else x + 1
  }

  /** `a + b` on uint32_t: drops the carry out of bit 31. */
  function Add32(a: u32, b: u32): u32 {
    if a + b >= U32 then a + b - U32 else a + b
  }

  /** The value of a uint32_t counter that started at 0 after `n` increments. */
  function Count32(n: nat): u32 {
    if n == 0 then 0 else Inc(Count32(n - 1))
  }

  /** The value of a uint32_t accumulator that started at 0 after adding every element of `s`. */
  function Sum32(s: seq<u32>): u32 {
    if s == [] then 0 else Add32(Sum32(s[..|s| - 1]), s[|s| - 1])
  }

  /** The wrapping counter holds the true count modulo 2^32. */
  lemma {:induction false} Count32IsMod(n: nat)
    ensures Count32(n) == n % U32
  {
    if n > 0 {
      Count32IsMod(n - 1);
      var q, r := (n - 1) / U32, (n - 1) % U32;
      assert n - 1 == q * U32 + r;
      if r == 0xFFFF_FFFF {
        assert n == (q + 1) * U32;
      } else {
        assert n == q * U32 + (r + 1);
      }
    }
  }

  /** Two wrapping counts add up, modulo 2^32, to the count of both together. */
  lemma Count32Add(a: nat, b: nat)
    ensures Count32(a + b) == Add32(Count32(a), Count32(b))
  {
    Count32IsMod(a);
    Count32IsMod(b);
    Count32IsMod(a + b);
    Add32IsMod(a, b);
  }

  /** Adding the residues with Add32 gives the residue of the sum. */
  lemma Add32IsMod(a: nat, b: nat)
    ensures Add32(a % U32, b % U32) == (a + b) % U32
  {
    AddMod(a, b);
    var x, y := a % U32, b % U32;
    if x + y >= U32 {
      ModShift(x + y - U32, 1);
    }
  }

  /** The wrapping accumulator holds the true sum modulo 2^32. */
  lemma {:induction false} Sum32IsMod(s: seq<u32>)
    ensures Sum32(s) == Sum(s) % U32
  {
    if s != [] {
      var init, x := s[..|s| - 1], s[|s| - 1];
      Sum32IsMod(init);
      var q, r := Sum(init) / U32, Sum(init) % U32;
      assert Sum(init) == q * U32 + r;
      if r + x >= U32 {
        assert Sum(s) == (q + 1) * U32 + (r + x - U32);
      } else {
        assert Sum(s) == q * U32 + (r + x);
      }
    }
  }

  /**
   * Unsigned truncating division `a / b`, written as repeated subtraction; the
   * running-average invariant of a handle is stated with it, and QuotientIsDiv
   * shows it is the `/` the code computes.
   */
  function Quotient(a: nat, b: nat): (q: nat)
    requires b > 0
    ensures q <= a
    decreases a
  {
    if a < b then 0 else 1 + Quotient(a - b, b)
  }

  /**
   * A proper fraction num / den of a whole `scale` lies in [0, scale), and so
   * does its truncation; it is the time within a period of an angle below a
   * turn, and the angle of a remainder below the period.
   */
  lemma ScaledFraction(num: real, den: real, scale: nat)
    requires 0.0 <= num < den
    ensures var x := (num / den) * scale as real;
            && 0.0 <= x && (scale > 0 ==> x < scale as real)
            && x * den == num * scale as real
            && 0 <= x.Floor && (scale > 0 ==> x.Floor < scale) && (scale == 0 ==> x.Floor == 0)
  {
    var f := num / den;
    var x := f * scale as real;
    assert 0.0 <= f < 1.0;
    assert scale as real - x == (1.0 - f) * scale as real;
  }

  /** Quotient and remainder are determined by any decomposition x == p * q + r with 0 <= r < p. */
  lemma DivModUnique(x: int, p: int, q: int, r: int)
    requires p > 0 && x == p * q + r && 0 <= r < p
    ensures x / p == q && x % p == r
  {
    var q', r' := x / p, x % p;
    assert x == p * q' + r';
    assert p * (q' + 1) == p * q' + p && p * (q + 1) == p * q + p;
    MulCancelLt(p, q, q' + 1);
    MulCancelLt(p, q', q + 1);
  }

  lemma {:induction false} QuotientIsDiv(a: nat, b: nat)
    requires b > 0
    ensures Quotient(a, b) == a / b
    decreases a
  {
    if a < b {
      DivModUnique(a, b, 0, a);
    } else {
      QuotientIsDiv(a - b, b);
      var q, r := (a - b) / b, (a - b) % b;
      assert a - b == b * q + r;
      assert a == b * (q + 1) + r;
      DivModUnique(a, b, q + 1, r);
    }
  }

  function Abs(x: int): nat {
    if x < 0 then -x else x
  }

  /**
   * Tick delta between two captures (PC814.c:102-107). Above the previous
   * capture it is the plain difference; otherwise the code computes
   * `(0xFFFFFFFF - last) + current`, which is one tick short of the modular
   * distance.
   */
  function TickDelta(last: u32, current: u32): (d: u32)
    ensures current > last ==> last + d == current
    ensures current <= last ==> (last + d + 1) % U32 == current
  {
    if current > last then current - last else (0xFFFF_FFFF - last) + current
  }

  /**
   * Ticks to microseconds (PC814.c:110). On the 32-bit target
   * `ticks * 1000000UL` is a uint32_t product and wraps before the division.
   */
  function PeriodUs(ticks: u32, timerFreq: u32): u32
    requires timerFreq != 0
  {
    ((ticks * 1000000) % U32) / timerFreq
  }

  /**
   * The period is the truncated quotient of the wrapped product, and the
   * exact microsecond count whenever the product fits in 32 bits.
   */
  lemma PeriodUsQuotient(ticks: u32, timerFreq: u32)
    requires timerFreq != 0
    ensures var p := PeriodUs(ticks, timerFreq);
            && (ticks * 1000000 < U32 ==> p == ticks * 1000000 / timerFreq)
            && p * timerFreq <= (ticks * 1000000) % U32 < (p + 1) * timerFreq
  {
  }

  /**
   * Microseconds to hertz (PC814.c:113), truncating. The C division has no
   * guard: this requires clause is the domain of that division.
   */
  function FrequencyHz(periodUs: u32): u32
    requires periodUs != 0
  {
    1000000 / periodUs
  }

  /** The frequency is the largest number of whole periods that fit in one second. */
  lemma FrequencyHzQuotient(periodUs: u32)
    requires periodUs != 0
    ensures var f := FrequencyHz(periodUs);
            f * periodUs <= 1000000 < (f + 1) * periodUs
  {
  }

  /**
   * validate_frequency (PC814.c:25-35): a frequency is valid when neither it
   * nor the expected value is zero and its deviation, in percent of the
   * expected value, is within the tolerance.
   */
  function ValidateFrequency(freq: u32, expected: u32, tolerance: real): bool {
    if freq == 0 || expected == 0 then false
    else (Abs(freq - expected) as real / expected as real) * 100.0 <= tolerance
  }

  /** The percentage test, free of division: |freq - expected| * 100 <= tolerance * expected. */
  lemma ValidateFrequencyPercent(freq: u32, expected: u32, tolerance: real)
    ensures ValidateFrequency(freq, expected, tolerance) <==>
              freq != 0 && expected != 0 && (Abs(freq - expected) * 100) as real <= tolerance * expected as real
  {
  }

  /** Sum of a sequence of periods, accumulated from the back. */
  function Sum(s: seq<u32>): nat {
    if s == [] then 0 else Sum(s[..|s| - 1]) + s[|s| - 1]
  }

  /** Every element lies in [lo, hi], so the sum lies in [n * lo, n * hi]. */
  lemma {:induction false} SumBracketed(s: seq<u32>, lo: int, hi: int)
    requires forall i :: 0 <= i < |s| ==> lo <= s[i] <= hi
    ensures |s| * lo <= Sum(s) <= |s| * hi
  {
    if s != [] {
      var init := s[..|s| - 1];
      assert forall i :: 0 <= i < |init| ==> init[i] == s[i];
      SumBracketed(init, lo, hi);
      assert |s| * lo == |init| * lo + lo;
      assert |s| * hi == |init| * hi + hi;
    }
  }

  /** A truncated quotient of a value in [n * lo, n * hi] lies in [lo, hi]. */
  lemma DivBracketed(total: int, n: int, lo: int, hi: int)
    requires n > 0 && 0 <= lo && n * lo <= total <= n * hi
    ensures lo <= total / n <= hi
  {
    var q, r := total / n, total % n;
    assert total == n * q + r && 0 <= r < n;
    assert n * (q + 1) == n * q + n;
    MulCancelLt(n, lo, q + 1);
    assert n * (hi + 1) == n * hi + n;
    MulCancelLt(n, q, hi + 1);
  }

  lemma MulMono(n: int, a: int, b: int)
    requires n >= 0 && a <= b
    ensures n * a <= n * b
  {
    assert n * b - n * a == n * (b - a);
  }

  /** Multiplying by a positive factor reflects strict order. */
  lemma MulCancelLt(n: int, a: int, b: int)
    requires n > 0 && n * a < n * b
    ensures a < b
  {
    if a >= b {
      MulMono(n, b, a);
    }
  }

  /** (a mod m + b mod m) mod m == (a + b) mod m, for the 32-bit counters. */
  lemma AddMod(a: int, b: int)
    requires a >= 0 && b >= 0
    ensures (a % U32 + b % U32) % U32 == (a + b) % U32
  {
    var qa, qb := a / U32, b / U32;
    assert a == qa * U32 + a % U32;
    assert b == qb * U32 + b % U32;
    assert a + b == (qa + qb) * U32 + (a % U32 + b % U32);
    ModShift(a % U32 + b % U32, qa + qb);
  }

  lemma ModShift(x: int, k: int)
    requires x >= 0 && k >= 0
    ensures (k * U32 + x) % U32 == x % U32
  {
    var y := k * U32 + x;
    var q, r := x / U32, x % U32;
    assert x == q * U32 + r;
    assert y == (k + q) * U32 + r;
    assert 0 <= r < U32;
  }

  /**
   * The overflow branch of the tick delta is one tick short of modular
   * subtraction: a capture that wrapped from 0xFFFFFFF0 to 0x10 is 32 ticks
   * later but is measured as 31, and an unchanged capture value reads as a
   * full 0xFFFFFFFF ticks.
   */
  lemma TickDeltaWrapExamples()
    ensures TickDelta(0xFFFF_FFF0, 0x10) == 31
    ensures (0x10 - 0xFFFF_FFF0) % U32 == 32
    ensures TickDelta(1234, 1234) == 0xFFFF_FFFF
  {
  }

  /** Everywhere off the overflow branch the delta is the true modular difference. */
  lemma TickDeltaModular(last: u32, current: u32)
    ensures current > last ==> TickDelta(last, current) == (current - last) % U32
    ensures current <= last ==> TickDelta(last, current) == (current - last - 1) % U32
  {
    if current <= last {
      assert current - last - 1 + U32 == TickDelta(last, current);
    }
  }

  /** With 50 Hz expected and a 5 % tolerance, 52 Hz passes and 54 Hz does not. */
  lemma ValidateFrequencyExamples()
    ensures ValidateFrequency(52, 50, 5.0)
    ensures !ValidateFrequency(54, 50, 5.0)
    ensures !ValidateFrequency(0, 50, 5.0) && !ValidateFrequency(50, 0, 5.0)
  {
  }

  /**
   * The microsecond conversion multiplies in 32 bits: with a 1 MHz timer only
   * deltas up to 4294 ticks convert exactly; the 10000 ticks of a 50 Hz
   * half-cycle read as 1410 us and 20000 ticks as 2820 us.
   */
  lemma PeriodWrapExample()
    ensures PeriodUs(4294, 1000000) == 4294
    ensures PeriodUs(10000, 1000000) == 1410
    ensures PeriodUs(20000, 1000000) == 2820
  {
  }

  /**
   * A non-zero tick delta can convert to a zero period: from capture 1 to
   * capture 4296 at 1 MHz the wrapped product is 32704, below one
   * microsecond's worth of ticks, and pc814_process_capture then divides
   * 1000000 by zero.
   */
  lemma ZeroPeriodFromWrap()
    ensures TickDelta(1, 4296) == 4295
    ensures PeriodUs(TickDelta(1, 4296), 1000000) == 0
  {
  }
}
