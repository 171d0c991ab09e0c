/** The decimal adjustment that DAA performs in both emulators, and packed
 *  decimal numbers to measure it against.  Both cores adjust in two steps:
 *  +6 when the low nibble exceeds 9 or the aux flag is set, then +0x60 when
 *  the high nibble exceeds 9 or the carry is set.  In both, the first step
 *  overwrites the carry that the second step tests, so a carry that was set
 *  before DAA is not seen once the first step has run. */
module Bcd {
  import opened Bytes

  /** Whether the first step (+6) runs. */
  predicate LowStep(a: byte, ac: bool) { ac || a % 0x10 > 9 }

  /** The accumulator after the first step. */
  function DaaLow(a: byte, ac: bool): byte
  {
    if LowStep(a, ac) then (a + 6) % 0x100 else a
  }

  /** The carry that the second step tests: the carry out of the first
   *  step when it ran, the carry flag otherwise. */
  function DaaLowCarry(a: byte, cy: bool, ac: bool): bool
  {
    if LowStep(a, ac) then a + 6 > 0xFF else cy
  }

  /** Whether the second step (+0x60) runs on the value `l` and the carry
   *  `c` that the first step left. */
  predicate HighStepOn(l: byte, c: bool) { c || l / 0x10 > 9 }

  /** The accumulator after the second step. */
  function DaaHigh(l: byte, c: bool): byte
  {
    if HighStepOn(l, c) then (l + 0x60) % 0x100 else l
  }

  /** Whether the second step carries out of bit 7. */
  predicate DaaHighCarry(l: byte, c: bool)
  {
    HighStepOn(l, c) && l + 0x60 > 0xFF
  }

  /** Whether the second step runs, from the accumulator and flags before DAA. */
  predicate HighStep(a: byte, cy: bool, ac: bool)
  {
    HighStepOn(DaaLow(a, ac), DaaLowCarry(a, cy, ac))
  }

  /** The accumulator after both steps. */
  function DaaValue(a: byte, cy: bool, ac: bool): byte
  {
    DaaHigh(DaaLow(a, ac), DaaLowCarry(a, cy, ac))
  }

  /** Whether the second step of DAA carries out of bit 7. */
  predicate DaaCarry(a: byte, cy: bool, ac: bool)
  {
    DaaHighCarry(DaaLow(a, ac), DaaLowCarry(a, cy, ac))
  }

  /** A byte holding two decimal digits. */
  predicate IsBcd(x: byte) { x / 0x10 <= 9 && x % 0x10 <= 9 }

  /** The number two decimal digits stand for. */
  function BcdValue(x: byte): nat
    requires IsBcd(x)
  {
    10 * (x / 0x10) + x % 0x10
  }

  /** The two decimal digits of a number below 100. */
  function ToBcd(n: nat): (x: byte)
    requires n < 100
    ensures IsBcd(x) && BcdValue(x) == n
  {
    0x10 * (n / 10) + n % 10
  }

  /** The two decimal digits of `10 * t + u`. */
  lemma ToBcdDigits(t: int, u: int)
    requires 0 <= t <= 9 && 0 <= u <= 9
    ensures ToBcd(10 * t + u) == 0x10 * t + u
  {
    assert (10 * t + u) / 10 == t && (10 * t + u) % 10 == u;
  }

  /** Division by 0x10 recovers the nibbles of `0x10 * t + u`. */
  lemma Nibbles(t: int, u: int)
    requires 0 <= u < 0x10
    ensures (0x10 * t + u) / 0x10 == t && (0x10 * t + u) % 0x10 == u
  {
  }

  /** `10 * t + u` modulo 100, for a tens digit up to 19. */
  lemma Mod100(t: int, u: int)
    requires 0 <= t <= 19 && 0 <= u <= 9
    ensures (10 * t + u) % 100 == if t <= 9 then 10 * t + u else 10 * (t - 10) + u
  {
  }

  /** The second step on `0x10 * t + u` with no carry from the first, for
   *  a low nibble `u` that is a decimal digit: the decimal value modulo
   *  100, with a carry exactly when it reaches 100. */
  lemma HighDigitAdjusted(t: int, u: int)
    requires 0 <= t <= 15 && 0 <= u <= 9
    ensures DaaHigh(0x10 * t + u, false) == ToBcd((10 * t + u) % 100)
    ensures DaaHighCarry(0x10 * t + u, false) <==> 10 * t + u >= 100
  {
    Nibbles(t, u);
    Mod100(t, u);
    if t <= 9 {
      ToBcdDigits(t, u);
    } else {
      assert 0x10 * t + u + 0x60 == 0x100 + 0x10 * (t - 10) + u;
      ToBcdDigits(t - 10, u);
    }
  }

  /** Low digits summing to at most 9: the first step does not run and
   *  only the high nibble is adjusted.  `s` is the binary sum and `n` the
   *  decimal sum of the two operands. */
  lemma DigitsNoCarry(hi: int, lo: int, s: byte, n: int)
    requires 0 <= hi && 0 <= lo <= 9 && s == 0x10 * hi + lo && n == 10 * hi + lo
    ensures DaaValue(s, false, false) == ToBcd(n % 100)
    ensures DaaCarry(s, false, false) <==> n >= 100 && !DaaLowCarry(s, false, false)
  {
    Nibbles(hi, lo);
    assert DaaLow(s, false) == s && !DaaLowCarry(s, false, false);
    HighDigitAdjusted(hi, lo);
  }

  /** The first step run on a byte `s` with `s + 6 == 0x10 * (hi + 1) + (lo - 10)`:
   *  the carry out of bit 3 moves into the tens, then only the high nibble
   *  is adjusted. */
  lemma DigitsAfterLowStep(hi: int, lo: int, s: byte, ac: bool, n: int)
    requires 0 <= hi <= 14 && 10 <= lo <= 18 && LowStep(s, ac)
    requires s + 6 == 0x10 * (hi + 1) + (lo - 10) && n == 10 * hi + lo
    ensures DaaValue(s, false, ac) == ToBcd(n % 100)
    ensures DaaCarry(s, false, ac) <==> n >= 100 && !DaaLowCarry(s, false, ac)
  {
    assert DaaLow(s, ac) == 0x10 * (hi + 1) + (lo - 10) && !DaaLowCarry(s, false, ac);
    assert n == 10 * (hi + 1) + (lo - 10);
    HighDigitAdjusted(hi + 1, lo - 10);
  }

  /** Low digits summing to 10..15: the low nibble is not a digit. */
  lemma DigitsLowNotDigit(hi: int, lo: int, s: byte, n: int)
    requires 0 <= hi && 10 <= lo <= 15 && s == 0x10 * hi + lo && n == 10 * hi + lo
    ensures DaaValue(s, false, false) == ToBcd(n % 100)
    ensures DaaCarry(s, false, false) <==> n >= 100 && !DaaLowCarry(s, false, false)
  {
    Nibbles(hi, lo);
    assert LowStep(s, false);
    if hi == 15 {
      assert DaaLow(s, false) == lo - 10 && DaaLowCarry(s, false, false);
      assert n % 100 == 10 * 6 + (lo - 10);
      ToBcdDigits(6, lo - 10);
    } else {
      DigitsAfterLowStep(hi, lo, s, false, n);
    }
  }

  /** Low digits summing to 16..18: the carry out of bit 3 sets AC. */
  lemma DigitsAuxCarry(hi: int, lo: int, s: byte, n: int)
    requires 0 <= hi && 16 <= lo <= 18 && s == 0x10 * hi + lo && n == 10 * hi + lo
    ensures DaaValue(s, false, true) == ToBcd(n % 100)
    ensures DaaCarry(s, false, true) <==> n >= 100 && !DaaLowCarry(s, false, true)
  {
    DigitsAfterLowStep(hi, lo, s, true, n);
  }

  /** DAA after the binary sum of two packed decimal bytes that did not
   *  carry out of bit 7, with AC the carry out of bit 3: the accumulator
   *  holds the decimal sum modulo 100.  The carry it leaves is the decimal
   *  carry, except when the first step itself carries out of bit 7: the
   *  second step then runs on a small value and does not carry again. */
  lemma DecimalSum(x: byte, y: byte)
    requires IsBcd(x) && IsBcd(y) && x + y <= 0xFF
    ensures DaaValue(x + y, false, x % 0x10 + y % 0x10 >= 0x10) == ToBcd((BcdValue(x) + BcdValue(y)) % 100)
    ensures DaaCarry(x + y, false, x % 0x10 + y % 0x10 >= 0x10) <==>
      BcdValue(x) + BcdValue(y) >= 100 && !DaaLowCarry(x + y, false, x % 0x10 + y % 0x10 >= 0x10)
  {
    var hi, lo := x / 0x10 + y / 0x10, x % 0x10 + y % 0x10;
    var s, n := x + y, BcdValue(x) + BcdValue(y);
    assert s == 0x10 * hi + lo;
    assert n == 10 * hi + lo;
    if lo <= 9 {
      DigitsNoCarry(hi, lo, s, n);
    } else if lo <= 15 {
      DigitsLowNotDigit(hi, lo, s, n);
    } else {
      DigitsAuxCarry(hi, lo, s, n);
    }
  }

  /** 99 + 66 = 165: the binary sum 0xFF adjusts to 0x65, but the carry is
   *  lost, because it came out of the first step. */
  lemma LowStepLosesCarry()
    ensures DaaValue(0xFF, false, false) == 0x65 && !DaaCarry(0xFF, false, false)
  {
  }

  /** 99 + 99 = 198: the binary sum 0x132 leaves 0x32 with C and AC set.
   *  The first step gives 0x38 without a carry, so the second step, which
   *  no longer sees C, does not run: DAA leaves 0x38, not 0x98. */
  lemma CarryBeforeDaaIgnored()
    ensures DaaValue(0x32, true, true) == 0x38 && !HighStep(0x32, true, true)
  {
    assert DaaLow(0x32, true) == 0x38 && !DaaLowCarry(0x32, true, true);
  }
}
