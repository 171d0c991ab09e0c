/** The arithmetic and logic helpers of 8080e.c as functions from operands
 *  and the old flags to the result byte and the new flags.  In the C code
 *  each helper both returns the result and updates `state->f`; the methods
 *  of Emu8080e.Machine do the same and are specified by these functions. */
module Emu8080eAlu {
  import opened Bytes
  import opened Emu8080eDefs
  import opened Bcd

  /** Z, S and P describe the byte `res`. */
  predicate ZspOf(g: Flags, res: byte)
  {
    (g.z <==> res == 0) && (g.s <==> res >= 0x80) && (g.p <==> EvenParity(res))
  }

  /** `g` differs from `f` at most in the arithmetic flags S, Z, AC, P and
   *  C: the three fixed bits are kept. */
  predicate KeepsFixedBits(g: Flags, f: Flags)
  {
    g.f5 == f.f5 && g.f3 == f.f3 && g.f1 == f.f1
  }

  /** add: `x + y` truncated to a byte; C is the carry out of bit 7.  `y`
   *  may be 0x100 because ADC adds the carry to a register of 0xFF. */
  function AluAdd(f: Flags, x: byte, y: int): (r: (byte, Flags))
    requires 0 <= y <= 0x100
    ensures r.0 + 0x100 * B2I(r.1.cy) == x + y
    ensures r.1.ac == Bit4Toggled(x, r.0)
    ensures ZspOf(r.1, r.0) && KeepsFixedBits(r.1, f)
  {
    var res := (x + y) % 0x100;
    (res, WithZSP(f.(cy := x + y > 0xFF, ac := Bit4Toggled(x, res)), res))
  }

  /** The byte and the carry of add, as residue and comparison. */
  lemma AddModulo(f: Flags, x: byte, y: int)
    requires 0 <= y <= 0x100
    ensures AluAdd(f, x, y).0 == (x + y) % 0x100
    ensures AluAdd(f, x, y).1.cy <==> x + y > 0xFF
  {
  }

  /** ADI sets C after set_ZSP rather than before set_A; the flags agree. */
  lemma AddCarryLast(f: Flags, x: byte, y: byte)
    ensures var res := (x + y) % 0x100;
      AluAdd(f, x, y) == (res, WithZSP(f.(ac := Bit4Toggled(x, res)), res).(cy := x + y > 0xFF))
  {
  }

  /** sub: `x - y` wrapped to a byte; C is set iff `x < y` (a borrow). */
  function AluSub(f: Flags, x: byte, y: int): (r: (byte, Flags))
    requires 0 <= y <= 0x100
    ensures r.0 - 0x100 * B2I(r.1.cy) == x - y
    ensures r.1.ac == Bit4Toggled(x, r.0)
    ensures ZspOf(r.1, r.0) && KeepsFixedBits(r.1, f)
  {
    var res := (x - y) % 0x100;
    (res, WithZSP(f.(cy := x < y, ac := Bit4Toggled(x, res)), res))
  }

  /** inc_dec: `v` plus or minus one, wrapped to a byte; the carry flag is
   *  left alone. */
  function AluIncDec(f: Flags, v: byte, inc: bool): (r: (byte, Flags))
    ensures inc ==> r.0 == if v == 0xFF then 0 else v + 1
    ensures !inc ==> r.0 == if v == 0 then 0xFF else v - 1
    ensures r.1.cy == f.cy && r.1.ac == Bit4Toggled(v, r.0)
    ensures ZspOf(r.1, r.0) && KeepsFixedBits(r.1, f)
  {
    var res := (v + (if inc then 1 else -1)) % 0x100;
    (res, WithZSP(f.(ac := Bit4Toggled(v, res)), res))
  }

  /** and: ANA takes AC from set_A, ANI (`clearAux`) clears it; C is
   *  always cleared. */
  function AluAnd(f: Flags, x: byte, y: byte, clearAux: bool): (r: (byte, Flags))
    ensures r.0 == And8(x, y) && !r.1.cy
    ensures r.1.ac <==> !clearAux && Bit4Toggled(x, r.0)
    ensures ZspOf(r.1, r.0) && KeepsFixedBits(r.1, f)
  {
    var res := And8(x, y);
    var g := if clearAux then f.(ac := false) else f.(ac := Bit4Toggled(x, res));
    (res, WithZSP(g, res).(cy := false))
  }

  /** or: C and AC are cleared. */
  function AluOr(f: Flags, x: byte, y: byte): (r: (byte, Flags))
    ensures r.0 == Or8(x, y) && !r.1.cy && !r.1.ac
    ensures ZspOf(r.1, r.0) && KeepsFixedBits(r.1, f)
  {
    var res := Or8(x, y);
    (res, WithZSP(f, res).(cy := false, ac := false))
  }

  /** xor: C and AC are cleared. */
  function AluXor(f: Flags, x: byte, y: byte): (r: (byte, Flags))
    ensures r.0 == Xor8(x, y) && !r.1.cy && !r.1.ac
    ensures ZspOf(r.1, r.0) && KeepsFixedBits(r.1, f)
  {
    var res := Xor8(x, y);
    (res, WithZSP(f, res).(cy := false, ac := false))
  }

  /** RLC: bit 7 goes round into bit 0 and into C; no other flag changes. */
  function RotateLeft(v: byte, f: Flags): (r: (byte, Flags))
    ensures r.1.cy <==> v >= 0x80
    ensures 2 * v == r.0 + 0xFF * B2I(r.1.cy)
    ensures r.1 == f.(cy := r.1.cy)
  {
    var c := v / 0x80;
    ((2 * v) % 0x100 + c, f.(cy := c == 1))
  }

  /** RRC: bit 0 goes round into bit 7 and into C; no other flag changes. */
  function RotateRight(v: byte, f: Flags): (r: (byte, Flags))
    ensures r.1.cy <==> v % 2 == 1
    ensures 2 * r.0 == v + 0xFF * B2I(r.1.cy)
    ensures r.1 == f.(cy := r.1.cy)
  {
    var c := v % 2;
    (v / 2 + 0x80 * c, f.(cy := c == 1))
  }

  /** RAR: a nine-bit rotation of C and the accumulator: the old C enters
   *  bit 7 and bit 0 leaves into C. */
  function RotateRightThroughCarry(v: byte, f: Flags): (r: (byte, Flags))
    ensures r.1.cy <==> v % 2 == 1
    ensures 2 * r.0 + B2I(r.1.cy) == v + 0x100 * B2I(f.cy)
    ensures r.1 == f.(cy := r.1.cy)
  {
    (v / 2 + 0x80 * B2I(f.cy), f.(cy := v % 2 == 1))
  }

  /** RRC undoes RLC, and RLC undoes RRC, on the accumulator; the carry
   *  ends up holding the bit that went round first. */
  lemma RotateRightUndoesLeft(v: byte, f: Flags)
    ensures var (w, g) := RotateLeft(v, f); RotateRight(w, g) == (v, f.(cy := v >= 0x80))
    ensures var (w, g) := RotateRight(v, f); RotateLeft(w, g) == (v, f.(cy := v % 2 == 1))
  {
    var (w, g) := RotateLeft(v, f);
    assert w % 2 == v / 0x80;
    var (w2, g2) := RotateRight(v, f);
    assert w2 / 0x80 == v % 2;
  }

  /** CMA: the one's complement of the accumulator; flags are untouched. */
  function Complement(v: byte): (r: byte)
    ensures r + v == 0xFF
  {
    0xFF - v
  }

  /** DAD: `hl + rp` modulo 0x10000; C is the carry out of bit 15 and no
   *  other flag changes. */
  function DoubleAdd(hl: word, rp: word, f: Flags): (r: (word, Flags))
    ensures r.0 + 0x10000 * B2I(r.1.cy) == hl + rp
    ensures r.1 == f.(cy := r.1.cy)
  {
    var res := hl + rp;
    (res % 0x10000, f.(cy := res > 0xFFFF))
  }

  /** The second step of DAA: add 0x60 when the high nibble exceeds 9 or C
   *  is set. */
  function AdjustHigh(v: byte, f: Flags): (byte, Flags)
  {
    if v / 0x10 > 9 || f.cy then AluAdd(f, v, 0x60) else (v, f)
  }

  /** The first step of DAA: add 6 when the low nibble exceeds 9 or AC is
   *  set. */
  function AdjustLow(v: byte, f: Flags): (byte, Flags)
  {
    if v % 0x10 > 9 || f.ac then AluAdd(f, v, 0x06) else (v, f)
  }

  /** The first step gives the accumulator and carry of Bcd's first step;
   *  when it runs it sets the flags as add does, otherwise it changes
   *  nothing. */
  lemma AdjustLowStep(v: byte, f: Flags)
    ensures AdjustLow(v, f).0 == DaaLow(v, f.ac) && AdjustLow(v, f).1.cy == DaaLowCarry(v, f.cy, f.ac)
    ensures KeepsFixedBits(AdjustLow(v, f).1, f)
    ensures LowStep(v, f.ac) ==>
      AdjustLow(v, f).1.ac == Bit4Toggled(v, AdjustLow(v, f).0) && ZspOf(AdjustLow(v, f).1, AdjustLow(v, f).0)
    ensures !LowStep(v, f.ac) ==> AdjustLow(v, f) == (v, f)
  {
    AddModulo(f, v, 0x06);
  }

  /** The second step gives the accumulator and carry of Bcd's second step;
   *  when it runs it sets the flags as add does, otherwise it changes
   *  nothing. */
  lemma AdjustHighStep(v: byte, f: Flags)
    ensures AdjustHigh(v, f).0 == DaaHigh(v, f.cy) && AdjustHigh(v, f).1.cy == DaaHighCarry(v, f.cy)
    ensures KeepsFixedBits(AdjustHigh(v, f).1, f)
    ensures HighStepOn(v, f.cy) ==>
      AdjustHigh(v, f).1.ac == Bit4Toggled(v, AdjustHigh(v, f).0) && ZspOf(AdjustHigh(v, f).1, AdjustHigh(v, f).0)
    ensures !HighStepOn(v, f.cy) ==> AdjustHigh(v, f) == (v, f)
  {
    AddModulo(f, v, 0x60);
  }

  /** DAA: add 6 when the low nibble exceeds 9 or AC is set, then add 0x60
   *  when the high nibble (of the possibly adjusted value) exceeds 9 or C
   *  is set; each addition goes through add and so sets every arithmetic
   *  flag afresh. */
  function DecimalAdjust(v: byte, f: Flags): (r: (byte, Flags))
    ensures KeepsFixedBits(r.1, f)
    ensures v % 0x10 <= 9 && !f.ac && v / 0x10 <= 9 && !f.cy ==> r == (v, f)
  {
    var g := AdjustLow(v, f);
    AdjustLowStep(v, f);
    AdjustHighStep(g.0, g.1);
    AdjustHigh(g.0, g.1)
  }

  /** What DAA leaves: A is the two-step adjustment of Bcd; C is the carry
   *  out of the second addition only, so a carry set before DAA, or
   *  produced by the first addition, is cleared whenever the second
   *  addition does not carry; AC is bit 4 toggled by the last addition
   *  that ran; Z, S and P describe A when an addition ran, and nothing
   *  changes when none did. */
  lemma DecimalAdjustResult(v: byte, f: Flags)
    ensures DecimalAdjust(v, f).0 == DaaValue(v, f.cy, f.ac)
    ensures DecimalAdjust(v, f).1.cy == DaaCarry(v, f.cy, f.ac)
    ensures DecimalAdjust(v, f).1.ac ==
      if HighStep(v, f.cy, f.ac) then Bit4Toggled(DaaLow(v, f.ac), DecimalAdjust(v, f).0)
      else if LowStep(v, f.ac) then Bit4Toggled(v, DecimalAdjust(v, f).0)
      else f.ac
    ensures LowStep(v, f.ac) || HighStep(v, f.cy, f.ac) ==> ZspOf(DecimalAdjust(v, f).1, DecimalAdjust(v, f).0)
    ensures !LowStep(v, f.ac) && !HighStep(v, f.cy, f.ac) ==> DecimalAdjust(v, f) == (v, f)
  {
    var g := AdjustLow(v, f);
    AdjustLowStep(v, f);
    AdjustHighStep(g.0, g.1);
  }

  /** With C set and AC clear, DAA of 0x0A runs only the first addition,
   *  which does not carry: A becomes 0x10 and the carry that was set before
   *  DAA is cleared. */
  lemma DecimalAdjustClearsCarry(f: Flags)
    requires f.cy && !f.ac
    ensures DecimalAdjust(0x0A, f).0 == 0x10 && !DecimalAdjust(0x0A, f).1.cy
  {
    DecimalAdjustResult(0x0A, f);
    assert DaaLow(0x0A, false) == 0x10 && !DaaLowCarry(0x0A, true, false);
  }

  /** 19 + 19 = 38 in packed decimal: ADD leaves 0x32 with AC clear, because
   *  bit 4 is set in both 0x19 and 0x32 although bit 3 carried.  DAA then
   *  adjusts nothing and A stays 0x32. */
  lemma DecimalSumMissesAuxCarry(f: Flags)
    ensures AluAdd(f, 0x19, 0x19).0 == 0x32 && !AluAdd(f, 0x19, 0x19).1.ac
    ensures !AluAdd(f, 0x19, 0x19).1.cy
    ensures DecimalAdjust(0x32, AluAdd(f, 0x19, 0x19).1).0 == 0x32
  {
    AddModulo(f, 0x19, 0x19);
  }

  /** DAA after the binary sum 0x9A with C and AC clear yields 0x00 with the
   *  carry set: the decimal sum 100. */
  lemma DecimalAdjustExample(f: Flags)
    requires !f.cy && !f.ac
    ensures DecimalAdjust(0x9A, f).0 == 0x00 && DecimalAdjust(0x9A, f).1.cy
  {
    assert DaaLow(0x9A, false) == 0xA0 && !DaaLowCarry(0x9A, false, false);
    assert DaaValue(0x9A, false, false) == 0x00 && DaaCarry(0x9A, false, false);
    DecimalAdjustResult(0x9A, f);
  }
}
