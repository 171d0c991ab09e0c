/** The pure parts of the table-driven 8080 core in references/reference.c:
 *  the address mirror of R8 and W8, the cycle and parity tables, the lazy
 *  flags and the arithmetic macros, and the shift-register ports.  The CPU
 *  state and the instructions that change it are in RefSpec and Reference. */
module RefDefs {
  import opened Bytes
  import opened Bcd
  import Isa

  const MEM_SIZE := 0x4000
  const ROM_SIZE := 0x2000

  /** `mem`: the 0x4000 bytes of ROM and RAM. */
  type Memory = m: seq<byte> | |m| == MEM_SIZE witness seq(MEM_SIZE, _ => 0)

  /** shift_offset: only OUT 2 writes it, always masked with 7. */
  type Offset = x: int | 0 <= x < 8

  // ---------------------------------------------------------------- memory

  /** The index that R8 and W8 use for address `a`: addresses above 0x1FFF
   *  are folded onto the RAM half by `(a & 0x1FFF) | 0x2000`.  `a` may be
   *  0x10000, because the macros are applied to `SP + 1` and `R16(PC) + 1`
   *  computed in `int`. */
  function R8Loc(a: int): (i: nat)
    requires 0 <= a <= 0x10000
    ensures i < MEM_SIZE
    ensures a <= 0x1FFF ==> i == a
    ensures a > 0x1FFF ==> ROM_SIZE <= i
  {
    if a > 0x1FFF then a % 0x2000 + 0x2000 else a
  }

  /** An address above the ROM lands on the RAM byte that agrees with it
   *  modulo the RAM size. */
  lemma R8LocMirrors(a: int)
    requires 0x1FFF < a <= 0x10000
    ensures ROM_SIZE <= R8Loc(a) < MEM_SIZE && R8Loc(a) % ROM_SIZE == a % ROM_SIZE
  {
  }

  /** The byte after an address is a different byte, including across the
   *  fold at the top of the mirror. */
  lemma NextLocDiffers(a: int)
    requires 0 <= a < 0x10000
    ensures R8Loc(a + 1) != R8Loc(a)
  {
    if a > 0x1FFF && a % ROM_SIZE == ROM_SIZE - 1 {
      assert (a + 1) % ROM_SIZE == 0;
    }
  }

  // ---------------------------------------------------------------- tables

  /** lut_cycles: the cost of each opcode, kept as the sixteen lines of
   *  sixteen entries that the table is laid out in; entry `op` is entry
   *  `op % 16` of line `op / 16`.  The twelve undocumented encodings cost
   *  nothing; conditional calls and returns list their not-taken cost. */
  const LUT_ROW_0: seq<byte> := [4, 10, 7, 5, 5, 5, 7, 4, 0, 10, 7, 5, 5, 5, 7, 4]
  const LUT_ROW_1: seq<byte> := [0, 10, 7, 5, 5, 5, 7, 4, 0, 10, 7, 5, 5, 5, 7, 4]
  const LUT_ROW_2: seq<byte> := [0, 10, 16, 5, 5, 5, 7, 4, 0, 10, 16, 5, 5, 5, 7, 4]
  const LUT_ROW_3: seq<byte> := [0, 10, 13, 5, 10, 10, 10, 4, 0, 10, 13, 5, 5, 5, 7, 4]
  const LUT_ROW_4: seq<byte> := [5, 5, 5, 5, 5, 5, 7, 5, 5, 5, 5, 5, 5, 5, 7, 5]
  const LUT_ROW_5: seq<byte> := [5, 5, 5, 5, 5, 5, 7, 5, 5, 5, 5, 5, 5, 5, 7, 5]
  const LUT_ROW_6: seq<byte> := [5, 5, 5, 5, 5, 5, 7, 5, 5, 5, 5, 5, 5, 5, 7, 5]
  const LUT_ROW_7: seq<byte> := [7, 7, 7, 7, 7, 7, 7, 7, 5, 5, 5, 5, 5, 5, 7, 5]
  const LUT_ROW_8: seq<byte> := [4, 4, 4, 4, 4, 4, 7, 4, 4, 4, 4, 4, 4, 4, 7, 4]
  const LUT_ROW_9: seq<byte> := [4, 4, 4, 4, 4, 4, 7, 4, 4, 4, 4, 4, 4, 4, 7, 4]
  const LUT_ROW_A: seq<byte> := [4, 4, 4, 4, 4, 4, 7, 4, 4, 4, 4, 4, 4, 4, 7, 4]
  const LUT_ROW_B: seq<byte> := [4, 4, 4, 4, 4, 4, 7, 4, 4, 4, 4, 4, 4, 4, 7, 4]
  const LUT_ROW_C: seq<byte> := [5, 10, 10, 10, 11, 11, 7, 11, 5, 10, 10, 0, 11, 17, 7, 11]
  const LUT_ROW_D: seq<byte> := [5, 10, 10, 10, 11, 11, 7, 11, 5, 0, 10, 10, 11, 0, 7, 11]
  const LUT_ROW_E: seq<byte> := [5, 10, 10, 18, 11, 11, 7, 11, 5, 5, 10, 4, 11, 0, 7, 11]
  const LUT_ROW_F: seq<byte> := [5, 10, 10, 4, 11, 11, 7, 11, 5, 5, 10, 4, 11, 0, 7, 11]

  /** `lut_cycles[opcode]` */
  function LutCycles(op: byte): byte
  {
    var c := op % 16;
    match op / 16
    case 0 => LUT_ROW_0[c]
    case 1 => LUT_ROW_1[c]
    case 2 => LUT_ROW_2[c]
    case 3 => LUT_ROW_3[c]
    case 4 => LUT_ROW_4[c]
    case 5 => LUT_ROW_5[c]
    case 6 => LUT_ROW_6[c]
    case 7 => LUT_ROW_7[c]
    case 8 => LUT_ROW_8[c]
    case 9 => LUT_ROW_9[c]
    case 10 => LUT_ROW_A[c]
    case 11 => LUT_ROW_B[c]
    case 12 => LUT_ROW_C[c]
    case 13 => LUT_ROW_D[c]
    case 14 => LUT_ROW_E[c]
    case 15 => LUT_ROW_F[c]
  }

  /** Only the undocumented encodings cost nothing. */
  lemma ZeroCostIsAlternate(op: byte)
    ensures LutCycles(op) == 0 ==> op in Isa.ALTERNATES
  {
    if op < 0x80 {
      ZeroCostLow(op);
    } else {
      ZeroCostHigh(op);
    }
  }

  lemma ZeroCostLow(op: byte)
    requires op < 0x80
    ensures LutCycles(op) == 0 ==> op in Isa.ALTERNATES
  {
  }

  lemma ZeroCostHigh(op: byte)
    requires op >= 0x80
    ensures LutCycles(op) == 0 ==> op in Isa.ALTERNATES
  {
  }

  /** ... and each of them does cost nothing. */
  lemma AlternatesCostNothing(op: byte)
    ensures op in Isa.ALTERNATES ==> LutCycles(op) == 0
  {
  }

  /** The entry that the start-up loop stores in lut_parity[i]: bit 2 of
   *  the exclusive-or of `4` and `i` shifted so that each of its eight bits
   *  lands on bit 2.  Only bit 2 survives the mask, so the shifts are taken
   *  on eight bits. */
  function LutParity(i: byte): byte
  {
    var b := i as bv8;
    (4 & (4 ^ (b << 2) ^ (b << 1) ^ b ^ (b >> 1) ^ (b >> 2) ^ (b >> 3) ^ (b >> 4) ^ (b >> 5))) as int
  }

  function One(c: bool): int { if c then 1 else 0 }

  /** A sum of eight bits is odd iff their exclusive-or is set. */
  lemma OddSum(c0: bool, c1: bool, c2: bool, c3: bool, c4: bool, c5: bool, c6: bool, c7: bool)
    ensures (One(c0) + One(c1) + One(c2) + One(c3) + One(c4) + One(c5) + One(c6) + One(c7)) % 2 == 1 <==>
      ((((((c0 != c1) != c2) != c3) != c4) != c5) != c6) != c7
  {
  }

  /** lut_parity[i] is 4 ("even") exactly when `i` has an even number of
   *  set bits, and 0 otherwise. */
  lemma LutParityEven(i: byte)
    ensures LutParity(i) == if EvenParity(i) then 4 else 0
  {
    var b := i as bv8;
    var c0, c1, c2, c3 := b & 0x01 != 0, b & 0x02 != 0, b & 0x04 != 0, b & 0x08 != 0;
    var c4, c5, c6, c7 := b & 0x10 != 0, b & 0x20 != 0, b & 0x40 != 0, b & 0x80 != 0;
    assert SetBits(b) == One(c0) + One(c1) + One(c2) + One(c3) + One(c4) + One(c5) + One(c6) + One(c7);
    OddSum(c0, c1, c2, c3, c4, c5, c6, c7);
    var x := 4 & (4 ^ (b << 2) ^ (b << 1) ^ b ^ (b >> 1) ^ (b >> 2) ^ (b >> 3) ^ (b >> 4) ^ (b >> 5));
    assert x == 0 || x == 4;
    assert (x == 0) == (((((((c0 != c1) != c2) != c3) != c4) != c5) != c6) != c7);
    assert LutParity(i) == x as int;
  }

  // ------------------------------------------------------------ lazy flags

  /** The flags live in RES (`cpu.result`): bit 8 is the carry and bits 0-7
   *  the byte that S, Z and P are read from.  The auxiliary carry is kept
   *  apart, in `cpu.a`. */
  predicate Carry(res: word) { (res / 0x100) % 2 == 1 }
  predicate Zero(res: word) { res % 0x100 == 0 }
  predicate Minus(res: word) { (res % 0x100) / 0x80 == 1 }
  predicate ParityEven(res: word) { LutParity(res % 0x100) != 0 }

  /** ISNOTZERO, ISZERO, ISNOTCARRY, ISCARRY, ISPODD, ISPEVEN, ISPLUS and
   *  ISMIN, in the order of the condition field of the opcodes. */
  function Holds(res: word, cc: int): (b: bool)
    requires 0 <= cc < 8
    ensures cc % 2 == 1 ==> b == !Holds(res, cc - 1)
  {
    match cc
    case 0 => !Zero(res)
    case 1 => Zero(res)
    case 2 => !Carry(res)
    case 3 => Carry(res)
    case 4 => !ParityEven(res)
    case 5 => ParityEven(res)
    case 6 => !Minus(res)
    case 7 => Minus(res)
  }

  /** RES with bit 8 replaced by `c`: the rotates and DAD keep the low byte
   *  and set the carry, dropping whatever else RES held. */
  function WithCarry(res: word, c: bool): (r: word)
    ensures Carry(r) == c && r % 0x100 == res % 0x100
  {
    res % 0x100 + (if c then 0x100 else 0)
  }

  // ---------------------------------------------------------- accumulator

  /** The accumulator together with the lazy flag state. */
  datatype Acc = Acc(a: byte, res: word, aux: bool)

  function CarryIn(res: word): int { if Carry(res) then 1 else 0 }

  /** FAUX, evaluated after RES is set and before A is: the aux flag is set
   *  when the low nibble of A exceeds the low nibble of the result. */
  predicate Faux(a: byte, res: word) { a % 0x10 > res % 0x10 }

  /** ADD(v): A + v, a carry out of bit 7 into bit 8 of RES, and the aux
   *  flag exactly the carry out of bit 3. */
  function Add(x: Acc, v: byte): (r: Acc)
    ensures r.a == (x.a + v) % 0x100 && r.res % 0x100 == r.a
    ensures Carry(r.res) <==> x.a + v > 0xFF
    ensures r.aux <==> x.a % 0x10 + v % 0x10 >= 0x10
  {
    var res := x.a + v;
    Acc(res % 0x100, res, Faux(x.a, res))
  }

  /** ADC(v): as ADD with the carry added in.  The aux flag is FAUX again,
   *  which compares the low nibbles of A and of the result; that is the
   *  carry out of bit 3 except when the low nibble of `v` is 0xF and the
   *  carry is added in, where the result nibble equals A's and FAUX reads
   *  no carry. */
  function Adc(x: Acc, v: byte): (r: Acc)
    ensures r.a == (x.a + v + CarryIn(x.res)) % 0x100 && r.res % 0x100 == r.a
    ensures Carry(r.res) <==> x.a + v + CarryIn(x.res) > 0xFF
    ensures r.aux <==> x.a % 0x10 + v % 0x10 + CarryIn(x.res) >= 0x10 &&
                       v % 0x10 + CarryIn(x.res) < 0x10
  {
    var res := CarryIn(x.res) + x.a + v;
    FauxOfSum(x.a, v, CarryIn(x.res));
    Acc(res % 0x100, res, Faux(x.a, res))
  }

  /** FAUX after `c + a + v`: set exactly when the low nibbles and the
   *  carry in carry out of bit 3 and the low nibble of `v` with the carry
   *  in stays below 0x10. */
  lemma FauxOfSum(a: byte, v: byte, c: int)
    requires 0 <= c <= 1
    ensures Faux(a, c + a + v) <==> a % 0x10 + v % 0x10 + c >= 0x10 && v % 0x10 + c < 0x10
  {
    var q, r := a / 0x10 + v / 0x10, a % 0x10 + v % 0x10 + c;
    assert c + a + v == 0x10 * q + r;
    if r < 0x10 {
      Nibbles(q, r);
    } else {
      Nibbles(q + 1, r - 0x10);
    }
  }

  /** ADC 0x0F on A = 0 with the carry set: the low nibbles and the carry
   *  sum to 0x10, yet the aux flag is clear. */
  lemma AdcAuxMissesCarry()
    ensures Adc(Acc(0x00, 0x100, false), 0x0F).a == 0x10
    ensures !Adc(Acc(0x00, 0x100, false), 0x0F).aux
  {
  }

  /** A difference of two bytes (less a carry) stored in the 16 bits of
   *  RES: bit 8 is set exactly when the difference is negative, and the low
   *  byte is the difference modulo 0x100. */
  lemma Borrow(d: int)
    requires -0x100 <= d < 0x100
    ensures Carry(d % 0x10000) <==> d < 0
    ensures (d % 0x10000) % 0x100 == d % 0x100 && (d % 0x10000) % 0x10 == d % 0x10
  {
    if d < 0 {
      assert d % 0x10000 == d + 0x10000;
    }
  }

  /** CMP(v): A - v kept in the 16 bits of RES, so that a borrow sets bit 8;
   *  A is left alone. */
  function Cmp(x: Acc, v: byte): (r: Acc)
    ensures r.a == x.a
    ensures Carry(r.res) <==> x.a < v
    ensures Zero(r.res) <==> x.a == v
    ensures r.res % 0x100 == (x.a - v) % 0x100
  {
    var res := (x.a - v) % 0x10000;
    Borrow(x.a - v);
    Acc(x.a, res, Faux(x.a, res))
  }

  /** The aux flag of CMP (and SUB) reports a nonzero low nibble of v that
   *  did not borrow from bit 4. */
  lemma CmpAux(x: Acc, v: byte)
    ensures Cmp(x, v).aux <==> v % 0x10 != 0 && x.a % 0x10 >= v % 0x10
  {
    var d, la, lv := x.a - v, x.a % 0x10, v % 0x10;
    var k := x.a / 0x10 - v / 0x10;
    Borrow(d);
    assert d == 0x10 * k + (la - lv);
    if la >= lv {
      assert d % 0x10 == la - lv;
    } else {
      assert d % 0x10 == la - lv + 0x10;
    }
  }

  /** SUB(v): CMP(v) and then A takes the low byte of the difference. */
  function Sub(x: Acc, v: byte): (r: Acc)
    ensures r.a == (x.a - v) % 0x100 && r.res % 0x100 == r.a
    ensures Carry(r.res) <==> x.a < v
  {
    var c := Cmp(x, v);
    c.(a := c.res % 0x100)
  }

  /** SBB(v): A - v - carry. */
  function Sbb(x: Acc, v: byte): (r: Acc)
    ensures r.a == (x.a - v - CarryIn(x.res)) % 0x100 && r.res % 0x100 == r.a
    ensures Carry(r.res) <==> x.a < v + CarryIn(x.res)
  {
    var res := ((x.a - v) - CarryIn(x.res)) % 0x10000;
    Borrow((x.a - v) - CarryIn(x.res));
    Acc(res % 0x100, res, Faux(x.a, res))
  }

  /** ANA, XRA and ORA store the result in both A and RES, which clears the
   *  carry; the aux flag is not touched. */
  function Ana(x: Acc, v: byte): (r: Acc)
    ensures r.a == And8(x.a, v) && r.res == r.a && !Carry(r.res) && r.aux == x.aux
  {
    var res := And8(x.a, v);
    Acc(res, res, x.aux)
  }

  function Xra(x: Acc, v: byte): (r: Acc)
    ensures r.a == Xor8(x.a, v) && r.res == r.a && !Carry(r.res) && r.aux == x.aux
  {
    var res := Xor8(x.a, v);
    Acc(res, res, x.aux)
  }

  function Ora(x: Acc, v: byte): (r: Acc)
    ensures r.a == Or8(x.a, v) && r.res == r.a && !Carry(r.res) && r.aux == x.aux
  {
    var res := Or8(x.a, v);
    Acc(res, res, x.aux)
  }

  /** FSZP(v): RES keeps only its carry bit and takes `v` as its low byte. */
  function Fszp(res: word, v: byte): (r: word)
    ensures Carry(r) == Carry(res) && r % 0x100 == v
  {
    (res / 0x100) % 2 * 0x100 + v
  }

  /** DAD: HL + rp in 16 bits; bit 16 of the sum becomes bit 8 of RES
   *  (`(r + HL) >> 8 & 0x100`) and the low byte of RES is kept. */
  function Dad(hl: word, rp: word, res: word): (r: (word, word))
    ensures r.0 == (hl + rp) % 0x10000
    ensures Carry(r.1) <==> hl + rp > 0xFFFF
    ensures r.1 % 0x100 == res % 0x100
  {
    var sum := rp + hl;
    (sum % 0x10000, res % 0x100 + ((sum / 0x100) / 0x100) % 2 * 0x100)
  }

  // --------------------------------------------------------------- rotates

  /** RLC: bit 7 goes to the carry and A shifts left, taking a 0 into bit 0
   *  (`A <<= 1`; the rotated bit is not copied back). */
  function Rlc(x: Acc): (r: Acc)
    ensures Carry(r.res) <==> x.a >= 0x80
    ensures r.a == (2 * x.a) % 0x100 && r.a % 2 == 0
    ensures r.res % 0x100 == x.res % 0x100 && r.aux == x.aux
  {
    x.(res := WithCarry(x.res, (2 * x.a) / 0x100 == 1), a := (2 * x.a) % 0x100)
  }

  /** RRC: bit 0 goes to the carry and A shifts right, taking a 0 into bit 7. */
  function Rrc(x: Acc): (r: Acc)
    ensures Carry(r.res) <==> x.a % 2 == 1
    ensures r.a == x.a / 2 && r.a < 0x80
    ensures r.res % 0x100 == x.res % 0x100 && r.aux == x.aux
  {
    x.(res := WithCarry(x.res, x.a % 2 == 1), a := x.a / 2)
  }

  /** RAL: a nine-bit rotation through the carry, to the left. */
  function Ral(x: Acc): (r: Acc)
    ensures Carry(r.res) <==> x.a >= 0x80
    ensures r.a == (2 * x.a) % 0x100 + CarryIn(x.res)
  {
    var c := x.a >= 0x80;
    x.(a := (2 * x.a) % 0x100 + CarryIn(x.res), res := WithCarry(x.res, c))
  }

  /** RAR: a nine-bit rotation through the carry, to the right; bit 8 of RES
   *  shifted down by one lands on bit 7 of A. */
  function Rar(x: Acc): (r: Acc)
    ensures Carry(r.res) <==> x.a % 2 == 1
    ensures r.a == x.a / 2 + 0x80 * CarryIn(x.res)
  {
    var c := x.a % 2 == 1;
    x.(a := x.a / 2 + ((x.res / 2) / 0x80) % 2 * 0x80, res := WithCarry(x.res, c))
  }

  /** RAR undoes RAL: A, the carry, the low byte of RES and the aux flag are
   *  back (bits 9-15 of RES are dropped by both). */
  lemma RarUndoesRal(x: Acc)
    ensures Rar(Ral(x)).a == x.a
    ensures Carry(Rar(Ral(x)).res) == Carry(x.res)
    ensures Rar(Ral(x)).res % 0x100 == x.res % 0x100 && Rar(Ral(x)).aux == x.aux
  {
  }

  /** STC: `RES |= 0x100`. */
  function Stc(res: word): (r: word)
    ensures Carry(r) && r % 0x100 == res % 0x100
  {
    if Carry(res) then res else res + 0x100
  }

  /** CMC: `RES ^= 0x100`. */
  function Cmc(res: word): (r: word)
    ensures Carry(r) == !Carry(res) && r % 0x100 == res % 0x100
  {
    if Carry(res) then res - 0x100 else res + 0x100
  }

  lemma CmcTwice(res: word)
    ensures Cmc(Cmc(res)) == res
  {
  }

  /** CMA: `A = ~A` truncated to a byte; the same operation as
   *  Emu8080eAlu.Complement, written again because this core keeps A as a
   *  plain byte beside the lazy flags. */
  function Cma(a: byte): (r: byte)
    ensures r + a == 0xFF
  {
    0xFF - a
  }

  /** DAA: +6 when the aux flag is set or the low nibble exceeds 9, then
   *  +0x60 when that left a carry (or, without the first addition, when
   *  the carry was already set) or the high nibble exceeds 9.  A is the
   *  two-step adjustment of Bcd.  The carry that survives is that of the
   *  second addition if it carried, else the old one, so a carry set before
   *  DAA is never cleared; the aux flag is that of the first addition if it
   *  was set, else the old one.  When neither addition runs, the low byte
   *  of RES, and with it Z, S and P, is left as the previous instruction
   *  set it. */
  function Daa(x: Acc): Acc
  {
    var c, aux := x.res, x.aux;
    var y := DaaFirst(x);
    var aux1 := if y.aux then y.aux else aux;
    var z := DaaSecond(y);
    var c1 := if Carry(z.res) then z.res else c;
    Acc(z.a, z.res % 0x100 + (if Carry(c1) then 0x100 else 0), aux1)
  }

  /** What DAA leaves: A is the two-step adjustment of Bcd; the carry is
   *  set when it was set before or the second addition carries; aux is set
   *  when it was set before or the low nibble exceeds 9; the low byte of
   *  RES is A when an addition ran and is kept otherwise. */
  lemma DaaResult(x: Acc)
    ensures Daa(x).a == DaaValue(x.a, Carry(x.res), x.aux)
    ensures Carry(Daa(x).res) <==> Carry(x.res) || DaaCarry(x.a, Carry(x.res), x.aux)
    ensures Daa(x).aux <==> x.aux || x.a % 0x10 > 9
    ensures LowStep(x.a, x.aux) || HighStep(x.a, Carry(x.res), x.aux) ==> Daa(x).res % 0x100 == Daa(x).a
    ensures !LowStep(x.a, x.aux) && !HighStep(x.a, Carry(x.res), x.aux) ==> Daa(x).res % 0x100 == x.res % 0x100
  {
    DaaFirstStep(x);
    DaaSecondStep(DaaFirst(x));
  }

  /** The first addition of DAA. */
  function DaaFirst(x: Acc): Acc
  {
    if x.aux || x.a % 0x10 > 9 then Add(x, 6) else x
  }

  /** The first addition is the first step of Bcd; its aux flag is the
   *  carry out of bit 3 of `A + 6`, so it is set exactly when the low
   *  nibble exceeds 9. */
  lemma DaaFirstStep(x: Acc)
    ensures DaaFirst(x).a == DaaLow(x.a, x.aux)
    ensures Carry(DaaFirst(x).res) == DaaLowCarry(x.a, Carry(x.res), x.aux)
    ensures DaaFirst(x).aux <==> x.a % 0x10 > 9
    ensures LowStep(x.a, x.aux) ==> DaaFirst(x).res % 0x100 == DaaFirst(x).a
    ensures !LowStep(x.a, x.aux) ==> DaaFirst(x) == x
  {
  }

  /** The second addition of DAA. */
  function DaaSecond(y: Acc): Acc
  {
    if Carry(y.res) || y.a - y.a % 0x10 > 0x90 then Add(y, 0x60) else y
  }

  /** The second addition is the second step of Bcd. */
  lemma DaaSecondStep(y: Acc)
    ensures DaaSecond(y).a == DaaHigh(y.a, Carry(y.res))
    ensures Carry(DaaSecond(y).res) == DaaHighCarry(y.a, Carry(y.res))
    ensures HighStepOn(y.a, Carry(y.res)) ==> DaaSecond(y).res % 0x100 == DaaSecond(y).a
    ensures !HighStepOn(y.a, Carry(y.res)) ==> DaaSecond(y) == y
  {
    assert y.a - y.a % 0x10 > 0x90 <==> y.a / 0x10 > 9;
  }

  /** ADD then DAA on two packed decimal bytes whose binary sum fits in a
   *  byte: A holds the decimal sum modulo 100, and the carry is set exactly
   *  when that sum reaches 100, unless the first step of DAA carried out of
   *  bit 7 itself. */
  lemma AddThenDaa(x: Acc, v: byte)
    requires IsBcd(x.a) && IsBcd(v) && x.a + v <= 0xFF
    ensures Daa(Add(x, v)).a == ToBcd((BcdValue(x.a) + BcdValue(v)) % 100)
    ensures Carry(Daa(Add(x, v)).res) <==>
      BcdValue(x.a) + BcdValue(v) >= 100 && !DaaLowCarry(x.a + v, false, Add(x, v).aux)
  {
    DaaAfterBcdSum(Add(x, v), x.a, v);
  }

  /** DAA on the state an addition of the packed decimal bytes `d` and `v`
   *  leaves when it does not carry out of bit 7. */
  lemma DaaAfterBcdSum(y: Acc, d: byte, v: byte)
    requires IsBcd(d) && IsBcd(v) && d + v <= 0xFF
    requires y.a == d + v && !Carry(y.res) && (y.aux <==> d % 0x10 + v % 0x10 >= 0x10)
    ensures Daa(y).a == ToBcd((BcdValue(d) + BcdValue(v)) % 100)
    ensures Carry(Daa(y).res) <==> BcdValue(d) + BcdValue(v) >= 100 && !DaaLowCarry(d + v, false, y.aux)
  {
    DaaResult(y);
    DecimalSum(d, v);
  }

  /** 0x9A with no carries adjusts to 0x00 with the carry set. */
  lemma DaaExample()
    ensures Daa(Acc(0x9A, 0, false)).a == 0 && Carry(Daa(Acc(0x9A, 0, false)).res)
  {
  }

  // -------------------------------------------------------------- flag byte

  /** The flag byte that PUSH PSW builds from the lazy flags:
   *  `(RES >> 8 & 1) | 2 | lut_parity[RES & 0xFF] | (cpu.a << 4) |
   *  (((RES & 0xFF) == 0) << 6) | (RES & 0x80)`; the parts occupy distinct
   *  bits, so `|` is `+`. */
  function FlagsByte(res: word, aux: bool): byte
  {
    CarryIn(res) + 2 + LutParity(res % 0x100) + (if aux then 0x10 else 0) +
    (if Zero(res) then 0x40 else 0) + (res % 0x100) / 0x80 * 0x80
  }

  /** Each flag of RES lands on its own bit of the byte PUSH PSW builds. */
  lemma FlagsByteBits(res: word, aux: bool)
    ensures var f := FlagsByte(res, aux);
      f % 2 == CarryIn(res) &&
      (f / 0x02) % 2 == 1 && (f / 0x08) % 2 == 0 && (f / 0x20) % 2 == 0 &&
      ((f / 0x04) % 2 == 1 <==> ParityEven(res)) &&
      ((f / 0x10) % 2 == 1 <==> aux) &&
      ((f / 0x40) % 2 == 1 <==> Zero(res)) &&
      (f / 0x80 == 1 <==> Minus(res))
  {
    var p := LutParity(res % 0x100);
    assert p == 0 || p == 4 by { LutParityEven(res % 0x100); }
    FlagBits(CarryIn(res), p / 4, One(aux), One(Zero(res)), (res % 0x100) / 0x80);
  }

  /** Reading back the bits of a flag byte assembled from C, P, AC, Z and S
   *  with bit 1 set. */
  lemma FlagBits(c: int, p: int, x: int, z: int, s: int)
    requires 0 <= c < 2 && 0 <= p < 2 && 0 <= x < 2 && 0 <= z < 2 && 0 <= s < 2
    ensures var f := c + 2 + 4 * p + 0x10 * x + 0x40 * z + 0x80 * s;
      f % 2 == c && (f / 0x02) % 2 == 1 && (f / 0x04) % 2 == p && (f / 0x08) % 2 == 0 &&
      (f / 0x10) % 2 == x && (f / 0x20) % 2 == 0 && (f / 0x40) % 2 == z && f / 0x80 == s
  {
    var f := c + 2 + 4 * p + 0x10 * x + 0x40 * z + 0x80 * s;
    assert f / 0x02 == 1 + 2 * p + 8 * x + 0x20 * z + 0x40 * s;
    assert f / 0x04 == p + 4 * x + 0x10 * z + 0x20 * s;
    assert f / 0x10 == x + 4 * z + 8 * s;
    assert f / 0x40 == z + 2 * s;
  }

  /** What POP PSW makes of a popped flag byte `f`: the carry goes to bit 8
   *  of RES, S to bit 7, and the low bits of RES are chosen so that Z and P
   *  read back as `f` has them: 6 unless Z is set, and bit 0 when the
   *  parity of the S bit alone differs from the P bit of `f`
   *  (`lut_parity[F & 0x80] != (F & 4)`).  The aux flag is bit 4. */
  function PopFlags(f: byte): (r: (word, bool))
  {
    var s := (f / 0x80) * 0x80;
    var p := ((f / 0x04) % 2) * 4;
    var res := (f % 2) * 0x100 + (if LutParity(s) != p then 1 else 0) + s +
      (if (f / 0x40) % 2 == 1 then 0 else 6);
    (res, (f / 0x10) % 2 == 1)
  }

  /** A flag byte in which Z is set only together with an even parity and
   *  a clear sign, which every result byte of the 8080 satisfies. */
  predicate Consistent(f: byte)
  {
    (f / 0x40) % 2 == 1 ==> (f / 0x80 == 0 && (f / 0x04) % 2 == 1)
  }

  /** The lazy flags that POP PSW leaves behind read back as the popped
   *  flag byte has them, when the byte is consistent. */
  lemma PopFlagsReads(f: byte)
    requires Consistent(f)
    ensures var (res, aux) := PopFlags(f);
      CarryIn(res) == f % 2 && (ParityEven(res) <==> (f / 0x04) % 2 == 1) &&
      (aux <==> (f / 0x10) % 2 == 1) && (Zero(res) <==> (f / 0x40) % 2 == 1) &&
      (Minus(res) <==> f / 0x80 == 1)
  {
    var (res, aux) := PopFlags(f);
    var c, p, x, z, sg := f % 2, (f / 0x04) % 2, (f / 0x10) % 2, (f / 0x40) % 2, f / 0x80;
    var bit0 := if LutParity(sg * 0x80) != p * 4 then 1 else 0;
    var low := bit0 + sg * 0x80 + (if z == 1 then 0 else 6);
    assert res == c * 0x100 + low && low < 0x100;
    assert res / 0x100 == c && res % 0x100 == low;
    assert LutParity(0) == 4 && LutParity(0x80) == 0;
    if z == 0 {
      assert !Zero(res);
      assert ParityEven(res) <==> p == 1 by {
        LutParityEven(low);
        ParityOfLowBits(sg * 0x80, bit0);
      }
    }
  }

  /** POP PSW followed by PUSH PSW gives back S, Z, AC, P and C of a
   *  consistent flag byte, with bit 1 set and bits 3 and 5 cleared. */
  lemma PswRoundTrip(f: byte)
    requires Consistent(f)
    ensures var g := FlagsByte(PopFlags(f).0, PopFlags(f).1);
      g % 2 == f % 2 && (g / 0x04) % 2 == (f / 0x04) % 2 && (g / 0x10) % 2 == (f / 0x10) % 2 &&
      (g / 0x40) % 2 == (f / 0x40) % 2 && g / 0x80 == f / 0x80 &&
      (g / 0x02) % 2 == 1 && (g / 0x08) % 2 == 0 && (g / 0x20) % 2 == 0
  {
    PopFlagsReads(f);
    FlagsByteBits(PopFlags(f).0, PopFlags(f).1);
  }

  /** PUSH PSW followed by POP PSW keeps every flag: the byte PUSH PSW
   *  builds is always consistent, and the RES that POP PSW rebuilds from it
   *  reads the same carry, zero, sign and parity, with the same aux flag. */
  lemma FlagsRoundTrip(res: word, aux: bool)
    ensures var (r, x) := PopFlags(FlagsByte(res, aux));
      Carry(r) == Carry(res) && Zero(r) == Zero(res) && Minus(r) == Minus(res) &&
      ParityEven(r) == ParityEven(res) && x == aux
  {
    var f := FlagsByte(res, aux);
    FlagsByteBits(res, aux);
    if Zero(res) {
      assert res % 0x100 == 0 && LutParity(0) == 4;
    }
    assert Consistent(f);
    PopFlagsReads(f);
  }

  /** The parity of `s + 6 + bit0`, where `s` is 0 or 0x80: bits 1 and 2
   *  cancel, so it is even iff `s` and `bit0` are both set or both clear. */
  lemma ParityOfLowBits(s: int, bit0: int)
    requires s == 0 || s == 0x80
    requires bit0 == 0 || bit0 == 1
    ensures EvenParity(s + 6 + bit0) <==> (s == 0x80) == (bit0 == 1)
  {
  }

  // ----------------------------------------------------------------- ports

  /** The switch settings read on port 2 (`DIPS`, 0 in this build). */
  const DIPS: byte := 0

  /** in_port: port 1 is the key byte without bit 7; port 2 the switches
   *  with key bits 4-6 and key bit 7 moved to bit 2
   *  (`dips | (key & 0x70) | (key >> 5 & 4)`); port 3 the shift register
   *  moved up by the offset, bits 8-15 (`(shift_reg << shift_offset) >> 8`
   *  truncated to a byte); any other port reads as its own number. */
  function InPort(port: byte, key: byte, shiftReg: word, offset: Offset): (r: byte)
    ensures port == 1 ==> r == key % 0x80
    ensures port == 2 ==> r == SwitchPort(key)
    ensures port == 3 ==> r == ShiftIn(shiftReg, offset)
    ensures port !in {1, 2, 3} ==> r == port
  {
    match port
    case 1 => key % 0x80
    case 2 => SwitchPort(key)
    case 3 => ShiftIn(shiftReg, offset)
    case _ => port
  }

  /** IN 2: `dips | (key & 0x70) | (key >> 5 & 4)`, the parts on distinct
   *  bits: key bits 4-6 stay in place and key bit 7 moves to bit 2. */
  function SwitchPort(key: byte): (r: byte)
    ensures r % 4 == 0 && (r / 0x08) % 2 == 0 && r < 0x80
    ensures (r / 0x10) % 8 == (key / 0x10) % 8 && (r / 0x04) % 2 == key / 0x80
  {
    var hi, b7 := (key / 0x10) % 8, key / 0x80;
    SwitchBits(hi, b7);
    DIPS + hi * 0x10 + b7 * 4
  }

  lemma SwitchBits(hi: int, b7: int)
    requires 0 <= hi < 8 && 0 <= b7 < 2
    ensures var r := hi * 0x10 + b7 * 4;
      r % 4 == 0 && (r / 0x08) % 2 == 0 && r < 0x80 && (r / 0x10) % 8 == hi && (r / 0x04) % 2 == b7
  {
    var r := hi * 0x10 + b7 * 4;
    assert r / 4 == 4 * hi + b7;
    assert r / 8 == 2 * hi;
    assert r / 0x10 == hi;
  }

  /** IN 3: `(shift_reg << shift_offset) >> 8`, truncated to a byte. */
  function ShiftIn(shiftReg: word, offset: Offset): byte
  {
    ((shiftReg * Pow2(offset)) / 0x100) % 0x100
  }

  /** OUT 4: `shift_reg >> 8 | (v << 8)`; the new byte becomes the high
   *  byte and the old high byte the low byte.  Emu8080eDefs.ShiftPush is
   *  the same register update in 8080e.c; Agreement relates the two. */
  function ShiftOut(shiftReg: word, v: byte): (r: word)
    ensures Hi(r) == v && Lo(r) == Hi(shiftReg)
  {
    shiftReg / 0x100 + v * 0x100
  }

  /** out_port on the shift hardware: OUT 2 sets the offset to the low three
   *  bits of `v`, OUT 4 shifts `v` in; the sound ports 3 and 5, port 6 and
   *  every other port change nothing. */
  function OutPort(port: byte, v: byte, shiftReg: word, offset: Offset): (r: (word, Offset))
    ensures port == 2 ==> r == (shiftReg, v % 8)
    ensures port == 4 ==> r.1 == offset && Hi(r.0) == v && Lo(r.0) == Hi(shiftReg)
    ensures port != 2 && port != 4 ==> r == (shiftReg, offset)
  {
    match port
    case 2 => (shiftReg, v % 8)
    case 4 => (ShiftOut(shiftReg, v), offset)
    case _ => (shiftReg, offset)
  }
}
