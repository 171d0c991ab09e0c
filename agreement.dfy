/** Where the two emulators meet: the reference machine of
 *  references/reference.c and the machine of 8080e.c read memory, the
 *  parity table, the shift hardware and DAA the same way, and their cycle
 *  tables differ in fifteen entries, which are listed here. */
module Agreement {
  import opened Bytes
  import Isa
  import RefDefs
  import Emu = Emu8080eDefs
  import Alu = Emu8080eAlu
  import Bcd

  /** R8/W8 and MEM_LOC fold an address onto the same byte of memory. */
  lemma LocationsAgree(a: int)
    requires 0 <= a <= 0x10000
    ensures RefDefs.R8Loc(a) == Emu.MemLoc(a)
  {
  }

  /** lut_parity[i] is non-zero exactly when parity(i) reports an even
   *  number of set bits. */
  lemma ParityAgrees(i: byte)
    ensures (RefDefs.LutParity(i) != 0) == Emu.Parity(i)
  {
    RefDefs.LutParityEven(i);
  }

  /** IN 3 reads the same byte: `(shift_reg << offset) >> 8` in the
   *  reference and `shift_reg >> (8 - offset)` in 8080e. */
  lemma ShiftInAgrees(shiftReg: word, offset: RefDefs.Offset)
    ensures RefDefs.ShiftIn(shiftReg, offset) == Emu.ShiftRead(shiftReg, offset)
  {
    assert Pow2(1) == 2 && Pow2(2) == 4 && Pow2(3) == 8 && Pow2(4) == 16;
    assert Pow2(5) == 32 && Pow2(6) == 64 && Pow2(7) == 128 && Pow2(8) == 256;
    match offset
    case 0 =>
    case 1 =>
    case 2 =>
    case 3 =>
    case 4 =>
    case 5 =>
    case 6 =>
    case 7 =>
  }

  /** OUT 4 shifts the byte in the same way. */
  lemma ShiftOutAgrees(shiftReg: word, v: byte)
    ensures RefDefs.ShiftOut(shiftReg, v) == Emu.ShiftPush(shiftReg, v)
  {
  }

  /** DAA leaves the same accumulator in both, given the same carry and aux
   *  flags.  The carries differ: the reference keeps a carry that was set
   *  before DAA, while 8080e keeps only the carry of its second addition. */
  lemma DaaAgrees(a: byte, res: word, aux: bool, f: Emu.Flags)
    requires RefDefs.Carry(res) == f.cy && aux == f.ac
    ensures RefDefs.Daa(RefDefs.Acc(a, res, aux)).a == Alu.DecimalAdjust(a, f).0
    ensures RefDefs.Carry(RefDefs.Daa(RefDefs.Acc(a, res, aux)).res) <==>
      f.cy || Alu.DecimalAdjust(a, f).1.cy
  {
    RefDefs.DaaResult(RefDefs.Acc(a, res, aux));
    Alu.DecimalAdjustResult(a, f);
  }

  /** With C set and AC clear, DAA of 0x0A gives 0x10 in both, and DAA of
   *  0x20 (0x90 + 0x90 in packed decimal) gives 0x80 in both; the reference
   *  leaves the carry set and 8080e clears it. */
  lemma DaaCarriesDiffer(f: Emu.Flags)
    requires f.cy && !f.ac
    ensures RefDefs.Daa(RefDefs.Acc(0x0A, 0x100, false)).a == Alu.DecimalAdjust(0x0A, f).0 == 0x10
    ensures RefDefs.Carry(RefDefs.Daa(RefDefs.Acc(0x0A, 0x100, false)).res)
    ensures !Alu.DecimalAdjust(0x0A, f).1.cy
    ensures RefDefs.Daa(RefDefs.Acc(0x20, 0x100, false)).a == Alu.DecimalAdjust(0x20, f).0 == 0x80
    ensures RefDefs.Carry(RefDefs.Daa(RefDefs.Acc(0x20, 0x100, false)).res)
    ensures !Alu.DecimalAdjust(0x20, f).1.cy
  {
    Alu.DecimalAdjustClearsCarry(f);
    Alu.DecimalAdjustResult(0x20, f);
    RefDefs.DaaResult(RefDefs.Acc(0x0A, 0x100, false));
    RefDefs.DaaResult(RefDefs.Acc(0x20, 0x100, false));
    assert Bcd.DaaLow(0x20, false) == 0x20 && Bcd.DaaLowCarry(0x20, true, false);
    assert Bcd.DaaValue(0x20, true, false) == 0x80 && !Bcd.DaaCarry(0x20, true, false);
  }

  /** The cost of a conditional branch when it is not taken, entry by entry
   *  of a line of the 8080e table, where 111 and 117 stand for taken and
   *  not-taken costs 100 and 106 below them. */
  function NotTaken(row: seq<int>): (r: seq<int>)
    ensures |r| == |row|
    ensures forall j | 0 <= j < |row| :: r[j] == (if row[j] > 100 then row[j] - 106 else row[j])
  {
    seq(|row|, j requires 0 <= j < |row| => if row[j] > 100 then row[j] - 106 else row[j])
  }

  /** The first four lines of lut_cycles are those of 8080e except that
   *  the undocumented encodings 0x08, 0x10, ..., 0x38 cost nothing. */
  lemma LowTablesDiffer()
    ensures RefDefs.LUT_ROW_0 == Emu.CYCLES[0][8 := 0]
    ensures RefDefs.LUT_ROW_1 == Emu.CYCLES[1][0 := 0][8 := 0]
    ensures RefDefs.LUT_ROW_2 == Emu.CYCLES[2][0 := 0][8 := 0]
    ensures RefDefs.LUT_ROW_3 == Emu.CYCLES[3][0 := 0][8 := 0]
  {
  }

  /** The next eight lines, the MOVs and the arithmetic and logic on
   *  registers, are the same in both. */
  lemma MiddleTablesAgree()
    ensures RefDefs.LUT_ROW_4 == Emu.CYCLES[4] && RefDefs.LUT_ROW_5 == Emu.CYCLES[5]
    ensures RefDefs.LUT_ROW_6 == Emu.CYCLES[6] && RefDefs.LUT_ROW_7 == Emu.CYCLES[7]
    ensures RefDefs.LUT_ROW_8 == Emu.CYCLES[8] && RefDefs.LUT_ROW_9 == Emu.CYCLES[9]
    ensures RefDefs.LUT_ROW_A == Emu.CYCLES[10] && RefDefs.LUT_ROW_B == Emu.CYCLES[11]
  {
  }

  /** Lines 0xC and 0xD hold the not-taken cost of each conditional branch
   *  and cost nothing for the undocumented 0xCB, 0xD9 and 0xDD. */
  lemma HighTablesDiffer()
    ensures RefDefs.LUT_ROW_C == NotTaken(Emu.CYCLES[12])[11 := 0]
    ensures RefDefs.LUT_ROW_D == NotTaken(Emu.CYCLES[13])[9 := 0][13 := 0]
  {
  }

  /** Lines 0xE and 0xF hold the not-taken costs as well, cost nothing for
   *  the undocumented 0xED and 0xFD, and charge XTHL 18, PCHL 5 and XCHG
   *  4 cycles where 8080e charges 10. */
  lemma TopTablesDiffer()
    ensures RefDefs.LUT_ROW_E == NotTaken(Emu.CYCLES[14])[3 := 18][9 := 5][11 := 4][13 := 0]
    ensures RefDefs.LUT_ROW_F == NotTaken(Emu.CYCLES[15])[13 := 0]
  {
  }
}
