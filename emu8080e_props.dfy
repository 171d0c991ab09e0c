/** Properties of one step and of a run of 8080e.c, stated on the functions
 *  of Emu8080eSpec: the stack round trips, the exchanges, the branches that
 *  are not taken, the interrupt, what the dispatch refuses, the read-only
 *  ROM and the cycle budget of execute. */
module Emu8080eProps {
  import opened Bytes
  import Isa
  import opened Emu8080eDefs
  import opened Emu8080eAlu
  import opened Emu8080eSpec

  // ----------------------------------------------------------------- stack

  /** The pop sequence reads back the word the push sequence wrote, and SP
   *  returns to where it was; nothing but memory has changed. */
  lemma PopUndoesPush(s: State, w: word)
    requires PushWord(s, w).Done?
    ensures var t := PushWord(s, w).s;
      PopWord(t).0 == w && PopWord(t).1.(mem := s.mem) == s
  {
    var t := PushWord(s, w).s;
    assert Inc16(t.sp) == Dec16(s.sp) && Inc16(Inc16(t.sp)) == s.sp;
    JoinHiLo(w);
  }

  /** POP of a pair undoes PUSH of the same pair. */
  lemma PopUndoesPushPair(s: State, rp: Isa.Pair)
    requires Push(s, rp).Done?
    ensures Pop(Push(s, rp).s, rp).(mem := s.mem) == s
  {
    PopUndoesPush(s, PairOf(s, rp));
  }

  /** POP PSW undoes PUSH PSW: A comes back from the high byte and every
   *  flag bit, the three fixed ones included, from the low byte. */
  lemma PopPswUndoesPushPsw(s: State)
    requires PushPsw(s).Done?
    ensures PopPsw(PushPsw(s).s).(mem := s.mem) == s
  {
    var w := Join(s.a, Pack(s.f));
    PopUndoesPush(s, w);
    UnpackPack(s.f);
  }

  /** PUSH writes the high byte at SP - 1 and the low byte at SP - 2, and
   *  faults exactly when either lands in the ROM. */
  lemma PushLayout(s: State, rp: Isa.Pair)
    ensures Push(s, rp).Done? <==> Dec16(s.sp) >= ROM_SIZE && Dec16(Dec16(s.sp)) >= ROM_SIZE
    ensures Push(s, rp).Done? ==>
      var t := Push(s, rp).s;
      t.sp == Dec16(Dec16(s.sp)) &&
      Load(t, Dec16(s.sp)) == Hi(PairOf(s, rp)) && Load(t, Dec16(Dec16(s.sp))) == Lo(PairOf(s, rp))
  {
  }

  /** RET after CALL: PC is the address after the call's operand and SP is
   *  back where it was. */
  lemma RetUndoesCall(s: State)
    requires Cal(s).Done?
    ensures Ret(Cal(s).s).(mem := s.mem) == s.(pc := (s.pc + 2) % 0x10000)
  {
    var (target, t) := Fetch16(s);
    var u := PushWord(t, t.pc).s;
    PopUndoesPush(t, t.pc);
    assert Cal(s).s == u.(pc := target);
    assert PopWord(u.(pc := target)) == (PopWord(u).0, PopWord(u).1.(pc := target));
  }

  // ------------------------------------------------------------- exchanges

  /** XCHG swaps HL and DE, so doing it twice changes nothing. */
  lemma XchgTwice(s: State)
    ensures Xchg(s).hl == s.de && Xchg(s).de == s.hl
    ensures Xchg(Xchg(s)) == s
  {
  }

  /** XTHL swaps L with the byte at SP and H with the byte at SP + 1; SP is
   *  unchanged.  It faults exactly when SP points into the ROM. */
  lemma XthlSwaps(s: State)
    ensures Xthl(s).Done? <==> s.sp >= ROM_SIZE
    ensures Xthl(s).Done? ==>
      var t := Xthl(s).s;
      t.sp == s.sp && t.pc == s.pc &&
      Lo(t.hl) == Load(s, s.sp) && Hi(t.hl) == Load(s, s.sp + 1) &&
      Load(t, s.sp) == Lo(s.hl) && Load(t, s.sp + 1) == Hi(s.hl)
  {
    var s1 := s.(hl := WithLo(s.hl, Load(s, s.sp)));
    var first := Store(s1, s1.sp, Lo(s.hl));
    if first.Done? {
      var s2 := first.s;
      NextLocDiffers(s.sp);
      StoreKeeps(s1, s.sp, Lo(s.hl), s.sp + 1);
      var s3 := s2.(hl := WithHi(s2.hl, Load(s2, s2.sp + 1)));
      var second := Store(s3, s3.sp + 1, Hi(s2.hl));
      XthlFrom(s, s2);
      StoreKeeps(s3, s.sp + 1, Hi(s2.hl), s.sp);
    }
  }

  // ------------------------------------------------------------- registers

  /** INR and DCR move the selected register, or the byte at HL, by one
   *  modulo 0x100 and never touch C; only M can fault, on a ROM address. */
  lemma IncDecKeepsCarry(s: State, r: Isa.Reg, inc: bool)
    ensures Inr(s, r, inc).Done? <==> r != Isa.M || s.hl >= ROM_SIZE
    ensures Inr(s, r, inc).Done? ==>
      var t := Inr(s, r, inc).s;
      t.f.cy == s.f.cy &&
      RegOf(t, r) == (RegOf(s, r) + (if inc then 1 else 0xFF)) % 0x100
  {
  }

  /** INX and DCX step the pair modulo 0x10000 and leave every flag alone. */
  lemma InxDcxKeepFlags(s: State, rp: Isa.Pair)
    ensures Inx(s, rp).f == s.f && PairOf(Inx(s, rp), rp) == (PairOf(s, rp) + 1) % 0x10000
    ensures Dcx(s, rp).f == s.f && PairOf(Dcx(s, rp), rp) == (PairOf(s, rp) + 0xFFFF) % 0x10000
  {
  }

  // -------------------------------------------------------------- branches

  /** A conditional jump, call or return whose condition fails changes
   *  nothing but PC: past the operand for JX and CX, not at all for RX. */
  lemma BranchNotTaken(s: State, o: Op)
    requires o.CX? || o.JX? || o.RX?
    requires !Cond(s.f, o.cc)
    ensures Exec(s, o) == Done(if o.RX? then s else s.(pc := (s.pc + 2) % 0x10000))
  {
  }

  /** A taken jump loads PC with the little-endian operand and changes
   *  nothing else. */
  lemma JumpTaken(s: State, o: Op)
    requires o.JMP? || (o.JX? && Cond(s.f, o.cc))
    ensures Exec(s, o) == Done(s.(pc := Join(Load(s, Inc16(s.pc)), Load(s, s.pc))))
  {
    JoinHiLo(Fetch16(s).0);
  }

  // ------------------------------------------------------------- interrupt

  /** generate_intr does nothing while interrupts are off.  Otherwise it
   *  pushes PC and jumps to 8 * n, and interrupts stay enabled. */
  lemma GenerateIntrPushesPc(s: State, n: int)
    ensures !s.intr ==> GenerateIntr(s, n) == Done(s)
    ensures s.intr ==> (GenerateIntr(s, n).Done? <==> PushWord(s, s.pc).Done?)
    ensures s.intr && GenerateIntr(s, n).Done? ==>
      var t := GenerateIntr(s, n).s;
      t.pc == (8 * n) % 0x10000 && t.intr && t.sp == Dec16(Dec16(s.sp)) && PopWord(t).0 == s.pc
  {
    if s.intr && PushWord(s, s.pc).Done? {
      var u := PushWord(s, s.pc).s;
      PopUndoesPush(s, s.pc);
      assert PopWord(u.(pc := (8 * n) % 0x10000)).0 == PopWord(u).0;
    }
  }

  // ------------------------------------------------------------------ step

  /** PC beyond the program image stops the machine before the fetch. */
  lemma StepOutsideProgram(s: State, programSize: word)
    requires programSize <= ROM_SIZE && s.pc > programSize
    ensures Step(s, programSize).0 == MemoryFault
  {
  }

  /** 0x76 halts, although it sits in the MOV quarter of the table. */
  lemma StepHalts(s: State, programSize: word)
    requires programSize <= ROM_SIZE && s.pc <= programSize && s.mem[s.pc] == 0x76
    ensures Step(s, programSize).0 == Halt
  {
  }

  /** execute_one refuses exactly the alternate encodings and the
   *  documented opcodes it has no handler for, reporting the opcode and
   *  the address after it. */
  lemma StepDecodeFault(s: State, programSize: word)
    requires programSize <= ROM_SIZE && s.pc <= programSize
    ensures var op := s.mem[s.pc];
      Step(s, programSize).0.DecodeFault? <==> op in Isa.ALTERNATES || op in UNSUPPORTED
    ensures var op := s.mem[s.pc];
      op in Isa.ALTERNATES || op in UNSUPPORTED ==> Step(s, programSize).0 == DecodeFault(op, Inc16(s.pc))
  {
    DecodeAgreesWithIsa(s.mem[s.pc]);
  }

  /** MOV M,r with HL in the ROM is a memory fault. */
  lemma StepRomWrite(s: State, programSize: word)
    requires programSize <= ROM_SIZE && s.pc <= programSize
    requires Decode(s.mem[s.pc]).MOV? && Decode(s.mem[s.pc]).dst == Isa.M
    requires s.hl < ROM_SIZE
    ensures Step(s, programSize).0 == MemoryFault
  {
  }

  // ------------------------------------------------------------------- ROM

  /** The bytes below 0x2000 are the same in `m` and `m2`. */
  predicate RomKept(m: Memory, m2: Memory)
  {
    forall i | 0 <= i < ROM_SIZE :: m2[i] == m[i]
  }

  /** A store that completes wrote into the RAM half. */
  lemma StoreKeepsRom(s: State, loc: int, v: byte)
    requires 0 <= loc <= 0x10000 && Store(s, loc, v).Done?
    ensures RomKept(s.mem, Store(s, loc, v).s.mem)
  {
  }

  lemma PushWordKeepsRom(s: State, w: word)
    requires PushWord(s, w).Done?
    ensures RomKept(s.mem, PushWord(s, w).s.mem)
  {
    var sp1 := Dec16(s.sp);
    var first := Store(s.(sp := sp1), sp1, Hi(w));
    StoreKeepsRom(s.(sp := sp1), sp1, Hi(w));
    StoreKeepsRom(first.s.(sp := Dec16(sp1)), Dec16(sp1), Lo(w));
  }

  lemma SetRegKeepsRom(s: State, r: Isa.Reg, v: byte)
    requires SetReg(s, r, v).Done?
    ensures RomKept(s.mem, SetReg(s, r, v).s.mem)
  {
    if r == Isa.M {
      StoreKeepsRom(s, s.hl, v);
    }
  }

  /** The handlers that can write memory. */
  predicate Writes(o: Op)
  {
    o.MOV? || o.INR? || o.MVI? || o.CX? || o.CAL? || o.PUSH? || o.PUSHPSW? ||
    o.SHLD? || o.STA? || o.XTHL?
  }

  /** The arithmetic and logic handlers on a register leave memory as it was. */
  lemma RegisterAluKeepsMemory(s: State, o: Op)
    requires o.ADD? || o.SUB? || o.ANA? || o.XRA? || o.ORA? || o.CMP?
    ensures Exec(s, o).Done? && Exec(s, o).s.mem == s.mem
  {
  }

  /** So do the immediate additions and subtractions. */
  lemma ImmediateArithmeticKeepsMemory(s: State, o: Op)
    requires o.ADI? || o.SUI? || o.SBI?
    ensures Exec(s, o).Done? && Exec(s, o).s.mem == s.mem
  {
  }

  /** So do the immediate logic operations and the comparison. */
  lemma ImmediateLogicKeepsMemory(s: State, o: Op)
    requires o.ANI? || o.ORI? || o.CPI?
    ensures Exec(s, o).Done? && Exec(s, o).s.mem == s.mem
  {
  }

  /** So do the rotations and the other accumulator and flag handlers. */
  lemma AccumulatorKeepsMemory(s: State, o: Op)
    requires o.NOP? || o.RLC? || o.RRC? || o.RAR? || o.DAA? || o.CMA? || o.STC?
    ensures Exec(s, o).Done? && Exec(s, o).s.mem == s.mem
  {
  }

  /** So do EI and the two port handlers. */
  lemma PortsKeepMemory(s: State, o: Op)
    requires o.EI? || o.IN? || o.OUT?
    ensures Exec(s, o).Done? && Exec(s, o).s.mem == s.mem
  {
  }

  /** So do the register-pair handlers. */
  lemma PairsKeepMemory(s: State, o: Op)
    requires o.LXI? || o.INX? || o.DCX? || o.DAD? || o.XCHG?
    ensures Exec(s, o).Done? && Exec(s, o).s.mem == s.mem
  {
  }

  /** So do the loads from memory. */
  lemma LoadsKeepMemory(s: State, o: Op)
    requires o.LDAX? || o.LHLD? || o.LDA? || o.POP? || o.POPPSW?
    ensures Exec(s, o).Done? && Exec(s, o).s.mem == s.mem
  {
  }

  /** So do the jumps and the returns. */
  lemma BranchesKeepMemory(s: State, o: Op)
    requires o.JX? || o.RX? || o.JMP? || o.RET? || o.PCHL?
    ensures Exec(s, o).Done? && Exec(s, o).s.mem == s.mem
  {
  }

  /** Every other handler leaves memory as it was. */
  lemma ReadOnlyHandlers(s: State, o: Op)
    requires Executes(o) && !Writes(o)
    ensures Exec(s, o).Done? && Exec(s, o).s.mem == s.mem
  {
    if o.ADD? || o.SUB? || o.ANA? || o.XRA? || o.ORA? || o.CMP? {
      RegisterAluKeepsMemory(s, o);
    } else if o.ADI? || o.SUI? || o.SBI? {
      ImmediateArithmeticKeepsMemory(s, o);
    } else if o.ANI? || o.ORI? || o.CPI? {
      ImmediateLogicKeepsMemory(s, o);
    } else if o.NOP? || o.RLC? || o.RRC? || o.RAR? || o.DAA? || o.CMA? || o.STC? {
      AccumulatorKeepsMemory(s, o);
    } else if o.EI? || o.IN? || o.OUT? {
      PortsKeepMemory(s, o);
    } else if o.LXI? || o.INX? || o.DCX? || o.DAD? || o.XCHG? {
      PairsKeepMemory(s, o);
    } else if o.LDAX? || o.LHLD? || o.LDA? || o.POP? || o.POPPSW? {
      LoadsKeepMemory(s, o);
    } else {
      BranchesKeepMemory(s, o);
    }
  }

  lemma CallKeepsRom(s: State, c: bool)
    requires CallIf(s, c).Done?
    ensures RomKept(s.mem, CallIf(s, c).s.mem)
  {
    var t := Fetch16(s).1;
    if c {
      PushWordKeepsRom(t, t.pc);
    }
  }

  lemma ShldKeepsRom(s: State)
    requires Shld(s).Done?
    ensures RomKept(s.mem, Shld(s).s.mem)
  {
    var (addr, t) := Fetch16(s);
    var first := Store(t, addr, Lo(t.hl));
    StoreKeepsRom(t, addr, Lo(t.hl));
    ShldFrom(s, addr, t, first.s);
    StoreKeepsRom(first.s, addr + 1, Hi(first.s.hl));
  }

  lemma XthlKeepsRom(s: State)
    requires Xthl(s).Done?
    ensures RomKept(s.mem, Xthl(s).s.mem)
  {
    var s1 := s.(hl := WithLo(s.hl, Load(s, s.sp)));
    var first := Store(s1, s1.sp, Lo(s.hl));
    StoreKeepsRom(s1, s1.sp, Lo(s.hl));
    var s2 := first.s;
    var s3 := s2.(hl := WithHi(s2.hl, Load(s2, s2.sp + 1)));
    XthlFrom(s, s2);
    StoreKeepsRom(s3, s3.sp + 1, Hi(s2.hl));
  }

  /** The handlers that write through a register write only RAM. */
  lemma RegisterWritesKeepRom(s: State, o: Op)
    requires (o.MOV? || o.INR? || o.MVI? || o.STA?) && Exec(s, o).Done?
    ensures RomKept(s.mem, Exec(s, o).s.mem)
  {
    match o
    case MOV(d, r) =>
      SetRegKeepsRom(s, d, RegOf(s, r));
    case INR(r, inc) =>
      var (res, g) := AluIncDec(s.f, RegOf(s, r), inc);
      SetRegKeepsRom(s.(f := g), r, res);
    case MVI(r) =>
      var (v, t) := Fetch8(s);
      SetRegKeepsRom(t, r, v);
    case STA =>
      var (addr, t) := Fetch16(s);
      StoreKeepsRom(t, addr, t.a);
  }

  /** So do the ones that push on the stack. */
  lemma StackWritesKeepRom(s: State, o: Op)
    requires (o.CX? || o.CAL? || o.PUSH? || o.PUSHPSW?) && Exec(s, o).Done?
    ensures RomKept(s.mem, Exec(s, o).s.mem)
  {
    match o
    case CX(cc) =>
      CallKeepsRom(s, Cond(s.f, cc));
    case CAL =>
      CallKeepsRom(s, true);
    case PUSH(rp) =>
      PushWordKeepsRom(s, PairOf(s, rp));
    case PUSHPSW =>
      PushWordKeepsRom(s, Join(s.a, Pack(s.f)));
  }

  /** The handlers that write memory write only RAM. */
  lemma WritingHandlers(s: State, o: Op)
    requires Executes(o) && Writes(o) && Exec(s, o).Done?
    ensures RomKept(s.mem, Exec(s, o).s.mem)
  {
    if o.MOV? || o.INR? || o.MVI? || o.STA? {
      RegisterWritesKeepRom(s, o);
    } else if o.SHLD? {
      ShldKeepsRom(s);
    } else if o.XTHL? {
      XthlKeepsRom(s);
    } else {
      StackWritesKeepRom(s, o);
    }
  }

  /** No step of execute_one changes a ROM byte, whatever its outcome. */
  lemma StepKeepsRom(s: State, programSize: word)
    requires programSize <= ROM_SIZE
    ensures RomKept(s.mem, Step(s, programSize).1.mem)
  {
    if s.pc <= programSize {
      var o := Decode(s.mem[s.pc]);
      var s1 := s.(pc := Inc16(s.pc));
      if Executes(o) && Exec(s1, o).Done? {
        if Writes(o) {
          WritingHandlers(s1, o);
        } else {
          ReadOnlyHandlers(s1, o);
        }
      }
    }
  }
}
