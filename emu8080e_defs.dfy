/** The pure parts of the bit-mask-decoded emulator in 8080e.c: memory
 *  address resolution, the flag byte, parity, condition codes, the shift
 *  register ports, opcode dispatch and the cycle table.  The machine state
 *  and the instruction handlers that change it are in module Emu8080e. */
module Emu8080eDefs {
  import opened Bytes
  import Isa

  const MEM_SIZE := 0x4000
  const ROM_SIZE := 0x2000
  const STACK_BOTTOM: word := 0x2400

  // ---------------------------------------------------------------- memory

  /** MEM_LOC: the memory index that names address `loc`.  Addresses from
   *  0x2000 up are folded onto the RAM half by `(loc & 0x1FFF) | 0x2000`.
   *  `loc` may be 0x10000 because the handlers compute `sp + 1` and
   *  `mem + 1` in `int`. */
  function MemLoc(loc: int): (i: nat)
    requires 0 <= loc <= 0x10000
    ensures i < MEM_SIZE
    ensures loc < ROM_SIZE ==> i == loc
    ensures loc >= ROM_SIZE ==> ROM_SIZE <= i && i % ROM_SIZE == loc % ROM_SIZE
  {
    if loc >= 0x2000 then 0x2000 + loc % 0x2000 else loc
  }

  /** Two addresses at or above 0x2000 name the same byte exactly when they
   *  agree in their low 13 bits; addresses below 0x2000 alias nothing. */
  lemma MemLocAliases(x: int, y: int)
    requires 0 <= x <= 0x10000 && 0 <= y <= 0x10000
    ensures MemLoc(x) == MemLoc(y) <==>
      x == y || (x >= ROM_SIZE && y >= ROM_SIZE && x % ROM_SIZE == y % ROM_SIZE)
  {
    if x >= ROM_SIZE && y >= ROM_SIZE && x % ROM_SIZE == y % ROM_SIZE {
      assert MemLoc(x) == ROM_SIZE + x % ROM_SIZE;
    }
  }

  /** The byte after an address is a different byte, including across the
   *  fold at the top of the RAM mirror. */
  lemma NextLocDiffers(loc: int)
    requires 0 <= loc < 0x10000
    ensures MemLoc(loc + 1) != MemLoc(loc)
  {
    if loc >= ROM_SIZE && loc % ROM_SIZE == ROM_SIZE - 1 {
      assert (loc + 1) % ROM_SIZE == 0;
    }
  }

  /** A write through MEM_LOC lands in the read-only ROM exactly when the
   *  address itself is below 0x2000. */
  lemma RomWriteIffRomAddress(loc: int)
    requires 0 <= loc <= 0x10000
    ensures MemLoc(loc) < ROM_SIZE <==> loc < ROM_SIZE
  {
  }

  // ------------------------------------------------------------- flag byte

  /** The flag byte, bit by bit from bit 7 to bit 0: S Z 0 A 0 P 1 C.  The
   *  bits named f5, f3 and f1 are only ever changed by POP PSW. */
  datatype Flags = Flags(s: bool, z: bool, f5: bool, ac: bool, f3: bool, p: bool, f1: bool, cy: bool)

  /** init_machine sets f to F1. */
  const INIT_FLAGS := Flags(false, false, false, false, false, false, true, false)

  function B2I(b: bool): int { if b then 1 else 0 }

  /** The flag byte as PUSH PSW stores it. */
  function Pack(f: Flags): byte
  {
    0x80 * B2I(f.s) + 0x40 * B2I(f.z) + 0x20 * B2I(f.f5) + 0x10 * B2I(f.ac) +
    0x08 * B2I(f.f3) + 0x04 * B2I(f.p) + 0x02 * B2I(f.f1) + B2I(f.cy)
  }

  /** The flags that POP PSW loads from a byte. */
  function Unpack(v: byte): Flags
  {
    Flags(v / 0x80 % 2 == 1, v / 0x40 % 2 == 1, v / 0x20 % 2 == 1, v / 0x10 % 2 == 1,
          v / 0x08 % 2 == 1, v / 0x04 % 2 == 1, v / 0x02 % 2 == 1, v % 2 == 1)
  }

  lemma {:induction false} UnpackPack(f: Flags)
    ensures Unpack(Pack(f)) == f
  {
    var v := Pack(f);
    var lo0 := B2I(f.cy);
    var lo1 := 0x02 * B2I(f.f1) + lo0;
    var lo2 := 0x04 * B2I(f.p) + lo1;
    var lo3 := 0x08 * B2I(f.f3) + lo2;
    var lo4 := 0x10 * B2I(f.ac) + lo3;
    var lo5 := 0x20 * B2I(f.f5) + lo4;
    var lo6 := 0x40 * B2I(f.z) + lo5;
    assert v == 0x80 * B2I(f.s) + lo6;
    assert v / 0x80 == B2I(f.s);
    assert v / 0x40 == 2 * B2I(f.s) + B2I(f.z);
    assert v / 0x20 == 4 * B2I(f.s) + 2 * B2I(f.z) + B2I(f.f5);
    assert v / 0x10 == 8 * B2I(f.s) + 4 * B2I(f.z) + 2 * B2I(f.f5) + B2I(f.ac);
    assert v / 0x08 == 2 * (v / 0x10) + B2I(f.f3);
    assert v / 0x04 == 2 * (v / 0x08) + B2I(f.p);
    assert v / 0x02 == 2 * (v / 0x04) + B2I(f.f1);
  }

  lemma PackUnpack(v: byte)
    ensures Pack(Unpack(v)) == v
  {
    BitsSum(v);
    B2IBit(v); B2IBit(v / 0x02); B2IBit(v / 0x04); B2IBit(v / 0x08);
    B2IBit(v / 0x10); B2IBit(v / 0x20); B2IBit(v / 0x40); B2IBit(v / 0x80);
  }

  /** A byte is the weighted sum of its eight bits. */
  lemma BitsSum(v: byte)
    ensures v == 0x80 * (v / 0x80 % 2) + 0x40 * (v / 0x40 % 2) + 0x20 * (v / 0x20 % 2) +
                 0x10 * (v / 0x10 % 2) + 0x08 * (v / 0x08 % 2) + 0x04 * (v / 0x04 % 2) +
                 0x02 * (v / 0x02 % 2) + v % 2
  {
    assert v / 0x02 / 2 == v / 0x04 && v / 0x04 / 2 == v / 0x08;
    assert v / 0x08 / 2 == v / 0x10 && v / 0x10 / 2 == v / 0x20;
    assert v / 0x20 / 2 == v / 0x40 && v / 0x40 / 2 == v / 0x80;
  }

  lemma B2IBit(x: int)
    ensures B2I(x % 2 == 1) == x % 2
  {
  }

  lemma InitFlagsByte()
    ensures Pack(INIT_FLAGS) == 0x02
  {
  }

  // ---------------------------------------------------------------- parity

  /** parity: the bit-count is folded pairwise, then by nibbles; the result
   *  is 1 iff the count is even. */
  function Parity(b: byte): (even: bool)
    ensures even <==> EvenParity(b)
  {
    var b0 := b as bv8;
    var b1 := ((b0 & 0xAA) >> 1) + (b0 & 0x55);
    var b2 := ((b1 & 0xCC) >> 2) + (b1 & 0x33);
    var b3 := ((b2 & 0xF0) >> 4) + (b2 & 0x0F);
    b3 & 0x01 == 0
  }

  lemma ParityExamples()
    ensures Parity(0x00) && Parity(0xFF) && Parity(0x03) && !Parity(0x01) && !Parity(0x80)
  {
  }

  /** set_A: the auxiliary-carry flag is set iff bit 4 differs between the
   *  operand before and the result after (a heuristic, marked TODO in the
   *  source, rather than the carry out of bit 3). */
  predicate Bit4Toggled(before: byte, after: byte)
  {
    (before / 0x10) % 2 != (after / 0x10) % 2
  }

  /** Z, S and P as set_ZSP derives them from a result byte; no other bit
   *  changes. */
  function WithZSP(f: Flags, res: byte): (g: Flags)
    ensures g.z <==> res == 0
    ensures g.s <==> res >= 0x80
    ensures g.p <==> EvenParity(res)
    ensures g.(z := f.z, s := f.s, p := f.p) == f
  {
    f.(z := res == 0, s := (res / 0x80) % 2 == 1, p := Parity(res))
  }

  // ------------------------------------------------------------ conditions

  /** The flag that condition field `cc` tests: NZ/Z test Z, NC/C test C,
   *  PO/PE test P and P/M test S. */
  function CondFlag(f: Flags, cc: Isa.Cond): bool
  {
    match cc / 2
    case 0 => f.z
    case 1 => f.cy
    case 2 => f.p
    case 3 => f.s
  }

  /** get_cond: even conditions hold when their flag is clear, odd ones when
   *  it is set. */
  function Cond(f: Flags, cc: Isa.Cond): (holds: bool)
    ensures holds <==> (CondFlag(f, cc) <==> cc % 2 == 1)
  {
    match cc
    case 0 => !f.z
    case 1 => f.z
    case 2 => !f.cy
    case 3 => f.cy
    case 4 => !f.p
    case 5 => f.p
    case 6 => !f.s
    case 7 => f.s
  }

  // ----------------------------------------------------------------- ports

  /** The cabinet inputs that 8080e.c reads on port 1, one bit each. */
  datatype Keyboard = Keyboard(coin: bool, p1Start: bool, p2Start: bool, p1Shoot: bool)

  const NO_KEYS := Keyboard(false, false, false, false)

  /** IN 1: shoot in bit 4, bit 3 always set, start buttons in bits 2 and 1,
   *  coin in bit 0 (the fields occupy distinct bits, so `|` is `+`). */
  function InPort1(k: Keyboard): (v: byte)
    ensures v / 0x10 == B2I(k.p1Shoot) && (v / 0x08) % 2 == 1
    ensures (v / 0x04) % 2 == B2I(k.p1Start) && (v / 0x02) % 2 == B2I(k.p2Start)
    ensures v % 2 == B2I(k.coin)
  {
    16 * B2I(k.p1Shoot) + 4 * B2I(k.p1Start) + 2 * B2I(k.p2Start) + B2I(k.coin) + 8
  }

  /** IN 3: `(shift_reg >> (8 - offset)) & 0xFF`. */
  function ShiftRead(shiftReg: word, offset: byte): byte
    requires offset < 8
  {
    (shiftReg / Pow2(8 - offset)) % 0x100
  }

  /** OUT 4: `(shift_reg >> 8) | (a << 8)`; the written byte becomes the high
   *  byte and the old high byte the low byte. */
  function ShiftPush(shiftReg: word, v: byte): (r: word)
    ensures Hi(r) == v && Lo(r) == Hi(shiftReg)
  {
    shiftReg / 0x100 + v * 0x100
  }

  /** With offset 0, IN 3 returns the high byte of the shift register. */
  lemma ShiftReadOffsetZero(shiftReg: word)
    ensures ShiftRead(shiftReg, 0) == Hi(shiftReg)
  {
    assert Pow2(8) == 0x100 by {
      assert Pow2(4) == 16;
    }
  }

  /** Two OUT 4 writes of 0xAA then 0xFF into a cleared register, read back
   *  at offsets 0 and 2. */
  lemma ShiftExample()
    ensures ShiftPush(ShiftPush(0, 0xAA), 0xFF) == 0xFFAA
    ensures ShiftRead(0xFFAA, 0) == 0xFF
    ensures ShiftRead(0xFFAA, 2) == 0xFE
  {
    assert Pow2(6) == 64 && Pow2(8) == 256 by {
      assert Pow2(4) == 16;
    }
  }

  // -------------------------------------------------------------- dispatch

  /** The handler that execute_one calls for an opcode.  DCR is INR with
   *  `inc` false, ADC and SBB are ADD and SUB with `carry` true. */
  datatype Op =
    | MOV(dst: Isa.Reg, src: Isa.Reg) | ADD(src: Isa.Reg, carry: bool) | SUB(src: Isa.Reg, carry: bool)
    | ANA(src: Isa.Reg) | XRA(src: Isa.Reg) | ORA(src: Isa.Reg) | CMP(src: Isa.Reg)
    | LXI(rp: Isa.Pair) | INX(rp: Isa.Pair) | DCX(rp: Isa.Pair) | DAD(rp: Isa.Pair)
    | INR(r: Isa.Reg, inc: bool) | CX(cc: Isa.Cond) | JX(cc: Isa.Cond) | MVI(r: Isa.Reg) | RX(cc: Isa.Cond)
    | NOP | RLC | LDAX(rp: Isa.Pair) | RRC | RAR | SHLD | DAA | LHLD | CMA | STA | STC | LDA
    | POP(rp: Isa.Pair) | JMP | PUSH(rp: Isa.Pair) | ADI | RET | CAL | OUT | SUI | IN | SBI
    | XTHL | ANI | PCHL | XCHG | POPPSW | PUSHPSW | ORI | EI | CPI
    | HLT | Alternate | Unrecognized

  /** The dispatch chain of execute_one.  The C tests are bit masks; each is
   *  written here on the octal fields it selects:
   *  `(op & 0xC0) == 0x40` is `op / 64 == 1`, `(op & 0xF8) == 0x80 + 8k` is
   *  `op / 8 == 0x10 + k`, `(op & 0xCF) == c` is `op / 64 == 0 && op % 16 == c`
   *  and `(op & 0xC7) == c` is `op / 64 == c / 64 && op % 8 == c % 8`.  The
   *  register field `(op & 0x38) >> 3` is `(op / 8) % 8`, the pair field
   *  `(op & 0x30) >> 4` is `(op / 16) % 4` and the source field `op & 0x07`
   *  is `op % 8`. */
  function Decode(op: byte): Op
  {
    var reg, pair, src := (op / 8) % 8, (op / 16) % 4, op % 8;
    if op / 64 == 1 then (if op == 0x76 then HLT else MOV(reg, src))
    else if op / 8 == 0x10 then ADD(src, false)
    else if op / 8 == 0x11 then ADD(src, true)
    else if op / 8 == 0x12 then SUB(src, false)
    else if op / 8 == 0x13 then SUB(src, true)
    else if op / 8 == 0x14 then ANA(src)
    else if op / 8 == 0x15 then XRA(src)
    else if op / 8 == 0x16 then ORA(src)
    else if op / 8 == 0x17 then CMP(src)
    else if op / 64 == 0 && op % 16 == 0x1 then LXI(pair)
    else if op / 64 == 0 && op % 16 == 0x3 then INX(pair)
    else if op / 64 == 0 && op % 16 == 0xB then DCX(pair)
    else if op / 64 == 0 && op % 16 == 0x9 then DAD(pair)
    else if op / 64 == 0 && op % 8 == 4 then INR(reg, true)
    else if op / 64 == 0 && op % 8 == 5 then INR(reg, false)
    else if op / 64 == 3 && op % 8 == 4 then CX(reg)
    else if op / 64 == 3 && op % 8 == 2 then JX(reg)
    else if op / 64 == 0 && op % 8 == 6 then MVI(reg)
    else if op / 64 == 3 && op % 8 == 0 then RX(reg)
    else DecodeSwitch(op)
  }

  /** The `switch` at the end of the dispatch chain. */
  function DecodeSwitch(op: byte): Op
  {
    match op
    case 0x00 => NOP
    case 0x07 => RLC
    case 0x0A => LDAX(0)
    case 0x0F => RRC
    case 0x1A => LDAX(1)
    case 0x1F => RAR
    case 0x22 => SHLD
    case 0x27 => DAA
    case 0x2A => LHLD
    case 0x2F => CMA
    case 0x32 => STA
    case 0x37 => STC
    case 0x3A => LDA
    case 0xC1 => POP(0)
    case 0xC3 => JMP
    case 0xC5 => PUSH(0)
    case 0xC6 => ADI
    case 0xC9 => RET
    case 0xCD => CAL
    case 0xD1 => POP(1)
    case 0xD3 => OUT
    case 0xD5 => PUSH(1)
    case 0xD6 => SUI
    case 0xDB => IN
    case 0xDE => SBI
    case 0xE1 => POP(2)
    case 0xE3 => XTHL
    case 0xE5 => PUSH(2)
    case 0xE6 => ANI
    case 0xE9 => PCHL
    case 0xEB => XCHG
    case 0xF1 => POPPSW
    case 0xF5 => PUSHPSW
    case 0xF6 => ORI
    case 0xFB => EI
    case 0xFE => CPI
    case 0x08 | 0x10 | 0x18 | 0x20 | 0x28 | 0x30 | 0x38 | 0xCB | 0xD9 | 0xDD | 0xED | 0xFD => Alternate
    case _ => Unrecognized
  }

  /** The 8080 instruction that a handler carries out. */
  function ToIsa(o: Op): Isa.Instr
  {
    match o
    case MOV(d, s) => Isa.Mov(d, s)
    case ADD(s, c) => Isa.Alu(if c then Isa.Adc else Isa.Add, s)
    case SUB(s, c) => Isa.Alu(if c then Isa.Sbb else Isa.Sub, s)
    case ANA(s) => Isa.Alu(Isa.Ana, s)
    case XRA(s) => Isa.Alu(Isa.Xra, s)
    case ORA(s) => Isa.Alu(Isa.Ora, s)
    case CMP(s) => Isa.Alu(Isa.Cmp, s)
    case LXI(rp) => Isa.Lxi(rp)
    case INX(rp) => Isa.Inx(rp)
    case DCX(rp) => Isa.Dcx(rp)
    case DAD(rp) => Isa.Dad(rp)
    case INR(r, inc) => if inc then Isa.Inr(r) else Isa.Dcr(r)
    case CX(cc) => Isa.CallIf(cc)
    case JX(cc) => Isa.JumpIf(cc)
    case MVI(r) => Isa.Mvi(r)
    case RX(cc) => Isa.RetIf(cc)
    case NOP => Isa.Nop
    case RLC => Isa.Rlc
    case LDAX(rp) => Isa.Ldax(rp)
    case RRC => Isa.Rrc
    case RAR => Isa.Rar
    case SHLD => Isa.Shld
    case DAA => Isa.Daa
    case LHLD => Isa.Lhld
    case CMA => Isa.Cma
    case STA => Isa.Sta
    case STC => Isa.Stc
    case LDA => Isa.Lda
    case POP(rp) => Isa.Pop(rp)
    case JMP => Isa.Jmp
    case PUSH(rp) => Isa.Push(rp)
    case ADI => Isa.AluImm(Isa.Add)
    case RET => Isa.Ret
    case CAL => Isa.Call
    case OUT => Isa.Out
    case SUI => Isa.AluImm(Isa.Sub)
    case IN => Isa.In
    case SBI => Isa.AluImm(Isa.Sbb)
    case XTHL => Isa.Xthl
    case ANI => Isa.AluImm(Isa.Ana)
    case PCHL => Isa.Pchl
    case XCHG => Isa.Xchg
    case POPPSW => Isa.Pop(3)
    case PUSHPSW => Isa.Push(3)
    case ORI => Isa.AluImm(Isa.Ora)
    case EI => Isa.Ei
    case CPI => Isa.AluImm(Isa.Cmp)
    case HLT => Isa.Hlt
    case Alternate => Isa.Illegal
    case Unrecognized => Isa.Illegal
  }

  /** Opcodes of documented instructions that execute_one has no handler
   *  for: STAX B, STAX D, RAL, CMC, the eight RST, ACI, XRI, DI and SPHL. */
  const UNSUPPORTED: set<byte> :=
    {0x02, 0x12, 0x17, 0x3F, 0xC7, 0xCF, 0xD7, 0xDF, 0xE7, 0xEF, 0xF7, 0xFF, 0xCE, 0xEE, 0xF3, 0xF9}

  /** What the mask-based dispatch does with one opcode: refuse it as an
   *  alternate encoding, refuse it as unsupported, or call the handler of the
   *  instruction that the 8080 defines for it. */
  predicate AgreesWithIsa(op: byte)
  {
    var d := Decode(op);
    if op in Isa.ALTERNATES then d == Alternate
    else if op in UNSUPPORTED then d == Unrecognized
    else d != Alternate && d != Unrecognized && ToIsa(d) == Isa.Decode(op)
  }

  /** Every opcode: the if-chain and the switch of execute_one dispatch it
   *  as the 8080 defines it, or refuse it as listed above. */
  lemma DecodeAgreesWithIsa(op: byte)
    ensures AgreesWithIsa(op)
  {
    var x, z := op / 64, op % 8;
    if x == 1 {
      MovRows(op);
    } else if x == 2 {
      AluRows(op);
    } else if x == 0 {
      match z
      case 0 =>
        match (op / 16) % 4 {
          case 0 => Column000(op);
          case 1 => Column001(op);
          case 2 => Column002(op);
          case 3 => Column003(op);
        }
      case 1 =>
        match (op / 16) % 4 {
          case 0 => Column010(op);
          case 1 => Column011(op);
          case 2 => Column012(op);
          case 3 => Column013(op);
        }
      case 2 =>
        match (op / 16) % 4 {
          case 0 => Column020(op);
          case 1 => Column021(op);
          case 2 => Column022(op);
          case 3 => Column023(op);
        }
      case 3 =>
        match (op / 16) % 4 {
          case 0 => Column030(op);
          case 1 => Column031(op);
          case 2 => Column032(op);
          case 3 => Column033(op);
        }
      case 4 =>
        match (op / 16) % 4 {
          case 0 => Column040(op);
          case 1 => Column041(op);
          case 2 => Column042(op);
          case 3 => Column043(op);
        }
      case 5 =>
        match (op / 16) % 4 {
          case 0 => Column050(op);
          case 1 => Column051(op);
          case 2 => Column052(op);
          case 3 => Column053(op);
        }
      case 6 =>
        match (op / 16) % 4 {
          case 0 => Column060(op);
          case 1 => Column061(op);
          case 2 => Column062(op);
          case 3 => Column063(op);
        }
      case 7 =>
        match (op / 16) % 4 {
          case 0 => Column070(op);
          case 1 => Column071(op);
          case 2 => Column072(op);
          case 3 => Column073(op);
        }
    } else {
      match z
      case 0 =>
        match (op / 16) % 4 {
          case 0 => Column300(op);
          case 1 => Column301(op);
          case 2 => Column302(op);
          case 3 => Column303(op);
        }
      case 1 =>
        match (op / 16) % 4 {
          case 0 => Column310(op);
          case 1 => Column311(op);
          case 2 => Column312(op);
          case 3 => Column313(op);
        }
      case 2 =>
        match (op / 16) % 4 {
          case 0 => Column320(op);
          case 1 => Column321(op);
          case 2 => Column322(op);
          case 3 => Column323(op);
        }
      case 3 =>
        match (op / 16) % 4 {
          case 0 => Column330(op);
          case 1 => Column331(op);
          case 2 => Column332(op);
          case 3 => Column333(op);
        }
      case 4 =>
        match (op / 16) % 4 {
          case 0 => Column340(op);
          case 1 => Column341(op);
          case 2 => Column342(op);
          case 3 => Column343(op);
        }
      case 5 =>
        match (op / 16) % 4 {
          case 0 => Column350(op);
          case 1 => Column351(op);
          case 2 => Column352(op);
          case 3 => Column353(op);
        }
      case 6 =>
        match (op / 16) % 4 {
          case 0 => Column360(op);
          case 1 => Column361(op);
          case 2 => Column362(op);
          case 3 => Column363(op);
        }
      case 7 =>
        match (op / 16) % 4 {
          case 0 => Column370(op);
          case 1 => Column371(op);
          case 2 => Column372(op);
          case 3 => Column373(op);
        }
    }
  }

  /** The MOV quarter of the table, where the C masks read the octal fields
   *  of the opcode. */
  lemma MovRows(op: byte)
    requires op / 64 == 1
    ensures AgreesWithIsa(op)
  {
    assert 0x40 <= op < 0x80;
    var y, z := (op / 8) % 8, op % 8;
    assert op == Isa.Op3(1, y, z);
    Isa.DecodeOp3(1, y, z);
    MaskFields(1, y, z);
  }

  /** The ALU quarter of the table. */
  lemma AluRows(op: byte)
    requires op / 64 == 2
    ensures AgreesWithIsa(op)
  {
    assert 0x80 <= op < 0xC0;
    var y, z := (op / 8) % 8, op % 8;
    assert op == Isa.Op3(2, y, z);
    Isa.DecodeOp3(2, y, z);
    MaskFields(2, y, z);
  }

  /** The C masks read the octal fields of the opcode. */
  lemma MaskFields(x: int, y: Isa.Reg, z: Isa.Reg)
    requires 0 <= x < 4
    ensures var op := Isa.Op3(x, y, z);
      op / 64 == x && op / 8 == 8 * x + y && op % 8 == z && (op / 8) % 8 == y &&
      op % 16 == 8 * (y % 2) + z && (op / 16) % 4 == y / 2
  {
    var op, p, q := Isa.Op3(x, y, z), y / 2, y % 2;
    assert op == 64 * x + (8 * y + z) && 8 * y + z < 64;
    assert op == 8 * (8 * x + y) + z && (8 * x + y) % 8 == y;
    assert op == 16 * (4 * x + p) + (8 * q + z) && 8 * q + z < 16;
    assert op / 16 == 4 * x + p && (4 * x + p) % 4 == p;
  }

  // Four lemmas per octal column of the first and the last quarter of the
  // table; each lets the solver try two opcodes one by one.

  lemma Column000(op: byte)
    requires op / 64 == 0 && op % 8 == 0 && (op / 16) % 4 == 0
    ensures AgreesWithIsa(op)
  {
    assert op == 0x00 || op == 0x08;
  }

  lemma Column001(op: byte)
    requires op / 64 == 0 && op % 8 == 0 && (op / 16) % 4 == 1
    ensures AgreesWithIsa(op)
  {
    assert op == 0x10 || op == 0x18;
  }

  lemma Column002(op: byte)
    requires op / 64 == 0 && op % 8 == 0 && (op / 16) % 4 == 2
    ensures AgreesWithIsa(op)
  {
    assert op == 0x20 || op == 0x28;
  }

  lemma Column003(op: byte)
    requires op / 64 == 0 && op % 8 == 0 && (op / 16) % 4 == 3
    ensures AgreesWithIsa(op)
  {
    assert op == 0x30 || op == 0x38;
  }

  lemma Column010(op: byte)
    requires op / 64 == 0 && op % 8 == 1 && (op / 16) % 4 == 0
    ensures AgreesWithIsa(op)
  {
    assert op == 0x01 || op == 0x09;
  }

  lemma Column011(op: byte)
    requires op / 64 == 0 && op % 8 == 1 && (op / 16) % 4 == 1
    ensures AgreesWithIsa(op)
  {
    assert op == 0x11 || op == 0x19;
  }

  lemma Column012(op: byte)
    requires op / 64 == 0 && op % 8 == 1 && (op / 16) % 4 == 2
    ensures AgreesWithIsa(op)
  {
    assert op == 0x21 || op == 0x29;
  }

  lemma Column013(op: byte)
    requires op / 64 == 0 && op % 8 == 1 && (op / 16) % 4 == 3
    ensures AgreesWithIsa(op)
  {
    assert op == 0x31 || op == 0x39;
  }

  lemma Column020(op: byte)
    requires op / 64 == 0 && op % 8 == 2 && (op / 16) % 4 == 0
    ensures AgreesWithIsa(op)
  {
    assert op == 0x02 || op == 0x0A;
  }

  lemma Column021(op: byte)
    requires op / 64 == 0 && op % 8 == 2 && (op / 16) % 4 == 1
    ensures AgreesWithIsa(op)
  {
    assert op == 0x12 || op == 0x1A;
  }

  lemma Column022(op: byte)
    requires op / 64 == 0 && op % 8 == 2 && (op / 16) % 4 == 2
    ensures AgreesWithIsa(op)
  {
    assert op == 0x22 || op == 0x2A;
  }

  lemma Column023(op: byte)
    requires op / 64 == 0 && op % 8 == 2 && (op / 16) % 4 == 3
    ensures AgreesWithIsa(op)
  {
    assert op == 0x32 || op == 0x3A;
  }

  lemma Column030(op: byte)
    requires op / 64 == 0 && op % 8 == 3 && (op / 16) % 4 == 0
    ensures AgreesWithIsa(op)
  {
    assert op == 0x03 || op == 0x0B;
  }

  lemma Column031(op: byte)
    requires op / 64 == 0 && op % 8 == 3 && (op / 16) % 4 == 1
    ensures AgreesWithIsa(op)
  {
    assert op == 0x13 || op == 0x1B;
  }

  lemma Column032(op: byte)
    requires op / 64 == 0 && op % 8 == 3 && (op / 16) % 4 == 2
    ensures AgreesWithIsa(op)
  {
    assert op == 0x23 || op == 0x2B;
  }

  lemma Column033(op: byte)
    requires op / 64 == 0 && op % 8 == 3 && (op / 16) % 4 == 3
    ensures AgreesWithIsa(op)
  {
    assert op == 0x33 || op == 0x3B;
  }

  lemma Column040(op: byte)
    requires op / 64 == 0 && op % 8 == 4 && (op / 16) % 4 == 0
    ensures AgreesWithIsa(op)
  {
    assert op == 0x04 || op == 0x0C;
  }

  lemma Column041(op: byte)
    requires op / 64 == 0 && op % 8 == 4 && (op / 16) % 4 == 1
    ensures AgreesWithIsa(op)
  {
    assert op == 0x14 || op == 0x1C;
  }

  lemma Column042(op: byte)
    requires op / 64 == 0 && op % 8 == 4 && (op / 16) % 4 == 2
    ensures AgreesWithIsa(op)
  {
    assert op == 0x24 || op == 0x2C;
  }

  lemma Column043(op: byte)
    requires op / 64 == 0 && op % 8 == 4 && (op / 16) % 4 == 3
    ensures AgreesWithIsa(op)
  {
    assert op == 0x34 || op == 0x3C;
  }

  lemma Column050(op: byte)
    requires op / 64 == 0 && op % 8 == 5 && (op / 16) % 4 == 0
    ensures AgreesWithIsa(op)
  {
    assert op == 0x05 || op == 0x0D;
  }

  lemma Column051(op: byte)
    requires op / 64 == 0 && op % 8 == 5 && (op / 16) % 4 == 1
    ensures AgreesWithIsa(op)
  {
    assert op == 0x15 || op == 0x1D;
  }

  lemma Column052(op: byte)
    requires op / 64 == 0 && op % 8 == 5 && (op / 16) % 4 == 2
    ensures AgreesWithIsa(op)
  {
    assert op == 0x25 || op == 0x2D;
  }

  lemma Column053(op: byte)
    requires op / 64 == 0 && op % 8 == 5 && (op / 16) % 4 == 3
    ensures AgreesWithIsa(op)
  {
    assert op == 0x35 || op == 0x3D;
  }

  lemma Column060(op: byte)
    requires op / 64 == 0 && op % 8 == 6 && (op / 16) % 4 == 0
    ensures AgreesWithIsa(op)
  {
    assert op == 0x06 || op == 0x0E;
  }

  lemma Column061(op: byte)
    requires op / 64 == 0 && op % 8 == 6 && (op / 16) % 4 == 1
    ensures AgreesWithIsa(op)
  {
    assert op == 0x16 || op == 0x1E;
  }

  lemma Column062(op: byte)
    requires op / 64 == 0 && op % 8 == 6 && (op / 16) % 4 == 2
    ensures AgreesWithIsa(op)
  {
    assert op == 0x26 || op == 0x2E;
  }

  lemma Column063(op: byte)
    requires op / 64 == 0 && op % 8 == 6 && (op / 16) % 4 == 3
    ensures AgreesWithIsa(op)
  {
    assert op == 0x36 || op == 0x3E;
  }

  lemma Column070(op: byte)
    requires op / 64 == 0 && op % 8 == 7 && (op / 16) % 4 == 0
    ensures AgreesWithIsa(op)
  {
    assert op == 0x07 || op == 0x0F;
  }

  lemma Column071(op: byte)
    requires op / 64 == 0 && op % 8 == 7 && (op / 16) % 4 == 1
    ensures AgreesWithIsa(op)
  {
    assert op == 0x17 || op == 0x1F;
  }

  lemma Column072(op: byte)
    requires op / 64 == 0 && op % 8 == 7 && (op / 16) % 4 == 2
    ensures AgreesWithIsa(op)
  {
    assert op == 0x27 || op == 0x2F;
  }

  lemma Column073(op: byte)
    requires op / 64 == 0 && op % 8 == 7 && (op / 16) % 4 == 3
    ensures AgreesWithIsa(op)
  {
    assert op == 0x37 || op == 0x3F;
  }

  lemma Column300(op: byte)
    requires op / 64 == 3 && op % 8 == 0 && (op / 16) % 4 == 0
    ensures AgreesWithIsa(op)
  {
    assert op == 0xC0 || op == 0xC8;
  }

  lemma Column301(op: byte)
    requires op / 64 == 3 && op % 8 == 0 && (op / 16) % 4 == 1
    ensures AgreesWithIsa(op)
  {
    assert op == 0xD0 || op == 0xD8;
  }

  lemma Column302(op: byte)
    requires op / 64 == 3 && op % 8 == 0 && (op / 16) % 4 == 2
    ensures AgreesWithIsa(op)
  {
    assert op == 0xE0 || op == 0xE8;
  }

  lemma Column303(op: byte)
    requires op / 64 == 3 && op % 8 == 0 && (op / 16) % 4 == 3
    ensures AgreesWithIsa(op)
  {
    assert op == 0xF0 || op == 0xF8;
  }

  lemma Column310(op: byte)
    requires op / 64 == 3 && op % 8 == 1 && (op / 16) % 4 == 0
    ensures AgreesWithIsa(op)
  {
    assert op == 0xC1 || op == 0xC9;
  }

  lemma Column311(op: byte)
    requires op / 64 == 3 && op % 8 == 1 && (op / 16) % 4 == 1
    ensures AgreesWithIsa(op)
  {
    assert op == 0xD1 || op == 0xD9;
  }

  lemma Column312(op: byte)
    requires op / 64 == 3 && op % 8 == 1 && (op / 16) % 4 == 2
    ensures AgreesWithIsa(op)
  {
    assert op == 0xE1 || op == 0xE9;
  }

  lemma Column313(op: byte)
    requires op / 64 == 3 && op % 8 == 1 && (op / 16) % 4 == 3
    ensures AgreesWithIsa(op)
  {
    assert op == 0xF1 || op == 0xF9;
  }

  lemma Column320(op: byte)
    requires op / 64 == 3 && op % 8 == 2 && (op / 16) % 4 == 0
    ensures AgreesWithIsa(op)
  {
    assert op == 0xC2 || op == 0xCA;
  }

  lemma Column321(op: byte)
    requires op / 64 == 3 && op % 8 == 2 && (op / 16) % 4 == 1
    ensures AgreesWithIsa(op)
  {
    assert op == 0xD2 || op == 0xDA;
  }

  lemma Column322(op: byte)
    requires op / 64 == 3 && op % 8 == 2 && (op / 16) % 4 == 2
    ensures AgreesWithIsa(op)
  {
    assert op == 0xE2 || op == 0xEA;
  }

  lemma Column323(op: byte)
    requires op / 64 == 3 && op % 8 == 2 && (op / 16) % 4 == 3
    ensures AgreesWithIsa(op)
  {
    assert op == 0xF2 || op == 0xFA;
  }

  lemma Column330(op: byte)
    requires op / 64 == 3 && op % 8 == 3 && (op / 16) % 4 == 0
    ensures AgreesWithIsa(op)
  {
    assert op == 0xC3 || op == 0xCB;
  }

  lemma Column331(op: byte)
    requires op / 64 == 3 && op % 8 == 3 && (op / 16) % 4 == 1
    ensures AgreesWithIsa(op)
  {
    assert op == 0xD3 || op == 0xDB;
  }

  lemma Column332(op: byte)
    requires op / 64 == 3 && op % 8 == 3 && (op / 16) % 4 == 2
    ensures AgreesWithIsa(op)
  {
    assert op == 0xE3 || op == 0xEB;
  }

  lemma Column333(op: byte)
    requires op / 64 == 3 && op % 8 == 3 && (op / 16) % 4 == 3
    ensures AgreesWithIsa(op)
  {
    assert op == 0xF3 || op == 0xFB;
  }

  lemma Column340(op: byte)
    requires op / 64 == 3 && op % 8 == 4 && (op / 16) % 4 == 0
    ensures AgreesWithIsa(op)
  {
    assert op == 0xC4 || op == 0xCC;
  }

  lemma Column341(op: byte)
    requires op / 64 == 3 && op % 8 == 4 && (op / 16) % 4 == 1
    ensures AgreesWithIsa(op)
  {
    assert op == 0xD4 || op == 0xDC;
  }

  lemma Column342(op: byte)
    requires op / 64 == 3 && op % 8 == 4 && (op / 16) % 4 == 2
    ensures AgreesWithIsa(op)
  {
    assert op == 0xE4 || op == 0xEC;
  }

  lemma Column343(op: byte)
    requires op / 64 == 3 && op % 8 == 4 && (op / 16) % 4 == 3
    ensures AgreesWithIsa(op)
  {
    assert op == 0xF4 || op == 0xFC;
  }

  lemma Column350(op: byte)
    requires op / 64 == 3 && op % 8 == 5 && (op / 16) % 4 == 0
    ensures AgreesWithIsa(op)
  {
    assert op == 0xC5 || op == 0xCD;
  }

  lemma Column351(op: byte)
    requires op / 64 == 3 && op % 8 == 5 && (op / 16) % 4 == 1
    ensures AgreesWithIsa(op)
  {
    assert op == 0xD5 || op == 0xDD;
  }

  lemma Column352(op: byte)
    requires op / 64 == 3 && op % 8 == 5 && (op / 16) % 4 == 2
    ensures AgreesWithIsa(op)
  {
    assert op == 0xE5 || op == 0xED;
  }

  lemma Column353(op: byte)
    requires op / 64 == 3 && op % 8 == 5 && (op / 16) % 4 == 3
    ensures AgreesWithIsa(op)
  {
    assert op == 0xF5 || op == 0xFD;
  }

  lemma Column360(op: byte)
    requires op / 64 == 3 && op % 8 == 6 && (op / 16) % 4 == 0
    ensures AgreesWithIsa(op)
  {
    assert op == 0xC6 || op == 0xCE;
  }

  lemma Column361(op: byte)
    requires op / 64 == 3 && op % 8 == 6 && (op / 16) % 4 == 1
    ensures AgreesWithIsa(op)
  {
    assert op == 0xD6 || op == 0xDE;
  }

  lemma Column362(op: byte)
    requires op / 64 == 3 && op % 8 == 6 && (op / 16) % 4 == 2
    ensures AgreesWithIsa(op)
  {
    assert op == 0xE6 || op == 0xEE;
  }

  lemma Column363(op: byte)
    requires op / 64 == 3 && op % 8 == 6 && (op / 16) % 4 == 3
    ensures AgreesWithIsa(op)
  {
    assert op == 0xF6 || op == 0xFE;
  }

  lemma Column370(op: byte)
    requires op / 64 == 3 && op % 8 == 7 && (op / 16) % 4 == 0
    ensures AgreesWithIsa(op)
  {
    assert op == 0xC7 || op == 0xCF;
  }

  lemma Column371(op: byte)
    requires op / 64 == 3 && op % 8 == 7 && (op / 16) % 4 == 1
    ensures AgreesWithIsa(op)
  {
    assert op == 0xD7 || op == 0xDF;
  }

  lemma Column372(op: byte)
    requires op / 64 == 3 && op % 8 == 7 && (op / 16) % 4 == 2
    ensures AgreesWithIsa(op)
  {
    assert op == 0xE7 || op == 0xEF;
  }

  lemma Column373(op: byte)
    requires op / 64 == 3 && op % 8 == 7 && (op / 16) % 4 == 3
    ensures AgreesWithIsa(op)
  {
    assert op == 0xF7 || op == 0xFF;
  }

  // ---------------------------------------------------------------- cycles

  /** The `cycles` table, indexed by the high and the low nibble of the
   *  opcode.  111 and 117 mark the conditional returns and calls, whose cost
   *  depends on whether the branch is taken. */
  const CYCLES: seq<seq<int>> :=
    [
     [4, 10, 7, 5, 5, 5, 7, 4, 4, 10, 7, 5, 5, 5, 7, 4],
     [4, 10, 7, 5, 5, 5, 7, 4, 4, 10, 7, 5, 5, 5, 7, 4],
     [4, 10, 16, 5, 5, 5, 7, 4, 4, 10, 16, 5, 5, 5, 7, 4],
     [4, 10, 13, 5, 10, 10, 10, 4, 4, 10, 13, 5, 5, 5, 7, 4],
     [5, 5, 5, 5, 5, 5, 7, 5, 5, 5, 5, 5, 5, 5, 7, 5],
     [5, 5, 5, 5, 5, 5, 7, 5, 5, 5, 5, 5, 5, 5, 7, 5],
     [5, 5, 5, 5, 5, 5, 7, 5, 5, 5, 5, 5, 5, 5, 7, 5],
     [7, 7, 7, 7, 7, 7, 7, 7, 5, 5, 5, 5, 5, 5, 7, 5],
     [4, 4, 4, 4, 4, 4, 7, 4, 4, 4, 4, 4, 4, 4, 7, 4],
     [4, 4, 4, 4, 4, 4, 7, 4, 4, 4, 4, 4, 4, 4, 7, 4],
     [4, 4, 4, 4, 4, 4, 7, 4, 4, 4, 4, 4, 4, 4, 7, 4],
     [4, 4, 4, 4, 4, 4, 7, 4, 4, 4, 4, 4, 4, 4, 7, 4],
     [111, 10, 10, 10, 117, 11, 7, 11, 111, 10, 10, 10, 117, 17, 7, 11],
     [111, 10, 10, 10, 117, 11, 7, 11, 111, 10, 10, 10, 117, 17, 7, 11],
     [111, 10, 10, 10, 117, 11, 7, 11, 111, 10, 10, 10, 117, 17, 7, 11],
     [111, 10, 10, 4, 117, 11, 7, 11, 111, 5, 10, 4, 117, 17, 7, 11]
    ]

  /** The cost that execute_one charges: the table entry, less 100 when a
   *  conditional branch is taken and less 106 when it is not.  Every cost
   *  lies in 4..17, so the "cycle number incorrect" abort cannot happen. */
  function Cost(op: byte, taken: bool): (c: int)
    ensures 4 <= c <= 17
  {
    var c := CYCLES[op / 16][op % 16];
    if c > 100 then (if taken then c - 100 else c - 106) else c
  }

  /** Conditional returns cost 11 cycles when taken and 5 when not;
   *  conditional calls 17 and 11; no other cost depends on `taken`. */
  lemma ConditionalCosts(op: byte)
    ensures Decode(op).RX? ==> Cost(op, true) == 11 && Cost(op, false) == 5
    ensures Decode(op).CX? ==> Cost(op, true) == 17 && Cost(op, false) == 11
    ensures !Decode(op).RX? && !Decode(op).CX? ==> Cost(op, true) == Cost(op, false)
  {
    DecodeConditional(op);
    ConditionalColumns(op);
    PlainColumns(op);
  }

  /** The dispatch chain sends exactly the opcodes 11ccc000 to RX and
   *  11ccc100 to CX. */
  lemma DecodeConditional(op: byte)
    ensures Decode(op).RX? <==> op / 64 == 3 && op % 8 == 0
    ensures Decode(op).CX? <==> op / 64 == 3 && op % 8 == 4
  {
  }

  /** The table marks exactly the columns of the conditional returns (111)
   *  and calls (117). */
  lemma ConditionalColumns(op: byte)
    ensures op / 64 == 3 && op % 8 == 0 ==> CYCLES[op / 16][op % 16] == 111
    ensures op / 64 == 3 && op % 8 == 4 ==> CYCLES[op / 16][op % 16] == 117
  {
  }

  /** All other entries are plain costs below 100. */
  lemma PlainColumns(op: byte)
    ensures !(op / 64 == 3 && op % 8 in {0, 4}) ==> CYCLES[op / 16][op % 16] < 100
  {
  }

  /** How one call of execute_one ends: with the cycles it charged, or with
   *  the process stopping on HLT, on an opcode it refuses, or on a fetch
   *  past the program or a write into the read-only ROM. */
  datatype Outcome = Ok(cycles: int) | Halt | DecodeFault(op: byte, pc: word) | MemoryFault
}
