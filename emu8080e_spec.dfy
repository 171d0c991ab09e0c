/** What one step of 8080e.c does to the machine, stated on values.  A
 *  `State` holds everything that `struct state_t` and the memory buffer
 *  hold; each handler of execute_one is a function from the state after the
 *  opcode fetch to the state after the handler.  The methods of
 *  Emu8080e.Machine change the same things in place and are proved to agree
 *  with these functions; the lemmas at the end are about these functions. */
module Emu8080eSpec {
  import opened Bytes
  import Isa
  import opened Emu8080eDefs
  import opened Emu8080eAlu

  /** The 0x4000 bytes that MEM_LOC can reach (the mirror half of the C
   *  buffer is never addressed). */
  type Memory = m: seq<byte> | |m| == MEM_SIZE witness seq(MEM_SIZE, _ => 0)

  /** shift_reg_offset: only OUT 2 writes it, always masked with 7. */
  type Offset = x: int | 0 <= x < 8

  datatype State = State(
    pc: word, sp: word, bc: word, de: word, hl: word, a: byte, f: Flags,
    intr: bool, shiftReg: word, shiftOffset: Offset, keys: Keyboard, mem: Memory)

  /** The registers as init_machine leaves them, with the program image at
   *  address 0 and every other byte cleared. */
  function Init(rom: seq<byte>): (s: State)
    requires |rom| <= ROM_SIZE
    ensures forall i | 0 <= i < |rom| :: s.mem[i] == rom[i]
    ensures forall i | |rom| <= i < MEM_SIZE :: s.mem[i] == 0
    ensures Pack(s.f) == 0x02
  {
    InitFlagsByte();
    State(0, STACK_BOTTOM, 0, 0, 0, 0, INIT_FLAGS, false, 0, 0, NO_KEYS,
          rom + seq(MEM_SIZE - |rom|, _ => 0))
  }

  /** A handler either completes or writes into the read-only ROM, which in
   *  the C program is a fault that ends the process. */
  datatype Result = Done(s: State) | RomFault

  // ---------------------------------------------------------------- memory

  /** Reading `MEM_LOC(loc)`. */
  function Load(s: State, loc: int): byte
    requires 0 <= loc <= 0x10000
  {
    s.mem[MemLoc(loc)]
  }

  /** Writing `MEM_LOC(loc) = v`: the ROM half is mapped read-only. */
  function Store(s: State, loc: int, v: byte): (r: Result)
    requires 0 <= loc <= 0x10000
    ensures r.Done? <==> loc >= ROM_SIZE
    ensures r.Done? ==> Load(r.s, loc) == v && r.s.(mem := s.mem) == s
  {
    if MemLoc(loc) < ROM_SIZE then RomFault
    else Done(s.(mem := s.mem[MemLoc(loc) := v]))
  }

  /** A store leaves every byte that does not alias its address alone. */
  lemma StoreKeeps(s: State, loc: int, v: byte, other: int)
    requires 0 <= loc <= 0x10000 && 0 <= other <= 0x10000
    requires Store(s, loc, v).Done? && MemLoc(other) != MemLoc(loc)
    ensures Load(Store(s, loc, v).s, other) == Load(s, other)
  {
  }

  // ------------------------------------------------------------- registers

  /** get_reg, read: B, C, D, E, H, L, the byte at HL, A. */
  function RegOf(s: State, r: Isa.Reg): byte
  {
    match r
    case 0 => Hi(s.bc)
    case 1 => Lo(s.bc)
    case 2 => Hi(s.de)
    case 3 => Lo(s.de)
    case 4 => Hi(s.hl)
    case 5 => Lo(s.hl)
    case 6 => Load(s, s.hl)
    case 7 => s.a
  }

  /** get_reg, written through: a byte view of a pair, memory at HL, or A.
   *  Only M can fault, when HL points into the ROM. */
  function SetReg(s: State, r: Isa.Reg, v: byte): (res: Result)
    ensures res.Done? <==> r != Isa.M || s.hl >= ROM_SIZE
    ensures res.Done? ==> RegOf(res.s, r) == v
    ensures res.Done? ==> forall q: Isa.Reg | q != r && q != Isa.M :: RegOf(res.s, q) == RegOf(s, q)
    ensures res.Done? ==> res.s.(bc := s.bc, de := s.de, hl := s.hl, a := s.a, mem := s.mem) == s
    ensures res.Done? && r != Isa.M ==> res.s.mem == s.mem
  {
    match r
    case 0 => Done(s.(bc := WithHi(s.bc, v)))
    case 1 => Done(s.(bc := WithLo(s.bc, v)))
    case 2 => Done(s.(de := WithHi(s.de, v)))
    case 3 => Done(s.(de := WithLo(s.de, v)))
    case 4 => Done(s.(hl := WithHi(s.hl, v)))
    case 5 => Done(s.(hl := WithLo(s.hl, v)))
    case 6 => Store(s, s.hl, v)
    case 7 => Done(s.(a := v))
  }

  /** get_dreg: BC, DE, HL, SP. */
  function PairOf(s: State, rp: Isa.Pair): word
  {
    match rp
    case 0 => s.bc
    case 1 => s.de
    case 2 => s.hl
    case 3 => s.sp
  }

  /** Writing through get_dreg: only the selected pair changes. */
  function SetPair(s: State, rp: Isa.Pair, w: word): (t: State)
    ensures PairOf(t, rp) == w
    ensures forall q: Isa.Pair | q != rp :: PairOf(t, q) == PairOf(s, q)
    ensures t.(bc := s.bc, de := s.de, hl := s.hl, sp := s.sp) == s
  {
    match rp
    case 0 => s.(bc := w)
    case 1 => s.(de := w)
    case 2 => s.(hl := w)
    case 3 => s.(sp := w)
  }

  /** The accumulator and the flags from an ALU helper. */
  function WithAcc(s: State, r: (byte, Flags)): State
  {
    s.(a := r.0, f := r.1)
  }

  // -------------------------------------------------------------- operands

  /** read_8b: the byte at PC; PC moves past it. */
  function Fetch8(s: State): (r: (byte, State))
    ensures r.1 == s.(pc := Inc16(s.pc))
  {
    (Load(s, s.pc), s.(pc := Inc16(s.pc)))
  }

  /** read_16b: a little-endian word at PC; PC moves past both bytes. */
  function Fetch16(s: State): (r: (word, State))
    ensures Lo(r.0) == Load(s, s.pc) && Hi(r.0) == Load(s, Inc16(s.pc))
    ensures r.1 == s.(pc := (s.pc + 2) % 0x10000)
  {
    var lo := Load(s, s.pc);
    var hi := Load(s, Inc16(s.pc));
    (Join(hi, lo), s.(pc := Inc16(Inc16(s.pc))))
  }

  // ----------------------------------------------------------------- stack

  /** The push sequence of PUSH, call_if and generate_intr: the high byte
   *  is written at `--sp`, then the low byte at `--sp`. */
  function PushWord(s: State, w: word): (r: Result)
    ensures r.Done? <==> Dec16(s.sp) >= ROM_SIZE && Dec16(Dec16(s.sp)) >= ROM_SIZE
    ensures r.Done? ==> r.s.sp == Dec16(Dec16(s.sp))
    ensures r.Done? ==> Load(r.s, r.s.sp) == Lo(w) && Load(r.s, Dec16(s.sp)) == Hi(w)
    ensures r.Done? ==> r.s.(mem := s.mem, sp := s.sp) == s
  {
    var sp1 := Dec16(s.sp);
    match Store(s.(sp := sp1), sp1, Hi(w))
    case RomFault => RomFault
    case Done(s1) =>
      var sp2 := Dec16(sp1);
      assert MemLoc(sp2) != MemLoc(sp1) by { MemLocAliases(sp1, sp2); }
      Store(s1.(sp := sp2), sp2, Lo(w))
  }

  /** The pop sequence of POP and return_if: the low byte from `sp++`,
   *  then the high byte from `sp++`. */
  function PopWord(s: State): (r: (word, State))
    ensures Lo(r.0) == Load(s, s.sp) && Hi(r.0) == Load(s, Inc16(s.sp))
    ensures r.1 == s.(sp := Inc16(Inc16(s.sp)))
  {
    (Join(Load(s, Inc16(s.sp)), Load(s, s.sp)), s.(sp := Inc16(Inc16(s.sp))))
  }

  // ------------------------------------------------------------- branches

  /** jump_if: the operand is always consumed; PC takes it when `c`. */
  function JumpIf(s: State, c: bool): (t: State)
    ensures !c ==> t == s.(pc := (s.pc + 2) % 0x10000)
    ensures c ==> t == s.(pc := Fetch16(s).0)
  {
    var (target, t) := Fetch16(s);
    if c then t.(pc := target) else t
  }

  /** call_if: the operand is always consumed; when `c`, the address after
   *  it is pushed and PC takes the operand. */
  function CallIf(s: State, c: bool): (r: Result)
    ensures !c ==> r == Done(s.(pc := (s.pc + 2) % 0x10000))
    ensures c && r.Done? ==> r.s.pc == Fetch16(s).0 && r.s.sp == Dec16(Dec16(s.sp))
  {
    var (target, t) := Fetch16(s);
    if c then
      match PushWord(t, t.pc)
      case RomFault => RomFault
      case Done(u) => Done(u.(pc := target))
    else Done(t)
  }

  /** return_if: when `c`, PC is popped; otherwise nothing changes. */
  function ReturnIf(s: State, c: bool): (t: State)
    ensures !c ==> t == s
    ensures c ==> t.sp == Inc16(Inc16(s.sp)) && t.pc == PopWord(s).0
  {
    if c then
      var (target, t) := PopWord(s);
      t.(pc := target)
    else s
  }

  function Pchl(s: State): State { s.(pc := s.hl) }
  function Jx(s: State, cc: Isa.Cond): State { JumpIf(s, Cond(s.f, cc)) }
  function Jmp(s: State): State { JumpIf(s, true) }
  function Cx(s: State, cc: Isa.Cond): Result { CallIf(s, Cond(s.f, cc)) }
  function Cal(s: State): Result { CallIf(s, true) }
  function Rx(s: State, cc: Isa.Cond): State { ReturnIf(s, Cond(s.f, cc)) }
  function Ret(s: State): State { ReturnIf(s, true) }

  // ------------------------------------------------------------- transfers

  function Lxi(s: State, rp: Isa.Pair): State
  {
    var (w, t) := Fetch16(s);
    SetPair(t, rp, w)
  }

  function Mvi(s: State, r: Isa.Reg): Result
  {
    var (v, t) := Fetch8(s);
    SetReg(t, r, v)
  }

  function Lda(s: State): State
  {
    var (addr, t) := Fetch16(s);
    t.(a := Load(t, addr))
  }

  /** LHLD: L from the operand address, H from the address after it (the
   *  sum is an `int` in C, so 0xFFFF + 1 is 0x10000, which MEM_LOC maps to
   *  0x2000). */
  function Lhld(s: State): (t: State)
    ensures var addr := Fetch16(s).0; Lo(t.hl) == Load(s, addr) && Hi(t.hl) == Load(s, addr + 1)
    ensures t == Fetch16(s).1.(hl := t.hl)
  {
    var addr := Fetch16(s).0;
    var hl := Join(Load(s, addr + 1), Load(s, addr));
    Fetch16(s).1.(hl := hl)
  }

  /** SHLD: L to the operand address, then H to the address after it. */
  function Shld(s: State): Result
  {
    var (addr, t) := Fetch16(s);
    match Store(t, addr, Lo(t.hl))
    case RomFault => RomFault
    case Done(u) => Store(u, addr + 1, Hi(u.hl))
  }

  /** SHLD completes exactly when the operand address is RAM. */
  lemma ShldFaults(s: State)
    ensures Shld(s).Done? <==> Fetch16(s).0 >= ROM_SIZE
  {
    var (addr, t) := Fetch16(s);
    RomWriteIffRomAddress(addr);
    RomWriteIffRomAddress(addr + 1);
  }

  /** When SHLD completes, L is at the operand address and H at the next. */
  lemma ShldStores(s: State)
    requires Shld(s).Done?
    ensures var addr := Fetch16(s).0;
      Load(Shld(s).s, addr) == Lo(s.hl) && Load(Shld(s).s, addr + 1) == Hi(s.hl)
  {
    var (addr, t) := Fetch16(s);
    var first := Store(t, addr, Lo(t.hl));
    var second := Store(first.s, addr + 1, Hi(first.s.hl));
    assert Shld(s) == second;
    NextLocDiffers(addr);
    StoreKeeps(first.s, addr + 1, Hi(first.s.hl), addr);
  }

  /** When SHLD completes, only memory and PC have changed. */
  lemma ShldKeepsRegisters(s: State)
    requires Shld(s).Done?
    ensures Shld(s).s.(mem := s.mem) == Fetch16(s).1
  {
  }

  /** LHLD, given the operand fetch and the two bytes it loads. */
  lemma LhldFrom(s: State, addr: word, t: State, l: byte, h: byte)
    requires (addr, t) == Fetch16(s)
    requires l == Load(t, addr) && h == Load(t, addr + 1)
    ensures Lhld(s) == t.(hl := Join(h, l))
  { }

  /** SHLD, given the operand fetch and the first of its two stores. */
  lemma ShldFrom(s: State, addr: word, t: State, u: State)
    requires (addr, t) == Fetch16(s) && Store(t, addr, Lo(t.hl)) == Done(u)
    ensures Shld(s) == Store(u, addr + 1, Hi(u.hl))
  { }

  function Ldax(s: State, rp: Isa.Pair): State { s.(a := Load(s, PairOf(s, rp))) }

  function Mov(s: State, dst: Isa.Reg, src: Isa.Reg): Result { SetReg(s, dst, RegOf(s, src)) }

  function Sta(s: State): Result
  {
    var (addr, t) := Fetch16(s);
    Store(t, addr, t.a)
  }

  // ----------------------------------------------------------- arithmetic

  /** ADD and ADC: the carry is added to the register before add sees it. */
  function AddReg(s: State, src: Isa.Reg, carry: bool): State
  {
    WithAcc(s, AluAdd(s.f, s.a, RegOf(s, src) + (if carry then B2I(s.f.cy) else 0)))
  }

  /** SUB and SBB. */
  function SubReg(s: State, src: Isa.Reg, carry: bool): State
  {
    WithAcc(s, AluSub(s.f, s.a, RegOf(s, src) + (if carry then B2I(s.f.cy) else 0)))
  }

  function Sbi(s: State): State
  {
    var (v, t) := Fetch8(s);
    WithAcc(t, AluSub(t.f, t.a, v + B2I(t.f.cy)))
  }

  /** CMP: the flags of A minus the register; A is kept. */
  function Cmp(s: State, src: Isa.Reg): (t: State)
    ensures t.a == s.a && (t.f.cy <==> s.a < RegOf(s, src)) && (t.f.z <==> s.a == RegOf(s, src))
    ensures t == s.(f := t.f)
  {
    s.(f := AluSub(s.f, s.a, RegOf(s, src)).1)
  }

  /** CPI: the flags of A minus the immediate byte; A is kept. */
  function Cpi(s: State): (t: State)
    ensures t.a == s.a && (t.f.cy <==> s.a < Fetch8(s).0) && (t.f.z <==> s.a == Fetch8(s).0)
    ensures t == Fetch8(s).1.(f := t.f)
  {
    var (v, t) := Fetch8(s);
    t.(f := AluSub(t.f, t.a, v).1)
  }

  function Inx(s: State, rp: Isa.Pair): State { SetPair(s, rp, Inc16(PairOf(s, rp))) }
  function Dcx(s: State, rp: Isa.Pair): State { SetPair(s, rp, Dec16(PairOf(s, rp))) }

  /** INR and DCR: the flags come from inc_dec, then the result is written
   *  back through get_reg. */
  function Inr(s: State, r: Isa.Reg, inc: bool): Result
  {
    var (res, g) := AluIncDec(s.f, RegOf(s, r), inc);
    SetReg(s.(f := g), r, res)
  }

  function Dad(s: State, rp: Isa.Pair): State
  {
    var (res, g) := DoubleAdd(s.hl, PairOf(s, rp), s.f);
    s.(hl := res, f := g)
  }

  /** ADI: the C code adds without calling add but ends with the same
   *  flags. */
  function Adi(s: State): State
  {
    var (v, t) := Fetch8(s);
    WithAcc(t, AluAdd(t.f, t.a, v))
  }

  /** SUI: likewise the flags of sub. */
  function Sui(s: State): State
  {
    var (v, t) := Fetch8(s);
    WithAcc(t, AluSub(t.f, t.a, v))
  }

  function Daa(s: State): State { WithAcc(s, DecimalAdjust(s.a, s.f)) }

  // ---------------------------------------------------------------- logic

  function Ana(s: State, src: Isa.Reg): State { WithAcc(s, AluAnd(s.f, s.a, RegOf(s, src), false)) }
  function Xra(s: State, src: Isa.Reg): State { WithAcc(s, AluXor(s.f, s.a, RegOf(s, src))) }
  function Ora(s: State, src: Isa.Reg): State { WithAcc(s, AluOr(s.f, s.a, RegOf(s, src))) }

  function Ani(s: State): State
  {
    var (v, t) := Fetch8(s);
    WithAcc(t, AluAnd(t.f, t.a, v, true))
  }

  function Ori(s: State): State
  {
    var (v, t) := Fetch8(s);
    WithAcc(t, AluOr(t.f, t.a, v))
  }

  function Rlc(s: State): State { WithAcc(s, RotateLeft(s.a, s.f)) }
  function Rrc(s: State): State { WithAcc(s, RotateRight(s.a, s.f)) }
  function Rar(s: State): State { WithAcc(s, RotateRightThroughCarry(s.a, s.f)) }
  function Cma(s: State): State { s.(a := Complement(s.a)) }
  function Stc(s: State): State { s.(f := s.f.(cy := true)) }

  // ------------------------------------------------ stack and exchanges

  /** POP of BC, DE or HL. */
  function Pop(s: State, rp: Isa.Pair): State
  {
    var (w, t) := PopWord(s);
    SetPair(t, rp, w)
  }

  /** PUSH of BC, DE or HL. */
  function Push(s: State, rp: Isa.Pair): Result { PushWord(s, PairOf(s, rp)) }

  /** PUSH PSW writes A at `--sp` and then F at `--sp`: the push sequence of
   *  the word whose high byte is A and whose low byte is F. */
  function PushPsw(s: State): Result { PushWord(s, Join(s.a, Pack(s.f))) }

  /** POP PSW reads F from `sp++` and then A from `sp++`. */
  function PopPsw(s: State): State
  {
    var (w, t) := PopWord(s);
    t.(a := Hi(w), f := Unpack(Lo(w)))
  }

  /** XTHL: L is exchanged with the byte at SP, then H with the byte at
   *  SP + 1 (an `int` sum, as in LHLD). */
  function Xthl(s: State): Result
  {
    var l := Lo(s.hl);
    var s1 := s.(hl := WithLo(s.hl, Load(s, s.sp)));
    match Store(s1, s1.sp, l)
    case RomFault => RomFault
    case Done(s2) =>
      var h := Hi(s2.hl);
      var s3 := s2.(hl := WithHi(s2.hl, Load(s2, s2.sp + 1)));
      Store(s3, s3.sp + 1, h)
  }

  /** XTHL, given the state after its first store. */
  lemma XthlFrom(s: State, s2: State)
    requires Store(s.(hl := WithLo(s.hl, Load(s, s.sp))), s.sp, Lo(s.hl)) == Done(s2)
    ensures Xthl(s) == Store(s2.(hl := WithHi(s2.hl, Load(s2, s2.sp + 1))), s2.sp + 1, Hi(s2.hl))
  {
  }

  function Xchg(s: State): State { s.(hl := s.de, de := s.hl) }

  // ----------------------------------------------------------------- ports

  /** The byte IN returns for a port: 0x0D on port 0, the keys on port 1,
   *  the shift-register window on port 3, and 0 on any other port. */
  function InPort(s: State, port: byte): (v: byte)
    ensures port == 0 ==> v == 0x0D
    ensures port == 3 ==> v == ShiftRead(s.shiftReg, s.shiftOffset)
    ensures port !in {0, 1, 3} ==> v == 0
  {
    match port
    case 0 => 0x0D
    case 1 => InPort1(s.keys)
    case 3 => ShiftRead(s.shiftReg, s.shiftOffset)
    case _ => 0
  }

  function In(s: State): State
  {
    var (port, t) := Fetch8(s);
    t.(a := InPort(t, port))
  }

  /** OUT: port 2 sets the shift offset to the low three bits of A, port 4
   *  shifts A into the shift register, every other port is ignored. */
  function Out(s: State): (t: State)
    ensures Fetch8(s).0 == 2 ==> t == Fetch8(s).1.(shiftOffset := s.a % 8)
    ensures Fetch8(s).0 == 4 ==> t == Fetch8(s).1.(shiftReg := ShiftPush(s.shiftReg, s.a))
    ensures Fetch8(s).0 !in {2, 4} ==> t == Fetch8(s).1
  {
    var (port, t) := Fetch8(s);
    if port == 2 then t.(shiftOffset := t.a % 8)
    else if port == 4 then t.(shiftReg := ShiftPush(t.shiftReg, t.a))
    else t
  }

  function Ei(s: State): State { s.(intr := true) }

  // -------------------------------------------------------------- dispatch

  /** The handlers execute_one calls (every Op except the three that stop
   *  the program). */
  predicate Executes(o: Op)
  {
    !o.HLT? && !o.Alternate? && !o.Unrecognized?
  }

  /** The handlers that the if-chain of the dispatch selects by bit mask;
   *  the switch after it selects the others. */
  predicate FromChain(o: Op)
  {
    || o.MOV? || o.ADD? || o.SUB? || o.ANA? || o.XRA? || o.ORA? || o.CMP?
    || o.LXI? || o.INX? || o.DCX? || o.DAD? || o.INR? || o.CX? || o.JX?
    || o.MVI? || o.RX?
  }

  /** The handler for `o`, run on the state after the opcode fetch. */
  function Exec(s: State, o: Op): Result
    requires Executes(o)
  {
    match o
    case MOV(d, r) => Mov(s, d, r)
    case ADD(r, c) => Done(AddReg(s, r, c))
    case SUB(r, c) => Done(SubReg(s, r, c))
    case ANA(r) => Done(Ana(s, r))
    case XRA(r) => Done(Xra(s, r))
    case ORA(r) => Done(Ora(s, r))
    case CMP(r) => Done(Cmp(s, r))
    case LXI(rp) => Done(Lxi(s, rp))
    case INX(rp) => Done(Inx(s, rp))
    case DCX(rp) => Done(Dcx(s, rp))
    case DAD(rp) => Done(Dad(s, rp))
    case INR(r, inc) => Inr(s, r, inc)
    case CX(cc) => Cx(s, cc)
    case JX(cc) => Done(Jx(s, cc))
    case MVI(r) => Mvi(s, r)
    case RX(cc) => Done(Rx(s, cc))
    case NOP => Done(s)
    case RLC => Done(Rlc(s))
    case LDAX(rp) => Done(Ldax(s, rp))
    case RRC => Done(Rrc(s))
    case RAR => Done(Rar(s))
    case SHLD => Shld(s)
    case DAA => Done(Daa(s))
    case LHLD => Done(Lhld(s))
    case CMA => Done(Cma(s))
    case STA => Sta(s)
    case STC => Done(Stc(s))
    case LDA => Done(Lda(s))
    case POP(rp) => Done(Pop(s, rp))
    case JMP => Done(Jmp(s))
    case PUSH(rp) => Push(s, rp)
    case ADI => Done(Adi(s))
    case RET => Done(Ret(s))
    case CAL => Cal(s)
    case OUT => Done(Out(s))
    case SUI => Done(Sui(s))
    case IN => Done(In(s))
    case SBI => Done(Sbi(s))
    case XTHL => Xthl(s)
    case ANI => Done(Ani(s))
    case PCHL => Done(Pchl(s))
    case XCHG => Done(Xchg(s))
    case POPPSW => Done(PopPsw(s))
    case PUSHPSW => PushPsw(s)
    case ORI => Done(Ori(s))
    case EI => Done(Ei(s))
    case CPI => Done(Cpi(s))
  }

  /** The `taken` of execute_one: the condition for CX and RX, true for
   *  every other handler. */
  function Taken(s: State, o: Op): bool
  {
    match o
    case CX(cc) => Cond(s.f, cc)
    case RX(cc) => Cond(s.f, cc)
    case _ => true
  }

  /** execute_one: the bound check on PC, the fetch, the dispatch and the
   *  cost.  The state in the second component is meaningful only when the
   *  outcome is Ok. */
  function Step(s: State, programSize: word): (r: (Outcome, State))
    requires programSize <= ROM_SIZE
    ensures r.0.Ok? ==> 4 <= r.0.cycles <= 17
  {
    if s.pc > programSize then (MemoryFault, s)
    else
      var op := s.mem[s.pc];
      var s1 := s.(pc := Inc16(s.pc));
      var o := Decode(op);
      if o.HLT? then (Halt, s1)
      else if o.Alternate? || o.Unrecognized? then (DecodeFault(op, s1.pc), s1)
      else
        match Exec(s1, o)
        case RomFault => (MemoryFault, s1)
        case Done(s2) => (Ok(Cost(op, Taken(s1, o))), s2)
  }

  /** How execute ends: with the cycles it ran once they reach the budget,
   *  or with the outcome that stopped the program. */
  datatype RunOutcome = Completed(cycles: int) | Stopped(why: Outcome)

  /** execute: steps until the accumulated cycles reach the budget.  It
   *  never stops part-way through an instruction, so a run that completes
   *  has used at least the budget, and less than the budget plus the
   *  dearest instruction when it started below the budget. */
  function Run(s: State, programSize: word, budget: int, cycle: int): (r: (RunOutcome, State))
    requires programSize <= ROM_SIZE
    ensures r.0.Completed? ==> budget <= r.0.cycles
    ensures r.0.Completed? && cycle < budget ==> r.0.cycles < budget + 17
    ensures cycle >= budget ==> r == (Completed(cycle), s)
    decreases budget - cycle, 1
  {
    if cycle >= budget then (Completed(cycle), s)
    else Continue(Step(s, programSize), programSize, budget, cycle)
  }

  /** The rest of a run after one step that started below the budget. */
  function Continue(step: (Outcome, State), programSize: word, budget: int, cycle: int): (r: (RunOutcome, State))
    requires programSize <= ROM_SIZE && cycle < budget
    requires step.0.Ok? ==> 4 <= step.0.cycles <= 17
    ensures r.0.Completed? ==> budget <= r.0.cycles < budget + 17
    decreases budget - cycle, 0
  {
    if step.0.Ok? then Run(step.1, programSize, budget, cycle + step.0.cycles)
    else (Stopped(step.0), step.1)
  }

  /** A run below the budget is one step followed by the rest of the run. */
  lemma RunUnfold(s: State, programSize: word, budget: int, cycle: int)
    requires programSize <= ROM_SIZE && cycle < budget
    ensures Run(s, programSize, budget, cycle) == Continue(Step(s, programSize), programSize, budget, cycle)
  {
  }

  lemma ContinueOk(programSize: word, budget: int, cycle: int, o: Outcome, t: State)
    requires programSize <= ROM_SIZE && cycle < budget && o.Ok? && 4 <= o.cycles <= 17
    ensures Continue((o, t), programSize, budget, cycle) == Run(t, programSize, budget, cycle + o.cycles)
  {
  }

  lemma ContinueStopped(programSize: word, budget: int, cycle: int, o: Outcome, t: State)
    requires programSize <= ROM_SIZE && cycle < budget && !o.Ok?
    ensures Continue((o, t), programSize, budget, cycle).0 == Stopped(o)
  {
  }

  /** One round of the loop of execute: after a step taken below the budget
   *  the run goes on from the new state, or it stops with that step's
   *  outcome. */
  lemma RunAfterStep(s: State, programSize: word, budget: int, cycle: int, o: Outcome, t: State)
    requires programSize <= ROM_SIZE && cycle < budget
    requires o == Step(s, programSize).0 && (o.Ok? ==> t == Step(s, programSize).1)
    ensures o.Ok? ==> Run(t, programSize, budget, cycle + o.cycles) == Run(s, programSize, budget, cycle)
    ensures !o.Ok? ==> Run(s, programSize, budget, cycle).0 == Stopped(o)
  {
    RunUnfold(s, programSize, budget, cycle);
    if o.Ok? {
      assert Step(s, programSize) == (o, t);
      ContinueOk(programSize, budget, cycle, o, t);
    } else {
      ContinueStopped(programSize, budget, cycle, o, Step(s, programSize).1);
    }
  }

  /** generate_intr: nothing when interrupts are off; otherwise PC is pushed
   *  and PC becomes 8 * n.  `intr` stays set. */
  function GenerateIntr(s: State, n: int): Result
  {
    if !s.intr then Done(s)
    else
      match PushWord(s, s.pc)
      case RomFault => RomFault
      case Done(t) => Done(t.(pc := (8 * n) % 0x10000))
  }
}
