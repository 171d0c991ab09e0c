/** The CPU of references/reference.c as functions on one value: the `cpu`
 *  struct, `mem`, the shift hardware and the key byte together.  Each case
 *  of the opcode switch in cpu_run, the interrupt routine and the cpu_run
 *  loop are functions here; the class in Reference is proved to do what
 *  they say. */
module RefSpec {
  import opened Bytes
  import Isa
  import opened RefDefs

  /** The machine.  `flags` and `a` are the two bytes of PSW in the register
   *  union; `res` is RES, `aux` is `cpu.a`, `ie` is `cpu.i`; `shiftReg`,
   *  `shiftOffset` and `key` are the globals the ports use. */
  datatype Cpu = Cpu(
    pc: word, sp: word, flags: byte, a: byte, bc: word, de: word, hl: word,
    res: word, aux: bool, ie: bool, ipend: byte, cycles: int,
    shiftReg: word, shiftOffset: Offset, key: byte, mem: Memory)

  /** The ROM half of a memory image. */
  function Rom(m: Memory): seq<byte>
  {
    m[..ROM_SIZE]
  }

  /** The start-up state: memory cleared and the four ROM files loaded
   *  below 0x2000, the cpu struct cleared except RES, which is 1, so that
   *  every flag reads as clear. */
  function Init(rom: seq<byte>): (s: Cpu)
    requires |rom| == ROM_SIZE
    ensures Rom(s.mem) == rom
    ensures forall i | ROM_SIZE <= i < MEM_SIZE :: s.mem[i] == 0
    ensures s.pc == 0 && s.sp == 0 && !s.ie && s.ipend == 0 && s.cycles == 0
    ensures !Carry(s.res) && !Zero(s.res) && !Minus(s.res) && !ParityEven(s.res)
  {
    assert LutParity(1) == 0;
    Cpu(0, 0, 0, 0, 0, 0, 0, 1, false, false, 0, 0, 0, 0, 0, rom + seq(ROM_SIZE, _ => 0))
  }

  // ---------------------------------------------------------------- memory

  /** R8(a) */
  function R8(s: Cpu, a: int): byte
    requires 0 <= a <= 0x10000
  {
    s.mem[R8Loc(a)]
  }

  /** R16(a): the byte at `a + 1` above the byte at `a`. */
  function R16(s: Cpu, a: word): word
  {
    Join(R8(s, a + 1), R8(s, a))
  }

  /** W8(a, v): the store happens only above 0x1FFF; a store into the ROM
   *  half is dropped without a trace. */
  function W8(s: Cpu, a: int, v: byte): (r: Cpu)
    requires 0 <= a <= 0x10000
    ensures r == s.(mem := r.mem) && Rom(r.mem) == Rom(s.mem)
    ensures a > 0x1FFF ==> R8(r, a) == v
    ensures a <= 0x1FFF ==> r == s
    ensures forall b | 0 <= b <= 0x10000 && R8Loc(b) != R8Loc(a) :: R8(r, b) == R8(s, b)
  {
    if a > 0x1FFF then s.(mem := s.mem[R8Loc(a) := v]) else s
  }

  // ------------------------------------------------------------- registers

  /** The register operand of an opcode: B, C, D, E, H, L, the byte at HL,
   *  A.  B, D and H are the high bytes of their pairs. */
  function Reg(s: Cpu, r: Isa.Reg): byte
  {
    match r
    case 0 => Hi(s.bc)
    case 1 => Lo(s.bc)
    case 2 => Hi(s.de)
    case 3 => Lo(s.de)
    case 4 => Hi(s.hl)
    case 5 => Lo(s.hl)
    case 6 => R8(s, s.hl)
    case 7 => s.a
  }

  /** An assignment to a register operand; M is a W8 at HL. */
  function SetReg(s: Cpu, r: Isa.Reg, v: byte): (t: Cpu)
    ensures r != Isa.M ==> Reg(t, r) == v && t.mem == s.mem
    ensures r == Isa.M ==> t == W8(s, s.hl, v)
    ensures t.pc == s.pc && t.sp == s.sp && t.res == s.res && t.cycles == s.cycles
    ensures t.ie == s.ie && t.ipend == s.ipend && Rom(t.mem) == Rom(s.mem)
  {
    match r
    case 0 => s.(bc := WithHi(s.bc, v))
    case 1 => s.(bc := WithLo(s.bc, v))
    case 2 => s.(de := WithHi(s.de, v))
    case 3 => s.(de := WithLo(s.de, v))
    case 4 => s.(hl := WithHi(s.hl, v))
    case 5 => s.(hl := WithLo(s.hl, v))
    case 6 => W8(s, s.hl, v)
    case 7 => s.(a := v)
  }

  /** The pair operand: BC, DE, HL, SP. */
  function Pair(s: Cpu, rp: Isa.Pair): word
  {
    match rp
    case 0 => s.bc
    case 1 => s.de
    case 2 => s.hl
    case 3 => s.sp
  }

  function SetPair(s: Cpu, rp: Isa.Pair, w: word): (t: Cpu)
    ensures Pair(t, rp) == w
    ensures forall q: Isa.Pair | q != rp :: Pair(t, q) == Pair(s, q)
    ensures t == s.(bc := t.bc, de := t.de, hl := t.hl, sp := t.sp)
  {
    match rp
    case 0 => s.(bc := w)
    case 1 => s.(de := w)
    case 2 => s.(hl := w)
    case 3 => s.(sp := w)
  }

  /** The accumulator and the lazy flags, and putting them back. */
  function AccOf(s: Cpu): Acc
  {
    Acc(s.a, s.res, s.aux)
  }

  function WithAcc(s: Cpu, x: Acc): Cpu
  {
    s.(a := x.a, res := x.res, aux := x.aux)
  }

  /** ISZERO, ISCARRY, ... for condition field `cc`. */
  predicate Cond(s: Cpu, cc: Isa.Cond)
  {
    Holds(s.res, cc)
  }

  // ----------------------------------------------------------------- stack

  /** PUSH16(v): SP drops by two, then the low byte is stored at SP and
   *  the high byte at SP + 1. */
  function Push16(s: Cpu, v: word): (t: Cpu)
    ensures t.sp == (s.sp + 0xFFFE) % 0x10000 && t == s.(sp := t.sp, mem := t.mem)
    ensures Rom(t.mem) == Rom(s.mem)
  {
    var sp := (s.sp + 0xFFFE) % 0x10000;
    var t := W8(s.(sp := sp), sp, Lo(v));
    W8(t, sp + 1, Hi(v))
  }

  /** POP16(): the word at SP, and SP up by two. */
  function Pop16(s: Cpu): (r: (word, Cpu))
    ensures r.0 == R16(s, s.sp) && r.1 == s.(sp := (s.sp + 2) % 0x10000)
  {
    (R16(s, s.sp), s.(sp := (s.sp + 2) % 0x10000))
  }

  /** A push lands in RAM: both bytes below SP are above 0x1FFF. */
  predicate PushInRam(s: Cpu)
  {
    (s.sp + 0xFFFE) % 0x10000 > 0x1FFF
  }

  /** POP16 undoes PUSH16 when the stack is in RAM: the word comes back and
   *  SP is where it was. */
  lemma PopUndoesPush16(s: Cpu, v: word)
    requires PushInRam(s)
    ensures Pop16(Push16(s, v)).0 == v && Pop16(Push16(s, v)).1.sp == s.sp
  {
    var sp := (s.sp + 0xFFFE) % 0x10000;
    var t := Push16(s, v);
    NextLocDiffers(sp);
    assert R8(t, sp) == Lo(v) && R8(t, sp + 1) == Hi(v);
    JoinHiLo(v);
  }

  /** A push whose two bytes both fall in the ROM half changes no memory. */
  lemma PushIntoRom(s: Cpu, v: word)
    requires (s.sp + 0xFFFE) % 0x10000 < 0x1FFF
    ensures Push16(s, v).mem == s.mem
  {
  }

  // ----------------------------------------------------- move, load, store

  /** MVI r: the byte after the opcode goes to r. */
  function Mvi(s: Cpu, r: Isa.Reg): Cpu
  {
    SetReg(s, r, R8(s, s.pc)).(pc := Inc16(s.pc))
  }

  /** LXI rp: the word after the opcode goes to rp. */
  function Lxi(s: Cpu, rp: Isa.Pair): Cpu
  {
    SetPair(s, rp, R16(s, s.pc)).(pc := (s.pc + 2) % 0x10000)
  }

  /** SHLD: L to the operand address and H to the next byte.  The operand
   *  is read again for the second store, after the first. */
  function Shld(s: Cpu): (r: Cpu)
    ensures r == s.(mem := r.mem, pc := (s.pc + 2) % 0x10000) && Rom(r.mem) == Rom(s.mem)
  {
    ShldHigh(W8(s, R16(s, s.pc), Lo(s.hl)))
  }

  /** The second half of SHLD, on the state after the first store. */
  function ShldHigh(t: Cpu): (r: Cpu)
    ensures r == t.(mem := r.mem, pc := (t.pc + 2) % 0x10000) && Rom(r.mem) == Rom(t.mem)
  {
    W8(t, R16(t, t.pc) + 1, Hi(t.hl)).(pc := (t.pc + 2) % 0x10000)
  }

  /** When the first store of SHLD does not touch its own operand, L and H
   *  land at the operand address and the byte after it, as far as those
   *  are RAM. */
  lemma ShldStores(s: Cpu)
    requires R16(s, s.pc) > 0x1FFF
    requires R8Loc(R16(s, s.pc)) != R8Loc(s.pc) && R8Loc(R16(s, s.pc)) != R8Loc(s.pc + 1)
    ensures R8(Shld(s), R16(s, s.pc)) == Lo(s.hl)
    ensures R8(Shld(s), R16(s, s.pc) + 1) == Hi(s.hl)
  {
    var addr := R16(s, s.pc);
    var t := W8(s, addr, Lo(s.hl));
    assert R8(t, s.pc) == R8(s, s.pc) && R8(t, s.pc + 1) == R8(s, s.pc + 1);
    assert R16(t, t.pc) == addr;
    var u := W8(t, addr as int + 1, Hi(s.hl));
    NextLocDiffers(addr);
    assert R8(u, addr) == Lo(s.hl) && R8(u, addr as int + 1) == Hi(s.hl);
    assert Shld(s) == u.(pc := (u.pc + 2) % 0x10000);
  }

  /** LHLD: L from the operand address, H from the next byte. */
  function Lhld(s: Cpu): Cpu
  {
    s.(hl := Join(R8(s, R16(s, s.pc) + 1), R8(s, R16(s, s.pc))), pc := (s.pc + 2) % 0x10000)
  }

  /** LHLD in terms of the address and the two bytes read. */
  lemma LhldFrom(s: Cpu, addr: word, lo: byte, hi: byte)
    requires addr == R16(s, s.pc) && lo == R8(s, addr) && hi == R8(s, addr as int + 1)
    ensures Lhld(s) == s.(hl := Join(hi, lo), pc := (s.pc + 2) % 0x10000)
  {
  }

  /** STA: A to the operand address. */
  function Sta(s: Cpu): Cpu
  {
    W8(s, R16(s, s.pc), s.a).(pc := (s.pc + 2) % 0x10000)
  }

  /** LDA: A from the operand address. */
  function Lda(s: Cpu): Cpu
  {
    s.(a := R8(s, R16(s, s.pc)), pc := (s.pc + 2) % 0x10000)
  }

  /** XCHG: `HL^=DE; DE^=HL; HL^=DE`, which exchanges the pairs. */
  function Xchg(s: Cpu): Cpu
  {
    s.(hl := s.de, de := s.hl)
  }

  lemma XchgTwice(s: Cpu)
    ensures Xchg(Xchg(s)) == s
    ensures Xchg(s).hl == s.de && Xchg(s).de == s.hl
  {
  }

  /** MOV d,src: `mov r,r` is a bare `break`, which is what assigning r to
   *  itself does. */
  function Mov(s: Cpu, d: Isa.Reg, src: Isa.Reg): Cpu
  {
    SetReg(s, d, Reg(s, src))
  }

  function Stax(s: Cpu, rp: Isa.Pair): Cpu
  {
    W8(s, Pair(s, rp), s.a)
  }

  function Ldax(s: Cpu, rp: Isa.Pair): Cpu
  {
    s.(a := R8(s, Pair(s, rp)))
  }

  predicate IsMove(i: Isa.Instr)
  {
    i.Nop? || i.Mov? || i.Mvi? || i.Lxi? || i.Xchg?
  }

  /** NOP, MOV, MVI, LXI and XCHG. */
  function Moves(s: Cpu, i: Isa.Instr): (r: Cpu)
    requires IsMove(i)
    ensures Rom(r.mem) == Rom(s.mem) && r.cycles == s.cycles
    ensures r.ie == s.ie && r.ipend == s.ipend
  {
    match i
    case Mov(d, src) => Mov(s, d, src)
    case Mvi(d) => Mvi(s, d)
    case Lxi(rp) => Lxi(s, rp)
    case Xchg => Xchg(s)
    case _ => s
  }

  predicate IsPairTransfer(i: Isa.Instr)
  {
    i.Stax? || i.Ldax?
  }

  /** STAX and LDAX: A to or from the address in BC or DE. */
  function PairTransfer(s: Cpu, i: Isa.Instr): (r: Cpu)
    requires IsPairTransfer(i)
    ensures Rom(r.mem) == Rom(s.mem) && r.cycles == s.cycles
    ensures r.ie == s.ie && r.ipend == s.ipend
  {
    if i.Stax? then Stax(s, i.rp) else Ldax(s, i.rp)
  }

  predicate IsDirectTransfer(i: Isa.Instr)
  {
    i.Shld? || i.Lhld? || i.Sta? || i.Lda?
  }

  /** SHLD, LHLD, STA and LDA: the address is the operand. */
  function DirectTransfer(s: Cpu, i: Isa.Instr): (r: Cpu)
    requires IsDirectTransfer(i)
    ensures Rom(r.mem) == Rom(s.mem) && r.cycles == s.cycles
    ensures r.ie == s.ie && r.ipend == s.ipend
  {
    match i
    case Shld => Shld(s)
    case Lhld => Lhld(s)
    case Sta => Sta(s)
    case Lda => Lda(s)
    case _ => s
  }

  predicate IsTransfer(i: Isa.Instr)
  {
    IsMove(i) || IsPairTransfer(i) || IsDirectTransfer(i)
  }

  /** The cases under "MOVE, LOAD, AND STORE" and NOP. */
  function Transfer(s: Cpu, i: Isa.Instr): (r: Cpu)
    requires IsTransfer(i)
    ensures Rom(r.mem) == Rom(s.mem) && r.cycles == s.cycles
    ensures r.ie == s.ie && r.ipend == s.ipend
  {
    if IsMove(i) then Moves(s, i)
    else if IsPairTransfer(i) then PairTransfer(s, i)
    else DirectTransfer(s, i)
  }

  // ------------------------------------------------------------ arithmetic

  /** ADD, ADC, SUB, SBB, ANA, XRA, ORA and CMP on the accumulator. */
  function AluOp(op: Isa.AluOp, x: Acc, v: byte): Acc
  {
    match op
    case Add => Add(x, v)
    case Adc => Adc(x, v)
    case Sub => Sub(x, v)
    case Sbb => Sbb(x, v)
    case Ana => Ana(x, v)
    case Xra => Xra(x, v)
    case Ora => Ora(x, v)
    case Cmp => Cmp(x, v)
  }

  /** INR and DCR: `d` is 1 for INR and 0xFF for DCR, added modulo 0x100.
   *  On M the byte is stored first and FSZP reads it back, so in the ROM
   *  half the flags see the byte unchanged. */
  function IncDec(s: Cpu, r: Isa.Reg, d: byte): (t: Cpu)
    ensures Rom(t.mem) == Rom(s.mem) && t.cycles == s.cycles && t.ie == s.ie && t.ipend == s.ipend
    ensures t.pc == s.pc && t.sp == s.sp && (r != Isa.A ==> t.a == s.a)
  {
    if r == Isa.M then
      var t := W8(s, s.hl, (R8(s, s.hl) + d) % 0x100);
      t.(res := Fszp(t.res, R8(t, t.hl)))
    else
      var v := (Reg(s, r) + d) % 0x100;
      SetReg(s, r, v).(res := Fszp(s.res, v))
  }

  /** INR and DCR keep the carry and leave the result in r and in the low
   *  byte of RES; on M in the ROM half the memory is unchanged and RES
   *  takes the old byte. */
  lemma IncDecResult(s: Cpu, r: Isa.Reg, d: byte)
    ensures Carry(IncDec(s, r, d).res) == Carry(s.res)
    ensures (r != Isa.M || s.hl > 0x1FFF) ==>
      Reg(IncDec(s, r, d), r) == (Reg(s, r) + d) % 0x100 &&
      IncDec(s, r, d).res % 0x100 == (Reg(s, r) + d) % 0x100
    ensures r == Isa.M && s.hl <= 0x1FFF ==>
      IncDec(s, r, d).mem == s.mem && IncDec(s, r, d).res % 0x100 == R8(s, s.hl)
  {
  }

  /** The ALU instructions on a register or M. */
  function AluReg(s: Cpu, op: Isa.AluOp, src: Isa.Reg): Cpu
  {
    WithAcc(s, AluOp(op, AccOf(s), Reg(s, src)))
  }

  /** The ALU instructions on the byte after the opcode. */
  function AluImm(s: Cpu, op: Isa.AluOp): Cpu
  {
    WithAcc(s, AluOp(op, AccOf(s), R8(s, s.pc))).(pc := Inc16(s.pc))
  }

  function Inx(s: Cpu, rp: Isa.Pair): Cpu
  {
    SetPair(s, rp, Inc16(Pair(s, rp)))
  }

  function Dcx(s: Cpu, rp: Isa.Pair): Cpu
  {
    SetPair(s, rp, Dec16(Pair(s, rp)))
  }

  /** DAD rp: HL plus the pair, the carry out in RES. */
  function DadPair(s: Cpu, rp: Isa.Pair): Cpu
  {
    var (hl, res) := Dad(s.hl, Pair(s, rp), s.res);
    s.(hl := hl, res := res)
  }

  predicate IsAddSubLogical(i: Isa.Instr)
  {
    i.Alu? || i.AluImm?
  }

  /** The eight operations of ADD, SUBTRACT and LOGICAL on a register or
   *  on the byte after the opcode. */
  function AddSubLogical(s: Cpu, i: Isa.Instr): (r: Cpu)
    requires IsAddSubLogical(i)
    ensures r == s.(a := r.a, res := r.res, aux := r.aux, pc := r.pc)
  {
    if i.Alu? then AluReg(s, i.op, i.src) else AluImm(s, i.op)
  }

  predicate IsIncrementDecrement(i: Isa.Instr)
  {
    i.Inr? || i.Dcr? || i.Inx? || i.Dcx? || i.Dad?
  }

  /** INCREMENT AND DECREMENT, and DAD. */
  function IncrementDecrement(s: Cpu, i: Isa.Instr): (r: Cpu)
    requires IsIncrementDecrement(i)
    ensures Rom(r.mem) == Rom(s.mem) && r.cycles == s.cycles
    ensures r.ie == s.ie && r.ipend == s.ipend
  {
    match i
    case Inr(r) => IncDec(s, r, 1)
    case Dcr(r) => IncDec(s, r, 0xFF)
    case Inx(rp) => Inx(s, rp)
    case Dcx(rp) => Dcx(s, rp)
    case Dad(rp) => DadPair(s, rp)
    case _ => s
  }

  predicate IsRotate(i: Isa.Instr)
  {
    i.Rlc? || i.Rrc? || i.Ral? || i.Rar?
  }

  /** ROTATE: RLC, RRC, RAL and RAR. */
  function Rotate(s: Cpu, i: Isa.Instr): (r: Cpu)
    requires IsRotate(i)
    ensures r == s.(a := r.a, res := r.res)
  {
    match i
    case Rlc => WithAcc(s, Rlc(AccOf(s)))
    case Rrc => WithAcc(s, Rrc(AccOf(s)))
    case Ral => WithAcc(s, Ral(AccOf(s)))
    case Rar => WithAcc(s, Rar(AccOf(s)))
    case _ => s
  }

  predicate IsSpecial(i: Isa.Instr)
  {
    i.Daa? || i.Cma? || i.Stc? || i.Cmc?
  }

  /** SPECIALS: DAA, CMA, STC and CMC. */
  function Specials(s: Cpu, i: Isa.Instr): (r: Cpu)
    requires IsSpecial(i)
    ensures r == s.(a := r.a, res := r.res, aux := r.aux)
  {
    match i
    case Daa => WithAcc(s, Daa(AccOf(s)))
    case Cma => s.(a := Cma(s.a))
    case Stc => s.(res := Stc(s.res))
    case Cmc => s.(res := Cmc(s.res))
    case _ => s
  }

  predicate IsArith(i: Isa.Instr)
  {
    IsAddSubLogical(i) || IsIncrementDecrement(i) || IsRotate(i) || IsSpecial(i)
  }

  /** The cases under ADD, SUBTRACT, LOGICAL, INCREMENT AND DECREMENT,
   *  ROTATE and SPECIALS. */
  function Arith(s: Cpu, i: Isa.Instr): (r: Cpu)
    requires IsArith(i)
    ensures Rom(r.mem) == Rom(s.mem) && r.cycles == s.cycles
    ensures r.ie == s.ie && r.ipend == s.ipend
  {
    if IsAddSubLogical(i) then AddSubLogical(s, i)
    else if IsIncrementDecrement(i) then IncrementDecrement(s, i)
    else if IsRotate(i) then Rotate(s, i)
    else Specials(s, i)
  }

  // ------------------------------------------------------------- stack ops

  /** PUSH PSW: F is rebuilt from the lazy flags and stored in the register
   *  union, then PSW (A above F) is pushed. */
  function PushPsw(s: Cpu): Cpu
  {
    var f := FlagsByte(s.res, s.aux);
    Push16(s.(flags := f), Join(s.a, f))
  }

  /** POP PSW: PSW is popped and RES and the aux flag are rebuilt from F. */
  function PopPsw(s: Cpu): Cpu
  {
    var (w, t) := Pop16(s);
    var (res, aux) := PopFlags(Lo(w));
    t.(flags := Lo(w), a := Hi(w), res := res, aux := aux)
  }

  function Push(s: Cpu, rp: Isa.Pair): (t: Cpu)
    ensures Rom(t.mem) == Rom(s.mem) && t.cycles == s.cycles && t.ie == s.ie && t.ipend == s.ipend
  {
    if rp == 3 then PushPsw(s) else Push16(s, Pair(s, rp))
  }

  function Pop(s: Cpu, rp: Isa.Pair): Cpu
  {
    if rp == 3 then PopPsw(s) else
    var (w, t) := Pop16(s);
    SetPair(t, rp, w)
  }

  /** POP of the pair just pushed restores the pair and SP. */
  lemma PopUndoesPush(s: Cpu, rp: Isa.Pair)
    requires rp < 3 && PushInRam(s)
    ensures Pair(Pop(Push(s, rp), rp), rp) == Pair(s, rp) && Pop(Push(s, rp), rp).sp == s.sp
  {
    PopUndoesPush16(s, Pair(s, rp));
  }

  /** POP PSW right after PUSH PSW restores A and SP, and every flag reads
   *  as it did. */
  lemma PopPswUndoesPushPsw(s: Cpu)
    requires PushInRam(s)
    ensures var r := PopPsw(PushPsw(s));
      r.a == s.a && r.sp == s.sp && r.aux == s.aux &&
      Carry(r.res) == Carry(s.res) && Zero(r.res) == Zero(s.res) &&
      Minus(r.res) == Minus(s.res) && ParityEven(r.res) == ParityEven(s.res)
  {
    var f := FlagsByte(s.res, s.aux);
    PopUndoesPush16(s.(flags := f), Join(s.a, f));
    FlagsRoundTrip(s.res, s.aux);
  }

  /** XTHL: `L^=R8(SP); W8(SP,R8(SP)^L); L^=R8(SP)` and the same for H at
   *  SP + 1.  When the byte is RAM the three steps exchange it with the
   *  register; when it is ROM the store is dropped and the second XOR
   *  undoes the first, so the register and the byte both stay. */
  function Xthl(s: Cpu): (r: Cpu)
    ensures Rom(r.mem) == Rom(s.mem) && r == s.(hl := r.hl, mem := r.mem)
  {
    var lo := R8(s, s.sp);
    var t := W8(s, s.sp, Lo(s.hl));
    var l := if s.sp > 0x1FFF then lo else Lo(s.hl);
    var hi := R8(t, s.sp + 1);
    var u := W8(t, s.sp + 1, Hi(s.hl));
    var h := if s.sp + 1 > 0x1FFF then hi else Hi(s.hl);
    u.(hl := Join(h, l))
  }

  /** With the top of the stack in RAM, XTHL exchanges HL with it. */
  lemma XthlSwaps(s: Cpu)
    requires s.sp > 0x1FFF
    ensures Xthl(s).hl == R16(s, s.sp) && R16(Xthl(s), s.sp) == s.hl && Xthl(s).sp == s.sp
  {
    NextLocDiffers(s.sp);
    JoinHiLo(s.hl);
  }

  /** With the top of the stack in ROM, XTHL changes nothing. */
  lemma XthlInRom(s: Cpu)
    requires s.sp + 1 <= 0x1FFF
    ensures Xthl(s) == s
  {
    JoinHiLo(s.hl);
  }

  predicate IsStack(i: Isa.Instr)
  {
    i.Push? || i.Pop? || i.Xthl? || i.Sphl?
  }

  /** The cases under STACK OPS other than LXI SP, INX SP and DCX SP. */
  function Stack(s: Cpu, i: Isa.Instr): (r: Cpu)
    requires IsStack(i)
    ensures Rom(r.mem) == Rom(s.mem) && r.cycles == s.cycles
    ensures r.ie == s.ie && r.ipend == s.ipend
  {
    if i.Push? then Push(s, i.rp)
    else if i.Pop? then Pop(s, i.rp)
    else if i.Xthl? then Xthl(s)
    else s.(sp := s.hl)
  }

  // ------------------------------------------------------------- branches

  /** JUMP(): PC takes the operand. */
  function Jmp(s: Cpu): Cpu
  {
    s.(pc := R16(s, s.pc))
  }

  /** A conditional jump skips the operand when not taken. */
  function JumpIf(s: Cpu, cc: Isa.Cond): Cpu
  {
    if Cond(s, cc) then Jmp(s) else s.(pc := (s.pc + 2) % 0x10000)
  }

  /** CALL(): PC + 2 is pushed, then PC takes the operand, read after the
   *  push. */
  function Call(s: Cpu): (r: Cpu)
    ensures Rom(r.mem) == Rom(s.mem) && r.cycles == s.cycles
  {
    var t := Push16(s, (s.pc + 2) % 0x10000);
    t.(pc := R16(t, t.pc))
  }

  /** CCON(): six more cycles, then CALL(). */
  function Ccon(s: Cpu): (r: Cpu)
    ensures Rom(r.mem) == Rom(s.mem) && r.cycles == s.cycles - 6
  {
    Call(s.(cycles := s.cycles - 6))
  }

  /** A conditional call: CCON() when the condition holds, otherwise the
   *  operand is skipped. */
  function CallIf(s: Cpu, cc: Isa.Cond): (r: Cpu)
    ensures Rom(r.mem) == Rom(s.mem)
  {
    if Cond(s, cc) then Ccon(s) else s.(pc := (s.pc + 2) % 0x10000)
  }

  /** RET(): PC is popped. */
  function Ret(s: Cpu): Cpu
  {
    var (w, t) := Pop16(s);
    t.(pc := w)
  }

  /** RCON(): six more cycles, then RET(). */
  function Rcon(s: Cpu): (r: Cpu)
    ensures r.mem == s.mem && r.cycles == s.cycles - 6
  {
    Ret(s.(cycles := s.cycles - 6))
  }

  /** A conditional return: RCON() when the condition holds, otherwise
   *  nothing. */
  function RetIf(s: Cpu, cc: Isa.Cond): Cpu
  {
    if Cond(s, cc) then Rcon(s) else s
  }

  /** RST(x): PC is pushed and PC becomes 8x.  The interrupt routine passes
   *  its own number, so x goes up to 0x7F. */
  function Rst(s: Cpu, x: int): (r: Cpu)
    requires 0 <= x < 0x80
    ensures Rom(r.mem) == Rom(s.mem) && r.cycles == s.cycles && r.pc == 8 * x
  {
    Push16(s, s.pc).(pc := 8 * x)
  }

  /** CALL then RET comes back after the operand with SP restored. */
  lemma CallThenRet(s: Cpu)
    requires PushInRam(s)
    ensures Ret(Call(s)).pc == (s.pc + 2) % 0x10000 && Ret(Call(s)).sp == s.sp
  {
    PopUndoesPush16(s, (s.pc + 2) % 0x10000);
  }

  /** RST pushes the address of the next instruction. */
  lemma RstPushesPc(s: Cpu, x: int)
    requires 0 <= x < 0x80 && PushInRam(s)
    ensures Pop16(Rst(s, x)).0 == s.pc && Pop16(Rst(s, x)).1.sp == s.sp
  {
    PopUndoesPush16(s, s.pc);
  }

  /** Conditional calls and returns charge six cycles only when taken; not
   *  taken, a call only skips its operand and a return changes nothing. */
  lemma ConditionalCosts(s: Cpu, cc: Isa.Cond)
    ensures CallIf(s, cc).cycles == if Cond(s, cc) then s.cycles - 6 else s.cycles
    ensures RetIf(s, cc).cycles == if Cond(s, cc) then s.cycles - 6 else s.cycles
    ensures !Cond(s, cc) ==> CallIf(s, cc) == s.(pc := (s.pc + 2) % 0x10000) && RetIf(s, cc) == s
  {
  }

  predicate IsJump(i: Isa.Instr)
  {
    i.Jmp? || i.JumpIf? || i.Pchl?
  }

  /** JUMP: JMP, the conditional jumps and PCHL, which only move PC. */
  function Jumps(s: Cpu, i: Isa.Instr): (r: Cpu)
    requires IsJump(i)
    ensures r == s.(pc := r.pc)
  {
    if i.Jmp? then Jmp(s) else if i.JumpIf? then JumpIf(s, i.cc) else s.(pc := s.hl)
  }

  predicate IsCall(i: Isa.Instr)
  {
    i.Call? || i.CallIf? || i.Rst?
  }

  /** CALL and RESTART: CALL, the conditional calls and RST. */
  function Calls(s: Cpu, i: Isa.Instr): (r: Cpu)
    requires IsCall(i)
    ensures Rom(r.mem) == Rom(s.mem) && r.cycles <= s.cycles
    ensures r.ie == s.ie && r.ipend == s.ipend
  {
    if i.Call? then Call(s) else if i.CallIf? then CallIf(s, i.cc) else Rst(s, i.n)
  }

  predicate IsReturn(i: Isa.Instr)
  {
    i.Ret? || i.RetIf?
  }

  /** RETURN: RET and the conditional returns, which change no memory. */
  function Returns(s: Cpu, i: Isa.Instr): (r: Cpu)
    requires IsReturn(i)
    ensures r.mem == s.mem && r.cycles <= s.cycles
    ensures r.ie == s.ie && r.ipend == s.ipend
  {
    if i.Ret? then Ret(s) else RetIf(s, i.cc)
  }

  predicate IsBranch(i: Isa.Instr)
  {
    IsJump(i) || IsCall(i) || IsReturn(i)
  }

  /** The cases under JUMP, CALL, RETURN and RESTART. */
  function Branch(s: Cpu, i: Isa.Instr): (r: Cpu)
    requires IsBranch(i)
    ensures Rom(r.mem) == Rom(s.mem) && r.cycles <= s.cycles
    ensures r.ie == s.ie && r.ipend == s.ipend
  {
    if IsJump(i) then Jumps(s, i) else if IsCall(i) then Calls(s, i) else Returns(s, i)
  }

  // ------------------------------------------------- interrupts and ports

  /** The interrupt numbers: `i` ends up in the low seven bits of ipend. */
  type IntNum = x: int | 0 <= x < 0x80

  /** interrupt(i): with interrupts enabled it disables them, clears the
   *  pending latch, charges 11 cycles and does RST i; otherwise it records
   *  `0x80 | i` as pending. */
  function Interrupt(s: Cpu, i: IntNum): (r: Cpu)
    ensures Rom(r.mem) == Rom(s.mem) && r.cycles <= s.cycles
  {
    if s.ie then Rst(s.(ie := false, ipend := 0, cycles := s.cycles - 11), i)
    else s.(ipend := 0x80 + i)
  }

  /** An enabled interrupt jumps to 8i with the old PC on the stack, and
   *  leaves interrupts disabled and nothing pending. */
  lemma InterruptTaken(s: Cpu, i: IntNum)
    requires s.ie && PushInRam(s)
    ensures var r := Interrupt(s, i);
      r.pc == 8 * i && !r.ie && r.ipend == 0 && r.cycles == s.cycles - 11 &&
      Pop16(r).0 == s.pc && Pop16(r).1.sp == s.sp
  {
    PopUndoesPush16(s.(ie := false, ipend := 0, cycles := s.cycles - 11), s.pc);
  }

  /** A disabled interrupt only latches its number. */
  lemma InterruptLatched(s: Cpu, i: IntNum)
    requires !s.ie
    ensures Interrupt(s, i) == s.(ipend := 0x80 + i)
  {
  }

  /** EI: `cpu.i=1`, then a pending interrupt is delivered. */
  function Ei(s: Cpu): (r: Cpu)
    ensures Rom(r.mem) == Rom(s.mem) && r.cycles <= s.cycles
  {
    var t := s.(ie := true);
    if s.ipend / 0x80 == 1 then Interrupt(t, s.ipend % 0x80) else t
  }

  /** An interrupt latched while disabled is delivered by the next EI,
   *  exactly as if it had arrived with interrupts enabled. */
  lemma EiDeliversLatched(s: Cpu, i: IntNum)
    requires !s.ie
    ensures Ei(Interrupt(s, i)) == Interrupt(s.(ie := true), i)
  {
  }

  /** With nothing pending, EI only enables interrupts. */
  lemma EiWithoutPending(s: Cpu)
    requires s.ipend < 0x80
    ensures Ei(s) == s.(ie := true)
  {
  }

  /** IN p: A takes in_port of the byte after the opcode. */
  function In(s: Cpu): Cpu
  {
    s.(a := InPort(R8(s, s.pc), s.key, s.shiftReg, s.shiftOffset), pc := Inc16(s.pc))
  }

  /** OUT p: out_port with the byte after the opcode and A. */
  function Out(s: Cpu): Cpu
  {
    var (sr, off) := OutPort(R8(s, s.pc), s.a, s.shiftReg, s.shiftOffset);
    s.(shiftReg := sr, shiftOffset := off, pc := Inc16(s.pc))
  }

  /** The cases under INPUT/OUTPUT and CONTROL, and the default case that
   *  every undocumented encoding falls to. */
  function Control(s: Cpu, i: Isa.Instr): (r: Cpu)
    requires !IsTransfer(i) && !IsArith(i) && !IsStack(i) && !IsBranch(i)
    ensures Rom(r.mem) == Rom(s.mem)
    ensures i.Hlt? ==> r.cycles == 0
    ensures !i.Hlt? ==> r.cycles <= s.cycles
    ensures i.Illegal? ==> r == s
  {
    match i
    case Out => Out(s)
    case In => In(s)
    case Di => s.(ie := false)
    case Ei => Ei(s)
    case Hlt => s.(cycles := 0)
    case _ => s
  }

  // ------------------------------------------------------------- cpu_run

  /** The switch of cpu_run, on the instruction that the opcode encodes. */
  function Exec(s: Cpu, i: Isa.Instr): Cpu
  {
    if IsTransfer(i) then Transfer(s, i)
    else if IsArith(i) then Arith(s, i)
    else if IsStack(i) then Stack(s, i)
    else if IsBranch(i) then Branch(s, i)
    else Control(s, i)
  }

  /** No instruction writes the ROM or adds to the balance; HLT empties it
   *  and an undocumented encoding does nothing. */
  lemma ExecCharges(s: Cpu, i: Isa.Instr)
    ensures Rom(Exec(s, i).mem) == Rom(s.mem)
    ensures i.Hlt? ==> Exec(s, i).cycles == 0
    ensures !i.Hlt? ==> Exec(s, i).cycles <= s.cycles
    ensures i.Illegal? ==> Exec(s, i) == s
  {
  }

  /** The state after the fetch: PC stepped past the opcode and the cycles
   *  of lut_cycles charged. */
  function Fetched(s: Cpu): Cpu
  {
    s.(pc := Inc16(s.pc), cycles := s.cycles - LutCycles(R8(s, s.pc)))
  }

  /** One pass of the loop of cpu_run: fetch the opcode, step PC, charge
   *  lut_cycles, then run the case. */
  function Step(s: Cpu): Cpu
  {
    Exec(Fetched(s), Isa.Decode(R8(s, s.pc)))
  }

  /** Step is Exec of the decoded opcode on the state after the fetch. */
  lemma StepIs(s: Cpu, t: Cpu, i: Isa.Instr)
    requires t == s.(pc := Inc16(s.pc), cycles := s.cycles - LutCycles(R8(s, s.pc)))
    requires i == Isa.Decode(R8(s, s.pc))
    ensures Step(s) == Exec(t, i)
  {
    assert t == Fetched(s);
  }

  /** A step keeps the ROM, and lowers a positive balance unless the opcode
   *  was an undocumented one that costs nothing and only stepped PC. */
  lemma StepCharges(s: Cpu)
    ensures Rom(Step(s).mem) == Rom(s.mem)
    ensures s.cycles > 0 ==>
      (Step(s).cycles < s.cycles ||
       (LutCycles(R8(s, s.pc)) == 0 && Step(s) == s.(pc := Inc16(s.pc))))
  {
    var op := R8(s, s.pc);
    ZeroCostIsAlternate(op);
    Isa.EncodeDecode(op);
    ExecCharges(s.(pc := Inc16(s.pc), cycles := s.cycles - LutCycles(op)), Isa.Decode(op));
  }

  /** An undocumented encoding only steps PC. */
  lemma AlternateSkipped(s: Cpu)
    requires R8(s, s.pc) in Isa.ALTERNATES
    ensures Step(s) == s.(pc := Inc16(s.pc))
  {
    var op := R8(s, s.pc);
    Isa.EncodeDecode(op);
    AlternatesCostNothing(op);
    ExecCharges(s.(pc := Inc16(s.pc), cycles := s.cycles - LutCycles(op)), Isa.Decode(op));
  }

  /** HLT empties the balance, so cpu_run returns after it. */
  lemma HltEmptiesBalance(s: Cpu)
    requires R8(s, s.pc) == 0x76
    ensures Step(s).cycles == 0
  {
    assert Isa.Decode(0x76) == Isa.Hlt;
    ExecCharges(s.(pc := Inc16(s.pc), cycles := s.cycles - LutCycles(0x76)), Isa.Hlt);
  }

  /** A ROM byte that costs cycles.  ROM never changes, so while one
   *  exists, PC cannot keep running over free opcodes for ever: within one
   *  turn of the 16-bit address space it reaches that byte. */
  predicate Live(m: Memory, k: int)
  {
    0 <= k < ROM_SIZE && LutCycles(m[k]) > 0
  }

  /** How far PC has to go, stepping and wrapping, to reach address k. */
  function Distance(pc: word, k: int): int
  {
    (k - pc) % 0x10000
  }

  lemma DistanceShrinks(pc: word, k: int)
    requires 0 <= k < 0x10000 && pc != k
    ensures Distance(Inc16(pc), k) == Distance(pc, k) - 1
  {
    if pc == 0xFFFF {
      assert Distance(pc, k) == k + 1;
    } else if pc < k {
      assert Distance(pc, k) == k - pc;
    } else {
      assert Distance(pc, k) == k - pc + 0x10000;
    }
  }

  /** Each pass of the loop either lowers a positive balance or, on a free
   *  opcode, brings PC one step closer to the costly ROM byte, which stays
   *  where it is. */
  lemma StepProgress(s: Cpu, k: int)
    requires Live(s.mem, k) && s.cycles > 0
    ensures Live(Step(s).mem, k)
    ensures Step(s).cycles < s.cycles ||
      (Step(s).cycles == s.cycles && Distance(Step(s).pc, k) < Distance(s.pc, k))
  {
    StepCharges(s);
    var t := Step(s);
    assert t.mem[k] == Rom(t.mem)[k] == Rom(s.mem)[k] == s.mem[k];
    if t.cycles >= s.cycles {
      assert R8(s, k) == s.mem[k];
      DistanceShrinks(s.pc, k);
    }
  }

  /** The loop of cpu_run: whole instructions while the balance is
   *  positive.  It ends with the balance at or below zero, and the ROM as
   *  it was. */
  function Run(s: Cpu, k: int): (r: Cpu)
    requires Live(s.mem, k)
    ensures r.cycles <= 0 && Rom(r.mem) == Rom(s.mem)
    ensures s.cycles <= 0 ==> r == s
    decreases if s.cycles > 0 then s.cycles else 0, Distance(s.pc, k)
  {
    if s.cycles <= 0 then s
    else
      StepCharges(s);
      StepProgress(s, k);
      Run(Step(s), k)
  }

  /** cpu_run(cycles): the budget is added to the balance carried over from
   *  the last call, and the loop runs until it is used up; any overshoot
   *  stays in the balance and is charged to the next call. */
  function CpuRun(s: Cpu, budget: int, k: int): (r: Cpu)
    requires Live(s.mem, k)
    ensures r.cycles <= 0 && Rom(r.mem) == Rom(s.mem)
    ensures s.cycles + budget <= 0 ==> r == s.(cycles := s.cycles + budget)
  {
    Run(s.(cycles := s.cycles + budget), k)
  }
}
