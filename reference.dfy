/** The CPU of references/reference.c as it runs: the `cpu` struct, `mem`
 *  and `lut_parity` as the fields of one object, and the macros, the
 *  ports, the interrupt routine and cpu_run as methods that change them in
 *  place.  Every method is proved to do what the matching function of
 *  RefSpec says, on the value that `State()` reads off the fields. */
module Reference {
  import opened Bytes
  import Isa
  import opened RefDefs
  import Spec = RefSpec

  class Cpu {
    var pc: word
    var sp: word
    /** The two bytes of PSW: F below A. */
    var flags: byte
    var a: byte
    /** The pairs; B, D and H are their high bytes, C, E and L their low
     *  bytes. */
    var bc: word
    var de: word
    var hl: word
    /** RES: the carry in bit 8, the byte for S, Z and P in bits 0-7. */
    var res: word
    /** `cpu.a`: the auxiliary carry. */
    var aux: bool
    /** `cpu.i`: interrupts enabled. */
    var ie: bool
    /** `cpu.ipend`: bit 7 set when an interrupt waits, its number below. */
    var ipend: byte
    /** The cycle balance carried from one cpu_run to the next. */
    var cycles: int
    var shiftReg: word
    var shiftOffset: Offset
    /** The cabinet inputs, which the caller updates between runs. */
    var key: byte
    const mem: array<byte>
    const lutParity: array<byte>

    ghost predicate Valid()
      reads lutParity
    {
      mem.Length == MEM_SIZE && lutParity.Length == 0x100 && mem != lutParity &&
      forall i | 0 <= i < 0x100 :: lutParity[i] == LutParity(i)
    }

    /** The whole machine as a value. */
    ghost function State(): Spec.Cpu
      requires Valid()
      reads this, mem, lutParity
    {
      Spec.Cpu(pc, sp, flags, a, bc, de, hl, res, aux, ie, ipend, cycles,
        shiftReg, shiftOffset, key, mem[..])
    }

    /** The start-up code of the program: memory cleared and the ROM image
     *  loaded, the cpu struct cleared with RES = 1, and lut_parity filled. */
    constructor (rom: seq<byte>)
      requires |rom| == ROM_SIZE
      ensures Valid() && fresh(mem) && fresh(lutParity)
      ensures State() == Spec.Init(rom)
    {
      pc, sp, flags, a := 0, 0, 0, 0;
      bc, de, hl := 0, 0, 0;
      res, aux, ie, ipend, cycles := 1, false, false, 0, 0;
      shiftReg, shiftOffset, key := 0, 0, 0;
      mem := new byte[MEM_SIZE](i => if 0 <= i < ROM_SIZE then rom[i] else 0);
      lutParity := new byte[0x100];
      new;
      FillParity();
      assert mem[..] == rom + seq(ROM_SIZE, _ => 0);
    }

    /** The loop that fills lut_parity: entry i is 4 when i has an even
     *  number of set bits and 0 otherwise. */
    method FillParity()
      requires lutParity.Length == 0x100
      modifies lutParity
      ensures forall i | 0 <= i < 0x100 :: lutParity[i] == LutParity(i)
      ensures forall i | 0 <= i < 0x100 :: lutParity[i] == if EvenParity(i) then 4 else 0
    {
      var i := 0;
      while i < 0x100
        invariant 0 <= i <= 0x100
        invariant forall j | 0 <= j < i :: lutParity[j] == LutParity(j)
        invariant forall j | 0 <= j < i :: lutParity[j] == if EvenParity(j) then 4 else 0
      {
        lutParity[i] := LutParity(i);
        LutParityEven(i);
        i := i + 1;
      }
    }

    // -------------------------------------------------------------- memory

    /** R16(a) */
    method Read16(addr: word) returns (w: word)
      requires Valid()
      ensures w == Spec.R16(State(), addr)
    {
      w := Join(mem[R8Loc(addr as int + 1)], mem[R8Loc(addr)]);
    }

    /** W8(a, v) */
    method W8(addr: int, v: byte)
      requires Valid() && 0 <= addr <= 0x10000
      modifies mem
      ensures State() == Spec.W8(old(State()), addr, v)
    {
      if addr > 0x1FFF {
        mem[R8Loc(addr)] := v;
      }
    }

    // ----------------------------------------------------------- registers

    method GetReg(r: Isa.Reg) returns (v: byte)
      requires Valid()
      ensures v == Spec.Reg(State(), r)
    {
      match r
      case 0 => v := Hi(bc);
      case 1 => v := Lo(bc);
      case 2 => v := Hi(de);
      case 3 => v := Lo(de);
      case 4 => v := Hi(hl);
      case 5 => v := Lo(hl);
      case 6 => v := mem[R8Loc(hl)];
      case 7 => v := a;
    }

    method SetReg(r: Isa.Reg, v: byte)
      requires Valid()
      modifies this, mem
      ensures State() == Spec.SetReg(old(State()), r, v)
    {
      match r
      case 0 => bc := WithHi(bc, v);
      case 1 => bc := WithLo(bc, v);
      case 2 => de := WithHi(de, v);
      case 3 => de := WithLo(de, v);
      case 4 => hl := WithHi(hl, v);
      case 5 => hl := WithLo(hl, v);
      case 6 => W8(hl, v);
      case 7 => a := v;
    }

    method GetPair(rp: Isa.Pair) returns (w: word)
      requires Valid()
      ensures w == Spec.Pair(State(), rp)
    {
      match rp
      case 0 => w := bc;
      case 1 => w := de;
      case 2 => w := hl;
      case 3 => w := sp;
    }

    method SetPair(rp: Isa.Pair, w: word)
      requires Valid()
      modifies this
      ensures State() == Spec.SetPair(old(State()), rp, w)
    {
      match rp
      case 0 => bc := w;
      case 1 => de := w;
      case 2 => hl := w;
      case 3 => sp := w;
    }

    /** ISNOTZERO() ... ISMIN(); the parity tests look in lut_parity. */
    method Cond(cc: Isa.Cond) returns (c: bool)
      requires Valid()
      ensures c == Spec.Cond(State(), cc)
    {
      match cc
      case 0 => c := res % 0x100 != 0;
      case 1 => c := res % 0x100 == 0;
      case 2 => c := (res / 0x100) % 2 == 0;
      case 3 => c := (res / 0x100) % 2 == 1;
      case 4 => c := lutParity[res % 0x100] == 0;
      case 5 => c := lutParity[res % 0x100] != 0;
      case 6 => c := (res % 0x100) / 0x80 == 0;
      case 7 => c := (res % 0x100) / 0x80 == 1;
    }

    // ---------------------------------------------------------------- stack

    /** PUSH16(v) */
    method Push16(v: word)
      requires Valid()
      modifies this, mem
      ensures State() == Spec.Push16(old(State()), v)
    {
      sp := (sp + 0xFFFE) % 0x10000;
      W8(sp, Lo(v));
      W8(sp + 1, Hi(v));
    }

    /** POP16() */
    method Pop16() returns (w: word)
      requires Valid()
      modifies this
      ensures (w, State()) == Spec.Pop16(old(State()))
    {
      w := Read16(sp);
      sp := (sp + 2) % 0x10000;
    }

    // ---------------------------------------------------------- accumulator

    /** ADD(v) */
    method Add(v: byte)
      requires Valid()
      modifies this
      ensures State() == Spec.WithAcc(old(State()), RefDefs.Add(old(Spec.AccOf(State())), v))
    {
      res := a + v;
      aux := a % 0x10 > res % 0x10;
      a := res % 0x100;
    }

    /** ADC(v) */
    method Adc(v: byte)
      requires Valid()
      modifies this
      ensures State() == Spec.WithAcc(old(State()), RefDefs.Adc(old(Spec.AccOf(State())), v))
    {
      res := (res / 0x100) % 2 + a + v;
      aux := a % 0x10 > res % 0x10;
      a := res % 0x100;
    }

    /** SUB(v) */
    method Sub(v: byte)
      requires Valid()
      modifies this
      ensures State() == Spec.WithAcc(old(State()), RefDefs.Sub(old(Spec.AccOf(State())), v))
    {
      Borrow(a - v);
      res := (a - v) % 0x10000;
      aux := a % 0x10 > res % 0x10;
      a := res % 0x100;
    }

    /** SBB(v) */
    method Sbb(v: byte)
      requires Valid()
      modifies this
      ensures State() == Spec.WithAcc(old(State()), RefDefs.Sbb(old(Spec.AccOf(State())), v))
    {
      Borrow((a - v) - (res / 0x100) % 2);
      res := ((a - v) - (res / 0x100) % 2) % 0x10000;
      aux := a % 0x10 > res % 0x10;
      a := res % 0x100;
    }

    /** CMP(v): SUB without storing A. */
    method Cmp(v: byte)
      requires Valid()
      modifies this
      ensures State() == Spec.WithAcc(old(State()), RefDefs.Cmp(old(Spec.AccOf(State())), v))
    {
      Borrow(a - v);
      res := (a - v) % 0x10000;
      aux := a % 0x10 > res % 0x10;
    }

    /** ADD, ADC, SUB, SBB, ANA, XRA, ORA and CMP with operand `v`. */
    method AluApply(op: Isa.AluOp, v: byte)
      requires Valid()
      modifies this
      ensures State() == Spec.WithAcc(old(State()), Spec.AluOp(op, old(Spec.AccOf(State())), v))
    {
      match op
      case Add => Add(v);
      case Adc => Adc(v);
      case Sub => Sub(v);
      case Sbb => Sbb(v);
      case Ana =>
        a := And8(a, v);
        res := a;
      case Xra =>
        a := Xor8(a, v);
        res := a;
      case Ora =>
        a := Or8(a, v);
        res := a;
      case Cmp => Cmp(v);
    }

    /** DAA, with the saved carry `c` and saved aux flag of the C code. */
    method Daa()
      requires Valid()
      modifies this
      ensures State() == Spec.WithAcc(old(State()), RefDefs.Daa(old(Spec.AccOf(State()))))
    {
      ghost var s0 := State();
      ghost var x0 := Spec.AccOf(s0);
      var c, x := res, aux;
      if aux || a % 0x10 > 9 {
        Add(6);
      }
      ghost var y := RefDefs.DaaFirst(x0);
      assert State() == Spec.WithAcc(s0, y);
      assert a == y.a && res == y.res && aux == y.aux;
      if aux {
        x := aux;
      }
      if (res / 0x100) % 2 == 1 || a - a % 0x10 > 0x90 {
        Add(0x60);
      }
      ghost var z := RefDefs.DaaSecond(y);
      assert State() == Spec.WithAcc(s0, z);
      assert a == z.a && res == z.res;
      if (res / 0x100) % 2 == 1 {
        c := res;
      }
      res := res % 0x100 + (c / 0x100) % 2 * 0x100;
      aux := x;
      assert State() == Spec.WithAcc(s0, RefDefs.Daa(x0));
    }

    /** INR and DCR: `d` is 1 or 0xFF.  On M the byte is stored first and
     *  FSZP reads it back. */
    method IncDec(r: Isa.Reg, d: byte)
      requires Valid()
      modifies this, mem
      ensures State() == Spec.IncDec(old(State()), r, d)
    {
      if r == Isa.M {
        W8(hl, (mem[R8Loc(hl)] + d) % 0x100);
        res := (res / 0x100) % 2 * 0x100 + mem[R8Loc(hl)];
      } else {
        var v := GetReg(r);
        v := (v + d) % 0x100;
        SetReg(r, v);
        res := (res / 0x100) % 2 * 0x100 + v;
      }
    }

    // ------------------------------------------------ move, load and store

    method Mov(d: Isa.Reg, src: Isa.Reg)
      requires Valid()
      modifies this, mem
      ensures State() == Spec.Mov(old(State()), d, src)
    {
      var v := GetReg(src);
      SetReg(d, v);
    }

    method Mvi(d: Isa.Reg)
      requires Valid()
      modifies this, mem
      ensures State() == Spec.Mvi(old(State()), d)
    {
      var v := mem[R8Loc(pc)];
      SetReg(d, v);
      pc := Inc16(pc);
    }

    method Lxi(rp: Isa.Pair)
      requires Valid()
      modifies this
      ensures State() == Spec.Lxi(old(State()), rp)
    {
      ghost var s0 := State();
      var w := Read16(pc);
      SetPair(rp, w);
      assert State() == Spec.SetPair(s0, rp, Spec.R16(s0, s0.pc));
      pc := (pc + 2) % 0x10000;
    }

    method Stax(rp: Isa.Pair)
      requires Valid()
      modifies mem
      ensures State() == Spec.Stax(old(State()), rp)
    {
      var w := GetPair(rp);
      W8(w, a);
    }

    method Ldax(rp: Isa.Pair)
      requires Valid()
      modifies this
      ensures State() == Spec.Ldax(old(State()), rp)
    {
      var w := GetPair(rp);
      a := mem[R8Loc(w)];
    }

    /** SHLD: the operand is read again for the second store. */
    method Shld()
      requires Valid()
      modifies this, mem
      ensures State() == Spec.Shld(old(State()))
    {
      var addr := Read16(pc);
      W8(addr, Lo(hl));
      addr := Read16(pc);
      W8(addr as int + 1, Hi(hl));
      pc := (pc + 2) % 0x10000;
    }

    method Lhld()
      requires Valid()
      modifies this
      ensures State() == Spec.Lhld(old(State()))
    {
      ghost var s0 := State();
      var addr := Read16(pc);
      var lo, hi := mem[R8Loc(addr)], mem[R8Loc(addr as int + 1)];
      Spec.LhldFrom(s0, addr, lo, hi);
      WithLoThenHi(hl, lo, hi);
      hl := WithLo(hl, lo);
      hl := WithHi(hl, hi);
      pc := (pc + 2) % 0x10000;
    }

    method Sta()
      requires Valid()
      modifies this, mem
      ensures State() == Spec.Sta(old(State()))
    {
      var addr := Read16(pc);
      W8(addr, a);
      pc := (pc + 2) % 0x10000;
    }

    method Lda()
      requires Valid()
      modifies this
      ensures State() == Spec.Lda(old(State()))
    {
      var addr := Read16(pc);
      a := mem[R8Loc(addr)];
      pc := (pc + 2) % 0x10000;
    }

    /** NOP, MOV, MVI, LXI and XCHG. */
    method Moves(i: Isa.Instr)
      requires Valid() && Spec.IsMove(i)
      modifies this, mem
      ensures State() == Spec.Moves(old(State()), i)
    {
      if i.Mov? {
        Mov(i.dst, i.src);
      } else if i.Mvi? {
        Mvi(i.r);
      } else if i.Lxi? {
        Lxi(i.rp);
      } else if i.Xchg? {
        hl, de := de, hl;
      }
    }

    /** STAX and LDAX. */
    method PairTransfer(i: Isa.Instr)
      requires Valid() && Spec.IsPairTransfer(i)
      modifies mem, this
      ensures State() == Spec.PairTransfer(old(State()), i)
    {
      if i.Stax? {
        Stax(i.rp);
      } else {
        Ldax(i.rp);
      }
    }

    /** SHLD, LHLD, STA and LDA. */
    method DirectTransfer(i: Isa.Instr)
      requires Valid() && Spec.IsDirectTransfer(i)
      modifies this, mem
      ensures State() == Spec.DirectTransfer(old(State()), i)
    {
      if i.Shld? {
        Shld();
      } else if i.Lhld? {
        Lhld();
      } else if i.Sta? {
        Sta();
      } else {
        Lda();
      }
    }

    /** The cases under "MOVE, LOAD, AND STORE" and NOP. */
    method Transfer(i: Isa.Instr)
      requires Valid() && Spec.IsTransfer(i)
      modifies this, mem
      ensures State() == Spec.Transfer(old(State()), i)
    {
      if Spec.IsMove(i) {
        Moves(i);
      } else if Spec.IsPairTransfer(i) {
        PairTransfer(i);
      } else {
        DirectTransfer(i);
      }
    }

    // ---------------------------------------------------------- arithmetic

    method AluReg(op: Isa.AluOp, src: Isa.Reg)
      requires Valid()
      modifies this
      ensures State() == Spec.AluReg(old(State()), op, src)
    {
      var v := GetReg(src);
      AluApply(op, v);
    }

    method AluImm(op: Isa.AluOp)
      requires Valid()
      modifies this
      ensures State() == Spec.AluImm(old(State()), op)
    {
      AluApply(op, mem[R8Loc(pc)]);
      pc := Inc16(pc);
    }

    method Inx(rp: Isa.Pair)
      requires Valid()
      modifies this
      ensures State() == Spec.Inx(old(State()), rp)
    {
      var w := GetPair(rp);
      SetPair(rp, Inc16(w));
    }

    method Dcx(rp: Isa.Pair)
      requires Valid()
      modifies this
      ensures State() == Spec.Dcx(old(State()), rp)
    {
      var w := GetPair(rp);
      SetPair(rp, Dec16(w));
    }

    method Dad(rp: Isa.Pair)
      requires Valid()
      modifies this
      ensures State() == Spec.DadPair(old(State()), rp)
    {
      var w := GetPair(rp);
      res := res % 0x100 + ((w + hl) / 0x100 / 0x100) % 2 * 0x100;
      hl := (hl + w) % 0x10000;
    }

    /** RLC: bit 7 goes to the carry, and A is shifted left with 0 in. */
    method Rlc()
      requires Valid()
      modifies this
      ensures State() == Spec.WithAcc(old(State()), RefDefs.Rlc(old(Spec.AccOf(State()))))
    {
      res := res % 0x100 + (2 * a) / 0x100 * 0x100;
      a := (2 * a) % 0x100;
    }

    /** RRC: bit 0 goes to the carry, and A is shifted right with 0 in. */
    method Rrc()
      requires Valid()
      modifies this
      ensures State() == Spec.WithAcc(old(State()), RefDefs.Rrc(old(Spec.AccOf(State()))))
    {
      res := res % 0x100 + a % 2 * 0x100;
      a := a / 2;
    }

    /** RAL: rotate left through the carry. */
    method Ral()
      requires Valid()
      modifies this
      ensures State() == Spec.WithAcc(old(State()), RefDefs.Ral(old(Spec.AccOf(State()))))
    {
      var c := (2 * a) / 0x100 * 0x100;
      a := (2 * a) % 0x100 + (res / 0x100) % 2;
      res := res % 0x100 + c;
    }

    /** RAR: rotate right through the carry. */
    method Rar()
      requires Valid()
      modifies this
      ensures State() == Spec.WithAcc(old(State()), RefDefs.Rar(old(Spec.AccOf(State()))))
    {
      var c := a % 2 * 0x100;
      a := a / 2 + ((res / 2) / 0x80) % 2 * 0x80;
      res := res % 0x100 + c;
    }

    method Cma()
      requires Valid()
      modifies this
      ensures State() == old(State()).(a := RefDefs.Cma(old(a)))
    {
      a := 0xFF - a;
    }

    /** STC: the carry bit of RES set. */
    method Stc()
      requires Valid()
      modifies this
      ensures State() == old(State()).(res := RefDefs.Stc(old(res)))
    {
      if (res / 0x100) % 2 == 0 {
        res := res + 0x100;
      }
    }

    /** CMC: the carry bit of RES flipped. */
    method Cmc()
      requires Valid()
      modifies this
      ensures State() == old(State()).(res := RefDefs.Cmc(old(res)))
    {
      if (res / 0x100) % 2 == 1 {
        res := res - 0x100;
      } else {
        res := res + 0x100;
      }
    }

    /** ADD, SUBTRACT and LOGICAL on a register, M or an immediate. */
    method AddSubLogical(i: Isa.Instr)
      requires Valid() && Spec.IsAddSubLogical(i)
      modifies this
      ensures State() == Spec.AddSubLogical(old(State()), i)
    {
      if i.Alu? {
        AluReg(i.op, i.src);
      } else {
        AluImm(i.op);
      }
    }

    /** INCREMENT AND DECREMENT, and DAD. */
    method IncrementDecrement(i: Isa.Instr)
      requires Valid() && Spec.IsIncrementDecrement(i)
      modifies this, mem
      ensures State() == Spec.IncrementDecrement(old(State()), i)
    {
      if i.Inr? {
        IncDec(i.r, 1);
      } else if i.Dcr? {
        IncDec(i.r, 0xFF);
      } else if i.Inx? {
        Inx(i.rp);
      } else if i.Dcx? {
        Dcx(i.rp);
      } else {
        Dad(i.rp);
      }
    }

    /** ROTATE. */
    method Rotate(i: Isa.Instr)
      requires Valid() && Spec.IsRotate(i)
      modifies this
      ensures State() == Spec.Rotate(old(State()), i)
    {
      if i.Rlc? {
        Rlc();
      } else if i.Rrc? {
        Rrc();
      } else if i.Ral? {
        Ral();
      } else {
        Rar();
      }
    }

    /** SPECIALS. */
    method Specials(i: Isa.Instr)
      requires Valid() && Spec.IsSpecial(i)
      modifies this
      ensures State() == Spec.Specials(old(State()), i)
    {
      if i.Daa? {
        Daa();
      } else if i.Cma? {
        Cma();
      } else if i.Stc? {
        Stc();
      } else {
        Cmc();
      }
    }

    /** The cases under ADD, SUBTRACT, LOGICAL, INCREMENT AND DECREMENT,
     *  ROTATE and SPECIALS. */
    method Arith(i: Isa.Instr)
      requires Valid() && Spec.IsArith(i)
      modifies this, mem
      ensures State() == Spec.Arith(old(State()), i)
    {
      if Spec.IsAddSubLogical(i) {
        AddSubLogical(i);
      } else if Spec.IsIncrementDecrement(i) {
        IncrementDecrement(i);
      } else if Spec.IsRotate(i) {
        Rotate(i);
      } else {
        Specials(i);
      }
    }

    // ---------------------------------------------------------- stack ops

    /** PUSH PSW: F rebuilt from RES, lut_parity and the aux flag, then PSW
     *  pushed. */
    method PushPsw()
      requires Valid()
      modifies this, mem
      ensures State() == Spec.PushPsw(old(State()))
    {
      ghost var s0 := State();
      assert lutParity[res % 0x100] == LutParity(res % 0x100);
      LutParityEven(res % 0x100);
      flags := (res / 0x100) % 2 + 2 + lutParity[res % 0x100] + (if aux then 0x10 else 0) +
        (if res % 0x100 == 0 then 0x40 else 0) + (res % 0x100) / 0x80 * 0x80;
      assert flags == FlagsByte(res, aux);
      assert State() == s0.(flags := FlagsByte(s0.res, s0.aux));
      Push16(Join(a, flags));
    }

    /** POP PSW: PSW popped, then RES and the aux flag rebuilt from F. */
    method PopPsw()
      requires Valid()
      modifies this
      ensures State() == Spec.PopPsw(old(State()))
    {
      var w := Pop16();
      flags, a := Lo(w), Hi(w);
      var s := (flags / 0x80) * 0x80;
      res := (flags % 2) * 0x100 + (if lutParity[s] != ((flags / 0x04) % 2) * 4 then 1 else 0) + s +
        (if (flags / 0x40) % 2 == 1 then 0 else 6);
      aux := (flags / 0x10) % 2 == 1;
    }

    method Push(rp: Isa.Pair)
      requires Valid()
      modifies this, mem
      ensures State() == Spec.Push(old(State()), rp)
    {
      if rp == 3 {
        PushPsw();
      } else {
        var w := GetPair(rp);
        Push16(w);
      }
    }

    method Pop(rp: Isa.Pair)
      requires Valid()
      modifies this
      ensures State() == Spec.Pop(old(State()), rp)
    {
      if rp == 3 {
        PopPsw();
      } else {
        var w := Pop16();
        SetPair(rp, w);
      }
    }

    /** XTHL, written by its effect: each byte is exchanged with its
     *  register when it is RAM and left, with the register, when it is
     *  ROM. */
    method Xthl()
      requires Valid()
      modifies this, mem
      ensures State() == Spec.Xthl(old(State()))
    {
      var lo := mem[R8Loc(sp)];
      W8(sp, Lo(hl));
      if sp > 0x1FFF {
        hl := WithLo(hl, lo);
      }
      var hi := mem[R8Loc(sp as int + 1)];
      W8(sp as int + 1, Hi(hl));
      if sp as int + 1 > 0x1FFF {
        hl := WithHi(hl, hi);
      }
    }

    /** The cases under STACK OPS other than LXI SP, INX SP and DCX SP. */
    method Stack(i: Isa.Instr)
      requires Valid() && Spec.IsStack(i)
      modifies this, mem
      ensures State() == Spec.Stack(old(State()), i)
    {
      if i.Push? {
        Push(i.rp);
      } else if i.Pop? {
        Pop(i.rp);
      } else if i.Xthl? {
        Xthl();
      } else {
        sp := hl;
      }
    }

    // ------------------------------------------------------------ branches

    method Jmp()
      requires Valid()
      modifies this
      ensures State() == Spec.Jmp(old(State()))
    {
      pc := Read16(pc);
    }

    /** A conditional jump: the operand is skipped when the condition fails. */
    method JumpIf(cc: Isa.Cond)
      requires Valid()
      modifies this
      ensures State() == Spec.JumpIf(old(State()), cc)
    {
      var c := Cond(cc);
      if c {
        pc := Read16(pc);
      } else {
        pc := (pc + 2) % 0x10000;
      }
    }

    /** CALL() */
    method Call()
      requires Valid()
      modifies this, mem
      ensures State() == Spec.Call(old(State()))
    {
      Push16((pc + 2) % 0x10000);
      pc := Read16(pc);
    }

    /** CCON() */
    method Ccon()
      requires Valid()
      modifies this, mem
      ensures State() == Spec.Ccon(old(State()))
    {
      cycles := cycles - 6;
      Call();
    }

    /** A conditional call. */
    method CallIf(cc: Isa.Cond)
      requires Valid()
      modifies this, mem
      ensures State() == Spec.CallIf(old(State()), cc)
    {
      var c := Cond(cc);
      if c {
        Ccon();
      } else {
        pc := (pc + 2) % 0x10000;
      }
    }

    /** RET() */
    method Ret()
      requires Valid()
      modifies this
      ensures State() == Spec.Ret(old(State()))
    {
      pc := Pop16();
    }

    /** RCON() */
    method Rcon()
      requires Valid()
      modifies this
      ensures State() == Spec.Rcon(old(State()))
    {
      cycles := cycles - 6;
      Ret();
    }

    /** A conditional return. */
    method RetIf(cc: Isa.Cond)
      requires Valid()
      modifies this
      ensures State() == Spec.RetIf(old(State()), cc)
    {
      var c := Cond(cc);
      if c {
        Rcon();
      }
    }

    /** RST(x) */
    method Rst(x: int)
      requires Valid() && 0 <= x < 0x80
      modifies this, mem
      ensures State() == Spec.Rst(old(State()), x)
    {
      Push16(pc);
      pc := 8 * x;
    }

    /** JUMP. */
    method Jumps(i: Isa.Instr)
      requires Valid() && Spec.IsJump(i)
      modifies this
      ensures State() == Spec.Jumps(old(State()), i)
    {
      if i.Jmp? {
        Jmp();
      } else if i.JumpIf? {
        JumpIf(i.cc);
      } else {
        pc := hl;
      }
    }

    /** CALL and RESTART. */
    method Calls(i: Isa.Instr)
      requires Valid() && Spec.IsCall(i)
      modifies this, mem
      ensures State() == Spec.Calls(old(State()), i)
    {
      if i.Call? {
        Call();
      } else if i.CallIf? {
        CallIf(i.cc);
      } else {
        Rst(i.n);
      }
    }

    /** RETURN. */
    method Returns(i: Isa.Instr)
      requires Valid() && Spec.IsReturn(i)
      modifies this
      ensures State() == Spec.Returns(old(State()), i)
    {
      if i.Ret? {
        Ret();
      } else {
        RetIf(i.cc);
      }
    }

    /** The cases under JUMP, CALL, RETURN and RESTART. */
    method Branch(i: Isa.Instr)
      requires Valid() && Spec.IsBranch(i)
      modifies this, mem
      ensures State() == Spec.Branch(old(State()), i)
    {
      if Spec.IsJump(i) {
        Jumps(i);
      } else if Spec.IsCall(i) {
        Calls(i);
      } else {
        Returns(i);
      }
    }

    // -------------------------------------------------- interrupts and ports

    /** interrupt(i) */
    method Interrupt(i: Spec.IntNum)
      requires Valid()
      modifies this, mem
      ensures State() == Spec.Interrupt(old(State()), i)
    {
      if ie {
        ghost var s0 := State();
        ie, ipend := false, 0;
        cycles := cycles - 11;
        assert State() == s0.(ie := false, ipend := 0, cycles := s0.cycles - 11);
        Rst(i);
      } else {
        ipend := 0x80 + i;
      }
    }

    /** in_port(port) */
    method InPort(port: byte) returns (v: byte)
      requires Valid()
      ensures v == RefDefs.InPort(port, key, shiftReg, shiftOffset)
    {
      v := port;
      match port
      case 1 => v := key % 0x80;
      case 2 => v := DIPS + (key / 0x10) % 8 * 0x10 + key / 0x80 * 4;
      case 3 => v := ((shiftReg * Pow2(shiftOffset)) / 0x100) % 0x100;
      case _ =>
    }

    /** out_port(port, v) */
    method OutPort(port: byte, v: byte)
      requires Valid()
      modifies this
      ensures (shiftReg, shiftOffset) == RefDefs.OutPort(port, v, old(shiftReg), old(shiftOffset))
      ensures State() == old(State()).(shiftReg := shiftReg, shiftOffset := shiftOffset)
    {
      match port
      case 2 => shiftOffset := v % 8;
      case 4 => shiftReg := shiftReg / 0x100 + v * 0x100;
      case _ =>
    }

    /** The cases under INPUT/OUTPUT and CONTROL, and the default case. */
    method Control(i: Isa.Instr)
      requires Valid()
      requires !Spec.IsTransfer(i) && !Spec.IsArith(i) && !Spec.IsStack(i) && !Spec.IsBranch(i)
      modifies this, mem
      ensures State() == Spec.Control(old(State()), i)
    {
      match i
      case Out =>
        OutPort(mem[R8Loc(pc)], a);
        pc := Inc16(pc);
      case In =>
        a := InPort(mem[R8Loc(pc)]);
        pc := Inc16(pc);
      case Di =>
        ie := false;
      case Ei =>
        ie := true;
        if ipend / 0x80 == 1 {
          Interrupt(ipend % 0x80);
        }
      case Hlt =>
        cycles := 0;
      case _ =>
    }

    // -------------------------------------------------------------- cpu_run

    /** The switch of cpu_run. */
    method Exec(i: Isa.Instr)
      requires Valid()
      modifies this, mem
      ensures State() == Spec.Exec(old(State()), i)
    {
      if Spec.IsTransfer(i) {
        Transfer(i);
      } else if Spec.IsArith(i) {
        Arith(i);
      } else if Spec.IsStack(i) {
        Stack(i);
      } else if Spec.IsBranch(i) {
        Branch(i);
      } else {
        Control(i);
      }
    }

    /** One pass of the loop: fetch, step PC, charge the table's cycles,
     *  run the case. */
    method Step()
      requires Valid()
      modifies this, mem
      ensures State() == Spec.Step(old(State()))
    {
      ghost var s0 := State();
      var op := mem[R8Loc(pc)];
      pc := Inc16(pc);
      cycles := cycles - LutCycles(op);
      ghost var t := State();
      assert t == s0.(pc := Inc16(s0.pc), cycles := s0.cycles - LutCycles(Spec.R8(s0, s0.pc)));
      var i := Isa.Decode(op);
      Spec.StepIs(s0, t, i);
      Exec(i);
    }

    /** cpu_run(budget): the budget is added to the balance and whole
     *  instructions run while it is positive.  `k` is a ROM address whose
     *  opcode costs cycles; it is what makes the loop end. */
    method CpuRun(budget: int, ghost k: int)
      requires Valid() && Spec.Live(mem[..], k)
      modifies this, mem
      ensures State() == Spec.CpuRun(old(State()), budget, k)
      ensures cycles <= 0
    {
      cycles := cycles + budget;
      ghost var run := Spec.Run(State(), k);
      while cycles > 0
        invariant Spec.Live(mem[..], k)
        invariant Spec.Run(State(), k) == run
        decreases if cycles > 0 then cycles else 0, Spec.Distance(pc, k)
      {
        ghost var s := State();
        Spec.StepProgress(s, k);
        Step();
      }
    }
  }
}
