/** The machine of 8080e.c: `struct state_t`, its memory buffer and the
 *  handlers that change them in place.  Every method is proved to do what
 *  the matching function of Emu8080eSpec says, on the state that `State()`
 *  reads off the fields. */
module Emu8080e {
  import opened Bytes
  import Isa
  import opened Emu8080eDefs
  import Alu = Emu8080eAlu
  import Spec = Emu8080eSpec

  /** init_machine for a program image: the C code aborts when the image is
   *  empty or larger than the ROM. */
  method InitMachine(rom: seq<byte>) returns (m: Machine?)
    ensures m == null <==> |rom| == 0 || |rom| > ROM_SIZE
    ensures m != null ==> fresh(m) && fresh(m.mem) && m.Valid() && m.State() == Spec.Init(rom)
  {
    if |rom| == 0 || |rom| > ROM_SIZE {
      return null;
    }
    m := new Machine(rom);
  }

  class Machine {
    var pc: word
    var sp: word
    /** The pairs; B, D and H are their high bytes, C, E and L their low
     *  bytes. */
    var bc: word
    var de: word
    var hl: word
    var a: byte
    var f: Flags
    var intr: bool
    var shiftReg: word
    var shiftOffset: Spec.Offset
    /** The cabinet inputs, which the caller updates between runs. */
    var keys: Keyboard
    const mem: array<byte>
    const programSize: word

    ghost predicate Valid()
    {
      mem.Length == MEM_SIZE && 0 < programSize <= ROM_SIZE
    }

    /** The whole machine as a value. */
    ghost function State(): Spec.State
      requires Valid()
      reads this, mem
    {
      Spec.State(pc, sp, bc, de, hl, a, f, intr, shiftReg, shiftOffset, keys, mem[..])
    }

    /** The machine now is the outcome `r` of a handler: `ok` tells whether
     *  it completed, and if it did the state is the one it describes. */
    ghost predicate Agrees(ok: bool, r: Spec.Result)
      requires Valid()
      reads this, mem
    {
      ok == r.Done? && (ok ==> State() == r.s)
    }

    /** init_machine: registers reset, SP at 0x2400, F holding only its fixed
     *  bit 1, memory cleared and the program loaded at address 0. */
    constructor (rom: seq<byte>)
      requires 0 < |rom| <= ROM_SIZE
      ensures Valid() && fresh(mem) && programSize == |rom|
      ensures State() == Spec.Init(rom)
    {
      intr, shiftReg, shiftOffset := false, 0, 0;
      pc, sp, a, f := 0, STACK_BOTTOM, 0, INIT_FLAGS;
      bc, de, hl := 0, 0, 0;
      keys := NO_KEYS;
      mem := new byte[MEM_SIZE](i => if 0 <= i < |rom| then rom[i] else 0);
      programSize := |rom|;
      new;
      assert mem[..] == rom + seq(MEM_SIZE - |rom|, _ => 0);
    }

    // -------------------------------------------------------------- memory

    /** A store through MEM_LOC.  The ROM half is mapped read-only, so a
     *  store there faults; `ok` reports whether the store happened. */
    method Write(loc: int, v: byte) returns (ok: bool)
      requires Valid() && 0 <= loc <= 0x10000
      modifies mem
      ensures Agrees(ok, Spec.Store(old(State()), loc, v))
    {
      var i := MemLoc(loc);
      if i < ROM_SIZE {
        return false;
      }
      mem[i] := v;
      return true;
    }

    /** read_8b */
    method Read8() returns (v: byte)
      requires Valid()
      modifies this
      ensures (v, State()) == Spec.Fetch8(old(State()))
    {
      v := mem[MemLoc(pc)];
      pc := Inc16(pc);
    }

    /** read_16b */
    method Read16() returns (w: word)
      requires Valid()
      modifies this
      ensures (w, State()) == Spec.Fetch16(old(State()))
    {
      var lo := mem[MemLoc(pc)];
      pc := Inc16(pc);
      var hi := mem[MemLoc(pc)];
      pc := Inc16(pc);
      w := Join(hi, lo);
    }

    // ----------------------------------------------------------- registers

    /** get_reg, reading through the returned pointer. */
    method GetReg(r: Isa.Reg) returns (v: byte)
      requires Valid()
      ensures v == Spec.RegOf(State(), r)
    {
      match r
      case 0 => v := Hi(bc);
      case 1 => v := Lo(bc);
      case 2 => v := Hi(de);
      case 3 => v := Lo(de);
      case 4 => v := Hi(hl);
      case 5 => v := Lo(hl);
      case 6 => v := mem[MemLoc(hl)];
      case 7 => v := a;
    }

    /** get_reg, writing through the returned pointer. */
    method PutReg(r: Isa.Reg, v: byte) returns (ok: bool)
      requires Valid()
      modifies this, mem
      ensures Agrees(ok, Spec.SetReg(old(State()), r, v))
    {
      ok := true;
      match r
      case 0 => bc := WithHi(bc, v);
      case 1 => bc := WithLo(bc, v);
      case 2 => de := WithHi(de, v);
      case 3 => de := WithLo(de, v);
      case 4 => hl := WithHi(hl, v);
      case 5 => hl := WithLo(hl, v);
      case 6 => ok := Write(hl, v);
      case 7 => a := v;
    }

    /** get_dreg, reading. */
    method GetPair(rp: Isa.Pair) returns (w: word)
      requires Valid()
      ensures w == Spec.PairOf(State(), rp)
    {
      match rp
      case 0 => w := bc;
      case 1 => w := de;
      case 2 => w := hl;
      case 3 => w := sp;
    }

    /** get_dreg, writing. */
    method PutPair(rp: Isa.Pair, w: word)
      requires Valid()
      modifies this
      ensures State() == Spec.SetPair(old(State()), rp, w)
    {
      match rp
      case 0 => bc := w;
      case 1 => de := w;
      case 2 => hl := w;
      case 3 => sp := w;
    }

    // --------------------------------------------------------- flag helpers

    /** set_ZSP */
    method SetZSP(res: byte)
      requires Valid()
      modifies this
      ensures State() == old(State()).(f := WithZSP(old(f), res))
    {
      f := f.(z := res == 0);
      f := f.(s := (res / 0x80) % 2 == 1);
      f := f.(p := Parity(res));
    }

    /** set_A */
    method SetA(before: byte, after: byte)
      requires Valid()
      modifies this
      ensures State() == old(State()).(f := old(f).(ac := Bit4Toggled(before, after)))
    {
      f := f.(ac := Bit4Toggled(before, after));
    }

    /** add */
    method Add(x: byte, y: int) returns (res: byte)
      requires Valid() && 0 <= y <= 0x100
      modifies this
      ensures (res, f) == Alu.AluAdd(old(f), x, y)
      ensures State() == old(State()).(f := f)
    {
      res := (x + y) % 0x100;
      f := f.(cy := x + y > 0xFF);
      SetA(x, res);
      SetZSP(res);
    }

    /** sub */
    method Sub(x: byte, y: int) returns (res: byte)
      requires Valid() && 0 <= y <= 0x100
      modifies this
      ensures (res, f) == Alu.AluSub(old(f), x, y)
      ensures State() == old(State()).(f := f)
    {
      res := (x - y) % 0x100;
      f := f.(cy := x < y);
      SetA(x, res);
      SetZSP(res);
    }

    /** inc_dec, with `p` one or minus one. */
    method IncDec(v: byte, p: int) returns (res: byte)
      requires Valid() && (p == 1 || p == -1)
      modifies this
      ensures (res, f) == Alu.AluIncDec(old(f), v, p == 1)
      ensures State() == old(State()).(f := f)
    {
      res := (v + p) % 0x100;
      SetA(v, res);
      SetZSP(res);
    }

    /** and */
    method And(x: byte, y: byte, clearAux: bool) returns (res: byte)
      requires Valid()
      modifies this
      ensures (res, f) == Alu.AluAnd(old(f), x, y, clearAux)
      ensures State() == old(State()).(f := f)
    {
      res := And8(x, y);
      if clearAux {
        f := f.(ac := false);
      } else {
        SetA(x, res);
      }
      SetZSP(res);
      f := f.(cy := false);
    }

    /** or */
    method Or(x: byte, y: byte) returns (res: byte)
      requires Valid()
      modifies this
      ensures (res, f) == Alu.AluOr(old(f), x, y)
      ensures State() == old(State()).(f := f)
    {
      res := Or8(x, y);
      SetZSP(res);
      f := f.(cy := false);
      f := f.(ac := false);
    }

    /** xor */
    method Xor(x: byte, y: byte) returns (res: byte)
      requires Valid()
      modifies this
      ensures (res, f) == Alu.AluXor(old(f), x, y)
      ensures State() == old(State()).(f := f)
    {
      res := Xor8(x, y);
      SetZSP(res);
      f := f.(cy := false);
      f := f.(ac := false);
    }

    // ------------------------------------------------------ stack sequences

    /** The push sequence written out in PUSH, call_if and generate_intr. */
    method PushWord(w: word) returns (ok: bool)
      requires Valid()
      modifies this, mem
      ensures Agrees(ok, Spec.PushWord(old(State()), w))
    {
      sp := Dec16(sp);
      ok := Write(sp, Hi(w));
      if !ok {
        return;
      }
      sp := Dec16(sp);
      ok := Write(sp, Lo(w));
    }

    /** The pop sequence written out in POP and return_if. */
    method PopWord() returns (w: word)
      requires Valid()
      modifies this
      ensures (w, State()) == Spec.PopWord(old(State()))
    {
      var lo := mem[MemLoc(sp)];
      sp := Inc16(sp);
      var hi := mem[MemLoc(sp)];
      sp := Inc16(sp);
      w := Join(hi, lo);
    }

    // ------------------------------------------------------------- branches

    method JumpIf(c: bool)
      requires Valid()
      modifies this
      ensures State() == Spec.JumpIf(old(State()), c)
    {
      var target := Read16();
      if c {
        pc := target;
      }
    }

    method CallIf(c: bool) returns (ok: bool)
      requires Valid()
      modifies this, mem
      ensures Agrees(ok, Spec.CallIf(old(State()), c))
    {
      var target := Read16();
      ok := true;
      if c {
        ok := PushWord(pc);
        if !ok {
          return;
        }
        pc := target;
      }
    }

    method ReturnIf(c: bool)
      requires Valid()
      modifies this
      ensures State() == Spec.ReturnIf(old(State()), c)
    {
      if c {
        pc := PopWord();
      }
    }

    method Pchl()
      requires Valid()
      modifies this
      ensures State() == Spec.Pchl(old(State()))
    {
      pc := hl;
    }

    method Jx(cc: Isa.Cond)
      requires Valid()
      modifies this
      ensures State() == Spec.Jx(old(State()), cc)
    {
      var taken := Cond(f, cc);
      JumpIf(taken);
    }

    method Jmp()
      requires Valid()
      modifies this
      ensures State() == Spec.Jmp(old(State()))
    {
      JumpIf(true);
    }

    method Cx(cc: Isa.Cond) returns (taken: bool, ok: bool)
      requires Valid()
      modifies this, mem
      ensures taken == Cond(old(f), cc)
      ensures Agrees(ok, Spec.Cx(old(State()), cc))
    {
      taken := Cond(f, cc);
      ok := CallIf(taken);
    }

    method Cal() returns (ok: bool)
      requires Valid()
      modifies this, mem
      ensures Agrees(ok, Spec.Cal(old(State())))
    {
      ok := CallIf(true);
    }

    method Rx(cc: Isa.Cond) returns (taken: bool)
      requires Valid()
      modifies this
      ensures taken == Cond(old(f), cc)
      ensures State() == Spec.Rx(old(State()), cc)
    {
      taken := Cond(f, cc);
      ReturnIf(taken);
    }

    method Ret()
      requires Valid()
      modifies this
      ensures State() == Spec.Ret(old(State()))
    {
      ReturnIf(true);
    }

    // ------------------------------------------------------------ transfers

    method Lxi(rp: Isa.Pair)
      requires Valid()
      modifies this
      ensures State() == Spec.Lxi(old(State()), rp)
    {
      var w := Read16();
      PutPair(rp, w);
    }

    method Mvi(r: Isa.Reg) returns (ok: bool)
      requires Valid()
      modifies this, mem
      ensures Agrees(ok, Spec.Mvi(old(State()), r))
    {
      var v := Read8();
      ok := PutReg(r, v);
    }

    method Lda()
      requires Valid()
      modifies this
      ensures State() == Spec.Lda(old(State()))
    {
      var addr := Read16();
      a := mem[MemLoc(addr)];
    }

    method Lhld()
      requires Valid()
      modifies this
      ensures State() == Spec.Lhld(old(State()))
    {
      ghost var s := State();
      var addr := Read16();
      ghost var t := State();
      var l := mem[MemLoc(addr)];
      var h := mem[MemLoc(addr as int + 1)];
      Spec.LhldFrom(s, addr, t, l, h);
      // L and H are both overwritten, so the pair is just the two bytes.
      hl := Join(h, l);
    }

    method Shld() returns (ok: bool)
      requires Valid()
      modifies this, mem
      ensures Agrees(ok, Spec.Shld(old(State())))
    {
      ghost var s := State();
      var addr := Read16();
      ghost var t := State();
      ok := Write(addr, Lo(hl));
      if !ok {
        return;
      }
      ghost var u := State();
      Spec.ShldFrom(s, addr, t, u);
      ok := Write(addr as int + 1, Hi(hl));
    }

    method Ldax(rp: Isa.Pair)
      requires Valid()
      modifies this
      ensures State() == Spec.Ldax(old(State()), rp)
    {
      var addr := GetPair(rp);
      a := mem[MemLoc(addr)];
    }

    method Mov(dst: Isa.Reg, src: Isa.Reg) returns (ok: bool)
      requires Valid()
      modifies this, mem
      ensures Agrees(ok, Spec.Mov(old(State()), dst, src))
    {
      var v := GetReg(src);
      ok := PutReg(dst, v);
    }

    method Sta() returns (ok: bool)
      requires Valid()
      modifies this, mem
      ensures Agrees(ok, Spec.Sta(old(State())))
    {
      var addr := Read16();
      ok := Write(addr, a);
    }

    // ----------------------------------------------------------- arithmetic

    /** ADD and ADC */
    method AddReg(src: Isa.Reg, carry: bool)
      requires Valid()
      modifies this
      ensures State() == Spec.AddReg(old(State()), src, carry)
    {
      var r := GetReg(src);
      var y := r + (if carry then B2I(f.cy) else 0);
      ghost var res := Alu.AluAdd(f, a, y);
      a := Add(a, y);
      assert (a, f) == res;
    }

    /** SUB and SBB */
    method SubReg(src: Isa.Reg, carry: bool)
      requires Valid()
      modifies this
      ensures State() == Spec.SubReg(old(State()), src, carry)
    {
      var r := GetReg(src);
      var y := r + (if carry then B2I(f.cy) else 0);
      ghost var res := Alu.AluSub(f, a, y);
      a := Sub(a, y);
      assert (a, f) == res;
    }

    method Sbi()
      requires Valid()
      modifies this
      ensures State() == Spec.Sbi(old(State()))
    {
      var v := Read8();
      a := Sub(a, v + B2I(f.cy));
    }

    method Cmp(src: Isa.Reg)
      requires Valid()
      modifies this
      ensures State() == Spec.Cmp(old(State()), src)
    {
      var r := GetReg(src);
      var _ := Sub(a, r);
    }

    method Cpi()
      requires Valid()
      modifies this
      ensures State() == Spec.Cpi(old(State()))
    {
      var v := Read8();
      var _ := Sub(a, v);
    }

    method Inx(rp: Isa.Pair)
      requires Valid()
      modifies this
      ensures State() == Spec.Inx(old(State()), rp)
    {
      var w := GetPair(rp);
      PutPair(rp, Inc16(w));
    }

    method Dcx(rp: Isa.Pair)
      requires Valid()
      modifies this
      ensures State() == Spec.Dcx(old(State()), rp)
    {
      var w := GetPair(rp);
      PutPair(rp, Dec16(w));
    }

    /** INR and DCR */
    method Inr(r: Isa.Reg, inc: bool) returns (ok: bool)
      requires Valid()
      modifies this, mem
      ensures Agrees(ok, Spec.Inr(old(State()), r, inc))
    {
      var v := GetReg(r);
      var res := IncDec(v, if inc then 1 else -1);
      ok := PutReg(r, res);
    }

    method Dad(rp: Isa.Pair)
      requires Valid()
      modifies this
      ensures State() == Spec.Dad(old(State()), rp)
    {
      var w := GetPair(rp);
      var res := hl + w;
      f := f.(cy := res > 0xFFFF);
      hl := res % 0x10000;
    }

    /** ADI: the sum is formed here rather than by add, with set_A, set_ZSP
     *  and the carry applied in that order. */
    method Adi()
      requires Valid()
      modifies this
      ensures State() == Spec.Adi(old(State()))
    {
      var b := Read8();
      ghost var t := State();
      var sum := a + b;
      SetA(a, sum % 0x100);
      a := sum % 0x100;
      SetZSP(a);
      f := f.(cy := sum > 0xFF);
      Alu.AddCarryLast(t.f, t.a, b);
    }

    /** SUI: the borrow first, then set_A and set_ZSP. */
    method Sui()
      requires Valid()
      modifies this
      ensures State() == Spec.Sui(old(State()))
    {
      var b := Read8();
      ghost var t := State();
      f := f.(cy := a < b);
      var diff := (a - b) % 0x100;
      assert Alu.AluSub(t.f, t.a, b) ==
        (diff, WithZSP(t.f.(cy := t.a < b, ac := Bit4Toggled(t.a, diff)), diff));
      SetA(a, diff);
      a := diff;
      SetZSP(a);
      assert (a, f) == Alu.AluSub(t.f, t.a, b);
    }

    method Daa()
      requires Valid()
      modifies this
      ensures State() == Spec.Daa(old(State()))
    {
      if a % 0x10 > 9 || f.ac {
        a := Add(a, 0x06);
      }
      if a / 0x10 > 9 || f.cy {
        a := Add(a, 0x60);
      }
    }

    // ---------------------------------------------------------------- logic

    method Ana(src: Isa.Reg)
      requires Valid()
      modifies this
      ensures State() == Spec.Ana(old(State()), src)
    {
      var r := GetReg(src);
      a := And(a, r, false);
    }

    method Ani()
      requires Valid()
      modifies this
      ensures State() == Spec.Ani(old(State()))
    {
      var v := Read8();
      a := And(a, v, true);
    }

    method Ora(src: Isa.Reg)
      requires Valid()
      modifies this
      ensures State() == Spec.Ora(old(State()), src)
    {
      var r := GetReg(src);
      a := Or(a, r);
    }

    method Ori()
      requires Valid()
      modifies this
      ensures State() == Spec.Ori(old(State()))
    {
      var v := Read8();
      a := Or(a, v);
    }

    method Xra(src: Isa.Reg)
      requires Valid()
      modifies this
      ensures State() == Spec.Xra(old(State()), src)
    {
      var r := GetReg(src);
      a := Xor(a, r);
    }

    method Cma()
      requires Valid()
      modifies this
      ensures State() == Spec.Cma(old(State()))
    {
      a := 0xFF - a;
    }

    method Rlc()
      requires Valid()
      modifies this
      ensures State() == Spec.Rlc(old(State()))
    {
      var c := a / 0x80;
      a := (2 * a) % 0x100;
      a := a + c;
      f := f.(cy := c == 1);
    }

    method Rrc()
      requires Valid()
      modifies this
      ensures State() == Spec.Rrc(old(State()))
    {
      var c := a % 2;
      a := a / 2;
      a := a + 0x80 * c;
      f := f.(cy := c == 1);
    }

    method Rar()
      requires Valid()
      modifies this
      ensures State() == Spec.Rar(old(State()))
    {
      var c := a % 2;
      a := a / 2;
      a := a + 0x80 * B2I(f.cy);
      f := f.(cy := c == 1);
    }

    method Stc()
      requires Valid()
      modifies this
      ensures State() == Spec.Stc(old(State()))
    {
      f := f.(cy := true);
    }

    // --------------------------------------------------- stack and exchanges

    method Push(rp: Isa.Pair) returns (ok: bool)
      requires Valid()
      modifies this, mem
      ensures Agrees(ok, Spec.Push(old(State()), rp))
    {
      var w := GetPair(rp);
      ok := PushWord(w);
    }

    method PushPsw() returns (ok: bool)
      requires Valid()
      modifies this, mem
      ensures Agrees(ok, Spec.PushPsw(old(State())))
    {
      sp := Dec16(sp);
      ok := Write(sp, a);
      if !ok {
        return;
      }
      sp := Dec16(sp);
      ok := Write(sp, Pack(f));
    }

    method Pop(rp: Isa.Pair)
      requires Valid()
      modifies this
      ensures State() == Spec.Pop(old(State()), rp)
    {
      var w := PopWord();
      PutPair(rp, w);
    }

    method PopPsw()
      requires Valid()
      modifies this
      ensures State() == Spec.PopPsw(old(State()))
    {
      f := Unpack(mem[MemLoc(sp)]);
      sp := Inc16(sp);
      a := mem[MemLoc(sp)];
      sp := Inc16(sp);
    }

    method Xthl() returns (ok: bool)
      requires Valid()
      modifies this, mem
      ensures Agrees(ok, Spec.Xthl(old(State())))
    {
      var t := Lo(hl);
      hl := WithLo(hl, mem[MemLoc(sp)]);
      ghost var s1 := State();
      ok := Write(sp, t);
      if !ok {
        return;
      }
      ghost var s2 := State();
      Spec.XthlFrom(old(State()), s2);
      t := Hi(hl);
      hl := WithHi(hl, mem[MemLoc(sp + 1)]);
      ok := Write(sp + 1, t);
    }

    method Xchg()
      requires Valid()
      modifies this
      ensures State() == Spec.Xchg(old(State()))
    {
      var tmp := hl;
      hl := de;
      de := tmp;
    }

    // ---------------------------------------------------------------- ports

    method In()
      requires Valid()
      modifies this
      ensures State() == Spec.In(old(State()))
    {
      var port := Read8();
      match port
      case 0 => a := 0x0D;
      case 1 => a := InPort1(keys);
      case 3 => a := ShiftRead(shiftReg, shiftOffset);
      case _ => a := 0;
    }

    method Out()
      requires Valid()
      modifies this
      ensures State() == Spec.Out(old(State()))
    {
      var port := Read8();
      if port == 2 {
        shiftOffset := a % 8;
      } else if port == 4 {
        shiftReg := shiftReg / 0x100;
        shiftReg := shiftReg + a * 0x100;
      }
    }

    method Ei()
      requires Valid()
      modifies this
      ensures State() == Spec.Ei(old(State()))
    {
      intr := true;
    }

    // ------------------------------------------------------------- dispatch

    /** The call of the handler that the dispatch selects for `o`: the
     *  if-chain of bit-mask tests, then the switch. */
    method Dispatch(o: Op) returns (taken: bool, ok: bool)
      requires Valid() && Spec.Executes(o)
      modifies this, mem
      ensures taken == Spec.Taken(old(State()), o)
      ensures Agrees(ok, Spec.Exec(old(State()), o))
    {
      taken, ok := true, true;
      if o.MOV? {
        ok := Mov(o.dst, o.src);
      } else if o.ADD? {
        AddReg(o.src, o.carry);
      } else if o.SUB? {
        SubReg(o.src, o.carry);
      } else if o.ANA? {
        Ana(o.src);
      } else if o.XRA? {
        Xra(o.src);
      } else if o.ORA? {
        Ora(o.src);
      } else if o.CMP? {
        Cmp(o.src);
      } else if o.LXI? {
        Lxi(o.rp);
      } else if o.INX? {
        Inx(o.rp);
      } else if o.DCX? {
        Dcx(o.rp);
      } else if o.DAD? {
        Dad(o.rp);
      } else if o.INR? {
        ok := Inr(o.r, o.inc);
      } else if o.CX? {
        taken, ok := Cx(o.cc);
      } else if o.JX? {
        Jx(o.cc);
      } else if o.MVI? {
        ok := Mvi(o.r);
      } else if o.RX? {
        taken := Rx(o.cc);
      } else {
        ok := DispatchSwitch(o);
      }
    }

    /** The switch at the end of the dispatch. */
    method DispatchSwitch(o: Op) returns (ok: bool)
      requires Valid() && Spec.Executes(o) && !Spec.FromChain(o)
      modifies this, mem
      ensures Agrees(ok, Spec.Exec(old(State()), o))
    {
      ok := true;
      if o.NOP? {
      } else if o.RLC? {
        Rlc();
      } else if o.LDAX? {
        Ldax(o.rp);
      } else if o.RRC? {
        Rrc();
      } else if o.RAR? {
        Rar();
      } else if o.SHLD? {
        ok := Shld();
      } else if o.DAA? {
        Daa();
      } else if o.LHLD? {
        Lhld();
      } else if o.CMA? {
        Cma();
      } else if o.STA? {
        ok := Sta();
      } else if o.STC? {
        Stc();
      } else if o.LDA? {
        Lda();
      } else if o.POP? {
        Pop(o.rp);
      } else if o.JMP? {
        Jmp();
      } else if o.PUSH? {
        ok := Push(o.rp);
      } else if o.ADI? {
        Adi();
      } else if o.RET? {
        Ret();
      } else if o.CAL? {
        ok := Cal();
      } else if o.OUT? {
        Out();
      } else if o.SUI? {
        Sui();
      } else if o.IN? {
        In();
      } else if o.SBI? {
        Sbi();
      } else if o.XTHL? {
        ok := Xthl();
      } else if o.ANI? {
        Ani();
      } else if o.PCHL? {
        Pchl();
      } else if o.XCHG? {
        Xchg();
      } else if o.POPPSW? {
        PopPsw();
      } else if o.PUSHPSW? {
        ok := PushPsw();
      } else if o.ORI? {
        Ori();
      } else if o.EI? {
        Ei();
      } else {
        assert o.CPI?;
        Cpi();
      }
    }

    /** execute_one */
    method ExecuteOne() returns (o: Outcome)
      requires Valid()
      modifies this, mem
      ensures o == Spec.Step(old(State()), programSize).0
      ensures o.Ok? ==> State() == Spec.Step(old(State()), programSize).1
    {
      if pc > programSize {
        return MemoryFault;
      }
      var op := mem[pc];
      pc := Inc16(pc);
      var handler := Decode(op);
      if handler.HLT? {
        return Halt;
      }
      if handler.Alternate? || handler.Unrecognized? {
        return DecodeFault(op, pc);
      }
      var taken, ok := Dispatch(handler);
      if !ok {
        return MemoryFault;
      }
      var cycle := Cost(op, taken);
      if cycle <= 0 || cycle >= 20 {
        // the "cycle number incorrect" abort: Cost's contract rules it out
        assert false;
      }
      return Ok(cycle);
    }

    /** generate_intr */
    method GenerateIntr(n: int) returns (ok: bool)
      requires Valid()
      modifies this, mem
      ensures Agrees(ok, Spec.GenerateIntr(old(State()), n))
    {
      if !intr {
        return true;
      }
      ok := PushWord(pc);
      if !ok {
        return;
      }
      pc := (8 * n) % 0x10000;
    }

    /** What is left of a run of execute from the current state. */
    ghost function Rest(budget: int, cycle: int): (Spec.RunOutcome, Spec.State)
      requires Valid()
      reads this, mem
    {
      Spec.Run(State(), programSize, budget, cycle)
    }

    /** One round of the loop of execute. */
    method Round(ghost budget: int, ghost cycle: int) returns (o: Outcome)
      requires Valid() && cycle < budget
      modifies this, mem
      ensures o.Ok? ==> 4 <= o.cycles && Rest(budget, cycle + o.cycles) == old(Rest(budget, cycle))
      ensures !o.Ok? ==> old(Rest(budget, cycle)).0 == Spec.Stopped(o)
    {
      ghost var s := State();
      o := ExecuteOne();
      Spec.RunAfterStep(s, programSize, budget, cycle, o, State());
    }

    /** execute: whole instructions until the accumulated cycles reach the
     *  budget. */
    method Execute(budget: int) returns (r: Spec.RunOutcome)
      requires Valid()
      modifies this, mem
      ensures r == Spec.Run(old(State()), programSize, budget, 0).0
      ensures r.Completed? ==> State() == Spec.Run(old(State()), programSize, budget, 0).1
    {
      var cycle := 0;
      ghost var run := Rest(budget, 0);
      while cycle < budget
        invariant Rest(budget, cycle) == run
        decreases budget - cycle
      {
        var o := Round(budget, cycle);
        if !o.Ok? {
          return Spec.Stopped(o);
        }
        cycle := cycle + o.cycles;
      }
      return Spec.Completed(cycle);
    }
  }
}
