/** The Intel 8080 instruction set: which instruction each opcode byte
 *  encodes.  The opcode is read as three octal fields, x (bits 7-6),
 *  y (bits 5-3) and z (bits 2-0); y splits further into a pair field p
 *  (bits 5-4) and a bit q (bit 3).  The twelve encodings that the 8080
 *  leaves undocumented decode to `Illegal`. */
module Isa {
  import opened Bytes

  /** Register operand: B, C, D, E, H, L, M (the byte at HL), A. */
  type Reg = x: int | 0 <= x < 8
  /** Register-pair operand: BC, DE, HL, then SP (or PSW for PUSH and POP). */
  type Pair = x: int | 0 <= x < 4
  /** Condition: NZ, Z, NC, C, PO, PE, P, M. */
  type Cond = x: int | 0 <= x < 8

  const M: Reg := 6
  const A: Reg := 7

  datatype AluOp = Add | Adc | Sub | Sbb | Ana | Xra | Ora | Cmp

  datatype Instr =
    | Nop | Lxi(rp: Pair) | Dad(rp: Pair) | Stax(rp: Pair) | Ldax(rp: Pair)
    | Shld | Lhld | Sta | Lda | Inx(rp: Pair) | Dcx(rp: Pair)
    | Inr(r: Reg) | Dcr(r: Reg) | Mvi(r: Reg)
    | Rlc | Rrc | Ral | Rar | Daa | Cma | Stc | Cmc
    | Mov(dst: Reg, src: Reg) | Hlt
    | Alu(op: AluOp, src: Reg) | AluImm(op: AluOp)
    | RetIf(cc: Cond) | Pop(rp: Pair) | Ret | Pchl | Sphl
    | JumpIf(cc: Cond) | Jmp | Out | In | Xthl | Xchg | Di | Ei
    | CallIf(cc: Cond) | Push(rp: Pair) | Call | Rst(n: Reg)
    | Illegal

  /** The undocumented alternate encodings. */
  const ALTERNATES: set<byte> :=
    {0x08, 0x10, 0x18, 0x20, 0x28, 0x30, 0x38, 0xCB, 0xD9, 0xDD, 0xED, 0xFD}

  function AluOf(y: Reg): AluOp
  {
    match y
    case 0 => Add case 1 => Adc case 2 => Sub case 3 => Sbb
    case 4 => Ana case 5 => Xra case 6 => Ora case 7 => Cmp
  }

  function AluCode(op: AluOp): (y: Reg)
    ensures AluOf(y) == op
  {
    match op
    case Add => 0 case Adc => 1 case Sub => 2 case Sbb => 3
    case Ana => 4 case Xra => 5 case Ora => 6 case Cmp => 7
  }

  /** An instruction that some opcode encodes. */
  predicate WellFormed(i: Instr)
  {
    match i
    case Stax(rp) => rp < 2
    case Ldax(rp) => rp < 2
    case Mov(d, s) => !(d == M && s == M)
    case Illegal => false
    case _ => true
  }

  /** The opcode with octal fields x, y and z. */
  function Op3(x: int, y: Reg, z: Reg): byte
    requires 0 <= x < 4
  {
    64 * x + 8 * y + z
  }

  lemma SplitOp3(x: int, y: Reg, z: Reg)
    requires 0 <= x < 4
    ensures Op3(x, y, z) / 64 == x && (Op3(x, y, z) / 8) % 8 == y && Op3(x, y, z) % 8 == z
  {
  }

  function Decode(op: byte): Instr
  {
    DecodeFields(op / 64, (op / 8) % 8, op % 8)
  }

  function DecodeFields(x: int, y: Reg, z: Reg): Instr
    requires 0 <= x < 4
  {
    if x == 0 then DecodeRow0(y, z)
    else if x == 1 then (if y == M && z == M then Hlt else Mov(y, z))
    else if x == 2 then Alu(AluOf(y), z)
    else DecodeRow3(y, z)
  }

  /** Opcodes 0x00-0x3F: loads, stores, increments and the accumulator group. */
  function DecodeRow0(y: Reg, z: Reg): Instr
  {
    var p, q := y / 2, y % 2;
    match z
    case 0 => if y == 0 then Nop else Illegal
    case 1 => if q == 0 then Lxi(p) else Dad(p)
    case 2 =>
      if q == 0 then (if p < 2 then Stax(p) else if p == 2 then Shld else Sta)
      else (if p < 2 then Ldax(p) else if p == 2 then Lhld else Lda)
    case 3 => if q == 0 then Inx(p) else Dcx(p)
    case 4 => Inr(y)
    case 5 => Dcr(y)
    case 6 => Mvi(y)
    case 7 =>
      match y
      case 0 => Rlc case 1 => Rrc case 2 => Ral case 3 => Rar
      case 4 => Daa case 5 => Cma case 6 => Stc case 7 => Cmc
  }

  /** Opcodes 0xC0-0xFF: branches, stack, immediates and input/output. */
  function DecodeRow3(y: Reg, z: Reg): Instr
  {
    var p, q := y / 2, y % 2;
    match z
    case 0 => RetIf(y)
    case 1 =>
      if q == 0 then Pop(p)
      else (match p case 0 => Ret case 1 => Illegal case 2 => Pchl case 3 => Sphl)
    case 2 => JumpIf(y)
    case 3 =>
      (match y
       case 0 => Jmp case 1 => Illegal case 2 => Out case 3 => In
       case 4 => Xthl case 5 => Xchg case 6 => Di case 7 => Ei)
    case 4 => CallIf(y)
    case 5 => if q == 0 then Push(p) else if p == 0 then Call else Illegal
    case 6 => AluImm(AluOf(y))
    case 7 => Rst(y)
  }

  /** The octal fields (x, y, z) of the opcode that encodes `i`. */
  function Fields(i: Instr): (f: (int, Reg, Reg))
    requires WellFormed(i)
    ensures 0 <= f.0 < 4
  {
    match i
    case Nop => (0, 0, 0)
    case Lxi(rp) => (0, 2 * rp, 1)
    case Dad(rp) => (0, 2 * rp + 1, 1)
    case Stax(rp) => (0, 2 * rp, 2)
    case Ldax(rp) => (0, 2 * rp + 1, 2)
    case Shld => (0, 4, 2)
    case Lhld => (0, 5, 2)
    case Sta => (0, 6, 2)
    case Lda => (0, 7, 2)
    case Inx(rp) => (0, 2 * rp, 3)
    case Dcx(rp) => (0, 2 * rp + 1, 3)
    case Inr(r) => (0, r, 4)
    case Dcr(r) => (0, r, 5)
    case Mvi(r) => (0, r, 6)
    case Rlc => (0, 0, 7)
    case Rrc => (0, 1, 7)
    case Ral => (0, 2, 7)
    case Rar => (0, 3, 7)
    case Daa => (0, 4, 7)
    case Cma => (0, 5, 7)
    case Stc => (0, 6, 7)
    case Cmc => (0, 7, 7)
    case Mov(d, s) => (1, d, s)
    case Hlt => (1, 6, 6)
    case Alu(op, s) => (2, AluCode(op), s)
    case AluImm(op) => (3, AluCode(op), 6)
    case RetIf(cc) => (3, cc, 0)
    case Pop(rp) => (3, 2 * rp, 1)
    case Ret => (3, 1, 1)
    case Pchl => (3, 5, 1)
    case Sphl => (3, 7, 1)
    case JumpIf(cc) => (3, cc, 2)
    case Jmp => (3, 0, 3)
    case Out => (3, 2, 3)
    case In => (3, 3, 3)
    case Xthl => (3, 4, 3)
    case Xchg => (3, 5, 3)
    case Di => (3, 6, 3)
    case Ei => (3, 7, 3)
    case CallIf(cc) => (3, cc, 4)
    case Push(rp) => (3, 2 * rp, 5)
    case Call => (3, 1, 5)
    case Rst(n) => (3, n, 7)
  }

  function Encode(i: Instr): byte
    requires WellFormed(i)
  {
    var f := Fields(i);
    Op3(f.0, f.1, f.2)
  }

  lemma DecodeOp3(x: int, y: Reg, z: Reg)
    requires 0 <= x < 4
    ensures Decode(Op3(x, y, z)) == DecodeFields(x, y, z)
  {
    SplitOp3(x, y, z);
  }

  /** Decoding recovers every instruction from its encoding. */
  lemma DecodeEncode(i: Instr)
    requires WellFormed(i)
    ensures Decode(Encode(i)) == i
  {
    var f := Fields(i);
    DecodeOp3(f.0, f.1, f.2);
    if f.0 == 0 {
      DecodeEncodeRow0(i);
    } else if f.0 == 2 {
      assert AluOf(AluCode(i.op)) == i.op;
    } else if f.0 == 3 {
      DecodeEncodeRow3(i);
    }
  }

  lemma DecodeEncodeRow0(i: Instr)
    requires WellFormed(i) && Fields(i).0 == 0
    ensures DecodeRow0(Fields(i).1, Fields(i).2) == i
  {
  }

  lemma DecodeEncodeRow3(i: Instr)
    requires WellFormed(i) && Fields(i).0 == 3
    ensures DecodeRow3(Fields(i).1, Fields(i).2) == i
  {
    if i.AluImm? {
      assert AluOf(AluCode(i.op)) == i.op;
    }
  }

  /** Every opcode outside the alternates encodes exactly one instruction. */
  lemma EncodeDecode(op: byte)
    ensures Decode(op) == Illegal <==> op in ALTERNATES
    ensures Decode(op) != Illegal ==> WellFormed(Decode(op)) && Encode(Decode(op)) == op
  {
    var x, y, z := op / 64, (op / 8) % 8, op % 8;
    JoinFields(op);
    assert Decode(op) == DecodeFields(x, y, z);
    if x == 0 {
      IllegalRow0(y, z);
      EncodeDecodeRow0(y, z);
    } else if x == 1 {
      EncodeDecodeRow1(y, z);
    } else if x == 2 {
      EncodeDecodeRow2(y, z);
    } else {
      IllegalRow3(y, z);
      EncodeDecodeRow3(y, z);
    }
  }

  /** An opcode is put back together from its three octal fields. */
  lemma JoinFields(op: byte)
    ensures op == Op3(op / 64, (op / 8) % 8, op % 8)
  {
    assert op == 8 * (op / 8) + op % 8;
    assert op / 8 == 8 * (op / 8 / 8) + (op / 8) % 8;
    assert op / 8 / 8 == op / 64;
  }

  lemma EncodeDecodeRow1(y: Reg, z: Reg)
    ensures DecodeFields(1, y, z) != Illegal &&
      WellFormed(DecodeFields(1, y, z)) && Fields(DecodeFields(1, y, z)) == (1, y, z)
  {
  }

  lemma EncodeDecodeRow2(y: Reg, z: Reg)
    ensures DecodeFields(2, y, z) != Illegal &&
      WellFormed(DecodeFields(2, y, z)) && Fields(DecodeFields(2, y, z)) == (2, y, z)
  {
    assert AluCode(AluOf(y)) == y;
  }

  lemma IllegalRow0(y: Reg, z: Reg)
    ensures DecodeRow0(y, z) == Illegal <==> Op3(0, y, z) in ALTERNATES
  {
  }

  lemma EncodeDecodeRow0(y: Reg, z: Reg)
    ensures DecodeRow0(y, z) != Illegal ==>
      WellFormed(DecodeRow0(y, z)) && Fields(DecodeRow0(y, z)) == (0, y, z)
  {
  }

  lemma IllegalRow3(y: Reg, z: Reg)
    ensures DecodeRow3(y, z) == Illegal <==> Op3(3, y, z) in ALTERNATES
  {
  }

  lemma EncodeDecodeRow3(y: Reg, z: Reg)
    ensures DecodeRow3(y, z) != Illegal ==>
      WellFormed(DecodeRow3(y, z)) && Fields(DecodeRow3(y, z)) == (3, y, z)
  {
    if z == 6 {
      assert AluCode(AluOf(y)) == y;
    }
  }
}
