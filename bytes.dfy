/** Byte- and word-sized values shared by both emulator models.
 *
 *  Both C programs keep registers in `unsigned char` and `unsigned short`.
 *  Here they are integers restricted to the range of those C types; where the
 *  C code relies on wrap-around or truncation, the model writes the `% 0x100`
 *  or `% 0x10000` out explicitly. */
module Bytes {

  type byte = x: int | 0 <= x < 0x100
  type word = x: int | 0 <= x < 0x10000

  /** The high byte of a register pair (B of BC, D of DE, H of HL). */
  function Hi(w: word): byte { w / 0x100 }

  /** The low byte of a register pair (C of BC, E of DE, L of HL). */
  function Lo(w: word): byte { w % 0x100 }

  /** The pair whose high byte is `hi` and whose low byte is `lo`. */
  function Join(hi: byte, lo: byte): (w: word)
    ensures Hi(w) == hi && Lo(w) == lo
  {
    hi * 0x100 + lo
  }

  /** Writing through the high-byte view of a pair: the low byte is kept. */
  function WithHi(w: word, v: byte): (r: word)
    ensures Hi(r) == v && Lo(r) == Lo(w)
  {
    Join(v, Lo(w))
  }

  /** Writing through the low-byte view of a pair: the high byte is kept. */
  function WithLo(w: word, v: byte): (r: word)
    ensures Lo(r) == v && Hi(r) == Hi(w)
  {
    Join(Hi(w), v)
  }


  /** Writing both byte views of a pair gives the pair of the two bytes. */
  lemma WithLoThenHi(w: word, lo: byte, hi: byte)
    ensures WithHi(WithLo(w, lo), hi) == Join(hi, lo)
  {
  }

  /** A pair is determined by its two byte views. */
  lemma JoinHiLo(w: word)
    ensures Join(Hi(w), Lo(w)) == w
  {
  }

  /** C's `&`, `|` and `^` on two `unsigned char` operands. */
  function And8(x: byte, y: byte): byte { ((x as bv8) & (y as bv8)) as int }
  function Or8(x: byte, y: byte): byte { ((x as bv8) | (y as bv8)) as int }
  function Xor8(x: byte, y: byte): byte { ((x as bv8) ^ (y as bv8)) as int }

  /** The number of bits set in an 8-bit pattern. */
  function SetBits(b: bv8): nat
  {
    (if b & 0x01 != 0 then 1 else 0) + (if b & 0x02 != 0 then 1 else 0) +
    (if b & 0x04 != 0 then 1 else 0) + (if b & 0x08 != 0 then 1 else 0) +
    (if b & 0x10 != 0 then 1 else 0) + (if b & 0x20 != 0 then 1 else 0) +
    (if b & 0x40 != 0 then 1 else 0) + (if b & 0x80 != 0 then 1 else 0)
  }

  /** True iff `v` has an even number of set bits (the 8080's P flag). */
  predicate EvenParity(v: byte)
  {
    SetBits(v as bv8) % 2 == 0
  }

  /** 2 to the power `k`: `x >> k` is `x / Pow2(k)` and `x << k` is
   *  `x * Pow2(k)`. */
  function Pow2(k: nat): (p: nat)
    ensures p >= 1
  {
    if k == 0 then 1 else 2 * Pow2(k - 1)
  }

  /** `++` on an `unsigned short`: 0xFFFF wraps to 0. */
  function Inc16(w: word): (r: word)
    ensures r == if w == 0xFFFF then 0 else w + 1
  {
    (w + 1) % 0x10000
  }

  /** `--` on an `unsigned short`: 0 wraps to 0xFFFF. */
  function Dec16(w: word): (r: word)
    ensures r == if w == 0 then 0xFFFF else w - 1
  {
    (w + 0xFFFF) % 0x10000
  }
}
