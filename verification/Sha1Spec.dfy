/** The Secure Hash Algorithm SHA-1 as FIPS 180-4 defines it, on messages of whole bytes. */
module Sha1Spec {

  /** Section 3.2: addition modulo 2^32. */
  function Add(x: bv32, y: bv32): bv32 {
    x + y
  }

  function Sum(a: bv32, f: bv32, e: bv32, k: bv32, w: bv32): bv32 {
    a + f + e + k + w
  }

  // ---------------------------------------------------------------- section 4.1.1: functions

  function Rotl(x: bv32, n: nat): bv32
    requires n in {1, 5, 30}
  {
    if n == 1 then (x << 1) | (x >> 31) else if n == 5 then (x << 5) | (x >> 27) else (x << 30) | (x >> 2)
  }

  function Ch(x: bv32, y: bv32, z: bv32): bv32 {
    (x & y) ^ (!x & z)
  }

  function Parity(x: bv32, y: bv32, z: bv32): bv32 {
    x ^ y ^ z
  }

  function Maj(x: bv32, y: bv32, z: bv32): bv32 {
    (x & y) ^ (x & z) ^ (y & z)
  }

  function F(t: nat, x: bv32, y: bv32, z: bv32): bv32 {
    if t < 20 then Ch(x, y, z) else if t < 40 then Parity(x, y, z) else if t < 60 then Maj(x, y, z) else Parity(x, y, z)
  }

  /** Section 4.2.1. */
  function K(t: nat): bv32 {
    if t < 20 then 0x5a827999 else if t < 40 then 0x6ed9eba1 else if t < 60 then 0x8f1bbcdc else 0xca62c1d6
  }

  /** The number under the root in the constant of round `t`. */
  function Radicand(t: nat): nat {
    if t < 20 then 2 else if t < 40 then 3 else if t < 60 then 5 else 10
  }

  /** Each constant is the integer part of 2^30 times a square root. */
  lemma ConstantsAreRoots(t: nat)
    ensures var k := K(t) as nat;
            k * k <= Radicand(t) * 0x1000_0000_0000_0000 < (k + 1) * (k + 1)
  {
  }

  /** Section 3.2: the rotations are those of the machine word. */
  lemma RotlRotates(x: bv32)
    ensures Rotl(x, 1) == x.RotateLeft(1) && Rotl(x, 5) == x.RotateLeft(5) && Rotl(x, 30) == x.RotateLeft(30)
  {
  }

  // ---------------------------------------------------------------- section 6.1.2: one block

  datatype Regs = Regs(a: bv32, b: bv32, c: bv32, d: bv32, e: bv32)

  /** Section 5.3.1. */
  function Initial(): Regs {
    Regs(0x67452301, 0xefcdab89, 0x98badcfe, 0x10325476, 0xc3d2e1f0)
  }

  /** The message schedule. */
  function W(m: seq<bv32>, t: nat): bv32
    requires |m| == 16
  {
    if t < 16 then m[t] else Rotl(W(m, t - 3) ^ W(m, t - 8) ^ W(m, t - 14) ^ W(m, t - 16), 1)
  }

  function Round(r: Regs, t: nat, w: bv32): Regs {
    Regs(Sum(Rotl(r.a, 5), F(t, r.b, r.c, r.d), r.e, K(t), w), r.a, Rotl(r.b, 30), r.c, r.d)
  }

  function Rounds(h: Regs, m: seq<bv32>, t: nat): Regs
    requires |m| == 16
  {
    if t == 0 then h else Round(Rounds(h, m, t - 1), t - 1, W(m, t - 1))
  }

  function Plus(h: Regs, r: Regs): Regs {
    Regs(Add(r.a, h.a), Add(r.b, h.b), Add(r.c, h.c), Add(r.d, h.d), Add(r.e, h.e))
  }

  function Block(h: Regs, m: seq<bv32>): Regs
    requires |m| == 16
  {
    Plus(h, Rounds(h, m, 80))
  }

  /** The first `n` blocks. */
  function Blocks(h: Regs, ws: seq<bv32>, n: nat): Regs
    requires 16 * n <= |ws|
  {
    if n == 0 then h else Block(Blocks(h, ws, n - 1), ws[16 * (n - 1)..16 * n])
  }

  // ---------------------------------------------------------------- sections 5.1.1 and 5.2.1

  /** Four bytes as a word, most significant first. */
  function Word(b0: bv8, b1: bv8, b2: bv8, b3: bv8): bv32 {
    ((b0 as bv32) << 24) | ((b1 as bv32) << 16) | ((b2 as bv32) << 8) | (b3 as bv32)
  }

  function Words(bytes: seq<bv8>): (r: seq<bv32>)
    ensures |r| == |bytes| / 4
  {
    seq(|bytes| / 4, i requires 0 <= i < |bytes| / 4 => Word(bytes[4 * i], bytes[4 * i + 1], bytes[4 * i + 2],
      bytes[4 * i + 3]))
  }

  /** How many zero bytes follow the byte 0x80: as few as make room for the 64-bit length. */
  function Zeros(n: nat): (z: nat)
    ensures z < 64 && (n + 1 + z) % 64 == 56
  {
    (119 - n % 64) % 64
  }

  function ZeroBytes(n: nat): (r: seq<bv8>)
    ensures |r| == n
  {
    seq(n, i => 0)
  }

  const TWO32: nat := 0x1_0000_0000

  /** The low 32 bits of a number. */
  function LowWord(n: nat): bv32 {
    (n % TWO32) as bv32
  }

  /** The padded message: the length in bits is its last two words. */
  function Padded(m: seq<bv8>): seq<bv32> {
    Words(m + [0x80] + ZeroBytes(Zeros(|m|))) + [LowWord(8 * |m| / TWO32), LowWord(8 * |m|)]
  }

  lemma PaddedLength(m: seq<bv8>)
    ensures |Padded(m)| % 16 == 0
  {
    hide LowWord, Words;
    var n := |m| + 1 + Zeros(|m|);
    assert n == 64 * (n / 64) + 56;
  }

  /** The digest of a message of less than 2^64 bits. */
  function Sha1(m: seq<bv8>): Regs
    requires 8 * |m| < TWO32 * TWO32
  {
    PaddedLength(m);
    Blocks(Initial(), Padded(m), |Padded(m)| / 16)
  }

  /** The five words of a digest as twenty bytes, most significant first. */
  function Bytes(h: Regs): (r: seq<bv8>)
    ensures |r| == 20
  {
    WordBytes(h.a) + WordBytes(h.b) + WordBytes(h.c) + WordBytes(h.d) + WordBytes(h.e)
  }

  function WordBytes(w: bv32): (r: seq<bv8>)
    ensures |r| == 4
  {
    [((w >> 24) & 0xff) as bv8, ((w >> 16) & 0xff) as bv8, ((w >> 8) & 0xff) as bv8, (w & 0xff) as bv8]
  }
}
