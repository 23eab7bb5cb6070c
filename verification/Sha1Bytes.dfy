/** Bytes in the words of the buffer: a word read from memory, byte swapping, and the masks of the
    padding (examples/uts/rng/brg_sha1.c). */
module Sha1Bytes {
  import opened Sha1Spec

  // The bytes of a word, most significant first, and the word with one of them replaced.

  function Byte0(w: bv32): bv8 {
    ((w >> 24) & 0xff) as bv8
  }

  function Byte1(w: bv32): bv8 {
    ((w >> 16) & 0xff) as bv8
  }

  function Byte2(w: bv32): bv8 {
    ((w >> 8) & 0xff) as bv8
  }

  function Byte3(w: bv32): bv8 {
    (w & 0xff) as bv8
  }

  function With0(w: bv32, b: bv8): bv32 {
    (w & 0x00ffffff) | ((b as bv32) << 24)
  }

  function With1(w: bv32, b: bv8): bv32 {
    (w & 0xff00ffff) | ((b as bv32) << 16)
  }

  function With2(w: bv32, b: bv8): bv32 {
    (w & 0xffff00ff) | ((b as bv32) << 8)
  }

  function With3(w: bv32, b: bv8): bv32 {
    (w & 0xffffff00) | (b as bv32)
  }

  function ByteOf(w: bv32, k: nat): bv8
    requires k < 4
  {
    if k == 0 then Byte0(w) else if k == 1 then Byte1(w) else if k == 2 then Byte2(w) else Byte3(w)
  }

  lemma BytesOf(w: bv32)
    ensures WordBytes(w) == [ByteOf(w, 0), ByteOf(w, 1), ByteOf(w, 2), ByteOf(w, 3)]
  {
  }

  /** `bswap_32`. */
  function Swap(w: bv32): bv32 {
    (((w >> 24) | (w << 8)) & 0x00ff00ff) | (((w >> 8) | (w << 24)) & 0xff00ff00)
  }

  /** The word whose bytes, most significant first, are the four bytes of memory that hold `w`. */
  function InOrder(little: bool, w: bv32): bv32 {
    if little then Swap(w) else w
  }

  function WithByte(w: bv32, k: nat, b: bv8): bv32
    requires k < 4
  {
    if k == 0 then With0(w, b) else if k == 1 then With1(w, b) else if k == 2 then With2(w, b) else With3(w, b)
  }

  /** The word after `b` is stored in the byte of memory at offset `k` of it. */
  function PutByte(little: bool, w: bv32, k: nat, b: bv8): bv32
    requires k < 4
  {
    WithByte(w, if little then 3 - k else k, b)
  }

  lemma Put0(w: bv32, b: bv8)
    ensures Byte0(With0(w, b)) == b && Byte1(With0(w, b)) == Byte1(w) && Byte2(With0(w, b)) == Byte2(w)
            && Byte3(With0(w, b)) == Byte3(w)
  {
  }

  lemma Put1(w: bv32, b: bv8)
    ensures Byte0(With1(w, b)) == Byte0(w) && Byte1(With1(w, b)) == b && Byte2(With1(w, b)) == Byte2(w)
            && Byte3(With1(w, b)) == Byte3(w)
  {
  }

  lemma Put2(w: bv32, b: bv8)
    ensures Byte0(With2(w, b)) == Byte0(w) && Byte1(With2(w, b)) == Byte1(w) && Byte2(With2(w, b)) == b
            && Byte3(With2(w, b)) == Byte3(w)
  {
  }

  lemma Put3(w: bv32, b: bv8)
    ensures Byte0(With3(w, b)) == Byte0(w) && Byte1(With3(w, b)) == Byte1(w) && Byte2(With3(w, b)) == Byte2(w)
            && Byte3(With3(w, b)) == b
  {
  }

  lemma PutBig(w: bv32, k: nat, b: bv8, j: nat)
    requires k < 4 && j < 4
    ensures ByteOf(WithByte(w, k, b), j) == if j == k then b else ByteOf(w, j)
  {
    hide Byte0, Byte1, Byte2, Byte3, With0, With1, With2, With3;
    if k == 0 {
      Put0(w, b);
    } else if k == 1 {
      Put1(w, b);
    } else if k == 2 {
      Put2(w, b);
    } else {
      Put3(w, b);
    }
  }

  lemma SwappedBytes(w: bv32)
    ensures Byte0(Swap(w)) == Byte3(w) && Byte1(Swap(w)) == Byte2(w) && Byte2(Swap(w)) == Byte1(w)
            && Byte3(Swap(w)) == Byte0(w)
  {
  }

  lemma SwapReverses(w: bv32, k: nat)
    requires k < 4
    ensures ByteOf(Swap(w), k) == ByteOf(w, 3 - k)
  {
    hide Byte0, Byte1, Byte2, Byte3, Swap;
    SwappedBytes(w);
  }

  /** Storing a byte changes that byte of memory and no other, on either kind of machine. */
  lemma PutOne(little: bool, w: bv32, k: nat, b: bv8, j: nat)
    requires k < 4 && j < 4
    ensures ByteOf(InOrder(little, PutByte(little, w, k, b)), j) == if j == k then b else ByteOf(InOrder(little, w), j)
  {
    hide ByteOf, Swap, WithByte;
    if little {
      SwapReverses(PutByte(little, w, k, b), j);
      SwapReverses(w, j);
      PutBig(w, 3 - k, b, 3 - j);
    } else {
      PutBig(w, k, b, j);
    }
  }

  lemma WordOfBytes(w: bv32)
    ensures w == Word(Byte0(w), Byte1(w), Byte2(w), Byte3(w))
  {
  }

  // `w &= 0xffffff80 << 8 * (3 - r); w |= 0x00000080 << 8 * (3 - r)`, where `r` bytes of data are kept.

  function Masked0(w: bv32): bv32 {
    (w & (0xffffff80 << 24)) | (0x00000080 << 24)
  }

  function Masked1(w: bv32): bv32 {
    (w & (0xffffff80 << 16)) | (0x00000080 << 16)
  }

  function Masked2(w: bv32): bv32 {
    (w & (0xffffff80 << 8)) | (0x00000080 << 8)
  }

  function Masked3(w: bv32): bv32 {
    (w & 0xffffff80) | 0x00000080
  }

  function Masked(w: bv32, r: nat): bv32
    requires r < 4
  {
    if r == 0 then Masked0(w) else if r == 1 then Masked1(w) else if r == 2 then Masked2(w) else Masked3(w)
  }

  lemma MaskedIs0(w: bv32)
    ensures Masked0(w) == Word(0x80, 0, 0, 0)
  {
  }

  lemma MaskedIs1(w: bv32)
    ensures Masked1(w) == Word(Byte0(w), 0x80, 0, 0)
  {
  }

  lemma MaskedIs2(w: bv32)
    ensures Masked2(w) == Word(Byte0(w), Byte1(w), 0x80, 0)
  {
  }

  lemma MaskedIs3(w: bv32)
    ensures Masked3(w) == Word(Byte0(w), Byte1(w), Byte2(w), 0x80)
  {
  }

  /** The first padding byte follows the data, and nothing stale is left behind it. */
  lemma MaskedIs(w: bv32, r: nat)
    requires r < 4
    ensures Masked(w, r) == Word(if r > 0 then ByteOf(w, 0) else 0x80, if r > 1 then ByteOf(w, 1) else if r == 1 then 0x80 else 0,
                                 if r > 2 then ByteOf(w, 2) else if r == 2 then 0x80 else 0, if r == 3 then 0x80 else 0)
  {
    hide Word, Masked0, Masked1, Masked2, Masked3, Byte0, Byte1, Byte2, Byte3;
    MaskedIs0(w);
    MaskedIs1(w);
    MaskedIs2(w);
    MaskedIs3(w);
  }

  lemma ZeroWord()
    ensures Word(0, 0, 0, 0) == 0
  {
  }
}
