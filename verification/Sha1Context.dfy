/** The streaming interface (examples/uts/rng/brg_sha1.c): a context is fed a message in pieces of any
    size and delivers the digest of the whole, whatever the byte order of the machine. */
module Sha1Context {
  import RingArith
  import opened Sha1Spec
  import opened Sha1Bytes
  import opened Sha1Compile

  // ---------------------------------------------------------------- blocks of a growing message

  /** Only the words of the first `n` blocks matter. */
  lemma {:induction false} SameBlocks(h: Regs, ws: seq<bv32>, us: seq<bv32>, n: nat)
    requires 16 * n <= |ws| && 16 * n <= |us| && ws[..16 * n] == us[..16 * n]
    ensures Blocks(h, ws, n) == Blocks(h, us, n)
  {
    if n > 0 {
      assert ws[..16 * (n - 1)] == ws[..16 * n][..16 * (n - 1)];
      assert us[..16 * (n - 1)] == us[..16 * n][..16 * (n - 1)];
      SameBlocks(h, ws, us, n - 1);
      assert ws[16 * (n - 1)..16 * n] == ws[..16 * n][16 * (n - 1)..];
      assert us[16 * (n - 1)..16 * n] == us[..16 * n][16 * (n - 1)..];
      hide Block;
    }
  }

  lemma WordsOfPrefix(m: seq<bv8>, d: seq<bv8>, k: nat)
    requires 4 * k <= |m|
    ensures Words(m + d)[..k] == Words(m)[..k]
  {
    hide Word;
    forall i | 0 <= i < k
      ensures Words(m + d)[i] == Words(m)[i]
    {
    }
  }

  /** The chaining value after the whole blocks of a message. */
  function Chain(m: seq<bv8>): Regs {
    Blocks(Initial(), Words(m), |m| / 64)
  }

  /** Bytes that do not fill a block leave the chaining value alone. */
  lemma ChainGrows(m: seq<bv8>, d: seq<bv8>)
    requires |m| % 64 + |d| < 64
    ensures Chain(m + d) == Chain(m)
  {
    var n := |m| / 64;
    assert |m + d| / 64 == n;
    WordsOfPrefix(m, d, 16 * n);
    hide Words;
    SameBlocks(Initial(), Words(m + d), Words(m), n);
    hide Blocks, Initial;
  }

  /** Bytes that fill a block add that block. */
  lemma {:induction false} ChainAdds(m: seq<bv8>, d: seq<bv8>, block: seq<bv32>)
    requires |m| % 64 + |d| == 64
    requires |block| == 16 && forall k :: 0 <= k < 16 ==> block[k] == Words(m + d)[16 * (|m| / 64) + k]
    ensures Chain(m + d) == Block(Chain(m), block)
  {
    var n := |m| / 64;
    assert |m + d| / 64 == n + 1;
    WordsOfPrefix(m, d, 16 * n);
    hide Words, Block;
    SameBlocks(Initial(), Words(m + d), Words(m), n);
    assert Words(m + d)[16 * n..16 * (n + 1)] == block;
    hide Initial;
  }

  // ---------------------------------------------------------------- the context

  const MASK: nat := 64

  class Sha1Ctx {
    /** The byte order of the machine. */
    const little: bool
    var count0: nat
    var count1: nat
    const hash: array<bv32>
    const wbuf: array<bv32>

    predicate Shape()
    {
      hash.Length == 5 && wbuf.Length == 16 && hash != wbuf
    }

    /** Byte `j` of the buffer in memory. */
    function BufferByte(j: nat): bv8
      requires Shape() && j < 64
      reads wbuf
    {
      ByteOf(InOrder(little, wbuf[j / 4]), j % 4)
    }

    /** The buffer holds `bs` at its start. */
    ghost predicate Buffered(bs: seq<bv8>)
      requires Shape()
      reads wbuf
    {
      |bs| <= 64 && forall j :: 0 <= j < |bs| ==> BufferByte(j) == bs[j]
    }

    ghost predicate Counts(n: nat)
      reads this
    {
      count0 == n % TWO32 && count1 == n / TWO32 % TWO32
    }

    /** The context has been fed exactly the message `m`. */
    ghost predicate Holds(m: seq<bv8>)
      reads this, hash, wbuf
    {
      && Shape()
      && Counts(|m|)
      && RegsAt(hash[..], 0) == Chain(m)
      && Buffered(Tail(m))
    }

    /** `sha1_begin`; the buffer may hold anything. */
    constructor (machine: bool)
      ensures Holds([]) && fresh(hash) && fresh(wbuf) && little == machine
    {
      little := machine;
      count0, count1 := 0, 0;
      hash := new bv32[5];
      wbuf := new bv32[16];
      new;
      hash[0], hash[1], hash[2], hash[3], hash[4] := 0x67452301, 0xefcdab89, 0x98badcfe, 0x10325476, 0xc3d2e1f0;
    }

    /** `memcpy` of `bs` into the buffer at `pos`. */
    method CopyIn(pos: nat, bs: seq<bv8>, ghost before: seq<bv8>)
      requires Shape() && pos + |bs| <= 64 && |before| == pos && Buffered(before)
      modifies wbuf
      ensures Buffered(before + bs)
    {
      hide ByteOf, InOrder, PutByte;
      var i := 0;
      while i < |bs|
        invariant 0 <= i <= |bs| && Buffered(before + bs[..i])
      {
        StoreByte(pos + i, bs[i], before + bs[..i]);
        assert before + bs[..i] + [bs[i]] == before + bs[..i + 1];
        i := i + 1;
      }
      assert bs[..|bs|] == bs;
    }

    method StoreByte(j: nat, b: bv8, ghost before: seq<bv8>)
      requires Shape() && j < 64 && |before| == j && Buffered(before)
      modifies wbuf
      ensures Buffered(before + [b])
    {
      hide ByteOf, InOrder, PutByte;
      ghost var was := wbuf[..];
      wbuf[j / 4] := PutByte(little, wbuf[j / 4], j % 4, b);
      forall k | 0 <= k <= j
        ensures BufferByte(k) == (before + [b])[k]
      {
        if k / 4 == j / 4 {
          PutOne(little, was[j / 4], j % 4, b, k % 4);
        }
      }
    }

    /** `bsw_32` of the first `n` words. */
    method SwapWords(n: nat)
      requires Shape() && n <= 16
      modifies wbuf
      ensures forall k :: 0 <= k < 16 ==> wbuf[k] == if k < n then InOrder(little, old(wbuf[k])) else old(wbuf[k])
    {
      if little {
        var i := n;
        while i > 0
          invariant 0 <= i <= n
          invariant forall k :: 0 <= k < 16 ==> wbuf[k] == if i <= k < n then Swap(old(wbuf[k])) else old(wbuf[k])
        {
          i := i - 1;
          wbuf[i] := Swap(wbuf[i]);
        }
      }
    }

    /** The words of a buffer, in order, are those of its bytes. */
    lemma WordsBuffered(bs: seq<bv8>, k: nat)
      requires Shape() && Buffered(bs) && 4 * k + 4 <= |bs|
      ensures InOrder(little, wbuf[k]) == Word(bs[4 * k], bs[4 * k + 1], bs[4 * k + 2], bs[4 * k + 3])
    {
      hide ByteOf, InOrder, Word;
      var w := InOrder(little, wbuf[k]);
      assert BufferByte(4 * k) == bs[4 * k] && BufferByte(4 * k + 1) == bs[4 * k + 1];
      assert BufferByte(4 * k + 2) == bs[4 * k + 2] && BufferByte(4 * k + 3) == bs[4 * k + 3];
      FourBytes(w);
    }

    /** A full buffer is compiled into the chaining value. */
    method CompileFull(ghost p: seq<bv8>, ghost d: seq<bv8>)
      requires Shape() && |p| % 64 + |d| == 64 && RegsAt(hash[..], 0) == Chain(p) && Buffered(Tail(p) + d)
      modifies hash, wbuf
      ensures RegsAt(hash[..], 0) == Chain(p + d)
    {
      hide ByteOf, InOrder, Word, RegsAt, Chain;
      ghost var n, bs := |p| / 64, Tail(p) + d;
      forall k | 0 <= k < 16
        ensures InOrder(little, wbuf[k]) == Words(p + d)[16 * n + k]
      {
        WordsBuffered(bs, k);
        TailBytes(p, d, 4 * k);
      }
      hide Words;
      SwapWords(16);
      ChainAdds(p, d, wbuf[..]);
      Compile(hash, wbuf);
    }

    /** Adds to the 64-bit byte count kept in two words. */
    method Count(len: nat, ghost n: nat)
      requires Counts(n) && len < TWO32
      modifies this`count0, this`count1
      ensures Counts(n + len)
    {
      CountsAdd(n, len);
      count0 := (count0 + len) % TWO32;
      if count0 < len {
        count1 := (count1 + 1) % TWO32;
      }
    }

    /** The state of `sha1_hash` after `sp` bytes of the data. */
    ghost predicate Fed(p: seq<bv8>)
      requires Shape()
      reads hash, wbuf
    {
      RegsAt(hash[..], 0) == Chain(p) && Buffered(Tail(p))
    }

    /** One round of the loop: a whole block is transferred and compiled. */
    method FeedBlock(pos: nat, bs: seq<bv8>, ghost p: seq<bv8>)
      requires Shape() && pos == |p| % 64 && pos + |bs| == 64 && Fed(p)
      modifies hash, wbuf
      ensures Fed(p + bs)
    {
      hide RegsAt, Chain, Buffered, Tail;
      TailLength(p);
      CopyIn(pos, bs, Tail(p));
      CompileFull(p, bs);
      NoTail(p + bs);
      NothingBuffered();
    }

    /** What is left does not fill a block. */
    method FeedRest(pos: nat, bs: seq<bv8>, ghost p: seq<bv8>)
      requires Shape() && pos == |p| % 64 && pos + |bs| < 64 && Fed(p)
      modifies wbuf
      ensures Fed(p + bs)
    {
      hide RegsAt, Chain, Buffered, Tail;
      TailLength(p);
      CopyIn(pos, bs, Tail(p));
      ChainGrows(p, bs);
      TailGrows(p, bs);
    }

    /** `sha1_hash`. */
    method Hash(data: seq<bv8>, ghost m: seq<bv8>)
      requires Holds(m) && |data| < TWO32
      modifies this, hash, wbuf
      ensures Holds(m + data)
    {
      hide RegsAt, Chain, Buffered, Tail;
      assert Fed(m) && Counts(|m|);
      hide Fed, Holds, Counts;
      var pos := Position(|m|);
      Count(|data|, |m|);
      Feed(pos, data, m);
      FedHolds(m + data);
    }

    /** The position in the block that is being filled. */
    method Position(ghost n: nat) returns (pos: nat)
      requires Counts(n)
      ensures pos == n % 64
    {
      BlockPosition(n);
      pos := count0 % 64;
    }

    method Feed(start: nat, data: seq<bv8>, ghost m: seq<bv8>)
      requires Shape() && start == |m| % 64 && Fed(m)
      modifies hash, wbuf
      ensures Fed(m + data)
    {
      hide Fed;
      var pos, space, sp, len := start, 64 - start, 0, |data|;
      assert m + data[..0] == m;
      while len >= space
        invariant Shape() && 0 <= sp <= |data| && sp + len == |data|
        invariant pos == |m + data[..sp]| % 64 && space == 64 - pos && Fed(m + data[..sp])
        decreases len
      {
        FeedBlock(pos, data[sp..sp + space], m + data[..sp]);
        assert m + data[..sp] + data[sp..sp + space] == m + data[..sp + space];
        BlockFilled(|m + data[..sp]|, space);
        sp, len := sp + space, len - space;
        space, pos := 64, 0;
      }
      FeedRest(pos, data[sp..], m + data[..sp]);
      assert m + data[..sp] + data[sp..] == m + data;
    }

    lemma FedHolds(m: seq<bv8>)
      requires Shape() && Fed(m) && Counts(|m|)
      ensures Holds(m)
    {
      hide RegsAt, Chain, Buffered, Tail;
    }

    lemma NothingBuffered()
      requires Shape()
      ensures Buffered([])
    {
    }

    // -------------------------------------------------------------- the end of the message

    /** A whole word of data, swapped, is the word of the padded message. */
    lemma DataWord(r: nat, m: seq<bv8>, k: nat)
      requires Shape() && r == |m| % 64 && Buffered(Tail(m)) && k < r / 4
      ensures InOrder(little, wbuf[k]) == PaddedWord(m, k)
    {
      WordsBuffered(Tail(m), k);
      PaddedBytes(m, k);
      hide InOrder, Word, PaddedWord;
    }

    /** The word in which the data ends, masked, is too, whatever the buffer held behind the data. */
    lemma LastWord(r: nat, m: seq<bv8>)
      requires Shape() && r == |m| % 64 && Buffered(Tail(m))
      ensures var w := wbuf[r / 4];
              Masked(if r % 4 > 0 then InOrder(little, w) else w, r % 4) == PaddedWord(m, r / 4)
    {
      hide InOrder, Word, ByteOf, Masked, PaddedWord;
      var k, c := r / 4, r % 4;
      var w := if c > 0 then InOrder(little, wbuf[k]) else wbuf[k];
      PaddedBytes(m, k);
      MaskedIs(w, c);
      assert c > 0 ==> BufferByte(4 * k) == Tail(m)[4 * k];
      assert c > 1 ==> BufferByte(4 * k + 1) == Tail(m)[4 * k + 1];
      assert c > 2 ==> BufferByte(4 * k + 2) == Tail(m)[4 * k + 2];
    }

    /** Swaps the words that hold data and puts the first padding byte behind it. */
    method MaskTail(r: nat, ghost m: seq<bv8>)
      requires Shape() && r == |m| % 64 && Buffered(Tail(m))
      modifies wbuf
      ensures forall k :: 0 <= k <= r / 4 ==> wbuf[k] == PaddedWord(m, k)
    {
      hide InOrder, ByteOf, Masked, Buffered, Tail, PaddedWord;
      forall k | 0 <= k < r / 4
        ensures InOrder(little, wbuf[k]) == PaddedWord(m, k)
      {
        DataWord(r, m, k);
      }
      LastWord(r, m);
      SwapWords((r + 3) / 4);
      wbuf[r / 4] := Masked(wbuf[r / 4], r % 4);
    }

    /** `sha1_end`. */
    method End(ghost m: seq<bv8>) returns (digest: seq<bv8>)
      requires Holds(m) && 8 * |m| < TWO32 * TWO32
      modifies hash, wbuf
      ensures digest == Bytes(Sha1(m))
    {
      hide RegsAt, Chain, Buffered, Tail, PaddedWord, Sha1, Bytes;
      assert Counts(|m|) && RegsAt(hash[..], 0) == Chain(m) && Buffered(Tail(m));
      hide Holds;
      var r := Position(|m|);
      MaskTail(r, m);
      if r > 55 {
        EndLong(r, m);
      } else {
        EndShort(r, m);
      }
      digest := Deliver();
    }

    /** The padding fits into the block that is being filled. */
    method EndShort(r: nat, ghost m: seq<bv8>)
      requires Shape() && r == |m| % 64 <= 55 && Counts(|m|) && RegsAt(hash[..], 0) == Chain(m)
               && 8 * |m| < TWO32 * TWO32
      requires forall k :: 0 <= k <= r / 4 ==> wbuf[k] == PaddedWord(m, k)
      modifies hash, wbuf
      ensures RegsAt(hash[..], 0) == Sha1(m)
    {
      hide RegsAt, Chain, PaddedWord, Sha1;
      LengthWords(|m|);
      FinishBlock(r / 4 + 1);
      ZeroRest(m, r / 4 + 1, 14);
      OneMoreBlock(m, wbuf[..]);
      Compile(hash, wbuf);
    }

    /** The padding needs a block of its own. */
    method EndLong(r: nat, ghost m: seq<bv8>)
      requires Shape() && r == |m| % 64 > 55 && Counts(|m|) && RegsAt(hash[..], 0) == Chain(m)
               && 8 * |m| < TWO32 * TWO32
      requires forall k :: 0 <= k <= r / 4 ==> wbuf[k] == PaddedWord(m, k)
      modifies hash, wbuf
      ensures RegsAt(hash[..], 0) == Sha1(m)
    {
      hide RegsAt, Chain, PaddedWord, Sha1;
      if r < 60 {
        wbuf[15] := 0;
      }
      ZeroRest(m, r / 4 + 1, 30);
      ghost var first := wbuf[..];
      assert forall k :: 0 <= k < 16 ==> first[k] == PaddedWord(m, k);
      Compile(hash, wbuf);
      LengthWords(|m|);
      FinishBlock(0);
      TwoMoreBlocks(m, first, wbuf[..]);
      Compile(hash, wbuf);
    }

    /** The hash value as bytes. */
    method Deliver() returns (digest: seq<bv8>)
      requires Shape()
      ensures digest == Bytes(RegsAt(hash[..], 0))
    {
      hide ByteOf, Bytes, RegsAt;
      digest := [];
      var i := 0;
      while i < 20
        invariant 0 <= i <= 20 && |digest| == i
        invariant forall j :: 0 <= j < i ==> digest[j] == ByteOf(hash[j / 4], j % 4)
      {
        digest := digest + [ByteOf(hash[i / 4], i % 4)];
        i := i + 1;
      }
      forall j | 0 <= j < 20
        ensures digest[j] == Bytes(RegsAt(hash[..], 0))[j]
      {
        DigestByte(hash[..], j);
      }
    }

    /** Zero words up to the length, which fills the last two. */
    method FinishBlock(start: nat)
      requires Shape() && start <= 14 && count0 < TWO32
      modifies wbuf
      ensures forall k :: 0 <= k < start ==> wbuf[k] == old(wbuf[k])
      ensures forall k :: start <= k < 14 ==> wbuf[k] == 0
      ensures wbuf[14] == LowWord(count1 * 8 % TWO32 + count0 / 0x2000_0000) && wbuf[15] == LowWord(count0 * 8)
    {
      hide LowWord;
      var i := start;
      while i < 14
        invariant start <= i <= 14
        invariant forall k :: 0 <= k < start ==> wbuf[k] == old(wbuf[k])
        invariant forall k :: start <= k < i ==> wbuf[k] == 0
      {
        wbuf[i] := 0;
        i := i + 1;
      }
      wbuf[14] := LowWord(count1 * 8 % TWO32 + count0 / 0x2000_0000);
      wbuf[15] := LowWord(count0 * 8);
    }
  }

  // ---------------------------------------------------------------- padding

  /** The message with its padding bytes, without the length. */
  function Extended(m: seq<bv8>): seq<bv8> {
    m + [0x80] + ZeroBytes(Zeros(|m|))
  }

  /** How many words of padded message follow the whole blocks of the message, without the length. */
  function Spare(m: seq<bv8>): nat {
    if |m| % 64 < 56 then 14 else 30
  }

  lemma ExtendedLength(m: seq<bv8>)
    ensures |Extended(m)| == 64 * (|m| / 64) + 4 * Spare(m)
  {
  }

  /** Word `k` behind the whole blocks of the message. */
  function PaddedWord(m: seq<bv8>, k: nat): bv32 {
    if k < Spare(m) then
      ExtendedLength(m);
      Words(Extended(m))[16 * (|m| / 64) + k]
    else 0
  }

  function PaddedByte(m: seq<bv8>, j: nat): bv8 {
    if j < |m| % 64 then m[64 * (|m| / 64) + j] else if j == |m| % 64 then 0x80 else 0
  }

  lemma PaddedBytes(m: seq<bv8>, k: nat)
    requires k < Spare(m)
    ensures PaddedWord(m, k)
            == Word(PaddedByte(m, 4 * k), PaddedByte(m, 4 * k + 1), PaddedByte(m, 4 * k + 2), PaddedByte(m, 4 * k + 3))
    ensures |Tail(m)| == |m| % 64 && forall j :: 0 <= j < |m| % 64 ==> Tail(m)[j] == PaddedByte(m, j)
  {
    ExtendedLength(m);
    hide Word;
  }

  lemma ZeroWords(m: seq<bv8>, k: nat)
    requires k > |m| % 64 / 4
    ensures PaddedWord(m, k) == 0
  {
    if k < Spare(m) {
      PaddedBytes(m, k);
      ZeroWord();
    }
    hide Word, PaddedWord;
  }

  lemma DigestByte(s: seq<bv32>, j: nat)
    requires |s| == 5 && j < 20
    ensures Bytes(RegsAt(s, 0))[j] == ByteOf(s[j / 4], j % 4)
  {
    hide ByteOf, WordBytes;
    BytesOf(s[j / 4]);
    var b := Bytes(RegsAt(s, 0));
    assert b == WordBytes(s[0]) + WordBytes(s[1]) + WordBytes(s[2]) + WordBytes(s[3]) + WordBytes(s[4]);
    assert b[j] == WordBytes(s[j / 4])[j % 4];
  }

  lemma ZeroRest(m: seq<bv8>, from: nat, to: nat)
    requires from > |m| % 64 / 4
    ensures forall k :: from <= k < to ==> PaddedWord(m, k) == 0
  {
    hide PaddedWord;
    forall k | from <= k < to
      ensures PaddedWord(m, k) == 0
    {
      ZeroWords(m, k);
    }
  }

  /** The length in bits, as the code assembles it from its two counters. */
  lemma LengthWords(n: nat)
    requires 8 * n < TWO32 * TWO32
    ensures var c0, c1 := n % TWO32, n / TWO32 % TWO32;
            && LowWord(c1 * 8 % TWO32 + c0 / 0x2000_0000) == LowWord(8 * n / TWO32)
            && LowWord(c0 * 8) == LowWord(8 * n)
  {
    var c0, c1 := n % TWO32, n / TWO32 % TWO32;
    assert c1 * 8 % TWO32 + c0 / 0x2000_0000 == 8 * n / TWO32;
    assert c0 * 8 % TWO32 == 8 * n % TWO32;
  }

  ghost predicate IsBlock(m: seq<bv8>, first: nat, b: seq<bv32>) {
    |b| == 16 && forall k :: 0 <= k < 16 && first + k < Spare(m) ==> b[k] == PaddedWord(m, first + k)
  }

  ghost predicate HasLength(m: seq<bv8>, b: seq<bv32>) {
    |b| == 16 && b[14] == LowWord(8 * |m| / TWO32) && b[15] == LowWord(8 * |m|)
  }

  lemma PaddedAt(m: seq<bv8>, b: seq<bv32>, first: nat)
    requires IsBlock(m, first, b) && first in {0, 16} && first < Spare(m)
    requires first + 16 > Spare(m) ==> HasLength(m, b)
    ensures var at := 16 * (|m| / 64) + first;
            at + 16 <= |Padded(m)| && Padded(m)[at..at + 16] == b
  {
    hide Words, LowWord;
    ExtendedLength(m);
    var at := 16 * (|m| / 64) + first;
    forall k | 0 <= k < 16
      ensures Padded(m)[at + k] == b[k]
    {
      if first + k < Spare(m) {
        assert b[k] == PaddedWord(m, first + k);
      }
    }
  }

  /** The whole blocks of the message are the first blocks of the padded message. */
  lemma ChainOfPadded(m: seq<bv8>)
    ensures var n := |m| / 64;
            |Padded(m)| == 16 * n + Spare(m) + 2 && Blocks(Initial(), Padded(m), n) == Chain(m)
  {
    var n := |m| / 64;
    ExtendedLength(m);
    var rest := [0x80] + ZeroBytes(Zeros(|m|));
    assert m + [0x80] + ZeroBytes(Zeros(|m|)) == m + rest;
    WordsOfPrefix(m, rest, 16 * n);
    hide Words, Blocks;
    SameBlocks(Initial(), Padded(m), Words(m), n);
  }

  lemma {:induction false} OneMoreBlock(m: seq<bv8>, b: seq<bv32>)
    requires |m| % 64 < 56 && 8 * |m| < TWO32 * TWO32 && IsBlock(m, 0, b) && HasLength(m, b)
    ensures Sha1(m) == Block(Chain(m), b)
  {
    hide Padded, Block, Chain, Blocks, PaddedWord, LowWord, Initial;
    ChainOfPadded(m);
    PaddedAt(m, b, 0);
    LastBlock(Padded(m), |m| / 64, b);
  }

  lemma {:induction false} LastBlock(ws: seq<bv32>, n: nat, b: seq<bv32>)
    requires 16 * (n + 1) <= |ws| && |b| == 16 && ws[16 * n..16 * n + 16] == b
    ensures Blocks(Initial(), ws, n + 1) == Block(Blocks(Initial(), ws, n), b)
  {
    hide Block, Initial;
  }

  lemma {:induction false} TwoMoreBlocks(m: seq<bv8>, b: seq<bv32>, c: seq<bv32>)
    requires |m| % 64 >= 56 && 8 * |m| < TWO32 * TWO32 && IsBlock(m, 0, b) && IsBlock(m, 16, c) && HasLength(m, c)
    ensures Sha1(m) == Block(Block(Chain(m), b), c)
  {
    hide Padded, Block, Chain, Blocks, PaddedWord, LowWord, Initial;
    ChainOfPadded(m);
    PaddedAt(m, b, 0);
    PaddedAt(m, c, 16);
    LastBlock(Padded(m), |m| / 64, b);
    LastBlock(Padded(m), |m| / 64 + 1, c);
  }

  lemma FourBytes(w: bv32)
    ensures w == Word(ByteOf(w, 0), ByteOf(w, 1), ByteOf(w, 2), ByteOf(w, 3))
  {
    hide Byte0, Byte1, Byte2, Byte3, Word;
    WordOfBytes(w);
  }

  /** The bytes that do not fill a block. */
  function Tail(m: seq<bv8>): seq<bv8> {
    m[64 * (|m| / 64)..]
  }

  lemma TailLength(m: seq<bv8>)
    ensures |Tail(m)| == |m| % 64
  {
  }

  lemma NoTail(m: seq<bv8>)
    ensures |m| % 64 == 0 ==> Tail(m) == []
  {
  }

  lemma TailGrows(m: seq<bv8>, d: seq<bv8>)
    requires |m| % 64 + |d| < 64
    ensures Tail(m + d) == Tail(m) + d
  {
  }

  lemma TailBytes(p: seq<bv8>, d: seq<bv8>, j: nat)
    requires |p| % 64 + |d| == 64 && j < 64
    ensures 64 * (|p| / 64) + j < |p + d| && |Tail(p) + d| == 64
    ensures (Tail(p) + d)[j] == (p + d)[64 * (|p| / 64) + j]
    ensures Tail(p) + d == (p + d)[64 * (|p| / 64)..]
  {
  }

  /** The low word of the count is enough to find the place in the block. */
  lemma BlockPosition(n: nat)
    ensures n % TWO32 % 64 == n % 64
  {
    var q, r := n / TWO32, n % TWO32;
    assert n == TWO32 * q + r;
    assert n == 64 * (67108864 * q + r / 64) + r % 64;
    RingArith.DivModUnique(n, 64, 67108864 * q + r / 64, r % 64);
  }

  lemma BlockFilled(n: nat, space: nat)
    requires n % 64 + space == 64
    ensures (n + space) % 64 == 0
  {
  }

  /** Counting `n` more bytes in two words of 32 bits, with the carry as the code detects it. */
  lemma CountsAdd(n: nat, k: nat)
    requires k < TWO32
    ensures var c0 := (n % TWO32 + k) % TWO32;
            && c0 == (n + k) % TWO32
            && (n + k) / TWO32 % TWO32 == (if c0 < k then (n / TWO32 % TWO32 + 1) % TWO32 else n / TWO32 % TWO32)
  {
  }

  // ---------------------------------------------------------------- whole messages

  function Concat(pieces: seq<seq<bv8>>): seq<bv8> {
    if pieces == [] then [] else Concat(pieces[..|pieces| - 1]) + pieces[|pieces| - 1]
  }

  /** However a message is split into calls of `sha1_hash`, the digest is that of the standard. */
  method DigestOfPieces(machine: bool, pieces: seq<seq<bv8>>) returns (digest: seq<bv8>)
    requires forall i :: 0 <= i < |pieces| ==> |pieces[i]| < TWO32
    requires 8 * |Concat(pieces)| < TWO32 * TWO32
    ensures digest == Bytes(Sha1(Concat(pieces)))
  {
    hide Sha1, Bytes;
    var ctx := new Sha1Ctx(machine);
    var i := 0;
    assert pieces[..0] == [];
    while i < |pieces|
      invariant 0 <= i <= |pieces| && fresh(ctx) && fresh(ctx.hash) && fresh(ctx.wbuf)
      invariant ctx.Holds(Concat(pieces[..i]))
    {
      ctx.Hash(pieces[i], Concat(pieces[..i]));
      assert pieces[..i + 1][..i] == pieces[..i];
      i := i + 1;
    }
    assert pieces[..|pieces|] == pieces;
    digest := ctx.End(Concat(pieces));
  }

  /** `rng_init`: sixteen zero bytes and the seed. */
  method RngInit(machine: bool, seed: bv32) returns (state: seq<bv8>)
    ensures state == Bytes(Sha1(ZeroBytes(16) + WordBytes(seed)))
  {
    hide Sha1, Bytes, WordBytes;
    var gen := ZeroBytes(16) + WordBytes(seed);
    state := Digest1(machine, gen);
  }

  /** `rng_spawn`: the child's state is the digest of the parent's and the child's number. */
  method RngSpawn(machine: bool, parent: seq<bv8>, number: bv32) returns (state: seq<bv8>)
    requires |parent| == 20
    ensures state == Bytes(Sha1(parent + WordBytes(number)))
  {
    hide Sha1, Bytes, WordBytes;
    var ctx := new Sha1Ctx(machine);
    ctx.Hash(parent, []);
    assert [] + parent == parent;
    ctx.Hash(WordBytes(number), parent);
    state := ctx.End(parent + WordBytes(number));
  }

  /** `sha1` in one call. */
  method Digest1(machine: bool, data: seq<bv8>) returns (digest: seq<bv8>)
    requires |data| < TWO32
    ensures 8 * |data| < TWO32 * TWO32 && digest == Bytes(Sha1(data))
  {
    hide Sha1, Bytes;
    var ctx := new Sha1Ctx(machine);
    ctx.Hash(data, []);
    assert [] + data == data;
    digest := ctx.End(data);
  }
}
