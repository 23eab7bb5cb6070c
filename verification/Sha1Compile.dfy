/** `sha1_compile` (examples/uts/rng/brg_sha1.c): eighty cycles on five registers that change roles
    instead of moving, with a message schedule of sixteen words overwritten in place. */
module Sha1Compile {
  import opened RingArith
  import opened Sha1Spec

  function Rotr(x: bv32, n: nat): bv32
    requires n in {2, 27}
  {
    if n == 2 then (x >> 2) | (x << 30) else (x >> 27) | (x << 5)
  }

  function ShortCh(x: bv32, y: bv32, z: bv32): bv32 {
    z ^ (x & (y ^ z))
  }

  function ShortMaj(x: bv32, y: bv32, z: bv32): bv32 {
    (x & y) | (z & (x ^ y))
  }

  /** The function of cycle `t`. */
  function ShortF(t: nat, x: bv32, y: bv32, z: bv32): bv32 {
    if t < 20 then ShortCh(x, y, z) else if t < 40 then Parity(x, y, z) else if t < 60 then ShortMaj(x, y, z) else Parity(x, y, z)
  }

  /** The constant of cycle `t`, as the code spells it. */
  function CycleK(t: nat): bv32 {
    if t < 20 then 0x5a827999 else if t < 40 then 0x6ed9eba1 else if t < 60 then 0x8f1bbcdc else 0xca62c1d6
  }

  lemma SameConstants(t: nat)
    ensures CycleK(t) == K(t)
  {
  }

  lemma ChooseByXor(x: bv32, y: bv32, z: bv32)
    ensures z ^ (x & (y ^ z)) == (x & y) ^ (!x & z)
  {
  }

  lemma MajorityByXor(x: bv32, y: bv32, z: bv32)
    ensures (x & y) | (z & (x ^ y)) == (x & y) ^ (x & z) ^ (y & z)
  {
  }

  /** The reduced forms are the functions of the standard. */
  lemma ShortForms(t: nat, x: bv32, y: bv32, z: bv32)
    ensures ShortF(t, x, y, z) == F(t, x, y, z)
  {
    ChooseByXor(x, y, z);
    MajorityByXor(x, y, z);
    hide Parity;
  }

  lemma Rotations(x: bv32)
    ensures Rotr(x, 27) == Rotl(x, 5) && Rotr(x, 2) == Rotl(x, 30)
  {
  }

  lemma AddSwap(x: bv32, y: bv32)
    ensures Add(x, y) == Add(y, x)
  {
  }

  /** What a cycle adds up, in the order of the code. */
  function CycleSum(e: bv32, a: bv32, f: bv32, k: bv32, h: bv32): bv32 {
    e + (a + f + k + h)
  }

  lemma SumOrder(a: bv32, f: bv32, e: bv32, k: bv32, h: bv32)
    ensures CycleSum(e, a, f, k, h) == Sum(a, f, e, k, h)
  {
  }

  // ---------------------------------------------------------------- the schedule in place

  /** The step of the schedule whose word slot `j` holds before cycle `t`. */
  function Latest(t: nat, j: nat): nat
    requires j < 16
  {
    if t < 16 then j else t - 16 + (j - t) % 16
  }

  /** The sixteen words are the last sixteen of the schedule. */
  ghost predicate Window(w: seq<bv32>, m: seq<bv32>, t: nat) {
    |w| == 16 && |m| == 16 && forall j :: 0 <= j < 16 ==> w[j] == W(m, Latest(t, j))
  }

  lemma LatestIs(t: nat, d: nat)
    requires t >= 16 && d < 16
    ensures Latest(t, (t + d) % 16) == t - 16 + d
  {
    SlotOffset(t + d, t, t, 16);
  }

  lemma LatestAt(t: nat)
    requires t >= 16
    ensures Latest(t, (t + 13) % 16) == t - 3 && Latest(t, (t + 8) % 16) == t - 8
    ensures Latest(t, (t + 2) % 16) == t - 14 && Latest(t, t % 16) == t - 16
    ensures Latest(t + 1, t % 16) == t
  {
    LatestIs(t, 13);
    LatestIs(t, 8);
    LatestIs(t, 2);
    LatestIs(t, 0);
    LatestIs(t + 1, 15);
    assert (t + 1 + 15) % 16 == t % 16;
  }

  /** Only the slot of the new step changes its meaning. */
  lemma LatestStays(t: nat, j: nat)
    requires t >= 16 && j < 16 && j != t % 16
    ensures Latest(t + 1, j) == Latest(t, j)
  {
    var d := (j - t) % 16;
    assert d != 0;
    assert (j - (t + 1)) % 16 == d - 1;
  }

  lemma {:induction false} StartWindow(m: seq<bv32>)
    requires |m| == 16
    ensures Window(m, m, 0)
  {
    forall j | 0 <= j < 16
      ensures m[j] == W(m, Latest(0, j))
    {
    }
  }

  /** The word of cycle `t`, computed into its slot from cycle 16 on. */
  method NextWord(w: array<bv32>, t: nat, ghost m: seq<bv32>) returns (h: bv32)
    requires Window(w[..], m, t)
    modifies w
    ensures Window(w[..], m, t + 1) && h == W(m, t)
  {
    if t < 16 {
      h := w[t];
      EarlyWindow(w[..], m, t);
    } else {
      ghost var was := w[..];
      LatestAt(t);
      h := Rotl(w[(t + 13) % 16] ^ w[(t + 8) % 16] ^ w[(t + 2) % 16] ^ w[t % 16], 1);
      WUnfolds(m, t);
      hide W, Rotl, Latest;
      w[t % 16] := h;
      forall j | 0 <= j < 16
        ensures w[j] == W(m, Latest(t + 1, j))
      {
        if j != t % 16 {
          LatestStays(t, j);
          assert w[j] == was[j];
        }
      }
    }
  }

  lemma {:induction false} WUnfolds(m: seq<bv32>, t: nat)
    requires |m| == 16 && t >= 16
    ensures W(m, t) == Rotl(W(m, t - 3) ^ W(m, t - 8) ^ W(m, t - 14) ^ W(m, t - 16), 1)
  {
    hide Rotl;
  }

  lemma {:induction false} EarlyWindow(w: seq<bv32>, m: seq<bv32>, t: nat)
    requires Window(w, m, t) && t < 16
    ensures Window(w, m, t + 1) && w[t] == W(m, t)
  {
    forall j | 0 <= j < 16
      ensures Latest(t + 1, j) == Latest(t, j) == j
    {
    }
    hide W;
  }

  // ---------------------------------------------------------------- eighty cycles

  /** The slot of register `a` before cycle `t`; the others follow it in turn. */
  function First(t: nat): nat {
    (5 - t % 5) % 5
  }

  function RegsAt(v: seq<bv32>, o: nat): Regs
    requires |v| == 5 && o < 5
  {
    Regs(v[o], v[(o + 1) % 5], v[(o + 2) % 5], v[(o + 3) % 5], v[(o + 4) % 5])
  }

  /** One cycle: only `e` and `b` are written. */
  method OneCycle(v: array<bv32>, t: nat, h: bv32)
    requires v.Length == 5
    modifies v
    ensures RegsAt(v[..], First(t + 1)) == Round(old(RegsAt(v[..], First(t))), t, h)
  {
    SameConstants(t);
    hide Rotr, Rotl, ShortF, K, CycleK, F, Round, CycleSum, RegsAt;
    var o := (5 - t % 5) % 5;
    var a, b, c, d, e := o, (o + 1) % 5, (o + 2) % 5, (o + 3) % 5, (o + 4) % 5;
    ghost var was := v[..];
    CycleIsRound(RegsAt(was, o), t, h);
    var x, y := CycleSum(v[e], Rotr(v[a], 27), ShortF(t, v[b], v[c], v[d]), CycleK(t), h), Rotr(v[b], 2);
    v[e] := x;
    v[b] := y;
    RolesMove(was, o, x, y);
    assert v[..] == was[e := x][b := y];
    FirstMoves(t);
  }

  lemma FirstMoves(t: nat)
    ensures First(t + 1) == (First(t) + 4) % 5
  {
  }

  /** After a cycle the roles have moved on by one. */
  lemma RolesMove(v: seq<bv32>, o: nat, x: bv32, y: bv32)
    requires |v| == 5 && o < 5
    ensures RegsAt(v, o) == Regs(v[o], v[(o + 1) % 5], v[(o + 2) % 5], v[(o + 3) % 5], v[(o + 4) % 5])
    ensures RegsAt(v[(o + 4) % 5 := x][(o + 1) % 5 := y], (o + 4) % 5)
            == Regs(x, v[o], y, v[(o + 2) % 5], v[(o + 3) % 5])
  {
  }

  lemma CycleIsRound(r: Regs, t: nat, h: bv32)
    ensures Round(r, t, h)
            == Regs(CycleSum(r.e, Rotr(r.a, 27), ShortF(t, r.b, r.c, r.d), K(t), h), r.a, Rotr(r.b, 2), r.c, r.d)
  {
    hide Rotr, Rotl, ShortF, K, F, CycleSum, Sum;
    ShortForms(t, r.b, r.c, r.d);
    Rotations(r.a);
    Rotations(r.b);
    SumOrder(Rotl(r.a, 5), F(t, r.b, r.c, r.d), r.e, K(t), h);
  }

  /** The eighty cycles, which the code spells out one by one. */
  method Cycles(v: array<bv32>, wbuf: array<bv32>)
    requires v.Length == 5 && wbuf.Length == 16 && v != wbuf
    modifies v, wbuf
    ensures RegsAt(v[..], 0) == Rounds(old(RegsAt(v[..], 0)), old(wbuf[..]), 80)
  {
    hide Round, Rounds, Window, W, RegsAt;
    ghost var m, start := wbuf[..], RegsAt(v[..], 0);
    StartWindow(m);
    NoRounds(start, m);
    for t := 0 to 80
      invariant Window(wbuf[..], m, t)
      invariant RegsAt(v[..], First(t)) == Rounds(start, m, t)
    {
      var h := NextWord(wbuf, t, m);
      OneCycle(v, t, h);
      OneRound(start, m, t);
    }
  }

  /** `sha1_compile`. */
  method Compile(hash: array<bv32>, wbuf: array<bv32>)
    requires hash.Length == 5 && wbuf.Length == 16 && hash != wbuf
    modifies hash, wbuf
    ensures RegsAt(hash[..], 0) == Block(old(RegsAt(hash[..], 0)), old(wbuf[..]))
  {
    hide Rounds, Add, Plus;
    ghost var start := RegsAt(hash[..], 0);
    var v := new bv32[5];
    v[0], v[1], v[2], v[3], v[4] := hash[0], hash[1], hash[2], hash[3], hash[4];
    Cycles(v, wbuf);
    PlusSwaps(start, RegsAt(v[..], 0));
    hash[0], hash[1], hash[2], hash[3], hash[4]
      := Add(hash[0], v[0]), Add(hash[1], v[1]), Add(hash[2], v[2]), Add(hash[3], v[3]), Add(hash[4], v[4]);
  }

  lemma {:induction false} NoRounds(h: Regs, m: seq<bv32>)
    requires |m| == 16
    ensures Rounds(h, m, 0) == h
  {
  }

  lemma {:induction false} OneRound(h: Regs, m: seq<bv32>, t: nat)
    requires |m| == 16
    ensures Rounds(h, m, t + 1) == Round(Rounds(h, m, t), t, W(m, t))
  {
    hide W, Round;
  }

  lemma PlusSwaps(h: Regs, r: Regs)
    ensures Plus(h, r) == Regs(Add(h.a, r.a), Add(h.b, r.b), Add(h.c, r.c), Add(h.d, r.d), Add(h.e, r.e))
  {
    hide Add;
    AddSwap(h.a, r.a);
    AddSwap(h.b, r.b);
    AddSwap(h.c, r.c);
    AddSwap(h.d, r.d);
    AddSwap(h.e, r.e);
  }
}
