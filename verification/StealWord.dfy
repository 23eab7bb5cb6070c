/** The published word of a SAWS ring (libtc/saws_shrb.c): four fields packed into 64 bits and updated
    by three atomics - a set by the owner, a fetch-add by thieves, a fetch-or by the owner.

    24 bits of attempts, 2 of epoch, 19 of task count and 19 of tail, from the top. */
module StealWord {
  import opened SawsModel

  /** `saws_set_stealval`. */
  function SetStealval(valid: bv64, itasks: bv64, tail: bv64): bv64 {
    (valid << 38) | (itasks << 19) | tail
  }

  // `saws_get_stealval`, field by field.

  function Attempts(w: bv64): bv64 {
    (w >> 40) & 0xFF_FFFF
  }

  function Valid(w: bv64): bv64 {
    (w >> 38) & 0x3
  }

  function Itasks(w: bv64): bv64 {
    (w >> 19) & 0x7_FFFF
  }

  function Tail(w: bv64): bv64 {
    w & 0x7_FFFF
  }

  /** The thief's fetch-add of one attempt. */
  function AddAttempt(w: bv64): bv64 {
    w + 0x100_0000_0000
  }

  /** `saws_disable_steals`: the fetch-or of the number of epochs. */
  function DisableSteals(w: bv64): bv64 {
    w | (2 << 38)
  }

  // ---------------------------------------------------------------- the fields are independent

  /** A set word holds exactly what was put in, with no attempts. */
  lemma SetGet(valid: bv64, itasks: bv64, tail: bv64)
    requires valid < 4 && itasks < 0x8_0000 && tail < 0x8_0000
    ensures var w := SetStealval(valid, itasks, tail);
            Valid(w) == valid && Itasks(w) == itasks && Tail(w) == tail && Attempts(w) == 0
  {
  }

  /** The four fields say everything there is in a word. */
  lemma FieldsDetermine(w: bv64, v: bv64)
    requires Attempts(w) == Attempts(v) && Valid(w) == Valid(v) && Itasks(w) == Itasks(v) && Tail(w) == Tail(v)
    ensures w == v
  {
  }

  /** An attempt changes no other field, not even when the attempts wrap. */
  lemma AddGet(w: bv64)
    ensures var a := AddAttempt(w);
            && Valid(a) == Valid(w) && Itasks(a) == Itasks(w) && Tail(a) == Tail(w)
            && Attempts(a) == (if Attempts(w) == 0xFF_FFFF then 0 else Attempts(w) + 1)
  {
  }

  /** Disabling changes no other field, and once is enough. */
  lemma DisableGet(w: bv64)
    ensures var d := DisableSteals(w);
            && Attempts(d) == Attempts(w) && Itasks(d) == Itasks(w) && Tail(d) == Tail(w)
            && Valid(d) == (if Valid(w) < 2 then Valid(w) + 2 else Valid(w))
            && Valid(d) >= 2
  {
  }

  // ---------------------------------------------------------------- any mix of updates

  /** The four fields, each as wide as it needs to be. */
  datatype Fields = Fields(attempts: bv64, valid: bv64, itasks: bv64, tail: bv64)

  function Decode(w: bv64): Fields {
    Fields(Attempts(w), Valid(w), Itasks(w), Tail(w))
  }

  /** The atomics on the word. */
  datatype Update = Set(valid: bv64, itasks: bv64, tail: bv64) | Attempt | Disabling

  predicate Fits(u: Update) {
    u.Set? ==> u.valid < 4 && u.itasks < 0x8_0000 && u.tail < 0x8_0000
  }

  function Packed(w: bv64, u: Update): bv64 {
    match u
    case Set(valid, itasks, tail) => SetStealval(valid, itasks, tail)
    case Attempt => AddAttempt(w)
    case Disabling => DisableSteals(w)
  }

  function Unpacked(f: Fields, u: Update): Fields {
    match u
    case Set(valid, itasks, tail) => Fields(0, valid, itasks, tail)
    case Attempt => f.(attempts := if f.attempts == 0xFF_FFFF then 0 else f.attempts + 1)
    case Disabling => f.(valid := if f.valid < 2 then f.valid + 2 else f.valid)
  }

  function PackedAll(w: bv64, us: seq<Update>): bv64 {
    if us == [] then w else Packed(PackedAll(w, us[..|us| - 1]), us[|us| - 1])
  }

  function UnpackedAll(f: Fields, us: seq<Update>): Fields {
    if us == [] then f else Unpacked(UnpackedAll(f, us[..|us| - 1]), us[|us| - 1])
  }

  lemma SetRefines(w: bv64, u: Update)
    requires Fits(u) && u.Set?
    ensures Decode(Packed(w, u)) == Unpacked(Decode(w), u)
  {
    hide Valid, Itasks, Tail, Attempts, SetStealval;
    SetGet(u.valid, u.itasks, u.tail);
  }

  lemma AttemptRefines(w: bv64)
    ensures Decode(AddAttempt(w)) == Unpacked(Decode(w), Attempt)
  {
    hide Valid, Itasks, Tail, Attempts, AddAttempt;
    AddGet(w);
  }

  lemma DisablingRefines(w: bv64)
    ensures Decode(DisableSteals(w)) == Unpacked(Decode(w), Disabling)
  {
    hide Valid, Itasks, Tail, Attempts, DisableSteals;
    DisableGet(w);
  }

  lemma UpdateRefines(w: bv64, u: Update)
    requires Fits(u)
    ensures Decode(Packed(w, u)) == Unpacked(Decode(w), u)
  {
    hide Decode, Unpacked, Fits;
    match u
    case Set(valid, itasks, tail) => SetRefines(w, u);
    case Attempt => AttemptRefines(w);
    case Disabling => DisablingRefines(w);
  }

  /** Under every mix of the three atomics the packed word behaves as four separate fields. */
  lemma {:induction false} WordRefines(w: bv64, us: seq<Update>)
    requires forall i :: 0 <= i < |us| ==> Fits(us[i])
    ensures Decode(PackedAll(w, us)) == UnpackedAll(Decode(w), us)
    decreases |us|
  {
    hide Decode, Packed, Unpacked, Fits;
    if us != [] {
      var k := |us| - 1;
      WordRefines(w, us[..k]);
      UpdateRefines(PackedAll(w, us[..k]), us[k]);
    }
  }

  lemma StaysDisabled(w: bv64, u: Update)
    requires Valid(w) >= 2 && !u.Set?
    ensures Valid(Packed(w, u)) >= 2 && Itasks(Packed(w, u)) == Itasks(w) && Tail(Packed(w, u)) == Tail(w)
  {
    hide Valid, Itasks, Tail, Attempts, AddAttempt, DisableSteals;
    match u
    case Attempt => AddGet(w);
    case Disabling => DisableGet(w);
  }

  /** A disabled word stays disabled under any number of attempts, until it is set again. */
  lemma {:induction false} DisabledUntilSet(w: bv64, us: seq<Update>)
    requires Valid(w) >= 2 && forall i :: 0 <= i < |us| ==> !us[i].Set?
    ensures Valid(PackedAll(w, us)) >= 2
    ensures Itasks(PackedAll(w, us)) == Itasks(w) && Tail(PackedAll(w, us)) == Tail(w)
    decreases |us|
  {
    hide Valid, Itasks, Tail, Packed;
    if us != [] {
      var k := |us| - 1;
      DisabledUntilSet(w, us[..k]);
      StaysDisabled(PackedAll(w, us[..k]), us[k]);
    }
  }

  // ---------------------------------------------------------------- the same word as a number

  predicate InRange(w: Word) {
    w.attempts < ATTEMPT_LIMIT && w.valid < 4 && w.itasks < RING_LIMIT && w.tail < RING_LIMIT
  }

  /** The value of the word as an unsigned number. */
  function Value(w: Word): nat {
    ((w.attempts * 4 + w.valid) * RING_LIMIT + w.itasks) * RING_LIMIT + w.tail
  }

  function FieldsOf(v: nat): Word {
    Word(v / (4 * RING_LIMIT * RING_LIMIT), v / (RING_LIMIT * RING_LIMIT) % 4, v / RING_LIMIT % RING_LIMIT,
      v % RING_LIMIT)
  }

  lemma ValueRoundTrip(w: Word)
    requires InRange(w)
    ensures FieldsOf(Value(w)) == w && Value(w) < 0x1_0000_0000_0000_0000
  {
    var high := w.attempts * 4 + w.valid;
    var middle := high * RING_LIMIT + w.itasks;
    assert Value(w) == middle * RING_LIMIT + w.tail;
    assert Value(w) / RING_LIMIT == middle && Value(w) / (RING_LIMIT * RING_LIMIT) == high;
  }

  /** The 64-bit add of `1 << 40` is the state machine's step on the attempts, wrap included. */
  lemma AddIsAttempt(w: Word)
    requires InRange(w)
    ensures FieldsOf((Value(w) + 0x100_0000_0000) % 0x1_0000_0000_0000_0000)
         == w.(attempts := (w.attempts + 1) % ATTEMPT_LIMIT)
  {
    var w' := w.(attempts := (w.attempts + 1) % ATTEMPT_LIMIT);
    assert (Value(w) + 0x100_0000_0000) % 0x1_0000_0000_0000_0000 == Value(w') by {
      if w.attempts + 1 < ATTEMPT_LIMIT {
        assert Value(w') == Value(w) + 0x100_0000_0000;
        ValueRoundTrip(w');
      } else {
        assert Value(w') == Value(w) + 0x100_0000_0000 - 0x1_0000_0000_0000_0000;
        ValueRoundTrip(w');
      }
    }
    ValueRoundTrip(w');
  }

  // ---------------------------------------------------------------- where the fields are

  /** The places of the fields: attempts from bit 40, epoch from bit 38, task count from bit 19, tail
      from bit 0, in 64-bit arithmetic and as a number. */
  lemma SetIsSum(valid: bv64, itasks: bv64, tail: bv64)
    requires valid < 4 && itasks < 0x8_0000 && tail < 0x8_0000
    ensures SetStealval(valid, itasks, tail) == valid * 0x40_0000_0000 + itasks * 0x8_0000 + tail
  {
  }

  lemma WordIsSum(w: bv64)
    ensures w == Attempts(w) * 0x100_0000_0000 + Valid(w) * 0x40_0000_0000 + Itasks(w) * 0x8_0000 + Tail(w)
  {
  }

  lemma ValueIsSum(w: Word)
    ensures Value(w) == w.attempts * 0x100_0000_0000 + w.valid * 0x40_0000_0000 + w.itasks * 0x8_0000 + w.tail
  {
  }
}
