/** The invariant of the split deferred-copy ring. */
module SdcInvariant {
  import opened RingArith
  import opened RingSlots
  import opened TaskQueue
  import opened SdcModel

  /** Virtual tail, tail, split and head follow each other within one turn of the ring, and the
      public part never fills the ring: that is what makes equal indices mean empty.  No more than
      half of the slots are ever shared. */
  ghost predicate Geometry(s: State)
    requires Shape(s)
  {
    && s.aVtail <= s.aTail <= s.aSplit < s.aVtail + s.max
    && s.aSplit + s.nlocal <= s.aVtail + s.max
    && s.aSplit - s.aTail <= HalfUp(s.max)
    && s.vtail == s.aVtail % s.max && s.tail == s.aTail % s.max && s.split == s.aSplit % s.max
  }

  /** Reservations tile the positions from the virtual tail to the tail. */
  ghost predicate Tiled(s: State) {
    && s.aTail == s.aVtail + TotalSize(s.log)
    && forall k :: 0 <= k < |s.log| ==> s.log[k].n > 0 && s.log[k].base == s.aVtail + TotalSize(s.log[..k])
  }

  /** `itail` lags behind `tail` by exactly what the pending steals will add. */
  ghost predicate Lags(s: State)
    requires Shape(s)
  {
    s.itail == s.tail - PendingIncrements(s.log, s.max)
  }

  ghost predicate ThiefOk(s: State, t: nat)
    requires Shape(s) && t in s.thieves
  {
    var d := s.thieves[t];
    && (d.Seen? ==> d.tail == s.tail && 0 < d.n <= s.aSplit - s.aTail)
    && (d.Reserved? ==>
          && d.k < |s.log| && !s.log[d.k].done && s.log[d.k].thief == t
          && d.n == s.log[d.k].n && d.tail == s.log[d.k].base % s.max
          && s.aVtail <= s.log[d.k].base && s.log[d.k].base + d.n <= s.aTail
          && d.tasks == Slots(s.q, s.log[d.k].base, d.n)
          && forall i :: i in d.got ==> i < d.n && d.got[i] == d.tasks[i])
  }

  /** Every pending reservation is some thief's. */
  ghost predicate Owned(s: State, k: nat)
    requires k < |s.log|
  {
    var t := s.log[k].thief;
    !s.log[k].done ==> t in s.thieves && s.thieves[t].Reserved? && s.thieves[t].k == k
  }

  ghost predicate Thieves(s: State)
    requires Shape(s)
  {
    && (forall t :: t in s.thieves ==> ThiefOk(s, t))
    && (forall k :: 0 <= k < |s.log| ==> Owned(s, k))
  }

  predicate OwnerHolds(pc: Pc) {
    pc.Locked? || pc.Waiting? || pc.WaitingRead? || pc.Leaving?
  }

  predicate ThiefHolds(d: Thief) {
    d.Locking? || d.Seen? || d.Empty? || d.locked
  }

  /** The lock word is set exactly while somebody holds the lock, and at most one does. */
  ghost predicate LockOk(s: State) {
    && (s.lock <==> s.holder != Nobody)
    && (OwnerHolds(s.pc) <==> s.holder == Owner)
    && (forall t :: t in s.thieves ==> (ThiefHolds(s.thieves[t]) <==> s.holder == Holding(t)))
    && (s.holder.Holding? ==> s.holder.t in s.thieves)
  }

  /** What a captured `itail` says about the reservations made before the read. */
  ghost predicate CaptureOk(s: State, c: Capture)
    requires Shape(s)
  {
    && c.blocks <= |s.log|
    && var before := TotalSize(s.log[..c.blocks]);
    && c.itail == (s.aVtail + before) % s.max - c.pending + c.wraps * s.max
    && c.pending <= before
    && (c.pending == 0 ==> forall k :: 0 <= k < c.blocks ==> s.log[k].done)
  }

  ghost predicate PcOk(s: State)
    requires Shape(s)
  {
    && (s.pc.Reclaiming? || s.pc.WaitingRead? ==> CaptureOk(s, s.pc.c))
    && (s.pc.Waiting? || s.pc.WaitingRead? ==>
          s.aVtail < s.aTail && s.nlocal + (s.aSplit - s.aTail) + s.pc.n <= s.max)
  }

  ghost predicate Inv(s: State) {
    && Shape(s)
    && Geometry(s)
    && Tiled(s)
    && Lags(s)
    && Thieves(s)
    && LockOk(s)
    && PcOk(s)
  }

  lemma InvParts(s: State)
    requires Inv(s)
    ensures Shape(s) && Geometry(s) && Tiled(s) && Lags(s) && Thieves(s) && LockOk(s) && PcOk(s)
  {
    hide Geometry, Tiled, Lags, Thieves, LockOk, PcOk;
  }

  lemma InvWhole(s: State)
    requires Shape(s) && Geometry(s) && Tiled(s) && Lags(s) && Thieves(s) && LockOk(s) && PcOk(s)
    ensures Inv(s)
  {
    hide Geometry, Tiled, Lags, Thieves, LockOk, PcOk;
  }

  // ---------------------------------------------------------------- sizes are what they seem

  lemma DistanceIs(a: nat, b: nat, m: nat)
    requires m > 0 && a <= b < a + m
    ensures Distance(a % m, b % m, m) == b - a
  {
    SlotDistance(a, b, m);
    if a < b {
      SlotsDiffer(a, b, m);
    }
  }

  /** Both size queries of the ring are exact. */
  lemma SizesExact(s: State)
    requires Shape(s) && Geometry(s)
    ensures SharedSize(s) == s.aSplit - s.aTail && PublicSize(s) == s.aSplit - s.aVtail
  {
    DistanceIs(s.aTail, s.aSplit, s.max);
    DistanceIs(s.aVtail, s.aSplit, s.max);
  }

  /** What a thief decides to take is never more than that. */
  lemma StealFits(s: State, want: nat, volume: Volume)
    requires Shape(s) && Geometry(s)
    ensures StealSize(SharedSize(s), want, volume) <= MostStolen(s.max, want, volume)
  {
    hide SharedSize, PublicSize;
    SizesExact(s);
  }

  // ---------------------------------------------------------------- sums

  lemma {:induction false} SumsOfOneMore(log: seq<Block>, b: Block, max: nat)
    requires max > 0 && !b.done
    ensures TotalSize(log + [b]) == TotalSize(log) + b.n
    ensures PendingIncrements(log + [b], max) == PendingIncrements(log, max) + Increment(b.base % max, b.n, max)
    ensures PendingCount(log + [b]) == PendingCount(log) + 1
  {
    var l := log + [b];
    assert l[..|l| - 1] == log;
  }

  lemma {:induction false} SumsAfterOneDone(log: seq<Block>, k: nat, max: nat)
    requires max > 0 && k < |log| && !log[k].done
    ensures var l := log[k := log[k].(done := true)];
            && TotalSize(l) == TotalSize(log)
            && PendingIncrements(l, max) == PendingIncrements(log, max) - Increment(log[k].base % max, log[k].n, max)
            && PendingCount(l) == PendingCount(log) - 1
    decreases |log|
  {
    var l, z := log[k := log[k].(done := true)], |log| - 1;
    if k == z {
      assert l[..z] == log[..z];
    } else {
      SumsAfterOneDone(log[..z], k, max);
      assert l[..z] == log[..z][k := log[k].(done := true)];
    }
  }

  /** Marking a reservation done changes no size. */
  lemma {:induction false} TotalIgnoresDone(log: seq<Block>, l: seq<Block>)
    requires |l| == |log| && forall k :: 0 <= k < |log| ==> l[k].n == log[k].n
    ensures TotalSize(l) == TotalSize(log)
    decreases |log|
  {
    if log != [] {
      TotalIgnoresDone(log[..|log| - 1], l[..|log| - 1]);
    }
  }

  /** The increments are the pending sizes, less a turn for each pending block that wraps. */
  lemma {:induction false} IncrementsAreSizes(log: seq<Block>, max: nat)
    requires max > 0
    ensures PendingIncrements(log, max) == PendingSize(log) - PendingWraps(log, max) * max
    decreases |log|
  {
    if log != [] {
      IncrementsAreSizes(log[..|log| - 1], max);
      var w := PendingWraps(log[..|log| - 1], max);
      assert (w + 1) * max == w * max + max;
    }
  }

  lemma {:induction false} PendingBounds(log: seq<Block>)
    requires forall k :: 0 <= k < |log| ==> log[k].n > 0
    ensures PendingSize(log) <= TotalSize(log)
    ensures PendingSize(log) == 0 <==> forall k :: 0 <= k < |log| ==> log[k].done
    ensures PendingCount(log) == 0 <==> forall k :: 0 <= k < |log| ==> log[k].done
    decreases |log|
  {
    if log != [] {
      var z := |log| - 1;
      PendingBounds(log[..z]);
      assert forall k :: 0 <= k < z ==> log[..z][k] == log[k];
      assert (forall k :: 0 <= k < |log| ==> log[k].done) <==>
             log[z].done && (forall k :: 0 <= k < z ==> log[..z][k].done);
    }
  }

  lemma {:induction false} TotalOfPrefix(log: seq<Block>, k: nat)
    requires k <= |log| && forall i :: 0 <= i < |log| ==> log[i].n > 0
    ensures TotalSize(log[..k]) <= TotalSize(log)
    ensures k < |log| ==> TotalSize(log[..k]) < TotalSize(log)
    ensures k < |log| ==> TotalSize(log[..k]) + log[k].n <= TotalSize(log)
    decreases |log|
  {
    if k < |log| {
      var z := |log| - 1;
      if k < z {
        TotalOfPrefix(log[..z], k);
        assert log[..z][..k] == log[..k];
      }
    } else {
      assert log[..k] == log;
    }
  }
}
