/** Every step of the owner and of every thief keeps the invariant, except one release. */
module SdcSteps {
  import opened RingArith
  import opened RingSlots
  import opened TaskQueue
  import opened SdcModel
  import opened SdcInvariant

  // ---------------------------------------------------------------- frames

  /** Steps that leave the log, the positions and the lock alone. */
  lemma ThievesKept(s: State, s': State)
    requires Shape(s) && Shape(s') && Thieves(s)
    requires s'.thieves == s.thieves && s'.log == s.log && s'.max == s.max && s'.q == s.q
    requires s'.tail == s.tail && s'.aTail == s.aTail && s'.aVtail == s.aVtail && s'.aSplit >= s.aSplit
    ensures Thieves(s')
  {
    forall t | t in s.thieves
      ensures ThiefOk(s', t)
    {
      assert ThiefOk(s, t);
    }
    forall k | 0 <= k < |s.log|
      ensures Owned(s', k)
    {
      assert Owned(s, k);
    }
  }

  lemma AllOwned(s: State, s': State, t: nat)
    requires Shape(s) && Thieves(s)
    requires s'.log == s.log
    requires forall u :: u in s.thieves && u != t ==> u in s'.thieves && s'.thieves[u] == s.thieves[u]
    requires t in s.thieves && s.thieves[t].Reserved? ==>
               t in s'.thieves && s'.thieves[t].Reserved? && s'.thieves[t].k == s.thieves[t].k
    ensures forall k :: 0 <= k < |s'.log| ==> Owned(s', k)
  {
    forall k | 0 <= k < |s.log|
      ensures Owned(s', k)
    {
      assert Owned(s, k);
    }
    hide ThiefOk;
  }

  /** Only thief `t` changes its own record. */
  lemma OneThief(s: State, s': State, t: nat)
    requires Shape(s) && Thieves(s)
    requires s' == s.(thieves := s'.thieves, lock := s'.lock, holder := s'.holder)
    requires forall u :: u in s'.thieves && u != t ==> u in s.thieves && s'.thieves[u] == s.thieves[u]
    requires forall u :: u in s.thieves && u != t ==> u in s'.thieves && s'.thieves[u] == s.thieves[u]
    requires t in s.thieves && s.thieves[t].Reserved? ==>
               t in s'.thieves && s'.thieves[t].Reserved? && s'.thieves[t].k == s.thieves[t].k
    requires t in s'.thieves ==> ThiefOk(s', t)
    ensures Thieves(s')
  {
    AllOwned(s, s', t);
    forall u | u in s'.thieves && u != t
      ensures ThiefOk(s', u)
    {
      assert ThiefOk(s, u);
    }
  }

  // ---------------------------------------------------------------- the owner

  /** A push that fits writes past the head and before the virtual tail comes round again. */
  lemma PushRoom(s: State, m: nat)
    requires Shape(s) && Geometry(s) && s.nlocal + PublicSize(s) + m <= s.max
    ensures (s.split + s.nlocal) % s.max == (s.aSplit + s.nlocal) % s.max
    ensures s.aVtail <= s.aTail <= s.aSplit && s.aSplit + s.nlocal + m <= s.aVtail + s.max
  {
    hide PublicSize, SharedSize;
    SizesExact(s);
    AddWrapped(s.aSplit, s.nlocal, s.max);
  }

  lemma PushThief(s: State, es: seq<Task>, t: nat)
    requires Shape(s) && Geometry(s) && Thieves(s) && t in s.thieves
    requires s.nlocal + PublicSize(s) + |es| <= s.max
    ensures ThiefOk(DoPush(s, es), t)
  {
    hide Written, Slots, PublicSize, Geometry;
    assert ThiefOk(s, t);
    PushRoom(s, |es|);
    var d := s.thieves[t];
    if d.Reserved? {
      WrittenKeeps(s.q, s.split + s.nlocal, s.aSplit + s.nlocal, es, s.log[d.k].base, d.n);
    }
  }

  lemma PushKeeps(s: State, es: seq<Task>)
    requires Inv(s) && Enabled(s, Push(es))
    ensures Inv(DoPush(s, es))
  {
    hide Slots, Written, PublicSize, SharedSize, TotalSize, PendingIncrements, ThiefOk, CaptureOk;
    var s' := DoPush(s, es);
    PushRoom(s, |es|);
    forall t | t in s.thieves
      ensures ThiefOk(s', t)
    {
      PushThief(s, es, t);
    }
    forall k | 0 <= k < |s.log|
      ensures Owned(s', k)
    {
      assert Owned(s, k);
    }
    assert PcOk(s');
  }

  lemma PopKeeps(s: State)
    requires Inv(s) && Enabled(s, Pop)
    ensures Inv(s.(nlocal := s.nlocal - 1))
  {
    var s' := s.(nlocal := s.nlocal - 1);
    hide Thieves, LockOk, TotalSize, PendingIncrements;
    ThievesKept(s, s');
  }

  /** Releasing the only local task into a ring whose other slots are all reserved makes the public
      part as large as the ring. */
  predicate Overfills(s: State)
    requires Shape(s)
  {
    s.nlocal == 1 && PublicSize(s) == s.max - 1
  }

  lemma ReleaseKeeps(s: State)
    requires Inv(s) && Enabled(s, Release) && !Overfills(s)
    ensures Inv(DoRelease(s))
  {
    var s' := DoRelease(s);
    SizesExact(s);
    AddWrapped(s.aSplit, HalfUp(s.nlocal), s.max);
    hide Thieves, LockOk, TotalSize, PendingIncrements, PublicSize, SharedSize;
    ThievesKept(s, s');
  }

  /** Release keeps the invariant in every other case and only there. */
  lemma ReleaseKeepsIff(s: State)
    requires Inv(s) && Enabled(s, Release)
    ensures Inv(DoRelease(s)) <==> !Overfills(s)
  {
    if !Overfills(s) {
      ReleaseKeeps(s);
    } else {
      SizesExact(s);
      hide Thieves, LockOk, TotalSize, PendingIncrements, PublicSize, SharedSize, Tiled, PcOk;
    }
  }

  lemma CaptureNow(s: State)
    requires Shape(s) && Tiled(s) && Lags(s) && Geometry(s)
    ensures CaptureOk(s, Capture(s.itail, |s.log|, PendingSize(s.log), PendingWraps(s.log, s.max)))
  {
    IncrementsAreSizes(s.log, s.max);
    PendingBounds(s.log);
    assert s.log[..|s.log|] == s.log;
    hide TotalSize, PendingSize, PendingIncrements, PendingWraps;
  }

  lemma ReadItailKeeps(s: State)
    requires Inv(s) && Enabled(s, ReadItail)
    ensures Inv(DoReadItail(s))
  {
    var s' := DoReadItail(s);
    hide Thieves, TotalSize, PendingIncrements, PendingSize, PendingWraps, CaptureOk, SharedSize, PublicSize;
    CaptureNow(s);
    ThievesKept(s, s');
    assert CaptureOk(s', s'.pc.c) by {
      CaptureFrame(s, s', s'.pc.c);
    }
  }

  lemma CaptureFrame(s: State, s': State, c: Capture)
    requires Shape(s) && Shape(s') && CaptureOk(s, c) && s'.aVtail == s.aVtail && s'.max == s.max && s'.log == s.log
    ensures CaptureOk(s', c)
  {
    hide TotalSize;
  }

  lemma SameWithinTurn(a: int, b: int, p: int, w: int, m: int)
    requires m > 0 && a % m - p + w * m == b % m && 0 <= b - (a - p) < m
    ensures b == a - p
  {
    var x, y := a / m, b / m;
    assert a == x * m + a % m && b == y * m + b % m;
    var z := y - x + w;
    assert z * m == y * m - x * m + w * m;
    MulAtLeast(z, m);
    MulAtLeast(-z, m);
  }

  /** Because `itail` is read before `tail`, equal values mean that no steal was pending at the
      first read and that nothing was reserved in between. */
  lemma EqualMeansQuiet(s: State, c: Capture)
    requires Shape(s) && Geometry(s) && Tiled(s) && CaptureOk(s, c) && c.itail == s.tail
    ensures forall k :: 0 <= k < |s.log| ==> s.log[k].done
  {
    var before := TotalSize(s.log[..c.blocks]);
    TotalOfPrefix(s.log, c.blocks);
    hide TotalSize;
    SameWithinTurn(s.aVtail + before, s.aTail, c.pending, c.wraps, s.max);
  }

  lemma NobodyReserved(s: State)
    requires Shape(s) && Thieves(s) && forall k :: 0 <= k < |s.log| ==> s.log[k].done
    ensures forall t :: t in s.thieves ==> !s.thieves[t].Reserved?
  {
    forall t | t in s.thieves
      ensures !s.thieves[t].Reserved?
    {
      assert ThiefOk(s, t);
    }
    hide Slots;
  }

  lemma {:induction false} AllDoneSums(log: seq<Block>, max: nat)
    requires max > 0 && forall k :: 0 <= k < |log| ==> log[k].done
    ensures PendingIncrements(log, max) == 0
    decreases |log|
  {
    if log != [] {
      AllDoneSums(log[..|log| - 1], max);
    }
  }

  lemma ReclaimKeeps(s: State, s': State)
    requires Inv(s) && (s.pc.Reclaiming? || s.pc.WaitingRead?)
    requires s.vtail != s.tail && s.pc.c.itail == s.tail && s' == DoReadTail(s)
    ensures Inv(s')
  {
    InvParts(s);
    hide Inv, Thieves, TotalSize, PendingIncrements, SharedSize, PublicSize;
    EqualMeansQuiet(s, s.pc.c);
    NobodyReserved(s);
    AllDoneSums(s.log, s.max);
    ReclaimThieves(s, s');
    EmptySums(s.max);
    InvWhole(s');
  }

  lemma {:induction false} EmptySums(max: nat)
    requires max > 0
    ensures TotalSize([]) == 0 && PendingIncrements([], max) == 0 && PendingCount([]) == 0
  {
  }

  lemma ReclaimThieves(s: State, s': State)
    requires Shape(s) && Thieves(s) && Shape(s')
    requires forall t :: t in s.thieves ==> !s.thieves[t].Reserved?
    requires s' == s.(vtail := s.tail, aVtail := s.aTail, log := [], pc := s'.pc)
    ensures Thieves(s')
  {
    forall t | t in s.thieves
      ensures ThiefOk(s', t)
    {
      assert ThiefOk(s, t);
    }
  }

  lemma ReadTailKeeps(s: State)
    requires Inv(s) && Enabled(s, ReadTail)
    ensures Inv(DoReadTail(s))
  {
    var s' := DoReadTail(s);
    hide Inv, Thieves, TotalSize, PendingIncrements, SharedSize, PublicSize, CaptureOk;
    if s.vtail != s.tail && s.pc.c.itail == s.tail {
      ReclaimKeeps(s, s');
    } else {
      InvParts(s);
      ThievesKept(s, s');
      InvWhole(s');
    }
  }

  lemma SwapKeeps(s: State)
    requires Inv(s) && Enabled(s, Swap) && !s.lock
    ensures Inv(s.(lock := true, pc := Locked, holder := Owner))
  {
    var s' := s.(lock := true, pc := Locked, holder := Owner);
    hide Thieves, TotalSize, PendingIncrements, SharedSize, PublicSize;
    ThievesKept(s, s');
  }

  lemma ReacquireGeometry(s: State)
    requires Shape(s) && Geometry(s)
    ensures Shape(DoReacquire(s)) && Geometry(DoReacquire(s))
    ensures var s' := DoReacquire(s);
            && s'.aTail == s.aTail && s'.aSplit + s'.nlocal == s.aSplit + s.nlocal
            && s'.aSplit - s'.aTail == (if s.aSplit - s.aTail > s.nlocal then (s.aSplit - s.aTail + s.nlocal) / 2 else s.aSplit - s.aTail)
            && s' == s.(nlocal := s'.nlocal, split := s'.split, aSplit := s'.aSplit, pc := Leaving)
  {
    SizesExact(s);
    hide SharedSize, PublicSize;
    var shared := s.aSplit - s.aTail;
    if shared > s.nlocal {
      var amount: int := HalfUp(shared - s.nlocal);
      AddWrapped(s.aSplit, -amount, s.max);
      SmallMod(s.split - amount, s.max);
    }
  }

  lemma ReacquireKeeps(s: State)
    requires Inv(s) && Enabled(s, Reacquire)
    ensures Inv(DoReacquire(s))
  {
    var s' := DoReacquire(s);
    ReacquireGeometry(s);
    NoSeenThief(s);
    hide TotalSize, PendingIncrements, DoReacquire, Geometry;
    forall t | t in s.thieves
      ensures ThiefOk(s', t)
    {
      assert ThiefOk(s, t);
    }
    forall k | 0 <= k < |s.log|
      ensures Owned(s', k)
    {
      assert Owned(s, k);
    }
    assert Thieves(s');
    hide Thieves;
  }

  /** While the owner holds the lock no thief does. */
  lemma NoSeenThief(s: State)
    requires Shape(s) && LockOk(s) && OwnerHolds(s.pc)
    ensures forall t :: t in s.thieves ==> !ThiefHolds(s.thieves[t])
  {
  }

  lemma EnsureKeeps(s: State, n: nat)
    requires Inv(s) && Enabled(s, Ensure(n))
    ensures Inv(s.(pc := Waiting(n)))
  {
    var s' := s.(pc := Waiting(n));
    SizesExact(s);
    hide Thieves, TotalSize, PendingIncrements, SharedSize, PublicSize;
    ThievesKept(s, s');
  }

  lemma UnlockKeeps(s: State)
    requires Inv(s) && Enabled(s, Unlock)
    ensures Inv(s.(lock := false, pc := Idle, holder := Nobody))
  {
    var s' := s.(lock := false, pc := Idle, holder := Nobody);
    hide Thieves, TotalSize, PendingIncrements, SharedSize, PublicSize;
    ThievesKept(s, s');
  }

  // ---------------------------------------------------------------- thieves

  lemma PcKept(s: State, s': State)
    requires Shape(s) && Shape(s') && PcOk(s) && s'.pc == s.pc && s'.max == s.max
    requires s'.aVtail == s.aVtail && s'.aTail == s.aTail && s'.aSplit == s.aSplit && s'.nlocal == s.nlocal
             && s'.log == s.log
    ensures PcOk(s')
  {
    hide TotalSize;
  }

  lemma ThiefSwapKeeps(s: State, t: nat)
    requires Inv(s) && Enabled(s, ThiefSwap(t)) && !s.lock
    ensures Inv(s.(lock := true, thieves := s.thieves[t := Locking], holder := Holding(t)))
  {
    var s' := s.(lock := true, thieves := s.thieves[t := Locking], holder := Holding(t));
    hide Thieves, PcOk, TotalSize, PendingIncrements, SharedSize, PublicSize;
    OneThief(s, s', t);
    PcKept(s, s');
  }

  lemma StealSizeFits(shared: nat, want: nat, volume: Volume)
    ensures StealSize(shared, want, volume) <= shared
    ensures StealSize(shared, want, volume) == 0 <==> shared == 0 || want == 0
  {
  }

  lemma LookThief(s: State, t: nat, want: nat, volume: Volume)
    requires Shape(s) && Geometry(s) && t in s.thieves
    ensures ThiefOk(DoLook(s, t, want, volume), t)
  {
    SizesExact(s);
    StealSizeFits(SharedSize(s), want, volume);
    hide StealSize;
  }

  lemma LookKeeps(s: State, t: nat, want: nat, volume: Volume)
    requires Inv(s) && Enabled(s, Look(t, want, volume))
    ensures Inv(DoLook(s, t, want, volume))
  {
    var s' := DoLook(s, t, want, volume);
    InvParts(s);
    hide Inv, Thieves, PcOk, Tiled, Lags, ThiefOk, SharedSize, PublicSize, StealSize;
    LookThief(s, t, want, volume);
    OneThief(s, s', t);
    PcKept(s, s');
    OtherPartsKept(s, s');
    InvWhole(s');
  }

  lemma ReserveGeometry(s: State, t: nat)
    requires Shape(s) && Geometry(s) && t in s.thieves && s.thieves[t].Seen? && ThiefOk(s, t)
    ensures Shape(DoReserve(s, t)) && Geometry(DoReserve(s, t))
  {
    AddWrapped(s.aTail, s.thieves[t].n, s.max);
    hide Slots;
  }

  lemma ReserveSums(s: State, t: nat)
    requires Shape(s) && Geometry(s) && Tiled(s) && Lags(s) && t in s.thieves && s.thieves[t].Seen? && ThiefOk(s, t)
    requires Shape(DoReserve(s, t))
    ensures Tiled(DoReserve(s, t)) && Lags(DoReserve(s, t))
  {
    var s', d := DoReserve(s, t), s.thieves[t];
    var b := Block(s.aTail, d.n, t, false);
    SumsOfOneMore(s.log, b, s.max);
    SmallMod(s.tail + d.n, s.max);
    hide TotalSize, PendingIncrements, Slots;
    forall k | 0 <= k < |s'.log|
      ensures s'.log[k].n > 0 && s'.log[k].base == s'.aVtail + TotalSize(s'.log[..k])
    {
      if k < |s.log| {
        assert s'.log[..k] == s.log[..k];
      } else {
        assert s'.log[..k] == s.log;
      }
    }
  }

  lemma ReserveThieves(s: State, t: nat)
    requires Shape(s) && Geometry(s) && Thieves(s) && LockOk(s) && t in s.thieves && s.thieves[t].Seen? && ThiefOk(s, t)
    requires Shape(DoReserve(s, t))
    ensures Thieves(DoReserve(s, t))
  {
    var s' := DoReserve(s, t);
    hide Slots;
    forall u | u in s'.thieves
      ensures ThiefOk(s', u)
    {
      if u != t {
        assert ThiefOk(s, u);
        assert !ThiefHolds(s.thieves[u]);
      }
    }
    forall k | 0 <= k < |s'.log|
      ensures Owned(s', k)
    {
      if k < |s.log| {
        assert Owned(s, k);
      }
    }
  }

  lemma ReservePc(s: State, t: nat)
    requires Shape(s) && LockOk(s) && PcOk(s) && t in s.thieves && s.thieves[t].Seen?
    requires Shape(DoReserve(s, t))
    ensures PcOk(DoReserve(s, t)) && LockOk(DoReserve(s, t))
  {
    var s' := DoReserve(s, t);
    assert ThiefHolds(s.thieves[t]);
    hide Slots, TotalSize;
    if s.pc.Reclaiming? {
      var c := s.pc.c;
      assert s'.log[..c.blocks] == s.log[..c.blocks];
    }
  }

  lemma ReserveKeeps(s: State, t: nat)
    requires Inv(s) && Enabled(s, Reserve(t))
    ensures Inv(DoReserve(s, t))
  {
    InvParts(s);
    assert ThiefOk(s, t);
    hide Inv, Thieves, PcOk, LockOk, Tiled, Lags, Geometry, DoReserve, ThiefOk;
    ReserveGeometry(s, t);
    ReserveSums(s, t);
    ReserveThieves(s, t);
    ReservePc(s, t);
    InvWhole(DoReserve(s, t));
  }

  lemma ThiefUnlockKeeps(s: State, t: nat)
    requires Inv(s) && Enabled(s, ThiefUnlock(t))
    ensures Inv(DoThiefUnlock(s, t))
  {
    var s' := DoThiefUnlock(s, t);
    InvParts(s);
    assert ThiefOk(s, t) && ThiefHolds(s.thieves[t]);
    hide Inv, Thieves, PcOk, Tiled, Lags, SharedSize, PublicSize, Slots, Geometry;
    OneThief(s, s', t);
    PcKept(s, s');
    OtherPartsKept(s, s');
    InvWhole(s');
  }

  /** What a thief copies is what was in the ring when it reserved its block. */
  lemma CopyReads(s: State, t: nat, i: nat)
    requires Shape(s) && Geometry(s) && t in s.thieves && ThiefOk(s, t) && s.thieves[t].Reserved? && i < s.thieves[t].n
    ensures var d := s.thieves[t];
            && d.n <= s.max && d.tail < s.max && i < |d.tasks|
            && s.q[StealSlot(s.max, d.tail, d.n, i)] == d.tasks[i]
  {
    hide StealSlot, Slots;
    var d := s.thieves[t];
    var b := s.log[d.k].base;
    ReservedTask(s, t, i);
    StealSlotIs(s.max, d.tail, d.n, i);
    AddWrapped(b, i, s.max);
  }

  lemma StealSlotIs(max: nat, tail: nat, n: nat, i: nat)
    requires i < n <= max && tail < max
    ensures StealSlot(max, tail, n, i) == (tail + i) % max
  {
    SmallMod(tail + i, max);
  }

  lemma ReservedTask(s: State, t: nat, i: nat)
    requires Shape(s) && Geometry(s) && t in s.thieves && ThiefOk(s, t) && s.thieves[t].Reserved? && i < s.thieves[t].n
    ensures var d := s.thieves[t];
            && d.n <= s.max && d.tail < s.max && i < |d.tasks| && d.k < |s.log|
            && d.tail == s.log[d.k].base % s.max && d.tasks[i] == s.q[(s.log[d.k].base + i) % s.max]
  {
  }

  lemma CopyThief(s: State, t: nat, i: nat)
    requires Shape(s) && Geometry(s) && t in s.thieves && ThiefOk(s, t) && s.thieves[t].Reserved? && i < s.thieves[t].n
    ensures ThiefOk(DoCopy(s, t, i), t)
  {
    CopyReads(s, t, i);
    hide StealSlot, Slots;
  }

  lemma CopyKeeps(s: State, t: nat, i: nat)
    requires Inv(s) && Enabled(s, Copy(t, i))
    ensures Inv(DoCopy(s, t, i))
  {
    var s' := DoCopy(s, t, i);
    InvParts(s);
    assert ThiefOk(s, t);
    hide Inv, Thieves, PcOk, Tiled, Lags, ThiefOk, StealSlot, Slots, SharedSize, PublicSize;
    CopyThief(s, t, i);
    OneThief(s, s', t);
    PcKept(s, s');
    OtherPartsKept(s, s');
    InvWhole(s');
  }

  lemma OtherPartsKept(s: State, s': State)
    requires Shape(s) && Shape(s') && Geometry(s) && Tiled(s) && Lags(s)
    requires s' == s.(thieves := s'.thieves, lock := s'.lock, holder := s'.holder)
    ensures Geometry(s') && Tiled(s') && Lags(s')
  {
    hide TotalSize, PendingIncrements;
  }

  lemma FinishSums(s: State, t: nat)
    requires Shape(s) && Tiled(s) && Lags(s) && t in s.thieves && s.thieves[t].Reserved? && ThiefOk(s, t)
    ensures Tiled(DoFinish(s, t)) && Shape(DoFinish(s, t)) && Lags(DoFinish(s, t))
  {
    var s', d := DoFinish(s, t), s.thieves[t];
    SumsAfterOneDone(s.log, d.k, s.max);
    hide TotalSize, PendingIncrements, Slots;
    forall j | 0 <= j < |s'.log|
      ensures s'.log[j].n > 0 && s'.log[j].base == s'.aVtail + TotalSize(s'.log[..j])
    {
      TotalIgnoresDone(s.log[..j], s'.log[..j]);
    }
  }

  lemma FinishThieves(s: State, t: nat)
    requires Shape(s) && Thieves(s) && t in s.thieves && s.thieves[t].Reserved? && Shape(DoFinish(s, t))
    ensures Thieves(DoFinish(s, t))
  {
    var s', d := DoFinish(s, t), s.thieves[t];
    assert ThiefOk(s, t);
    hide Slots;
    forall u | u in s'.thieves
      ensures ThiefOk(s', u)
    {
      assert ThiefOk(s, u);
    }
    forall k | 0 <= k < |s'.log|
      ensures Owned(s', k)
    {
      assert Owned(s, k);
    }
  }

  lemma FinishPc(s: State, t: nat)
    requires Shape(s) && PcOk(s) && t in s.thieves && s.thieves[t].Reserved? && Shape(DoFinish(s, t))
    ensures PcOk(DoFinish(s, t))
  {
    var s' := DoFinish(s, t);
    hide Slots, TotalSize;
    if s.pc.Reclaiming? || s.pc.WaitingRead? {
      var c := s.pc.c;
      TotalIgnoresDone(s.log[..c.blocks], s'.log[..c.blocks]);
    }
  }

  lemma FinishKeeps(s: State, t: nat)
    requires Inv(s) && Enabled(s, Finish(t))
    ensures Inv(DoFinish(s, t))
  {
    InvParts(s);
    assert ThiefOk(s, t);
    FinishSums(s, t);
    FinishThieves(s, t);
    FinishPc(s, t);
    hide Inv, Thieves, PcOk, Tiled, Lags, ThiefOk;
    InvWhole(DoFinish(s, t));
  }

  // ---------------------------------------------------------------- all steps

  lemma {:induction false} InitInv(s: State)
    requires Init(s)
    ensures Inv(s)
  {
  }

  /** The guard the code lacks: a release never makes the public part fill the ring. */
  predicate Guarded(s: State, a: Action)
    requires Shape(s)
  {
    a.Release? ==> !Overfills(s)
  }

  lemma StepKeeps(s: State, a: Action)
    requires Inv(s) && Enabled(s, a) && Guarded(s, a)
    ensures Inv(Apply(s, a))
  {
    hide Inv, DoPush, DoRelease, DoReadItail, DoReadTail, DoReacquire, DoLook, DoReserve, DoThiefUnlock, DoCopy,
      DoFinish;
    match a
    case Push(es) => PushKeeps(s, es);
    case Pop => PopKeeps(s);
    case Release => ReleaseKeeps(s);
    case ReadItail => ReadItailKeeps(s);
    case ReadTail => ReadTailKeeps(s);
    case Swap => if !s.lock { SwapKeeps(s); }
    case Reacquire => ReacquireKeeps(s);
    case Ensure(n) => EnsureKeeps(s, n);
    case Unlock => UnlockKeeps(s);
    case ThiefSwap(t) => if !s.lock { ThiefSwapKeeps(s, t); }
    case Look(t, want, volume) => LookKeeps(s, t, want, volume);
    case Reserve(t) => ReserveKeeps(s, t);
    case ThiefUnlock(t) => ThiefUnlockKeeps(s, t);
    case Copy(t, i) => CopyKeeps(s, t, i);
    case Finish(t) => FinishKeeps(s, t);
  }
}
