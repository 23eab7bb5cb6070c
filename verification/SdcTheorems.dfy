/** What the split deferred-copy ring guarantees on every run in which no release fills the ring
    with public slots, and what happens on one that does. */
module SdcTheorems {
  import opened RingArith
  import opened RingSlots
  import opened TaskQueue
  import opened SdcModel
  import opened SdcInvariant
  import opened SdcSteps

  // ---------------------------------------------------------------- refinement

  lemma PushRefines(s: State, es: seq<Task>)
    requires Inv(s) && Enabled(s, Push(es))
    ensures Shape(DoPush(s, es)) && QueueStep(Abs(s), Pushed(es), Abs(DoPush(s, es)))
  {
    hide Inv, Thieves, LockOk, PcOk, Tiled, Lags, Written, Slots, PublicSize, Geometry;
    InvParts(s);
    PushRoom(s, |es|);
    PushSlots(s.q, s.split + s.nlocal, s.aTail, s.aSplit + s.nlocal, es);
  }

  lemma PopRefines(s: State)
    requires Inv(s) && Enabled(s, Pop)
    ensures QueueStep(Abs(s), LabelOf(s, Pop), Abs(s.(nlocal := s.nlocal - 1)))
  {
    hide Inv, Thieves, LockOk, PcOk, Tiled, Lags, Slots, Geometry;
    InvParts(s);
    TopSlot(s);
    var top := s.aSplit + s.nlocal - 1;
    SlotsSplit(s.q, s.aTail, top - s.aTail, 1);
    OneSlot(s.q, top);
    assert Flight(s.(nlocal := s.nlocal - 1)) == Flight(s);
  }

  lemma TopSlot(s: State)
    requires Shape(s) && Geometry(s) && s.nlocal > 0
    ensures (s.split + s.nlocal - 1) % s.max == (s.aSplit + s.nlocal - 1) % s.max
    ensures s.aTail <= s.aSplit
  {
    AddWrapped(s.aSplit, s.nlocal - 1, s.max);
  }

  lemma OneSlot(q: seq<Task>, p: nat)
    requires |q| > 0
    ensures Slots(q, p, 1) == [q[p % |q|]]
  {
  }

  lemma ReserveRefines(s: State, t: nat)
    requires Shape(s) && Geometry(s) && Enabled(s, Reserve(t)) && ThiefOk(s, t)
    ensures Shape(DoReserve(s, t)) && QueueStep(Abs(s), LabelOf(s, Reserve(t)), Abs(DoReserve(s, t)))
  {
    var s', n := DoReserve(s, t), s.thieves[t].n;
    hide Slots;
    SlotsSplit(s.q, s.aTail, n, s.aSplit + s.nlocal - s.aTail - n);
    ReserveFlight(s, t);
    assert Abs(s).deque == Slots(s.q, s.aTail, n) + Abs(s').deque;
    hide Flight, ThiefOk;
  }

  lemma ReserveFlight(s: State, t: nat)
    requires Shape(s) && t in s.thieves && s.thieves[t].Seen?
    ensures t !in Flight(s) && Flight(DoReserve(s, t)) == Flight(s)[t := Slots(s.q, s.aTail, s.thieves[t].n)]
  {
    hide Slots;
  }

  lemma FinishRefines(s: State, t: nat)
    requires Shape(s) && Enabled(s, Finish(t)) && ThiefOk(s, t)
    ensures Shape(DoFinish(s, t)) && QueueStep(Abs(s), LabelOf(s, Finish(t)), Abs(DoFinish(s, t)))
  {
    hide Slots;
    assert Received(s.thieves[t]) == s.thieves[t].tasks;
    FinishFlight(s, t);
    hide Flight, ThiefOk, Received;
  }

  lemma FinishFlight(s: State, t: nat)
    requires Shape(s) && t in s.thieves && s.thieves[t].Reserved?
    ensures t in Flight(s) && Flight(s)[t] == s.thieves[t].tasks && Flight(DoFinish(s, t)) == Flight(s) - {t}
  {
    hide Slots;
  }

  lemma ThiefFacts(s: State, t: nat)
    requires Inv(s) && t in s.thieves
    ensures Shape(s) && Geometry(s) && ThiefOk(s, t)
  {
    InvParts(s);
    hide Inv, Geometry, LockOk, PcOk, Tiled, Lags, ThiefOk;
  }

  /** Steps that move neither end of the unclaimed tasks and leave the blocks in flight alone. */
  lemma QuietRefines(s: State, s': State)
    requires Shape(s) && Shape(s') && s'.q == s.q && s'.aTail == s.aTail && s'.aSplit + s'.nlocal == s.aSplit + s.nlocal
    requires forall t :: t in s.thieves && s.thieves[t].Reserved? ==>
               t in s'.thieves && s'.thieves[t].Reserved? && s'.thieves[t].tasks == s.thieves[t].tasks
    requires forall t :: t in s'.thieves && s'.thieves[t].Reserved? ==> t in s.thieves && s.thieves[t].Reserved?
    ensures Abs(s') == Abs(s)
  {
    hide Slots;
    assert Flight(s') == Flight(s);
  }

  lemma ReacquireRefines(s: State)
    requires Inv(s) && Enabled(s, Reacquire)
    ensures Shape(DoReacquire(s)) && Abs(DoReacquire(s)) == Abs(s)
  {
    InvParts(s);
    hide Inv, Abs, Geometry, DoReacquire;
    ReacquireGeometry(s);
    QuietRefines(s, DoReacquire(s));
  }

  lemma ReleaseRefines(s: State)
    requires Inv(s) && Enabled(s, Release)
    ensures Shape(DoRelease(s)) && Abs(DoRelease(s)) == Abs(s)
  {
    InvParts(s);
    hide Inv, Abs, Geometry;
    QuietRefines(s, DoRelease(s));
  }

  lemma SilentRefines(s: State, a: Action)
    requires Inv(s) && Enabled(s, a)
    requires a.ReadItail? || a.ReadTail? || a.Swap? || a.Ensure? || a.Unlock? || a.ThiefSwap? || a.Look? || a.ThiefUnlock? || a.Copy?
    ensures Shape(Apply(s, a)) && Abs(Apply(s, a)) == Abs(s)
  {
    InvParts(s);
    hide Inv, Abs, Geometry, Thieves, PcOk, LockOk, Tiled, Lags, SharedSize, PublicSize, StealSlot, StealSize,
      PendingSize, PendingWraps;
    QuietRefines(s, Apply(s, a));
  }

  /** The ring implements the abstract queue: push appends, pop takes the last task, a reservation
      takes a prefix, a finished steal delivers exactly what was reserved, and release, reacquire,
      reclaim and all locking are invisible. */
  lemma StepRefines(s: State, a: Action)
    requires Inv(s) && Enabled(s, a)
    ensures Shape(Apply(s, a)) && QueueStep(Abs(s), LabelOf(s, a), Abs(Apply(s, a)))
  {
    hide Inv, Abs, DoPush, DoReserve, DoFinish, DoRelease, DoReacquire, Geometry, ThiefOk;
    match a
    case Push(es) => PushRefines(s, es);
    case Pop => PopRefines(s);
    case Release => ReleaseRefines(s);
    case Reacquire => ReacquireRefines(s);
    case Reserve(t) =>
      ThiefFacts(s, t);
      ReserveRefines(s, t);
    case Finish(t) =>
      ThiefFacts(s, t);
      FinishRefines(s, t);
    case _ => SilentRefines(s, a);
  }

  // ---------------------------------------------------------------- runs

  ghost predicate IsRun(ss: seq<State>, acts: seq<Action>) {
    && |ss| == |acts| + 1
    && Init(ss[0])
    && (forall i :: 0 <= i < |acts| ==>
      Enabled(ss[i], acts[i]) && Guarded(ss[i], acts[i]) && ss[i + 1] == Apply(ss[i], acts[i]))
  }

  lemma RunPrefix(ss: seq<State>, acts: seq<Action>)
    requires IsRun(ss, acts) && acts != []
    ensures var k := |acts| - 1;
            && IsRun(ss[..k + 1], acts[..k])
            && Enabled(ss[k], acts[k]) && Guarded(ss[k], acts[k]) && ss[k + 1] == Apply(ss[k], acts[k])
  {
    hide Enabled, Apply, Guarded, Init;
  }

  lemma {:induction false} RunKeeps(ss: seq<State>, acts: seq<Action>)
    requires IsRun(ss, acts)
    ensures Inv(ss[|acts|])
    decreases |acts|
  {
    hide Inv, Enabled, Apply, Guarded, Init;
    if acts == [] {
      InitInv(ss[0]);
    } else {
      var k := |acts| - 1;
      RunPrefix(ss, acts);
      RunKeeps(ss[..k + 1], acts[..k]);
      StepKeeps(ss[k], acts[k]);
    }
  }

  ghost predicate Refines(ss: seq<State>, qs: seq<Queue>) {
    |qs| == |ss| && forall i :: 0 <= i < |ss| ==> Shape(ss[i]) && qs[i] == Abs(ss[i])
  }

  lemma {:induction false} InitAbs(s: State)
    requires Init(s)
    ensures Shape(s) && Abs(s) == Queue([], map[])
  {
  }

  lemma {:induction false} RunRefines(ss: seq<State>, acts: seq<Action>) returns (qs: seq<Queue>, ls: seq<Label>)
    requires IsRun(ss, acts)
    ensures |ss| == |acts| + 1 && Refines(ss, qs) && IsQueueRun(qs, ls) && |ls| == |acts|
    ensures forall i :: 0 <= i < |acts| ==> Enabled(ss[i], acts[i]) && ls[i] == LabelOf(ss[i], acts[i])
    decreases |acts|
  {
    hide Inv, Enabled, Apply, Guarded, Init, Abs, Shape, QueueStep, LabelOf;
    if acts == [] {
      InitAbs(ss[0]);
      qs, ls := [Abs(ss[0])], [];
    } else {
      var k := |acts| - 1;
      RunPrefix(ss, acts);
      qs, ls := RunRefines(ss[..k + 1], acts[..k]);
      RunKeeps(ss[..k + 1], acts[..k]);
      StepRefines(ss[k], acts[k]);
      qs, ls := qs + [Abs(ss[k + 1])], ls + [LabelOf(ss[k], acts[k])];
    }
  }

  /** Exactly once: over any guarded run, everything pushed was popped, received by one thief, or is
      still in the ring or in one thief's hands. */
  lemma TasksConserved(ss: seq<State>, acts: seq<Action>, npes: nat) returns (ls: seq<Label>)
    requires IsRun(ss, acts)
    requires forall i, t :: 0 <= i < |ss| && t in ss[i].thieves ==> t < npes
    ensures |ls| == |acts| && forall i :: 0 <= i < |acts| ==>
            Enabled(ss[i], acts[i]) && ls[i] == LabelOf(ss[i], acts[i])
    ensures Shape(ss[|acts|])
    ensures Given(ls) == Taken(ls) + Held(Abs(ss[|acts|]), npes)
  {
    hide IsRun, Enabled, LabelOf, IsQueueRun, Held, Shape;
    var qs;
    qs, ls := RunRefines(ss, acts);
    FlightBounded(ss, qs, npes);
    QueueConserves(qs, ls, npes);
  }

  lemma FlightBounded(ss: seq<State>, qs: seq<Queue>, npes: nat)
    requires Refines(ss, qs)
    requires forall i, t :: 0 <= i < |ss| && t in ss[i].thieves ==> t < npes
    ensures forall i, t :: 0 <= i < |qs| && t in qs[i].flight ==> t < npes
  {
    hide Slots;
  }

  // ---------------------------------------------------------------- the lock

  predicate Inside(s: State, t: nat) {
    t in s.thieves && ThiefHolds(s.thieves[t])
  }

  /** At most one participant is between a successful swap and the matching unlock. */
  lemma MutualExclusion(s: State, t: nat, u: nat)
    requires Inv(s)
    ensures Inside(s, t) && Inside(s, u) ==> t == u
    ensures !(Inside(s, t) && OwnerHolds(s.pc))
    ensures (Inside(s, t) || OwnerHolds(s.pc)) ==> s.lock
  {
    InvParts(s);
    hide Inv, Geometry, Tiled, Lags, Thieves, PcOk;
  }

  // ---------------------------------------------------------------- itail and tail

  predicate Stealing(s: State, t: nat) {
    t in s.thieves && s.thieves[t].Reserved?
  }

  /** `tail - itail` is exactly what the pending steals will add, and the two indices meet exactly
      when no steal is pending, whatever wraps and in whatever order steals finish. */
  lemma ItailMeetsTail(s: State)
    requires Inv(s)
    ensures s.tail - s.itail == PendingIncrements(s.log, s.max)
    ensures s.itail == s.tail <==> forall t :: !Stealing(s, t)
  {
    InvParts(s);
    hide Inv, LockOk, PcOk;
    if s.itail == s.tail {
      CaptureNow(s);
      EqualMeansQuiet(s, Capture(s.itail, |s.log|, PendingSize(s.log), PendingWraps(s.log, s.max)));
      hide TotalSize, PendingSize, PendingWraps, PendingIncrements, CaptureOk, Geometry, Tiled;
      NobodyReserved(s);
    } else if forall t :: !Stealing(s, t) {
      hide TotalSize, Geometry, Tiled;
      NothingPending(s);
      AllDoneSums(s.log, s.max);
    }
  }

  lemma NothingPending(s: State)
    requires Shape(s) && Thieves(s) && forall t :: !Stealing(s, t)
    ensures forall k :: 0 <= k < |s.log| ==> s.log[k].done
  {
    forall k | 0 <= k < |s.log|
      ensures s.log[k].done
    {
      assert Owned(s, k);
      assert !Stealing(s, s.log[k].thief);
    }
    hide ThiefOk;
  }

  /** The unlocked reclaim moves the virtual tail only when every reservation is complete, to the
      tail, and afterwards only shared slots are public. */
  lemma ReclaimIsSafe(s: State)
    requires Inv(s) && Enabled(s, ReadTail) && DoReadTail(s).vtail != s.vtail
    ensures forall t :: !Stealing(s, t)
    ensures Shape(DoReadTail(s)) && DoReadTail(s).vtail == s.tail && PublicSize(DoReadTail(s)) == SharedSize(s)
  {
    InvParts(s);
    hide Inv, LockOk, Thieves, TotalSize, PendingIncrements;
    EqualMeansQuiet(s, s.pc.c);
    NobodyReserved(s);
  }

  /** Equal `vtail` and `split` mean what the assertion of `public_size` says they mean. */
  lemma EmptyPublicIsQuiet(s: State)
    requires Inv(s) && s.vtail == s.split
    ensures s.tail == s.itail == s.split && forall t :: !Stealing(s, t)
  {
    InvParts(s);
    hide Inv, LockOk, PcOk;
    SizesExact(s);
    assert s.aVtail == s.aSplit;
    EmptyLog(s);
    ItailMeetsTail(s);
  }

  lemma {:induction false} SomeSize(log: seq<Block>)
    requires forall k :: 0 <= k < |log| ==> log[k].n > 0
    ensures log != [] ==> TotalSize(log) > 0
  {
    if log != [] {
      TotalOfPrefix(log, |log| - 1);
    }
  }

  lemma EmptyLog(s: State)
    requires Shape(s) && Tiled(s) && Thieves(s) && s.aTail == s.aVtail
    ensures forall t :: !Stealing(s, t)
  {
    SomeSize(s.log);
    forall t
      ensures !Stealing(s, t)
    {
      if t in s.thieves {
        assert ThiefOk(s, t);
      }
    }
    hide Slots;
  }

  /** A reserved block keeps its slots until its thief has finished: no step writes to them. */
  lemma ReservedSlotsStay(s: State, a: Action, t: nat)
    requires Inv(s) && Enabled(s, a) && Guarded(s, a) && Stealing(s, t) && a != Finish(t)
    ensures Stealing(Apply(s, a), t) && |Apply(s, a).q| > 0
    ensures var d, d' := s.thieves[t], Apply(s, a).thieves[t];
            && d'.tail == d.tail && d'.n == d.n && d'.tasks == d.tasks
            && Slots(Apply(s, a).q, d.tail, d.n) == d.tasks
  {
    StepKeeps(s, a);
    var s' := Apply(s, a);
    ReservationStays(s, a, t);
    InvParts(s');
    assert ThiefOk(s', t);
    var d := s'.thieves[t];
    hide Inv, Apply, Enabled, Guarded, Geometry, Thieves, LockOk, PcOk, Tiled, Lags;
    SlotsOfIndex(s'.q, s'.log[d.k].base, d.n);
  }

  lemma SlotsOfIndex(q: seq<Task>, from: nat, n: nat)
    requires |q| > 0
    ensures Slots(q, from % |q|, n) == Slots(q, from, n)
  {
    forall i | 0 <= i < n
      ensures Slots(q, from % |q|, n)[i] == Slots(q, from, n)[i]
    {
      AddWrapped(from, i, |q|);
    }
  }

  lemma ReservationStays(s: State, a: Action, t: nat)
    requires Enabled(s, a) && Stealing(s, t) && a != Finish(t)
    ensures Stealing(Apply(s, a), t) && Shape(s)
    ensures var d, d' := s.thieves[t], Apply(s, a).thieves[t]; d'.tail == d.tail && d'.n == d.n && d'.tasks == d.tasks
  {
    hide Slots, Written, SharedSize, PublicSize, StealSlot, StealSize, PendingSize, PendingWraps;
  }

  // ---------------------------------------------------------------- pop

  /** `pop_head` gives up only when, under the lock, nothing unclaimed was left. */
  lemma PopGivesUpOnlyWhenEmpty(s: State)
    requires Inv(s) && Enabled(s, Reacquire) && s.nlocal == 0
    ensures Shape(DoReacquire(s))
    ensures DoReacquire(s).nlocal == 0 <==> Abs(s).deque == []
    ensures DoReacquire(s).nlocal == HalfUp(|Abs(s).deque|)
  {
    InvParts(s);
    SizesExact(s);
    hide Inv, Thieves, LockOk, PcOk, Tiled, Lags;
  }

  // ---------------------------------------------------------------- ensure_space

  /** When the busy-wait is entered there is something to reclaim. */
  lemma WaitHasSomethingToReclaim(s: State, n: nat)
    requires Inv(s) && Enabled(s, Ensure(n))
    ensures s.vtail != s.tail
  {
    SizesExact(s);
    SlotsDiffer(s.aVtail, s.aTail, s.max);
    hide Thieves, LockOk, PcOk, Tiled, Lags, SharedSize, PublicSize;
  }

  /** While the owner waits with the lock, no step adds a pending steal and every finished steal
      removes one. */
  lemma WaitingCountsDown(s: State, a: Action)
    requires Inv(s) && Enabled(s, a) && (s.pc.Waiting? || s.pc.WaitingRead?)
    ensures a.Finish? ==> PendingCount(Apply(s, a).log) == PendingCount(s.log) - 1
    ensures !a.Finish? ==> PendingCount(Apply(s, a).log) <= PendingCount(s.log)
    ensures Apply(s, a).tail == s.tail
  {
    InvParts(s);
    NoSeenThief(s);
    if a.Finish? {
      assert ThiefOk(s, a.t);
      SumsAfterOneDone(s.log, s.thieves[a.t].k, s.max);
    }
    EmptySums(s.max);
    hide Inv, Thieves, Geometry, LockOk, PcOk, Tiled, Lags, TotalSize, PendingIncrements, PendingCount, Slots,
      Written, StealSlot, StealSize, SharedSize, PublicSize, PendingSize, PendingWraps;
  }

  /** As long as a steal is pending its thief can take a step, for it does not need the lock. */
  lemma PendingThiefCanMove(s: State) returns (t: nat)
    requires Inv(s) && (s.pc.Waiting? || s.pc.WaitingRead?) && PendingCount(s.log) > 0
    ensures Enabled(s, Finish(t)) || exists i :: Enabled(s, Copy(t, i)) && i !in s.thieves[t].got
  {
    InvParts(s);
    NoSeenThief(s);
    hide Inv, LockOk, PcOk, Geometry, Lags, TotalSize;
    PendingBounds(s.log);
    var k :| 0 <= k < |s.log| && !s.log[k].done;
    assert Owned(s, k);
    t := s.log[k].thief;
    assert ThiefOk(s, t) && !ThiefHolds(s.thieves[t]);
    if !Enabled(s, Finish(t)) {
      var i :| 0 <= i < s.thieves[t].n && i !in s.thieves[t].got;
      assert Enabled(s, Copy(t, i));
    }
  }

  /** When no steal is pending at the read of `itail`, that call of reclaim ends the wait. */
  lemma QuietReadEndsWait(s: State)
    requires Inv(s) && s.pc.Waiting? && PendingCount(s.log) == 0
    ensures DoReadTail(DoReadItail(s)).pc.Leaving?
  {
    InvParts(s);
    hide Inv, LockOk, PcOk, Tiled, Thieves;
    assert s.aVtail < s.aTail by { assert PcOk(s); }
    SlotsDiffer(s.aVtail, s.aTail, s.max);
    assert forall k :: 0 <= k < |s.log| ==> s.log[k].n > 0 by { assert Tiled(s); }
    PendingBounds(s.log);
    AllDoneSums(s.log, s.max);
  }

  /** When the wait ends there is room for everything to be pushed. */
  lemma WaitMakesRoom(s: State)
    requires Inv(s) && s.pc.WaitingRead? && DoReadTail(s).pc.Leaving?
    ensures Shape(DoReadTail(s)) && DoReadTail(s).nlocal + PublicSize(DoReadTail(s)) + s.pc.n <= s.max
  {
    InvParts(s);
    SizesExact(s);
    hide Inv, LockOk, Thieves, Tiled, Lags;
  }
}
