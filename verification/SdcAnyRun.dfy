/** Runs of the split deferred-copy ring without any guard, overfilling releases included.  What is
    left of the invariant is about the indices alone: half of the ring is the most that is shared. */
module SdcAnyRun {
  import opened RingArith
  import opened RingSlots
  import opened TaskQueue
  import opened SdcModel
  import opened SdcInvariant
  import opened SdcSteps
  import opened SdcTheorems

  ghost predicate IsAnyRun(ss: seq<State>, acts: seq<Action>) {
    && |ss| == |acts| + 1
    && Init(ss[0])
    && (forall i :: 0 <= i < |acts| ==> Enabled(ss[i], acts[i]) && ss[i + 1] == Apply(ss[i], acts[i]))
  }

  lemma RunIsAnyRun(ss: seq<State>, acts: seq<Action>)
    requires IsRun(ss, acts)
    ensures IsAnyRun(ss, acts)
  {
    hide Enabled, Apply, Init, Guarded;
  }

  /** The thief that has looked knows the tail, and that there is enough to take. */
  ghost predicate LookedWell(s: State)
    requires Shape(s)
  {
    forall t :: t in s.thieves && s.thieves[t].Seen? ==>
      s.thieves[t].tail == s.tail && 0 < s.thieves[t].n <= SharedSize(s)
  }

  ghost predicate Bounded(s: State) {
    && Shape(s) && LockOk(s) && LookedWell(s)
    && s.nlocal <= s.max && SharedSize(s) <= HalfUp(s.max)
  }

  lemma BoundedAtFirst(s: State)
    requires Init(s)
    ensures Bounded(s)
  {
  }

  /** What does not touch the shared part. */
  lemma SharedStays(s: State, s': State)
    requires Bounded(s) && Shape(s') && s'.max == s.max && s'.tail == s.tail && s'.split == s.split
    requires s'.nlocal <= s'.max && LockOk(s')
    requires forall t :: t in s'.thieves && s'.thieves[t].Seen? ==>
               || (t in s.thieves && s'.thieves[t] == s.thieves[t])
               || (s'.thieves[t].tail == s.tail && 0 < s'.thieves[t].n <= SharedSize(s))
    ensures Bounded(s')
  {
    hide LockOk, SharedSize;
    assert SharedSize(s') == SharedSize(s) by { SameShared(s, s'); }
  }

  lemma SameShared(s: State, s': State)
    requires Shape(s) && Shape(s') && s'.max == s.max && s'.tail == s.tail && s'.split == s.split
    ensures SharedSize(s') == SharedSize(s)
  {
  }

  lemma ReleaseBounded(s: State)
    requires Bounded(s) && Enabled(s, Release)
    ensures Bounded(DoRelease(s))
  {
    hide Distance;
    Stretched(s.tail, s.split, HalfUp(s.nlocal), s.max);
    assert forall t :: t in s.thieves ==> !s.thieves[t].Seen?;
  }

  lemma Stretched(tail: nat, split: nat, n: nat, max: nat)
    requires tail < max && split < max && Distance(tail, split, max) == 0 && n <= max
    ensures (split + n) % max < max && Distance(tail, (split + n) % max, max) == if n < max then n else 0
  {
    SmallMod(split + n, max);
  }

  lemma ReacquireBounded(s: State)
    requires Bounded(s) && Enabled(s, SdcModel.Reacquire)
    ensures Bounded(DoReacquire(s))
  {
    var shared := SharedSize(s);
    if shared > s.nlocal {
      var amount := HalfUp(shared - s.nlocal);
      ShorterAtEnd(s.tail, s.split, amount, s.max);
    }
    assert forall t :: t in s.thieves ==> !s.thieves[t].Seen?;
  }

  lemma ShorterAtEnd(tail: nat, split: nat, n: nat, max: nat)
    requires tail < max && split < max && 0 < n <= Distance(tail, split, max)
    ensures Retreat(split, n, max) < max
    ensures Distance(tail, Retreat(split, n, max), max) == Distance(tail, split, max) - n
  {
  }

  lemma ShorterAtFront(tail: nat, split: nat, n: nat, max: nat)
    requires tail < max && split < max && 0 < n <= Distance(tail, split, max)
    ensures Distance((tail + n) % max, split, max) == Distance(tail, split, max) - n
  {
    SmallMod(tail + n, max);
  }

  lemma ReserveBounded(s: State, t: nat)
    requires Bounded(s) && Enabled(s, Reserve(t))
    ensures Bounded(DoReserve(s, t))
  {
    hide Slots;
    ShorterAtFront(s.tail, s.split, s.thieves[t].n, s.max);
    assert s.holder == Holding(t);
    assert forall u :: u in s.thieves && u != t ==> !ThiefHolds(s.thieves[u]);
  }

  lemma OwnerBounded(s: State, a: Action)
    requires Bounded(s) && Enabled(s, a)
    requires a.Push? || a.Pop? || a.ReadItail? || a.ReadTail? || a.Swap? || a.Ensure? || a.Unlock?
    ensures Bounded(Apply(s, a))
  {
    hide Bounded, SharedSize, Written, PendingSize, PendingWraps, LookedWell;
    OwnerFrame(s, a);
    SharedStays(s, Apply(s, a));
  }

  lemma OwnerFrame(s: State, a: Action)
    requires Bounded(s) && Enabled(s, a)
    requires a.Push? || a.Pop? || a.ReadItail? || a.ReadTail? || a.Swap? || a.Ensure? || a.Unlock?
    ensures var s' := Apply(s, a);
            && Shape(s') && s'.max == s.max && s'.tail == s.tail && s'.split == s.split && s'.nlocal <= s'.max
            && LockOk(s') && s'.thieves == s.thieves
  {
    hide SharedSize, Written, PendingSize, PendingWraps, LookedWell;
  }

  lemma ThiefBounded(s: State, a: Action)
    requires Bounded(s) && Enabled(s, a)
    requires a.ThiefSwap? || a.Look? || a.ThiefUnlock? || a.Copy? || a.Finish?
    ensures Bounded(Apply(s, a))
  {
    hide Bounded, SharedSize, StealSlot, LookedWell, StealSize;
    ThiefFrame(s, a);
    SharedStays(s, Apply(s, a));
  }

  lemma ThiefFrame(s: State, a: Action)
    requires Bounded(s) && Enabled(s, a)
    requires a.ThiefSwap? || a.Look? || a.ThiefUnlock? || a.Copy? || a.Finish?
    ensures var s' := Apply(s, a);
            && Shape(s') && s'.max == s.max && s'.tail == s.tail && s'.split == s.split && s'.nlocal <= s'.max
            && LockOk(s')
            && forall t :: t in s'.thieves && s'.thieves[t].Seen? ==>
                 || (t in s.thieves && s'.thieves[t] == s.thieves[t])
                 || (s'.thieves[t].tail == s.tail && 0 < s'.thieves[t].n <= SharedSize(s))
  {
    hide SharedSize, StealSlot, LookedWell;
  }

  lemma StepMax(s: State, a: Action)
    requires Enabled(s, a)
    ensures Apply(s, a).max == s.max
  {
    hide SharedSize, PublicSize, Slots, Written, StealSize, PendingSize, PendingWraps;
  }

  lemma StepBounded(s: State, a: Action)
    requires Bounded(s) && Enabled(s, a)
    ensures Bounded(Apply(s, a)) && Apply(s, a).max == s.max
  {
    hide Bounded, Enabled, DoRelease, DoReacquire, DoReserve;
    StepMax(s, a);
    match a
    case Release => ReleaseBounded(s);
    case Reacquire => ReacquireBounded(s);
    case Reserve(t) => ReserveBounded(s, t);
    case Push(_) => OwnerBounded(s, a);
    case Pop => OwnerBounded(s, a);
    case ReadItail => OwnerBounded(s, a);
    case ReadTail => OwnerBounded(s, a);
    case Swap => OwnerBounded(s, a);
    case Ensure(_) => OwnerBounded(s, a);
    case Unlock => OwnerBounded(s, a);
    case _ => ThiefBounded(s, a);
  }

  /** On every run, guarded or not, no more than half of the ring is shared. */
  lemma {:induction false} AnyRunBounded(ss: seq<State>, acts: seq<Action>)
    requires IsAnyRun(ss, acts)
    ensures Bounded(ss[|acts|]) && ss[|acts|].max == ss[0].max
    decreases |acts|
  {
    hide Enabled, Apply, Init, Bounded;
    if acts == [] {
      BoundedAtFirst(ss[0]);
    } else {
      var k := |acts| - 1;
      assert IsAnyRun(ss[..k + 1], acts[..k]);
      AnyRunBounded(ss[..k + 1], acts[..k]);
      StepBounded(ss[k], acts[k]);
    }
  }
}
