/** What exactly the overfilling release of the split deferred-copy ring breaks, in every ring and
    every state: pushes lose tasks and write over blocks that thieves have reserved. */
module SdcOverfill {
  import opened RingArith
  import opened RingSlots
  import opened TaskQueue
  import opened SdcModel
  import opened SdcInvariant
  import opened SdcSteps
  import opened SdcTheorems

  /** A push does what it is for: it appends to the queue and leaves every reserved slot alone. */
  ghost predicate PushIsSafe(s: State, es: seq<Task>)
    requires Shape(s)
  {
    && QueueStep(Abs(s), Pushed(es), Abs(DoPush(s, es)))
    && forall t :: Stealing(s, t) ==>
         Slots(DoPush(s, es).q, s.thieves[t].tail, s.thieves[t].n) == Slots(s.q, s.thieves[t].tail, s.thieves[t].n)
  }

  ghost predicate PushesAreSafe(s: State)
    requires Shape(s)
  {
    forall es :: Enabled(s, Push(es)) ==> PushIsSafe(s, es)
  }

  // ---------------------------------------------------------------- the overfilled ring

  /** The ring after the release: every slot is public, and the indices say that none is. */
  ghost predicate Overfilled(z: State, aVtail: nat)
    requires Shape(z)
  {
    && z.split == aVtail % z.max && z.vtail == z.split && PublicSize(z) == 0 && z.nlocal == 0
    && z.aSplit == aVtail + z.max && z.aTail == aVtail + z.max - 1
  }

  lemma ReleaseOverfills(s: State)
    requires Inv(s) && Enabled(s, Release) && Overfills(s)
    ensures Shape(DoRelease(s)) && Overfilled(DoRelease(s), s.aVtail)
    ensures DoRelease(s) == s.(nlocal := 0, split := DoRelease(s).split, aSplit := s.aSplit + 1)
  {
    hide PublicSize, SharedSize, Inv, Tiled, Lags, Thieves, LockOk, PcOk;
    InvParts(s);
    SizesExact(s);
    AddWrapped(s.aSplit, 1, s.max);
    ATurnLater(s.aVtail, s.max);
    NothingPublic(DoRelease(s));
  }

  lemma NothingPublic(z: State)
    requires Shape(z) && z.vtail == z.split
    ensures PublicSize(z) == 0
  {
  }

  /** A push into the overfilled ring is let through, and its task number `i` lands on the slot of
      the `i`-th position from the virtual tail on. */
  lemma PushOverwrites(z: State, aVtail: nat, es: seq<Task>, i: nat)
    requires Shape(z) && Overfilled(z, aVtail) && z.pc.Idle? && i < |es| <= z.max
    ensures Enabled(z, Push(es)) && |DoPush(z, es).q| == z.max
    ensures DoPush(z, es).q[(aVtail + i) % z.max] == es[i]
  {
    hide PublicSize, Written;
    WrittenFrom(z.q, z.split, aVtail, es, i);
  }

  lemma WrittenFrom(q: seq<Task>, split: nat, from: nat, es: seq<Task>, i: nat)
    requires |q| > 0 && split == from % |q| && i < |es| <= |q|
    ensures Written(q, split, es)[(from + i) % |q|] == es[i]
  {
    hide Written;
    SmallMod(split, |q|);
    WrittenAt(q, split, from, es, from + i);
  }

  lemma ATurnLater(a: nat, m: nat)
    requires m > 0
    ensures (a + m) % m == a % m
  {
    AddWrapped(m, a, m);
    SmallMod(m, m);
  }

  /** The one unclaimed task of the overfilled ring is what a push of a whole ring's worth loses. */
  lemma PushLosesATask(z: State, aVtail: nat, es: seq<Task>)
    requires Shape(z) && Overfilled(z, aVtail) && z.pc.Idle?
    requires |es| == z.max && es[z.max - 1] != z.q[z.aTail % z.max]
    ensures Enabled(z, Push(es)) && z.q[z.aTail % z.max] == Abs(z).deque[0]
    ensures !QueueStep(Abs(z), Pushed(es), Abs(DoPush(z, es)))
  {
    hide PublicSize, Written;
    PushOverwrites(z, aVtail, es, z.max - 1);
    assert Abs(z).deque[0] == z.q[z.aTail % z.max];
    assert Abs(DoPush(z, es)).deque[0] == es[z.max - 1];
  }

  function Another(x: Task): Task {
    Task(x.id + 1)
  }

  lemma OverfilledIsUnsafe(z: State, aVtail: nat)
    requires Shape(z) && Overfilled(z, aVtail) && z.pc.Idle?
    ensures !PushesAreSafe(z)
  {
    hide Overfilled, Abs, DoPush, Enabled, QueueStep;
    var x := Another(z.q[z.aTail % z.max]);
    var es := seq(z.max, i => x);
    assert es[z.max - 1] == x;
    PushLosesATask(z, aVtail, es);
    assert !PushIsSafe(z, es);
  }

  /** The overfilling release, for every ring: some push it lets through loses a task, and every
      push that reaches the block of a thief that is still copying writes over it. */
  lemma OverfillLosesATask(s: State, es: seq<Task>)
    requires Inv(s) && Enabled(s, Release) && Overfills(s)
    requires |es| == s.max && es[s.max - 1] != s.q[s.aTail % s.max]
    ensures Shape(DoRelease(s)) && Enabled(DoRelease(s), Push(es))
    ensures !QueueStep(Abs(DoRelease(s)), Pushed(es), Abs(DoPush(DoRelease(s), es)))
  {
    hide Inv, Abs, DoPush, QueueStep, Overfills, Overfilled;
    ReleaseOverfills(s);
    PushLosesATask(DoRelease(s), s.aVtail, es);
  }

  lemma OverfillReachesThief(s: State, t: nat, es: seq<Task>)
    requires Inv(s) && Enabled(s, Release) && Overfills(s) && Stealing(s, t)
    ensures var d := s.thieves[t];
            && Shape(s) && d.k < |s.log| && s.aVtail <= s.log[d.k].base < s.aVtail + s.max
            && (s.log[d.k].base - s.aVtail < |es| <= s.max ==>
                  && Shape(DoRelease(s)) && Enabled(DoRelease(s), Push(es))
                  && |DoPush(DoRelease(s), es).q| == s.max && d.tail < s.max
                  && DoPush(DoRelease(s), es).q[d.tail] == es[s.log[d.k].base - s.aVtail])
  {
    hide Inv, DoPush, Overfills;
    ReleaseOverfills(s);
    ThiefFacts(s, t);
    ThiefBase(s, t);
    var d := s.thieves[t];
    var i := s.log[d.k].base - s.aVtail;
    if i < |es| <= s.max {
      PushOverwrites(DoRelease(s), s.aVtail, es, i);
    }
  }

  lemma ThiefBase(s: State, t: nat)
    requires Shape(s) && Geometry(s) && t in s.thieves && ThiefOk(s, t) && s.thieves[t].Reserved?
    requires s.aTail < s.aVtail + s.max
    ensures var d := s.thieves[t];
            && d.k < |s.log| && s.aVtail <= s.log[d.k].base < s.aVtail + s.max && d.tail == s.log[d.k].base % s.max
  {
    hide Slots;
  }

  // ---------------------------------------------------------------- exactly when

  lemma InvariantIsSafe(s: State)
    requires Inv(s)
    ensures Shape(s) && PushesAreSafe(s)
  {
    hide Inv, Enabled, Abs, QueueStep, DoPush, Slots;
    InvParts(s);
    forall es | Enabled(s, Push(es))
      ensures PushIsSafe(s, es)
    {
      PushRefines(s, es);
      forall t | Stealing(s, t)
        ensures Slots(DoPush(s, es).q, s.thieves[t].tail, s.thieves[t].n) == Slots(s.q, s.thieves[t].tail, s.thieves[t].n)
      {
        PushLeavesThief(s, es, t);
      }
    }
  }

  lemma PushLeavesThief(s: State, es: seq<Task>, t: nat)
    requires Inv(s) && Enabled(s, Push(es)) && Stealing(s, t)
    ensures Shape(s) && |DoPush(s, es).q| > 0
    ensures Slots(DoPush(s, es).q, s.thieves[t].tail, s.thieves[t].n) == Slots(s.q, s.thieves[t].tail, s.thieves[t].n)
  {
    hide Inv, Slots, Written, Geometry;
    InvParts(s);
    ReservedSlotsStay(s, Push(es), t);
    ReservedHolds(s, t);
  }

  lemma ReservedHolds(s: State, t: nat)
    requires Inv(s) && Stealing(s, t)
    ensures Shape(s) && Slots(s.q, s.thieves[t].tail, s.thieves[t].n) == s.thieves[t].tasks
  {
    hide Inv, Geometry, Slots;
    ThiefFacts(s, t);
    SlotsOfIndex(s.q, s.log[s.thieves[t].k].base, s.thieves[t].n);
  }

  /** After a release every push refines the queue and leaves every reserved slot alone, if and only
      if the release did not overfill the ring. */
  lemma ReleaseIsSafeIff(s: State)
    requires Inv(s) && Enabled(s, Release)
    ensures Shape(DoRelease(s)) && (PushesAreSafe(DoRelease(s)) <==> !Overfills(s))
  {
    hide Inv, PushesAreSafe, Overfills, Overfilled, Shape, DoRelease;
    if Overfills(s) {
      ReleaseOverfills(s);
      ReleaseIdle(s);
      OverfilledIsUnsafe(DoRelease(s), s.aVtail);
    } else {
      ReleaseKeeps(s);
      InvariantIsSafe(DoRelease(s));
    }
  }

  lemma ReleaseIdle(s: State)
    requires Enabled(s, Release)
    ensures DoRelease(s).pc.Idle?
  {
  }

  // ---------------------------------------------------------------- release and reclaim

  /** `gtc_progress_sdc` with nobody in between: a release followed by a reclaim. */
  function Progress(s: State): State
    requires Enabled(s, Release)
  {
    DoReadTail(DoReadItail(DoRelease(s)))
  }

  /** With a steal pending, or in a ring of a single slot, the reclaim changes nothing. */
  lemma ReclaimInVain(s: State)
    requires Inv(s) && Enabled(s, Release) && Overfills(s)
    requires s.max == 1 || exists t :: Stealing(s, t)
    ensures Progress(s) == DoRelease(s)
  {
    hide Inv, Overfills, PendingSize, PendingWraps;
    InvParts(s);
    ReleaseOverfills(s);
    if s.max > 1 {
      ItailMeetsTail(s);
    }
  }

  /** With every steal finished the reclaim empties the public part again. */
  lemma ReclaimRepairs(s: State)
    requires Inv(s) && Enabled(s, Release) && Overfills(s)
    requires s.max > 1 && forall t :: !Stealing(s, t)
    ensures Inv(Progress(s))
  {
    hide Inv, Overfills, PendingSize, PendingWraps, Slots, Geometry, Thieves, LockOk, PcOk, Tiled, Lags;
    InvParts(s);
    ItailMeetsTail(s);
    ReleaseOverfills(s);
    OverfillsApart(s);
    var z, w := DoRelease(s), Progress(s);
    assert w == z.(vtail := z.tail, aVtail := z.aTail, log := [], pc := Idle);
    RepairedGeometry(s, w);
    EmptySums(s.max);
    RepairedRest(s, w);
    InvWhole(w);
  }

  lemma OverfillsApart(s: State)
    requires Shape(s) && Geometry(s) && Overfills(s) && Enabled(s, Release) && s.max > 1
    ensures s.vtail != s.tail && s.aTail == s.aSplit == s.aVtail + s.max - 1
  {
    hide PublicSize, SharedSize;
    SizesExact(s);
    SlotsDiffer(s.aVtail, s.aTail, s.max);
  }

  lemma RepairedGeometry(s: State, w: State)
    requires Shape(s) && Geometry(s) && s.max > 1 && s.aTail == s.aSplit
    requires Shape(w) && w.max == s.max && w.split == (s.split + 1) % s.max && w.aSplit == s.aSplit + 1 && w.nlocal == 0
    requires w.tail == s.tail == w.vtail && w.aTail == s.aTail == w.aVtail
    ensures Geometry(w)
  {
    AddWrapped(s.aSplit, 1, s.max);
  }

  lemma RepairedRest(s: State, w: State)
    requires Shape(s) && Shape(w) && Thieves(s) && LockOk(s) && s.pc.Idle? && s.itail == s.tail
    requires forall t :: !Stealing(s, t)
    requires w == s.(split := w.split, nlocal := 0, aSplit := w.aSplit, vtail := s.tail, aVtail := s.aTail, log := [])
    requires s.aTail == s.aSplit && w.max > 0 && PendingIncrements([], w.max) == 0 && TotalSize([]) == 0
    ensures Tiled(w) && Lags(w) && Thieves(w) && LockOk(w) && PcOk(w)
  {
    hide Slots, PendingIncrements, TotalSize;
    forall t | t in w.thieves
      ensures ThiefOk(w, t)
    {
      assert ThiefOk(s, t) && !Stealing(s, t);
    }
  }

  /** So `gtc_progress_sdc`, run without interference, leaves a safe ring if and only if its release
      did not overfill it, or every steal was finished and the reclaim made up for it. */
  lemma ProgressIsSafeIff(s: State)
    requires Inv(s) && Enabled(s, Release)
    ensures Shape(Progress(s))
    ensures PushesAreSafe(Progress(s)) <==> !Overfills(s) || (s.max > 1 && forall t :: !Stealing(s, t))
  {
    hide Inv, Overfills, PushesAreSafe, DoRelease, Overfilled, DoReadItail, DoReadTail, Stealing, SharedSize;
    if !Overfills(s) {
      ReleaseKeeps(s);
      ProgressKeeps(s);
      InvariantIsSafe(Progress(s));
    } else if s.max > 1 && forall t :: !Stealing(s, t) {
      ReclaimRepairs(s);
      InvariantIsSafe(Progress(s));
    } else {
      ReclaimInVain(s);
      ReleaseOverfills(s);
      ReleaseIdle(s);
      OverfilledIsUnsafe(DoRelease(s), s.aVtail);
    }
  }

  lemma ProgressKeeps(s: State)
    requires Enabled(s, Release) && Inv(DoRelease(s))
    ensures Inv(Progress(s))
  {
    hide Inv, DoRelease, PendingSize, PendingWraps;
    ReleaseIdle(s);
    var z := DoRelease(s);
    InvParts(z);
    ReadItailKeeps(z);
    ReadTailKeeps(DoReadItail(z));
  }
}
