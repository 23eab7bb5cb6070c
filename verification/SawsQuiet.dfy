/** Once no steal is open, whatever the owner is in the middle of comes to its end by itself and changes
    nothing about the queue; a reclaim after that makes the sizes the code computes exact. */
module SawsQuiet {
  import opened Turns
  import opened StealSeries
  import opened RingSlots
  import opened TaskQueue
  import opened SawsModel
  import opened SawsInvariant
  import opened SawsOwner
  import opened SawsThief
  import opened SawsTheorems
  import opened SawsRing
  import opened SawsRoom
  import opened SawsWaiting

  /** The same queue, and still nobody stealing. */
  ghost predicate Undisturbed(s: State, z: State)
    requires Shape(s)
  {
    Inv(z) && Shape(z) && z.claims == map[] && z.max == s.max && Unclaimed(z) == Unclaimed(s)
  }

  lemma OwnerStepSilent(s: State)
    requires Inv(s) && Shape(s) && s.claims == map[] && !s.pc.Idle?
    ensures Undisturbed(s, OwnerStep(s))
  {
    hide Inv, Unclaimed, Shape;
    OwnerStepKeeps(s);
    InvShape(OwnerStep(s));
    StepRefines(s, NextAction(s.pc));
    SilentNext(s);
    OwnerLeavesClaims(s);
  }

  lemma OwnerLeavesClaims(s: State)
    requires Enabled(s, NextAction(s.pc)) && !s.pc.Idle?
    ensures OwnerStep(s).claims == s.claims && OwnerStep(s).max == s.max
  {
    hide SharedSize, MaxSteals, Left;
  }

  // ---------------------------------------------------------------- how far an operation has to go

  /** A round of the retry loop in which every status read so far was in. */
  predicate GoodRound(s: State)
    requires Shape(s) && s.pc.Waiting?
  {
    s.pc.sum == Offset(s.inst[s.last].published, s.pc.i)
  }

  function StepsLeft(s: State): int
    requires Shape(s)
  {
    match s.pc
    case Idle => 0
    case Publishing => 1
    case ReclaimLast(_, _) => ReadsLeft(s)
    case ReclaimCur(_, _) => ReadsLeft(s)
    case Republishing(_, _, _, _) => 1
    case Scanning(_, _, i, _) => STATUS_SLOTS + 2 - i
    case Deciding(_) => STATUS_SLOTS + 3
    case Waiting(_, i, _) => if GoodRound(s) then 2 * STATUS_SLOTS + 4 - i else 3 * STATUS_SLOTS + 6 - i
  }

  lemma NobodyOwes(s: State, e: nat)
    requires Inv(s) && Shape(s) && s.claims == map[] && e < MAX_EPOCHS
    ensures AllComplete(s, e)
  {
    hide Inv, Geometry, TailPosition, Claims, DoneFlags, PcOk, WordOk, RecordFields, MaxSteals, BlockSize;
    InvAll(s);
    forall j | 0 <= j < s.inst[e].claims && j < STATUS_SLOTS
      ensures s.rec[e].status[j] != 0
    {
      assert !Outstanding(s.claims, e, j);
    }
  }

  lemma WaitGoesOn(s: State)
    requires Inv(s) && Shape(s) && s.pc.Waiting? && s.claims == map[]
    ensures Shape(OwnerStep(s)) && 0 <= StepsLeft(OwnerStep(s)) < StepsLeft(s)
  {
    hide Inv, OwnerStep, Offset, AllComplete, MaxSteals, BlockSize, ReadsLeft;
    NobodyOwes(s, s.last);
    WaitFacts(s);
    WaitSteps(s);
    OwnerStepSilent(s);
    WaitBound(s);
    var n := s.pc.i;
    if n < s.rec[s.last].maxsteals {
      ReadsBlock(s, n);
      OffsetStep(s.inst[s.last].published, n);
    } else {
      OffsetZero(s.inst[s.last].published);
    }
  }

  lemma WaitBound(s: State)
    requires Inv(s) && Shape(s) && s.pc.Waiting?
    ensures s.pc.i <= s.rec[s.last].maxsteals <= STATUS_SLOTS
  {
    hide Inv, Geometry, TailPosition, Claims, DoneFlags, WordOk, RecordFields, Statuses, MaxSteals, Offset;
    InvAll(s);
  }

  lemma ReclaimGoesOn(s: State)
    requires Inv(s) && Shape(s) && Reclaiming(s) && s.claims == map[]
    ensures Shape(OwnerStep(s)) && 0 <= StepsLeft(OwnerStep(s)) < StepsLeft(s)
  {
    hide Inv, OwnerStep, Unclaimed, SharedSize, ReadsLeft;
    OwnerStepSilent(s);
    ReadsBounded(s);
    if s.pc.ReclaimLast? {
      LastGoesOn(s);
    } else {
      CurGoesOn(s);
    }
    if Reclaiming(OwnerStep(s)) {
      ReadsBounded(OwnerStep(s));
    }
  }

  lemma ScanBound(s: State)
    requires Inv(s) && Shape(s) && s.pc.Scanning?
    ensures s.pc.i <= STATUS_SLOTS
  {
    hide Inv, Geometry, TailPosition, Claims, DoneFlags, WordOk, RecordFields, Statuses, MaxSteals, Offset;
    InvAll(s);
  }

  lemma OthersGoOn(s: State)
    requires Inv(s) && Shape(s) && s.claims == map[]
    requires s.pc.Publishing? || s.pc.Deciding? || s.pc.Scanning? || s.pc.Republishing?
    ensures Shape(OwnerStep(s)) && 0 <= StepsLeft(OwnerStep(s)) < StepsLeft(s)
  {
    hide Inv, MaxSteals, Left, Unclaimed, SharedSize, Retreat;
    OwnerStepSilent(s);
    if s.pc.Scanning? {
      ScanBound(s);
    }
    if OwnerStep(s).pc.Scanning? {
      ScanBound(OwnerStep(s));
    }
  }

  lemma GoesOn(s: State)
    requires Inv(s) && Shape(s) && s.claims == map[] && !s.pc.Idle?
    ensures Undisturbed(s, OwnerStep(s)) && 0 <= StepsLeft(OwnerStep(s)) < StepsLeft(s)
  {
    hide Inv, OwnerStep, Unclaimed, StepsLeft, Shape;
    OwnerStepSilent(s);
    match s.pc
    case Waiting(_, _, _) => WaitGoesOn(s);
    case ReclaimLast(_, _) => ReclaimGoesOn(s);
    case ReclaimCur(_, _) => ReclaimGoesOn(s);
    case _ => OthersGoOn(s);
  }

  /** With no steal open, every operation of the owner comes to its end by itself. */
  lemma Settles(s: State) returns (n: nat)
    requires Inv(s) && Shape(s) && s.claims == map[]
    ensures var z := Drive(s, [], n); Undisturbed(s, z) && z.pc.Idle?
  {
    hide Inv, Unclaimed, OwnerStep, Drive, StepsLeft, Shape;
    n := 0;
    var z := s;
    DriveStarts(s, []);
    while !z.pc.Idle?
      invariant z == Drive(s, [], n) && Undisturbed(s, z)
      decreases StepsLeft(z)
    {
      GoesOn(z);
      NobodyElse(s, n);
      z, n := OwnerStep(z), n + 1;
    }
  }
}
