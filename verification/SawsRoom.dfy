/** What a reclaim is worth once no steal is open: it frees every slot whose task is gone, so a push
    that comes after it finds room if and only if the unclaimed tasks and the new ones fit the ring. */
module SawsRoom {
  import opened Turns
  import opened StealSeries
  import opened RingSlots
  import opened TaskQueue
  import opened SawsModel
  import opened SawsInvariant
  import opened SawsOwner
  import opened SawsThief
  import opened SawsTheorems
  import opened SawsRing

  predicate Reclaiming(s: State) {
    s.pc.ReclaimLast? || s.pc.ReclaimCur?
  }

  /** How many status reads, at most, a reclaim has to go. */
  function ReadsLeft(s: State): int {
    match s.pc
    case ReclaimLast(i, _) => 2 * STATUS_SLOTS + 2 - i
    case ReclaimCur(i, _) => STATUS_SLOTS + 1 - i
    case _ => 0
  }

  /** What the reads of a reclaim leave alone. */
  ghost predicate SameQueue(s: State, z: State)
    requires Shape(s)
  {
    Inv(z) && Shape(z) && z.claims == s.claims && z.nlocal == s.nlocal && z.max == s.max && Unclaimed(z) == Unclaimed(s)
  }

  ghost predicate Exact(s: State)
    requires Shape(s)
  {
    s.nlocal + SharedSize(s) == |Unclaimed(s)|
  }

  lemma ReadKeeps(s: State)
    requires Inv(s) && Shape(s) && Reclaiming(s)
    ensures Enabled(s, ReclaimRead) && OwnerStep(s) == Apply(s, ReclaimRead) && SameQueue(s, OwnerStep(s))
  {
    hide Inv, Unclaimed, SharedSize;
    OwnerStepKeeps(s);
    StepRefines(s, ReclaimRead);
    InvShape(OwnerStep(s));
  }

  /** With no claim open every block of the previous epoch is reported. */
  lemma PreviousReported(s: State)
    requires Inv(s) && Shape(s) && s.pc.ReclaimLast? && s.claims == map[] && s.pc.i < s.rec[s.last].maxsteals
    ensures s.rec[s.last].status[s.pc.i] != 0
  {
    hide Inv, Geometry, TailPosition, Claims, DoneFlags, PcOk, WordOk, MaxSteals;
    InvAll(s);
    assert !Outstanding(s.claims, s.last, s.pc.i);
  }

  lemma ReadsBounded(s: State)
    requires Inv(s) && Shape(s) && Reclaiming(s)
    ensures ReadsLeft(s) > 0 && (s.pc.ReclaimLast? ==> ReadsLeft(s) > STATUS_SLOTS + 1)
  {
    hide Inv, Geometry, TailPosition, Claims, DoneFlags, WordOk, Statuses, RecordFields;
    InvAll(s);
  }

  lemma LastGoesOn(s: State)
    requires Inv(s) && Shape(s) && s.pc.ReclaimLast? && s.claims == map[]
    ensures Reclaiming(OwnerStep(s)) && ReadsLeft(OwnerStep(s)) < ReadsLeft(s)
  {
    hide Inv, OwnerStep;
    ReadsBounded(s);
    if s.pc.i < s.rec[s.last].maxsteals {
      PreviousReported(s);
      LastReads(s);
    } else {
      LastEnds(s);
    }
  }

  lemma CurGoesOn(s: State)
    requires Inv(s) && Shape(s) && s.pc.ReclaimCur? && s.claims == map[]
    ensures var z := OwnerStep(s);
            && Shape(z) && ReadsLeft(z) < ReadsLeft(s)
            && (if z.pc.Idle? then Exact(z) else Reclaiming(z))
  {
    hide Inv, OwnerStep, Unclaimed, SharedSize, Scanned;
    ReadKeeps(s);
    ReadsBounded(s);
    if s.pc.i < s.rec[s.cur].maxsteals && s.rec[s.cur].status[s.pc.i] != 0 {
      CurReads(s);
    } else {
      InvAll(s);
      ReclaimCurBound(s);
      QuietReclaimIsExact(s);
    }
  }

  /** A reclaim by itself, with no claim open, comes to its end and makes the size exact. */
  lemma QuietReclaim(s: State) returns (n: nat)
    requires Inv(s) && Shape(s) && s.pc.Idle? && s.claims == map[]
    ensures var z := Drive(Apply(s, StartReclaim), [], n); SameQueue(s, z) && z.pc.Idle? && Exact(z)
  {
    hide Inv, Unclaimed, SharedSize, OwnerStep, Others, ReadsLeft, Drive;
    var s0 := Apply(s, StartReclaim);
    ReclaimStarts(s);
    n := 0;
    var z := s0;
    DriveStarts(s0, []);
    while Reclaiming(z)
      invariant z == Drive(s0, [], n) && SameQueue(s, z)
      invariant if z.pc.Idle? then Exact(z) else Reclaiming(z)
      decreases ReadsLeft(z)
    {
      ReadKeeps(z);
      if z.pc.ReclaimLast? {
        LastGoesOn(z);
      } else {
        CurGoesOn(z);
      }
      ReadsBounded(z);
      NobodyElse(s0, n);
      z, n := OwnerStep(z), n + 1;
    }
  }

  lemma ReclaimStarts(s: State)
    requires Inv(s) && Shape(s) && s.pc.Idle?
    ensures Enabled(s, StartReclaim) && SameQueue(s, Apply(s, StartReclaim)) && Reclaiming(Apply(s, StartReclaim))
  {
    hide Inv, Unclaimed, SharedSize;
    StepKeeps(s, StartReclaim);
    StepRefines(s, StartReclaim);
  }

  lemma NobodyElse(s0: State, n: nat)
    ensures Drive(s0, [], n + 1) == OwnerStep(Drive(s0, [], n))
  {
    hide OwnerStep, Enabled;
  }

  /** With no steal open, a push that reclaims first finds room if and only if the unclaimed tasks and
      the new ones together fit the ring. */
  lemma RoomAfterReclaimIff(s: State, es: seq<Task>) returns (n: nat)
    requires Inv(s) && Shape(s) && s.pc.Idle? && s.claims == map[] && es != []
    ensures var z := Drive(Apply(s, StartReclaim), [], n);
            && z.pc.Idle? && (Enabled(z, Push(es)) <==> |Unclaimed(s)| + |es| <= s.max)
  {
    hide Inv, Unclaimed, SharedSize, Drive, Apply;
    n := QuietReclaim(s);
  }
}
