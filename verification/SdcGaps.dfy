/** What happens in the gaps between the owner's or a thief's accesses to the split deferred-copy ring,
    and what the operations leave as functions of the ring they find and of their gaps; when the lock
    is obtained and when the wait for space ends, whatever those gaps hold. */
module SdcGaps {
  import opened Turns
  import opened RingArith
  import opened RingSlots
  import opened TaskQueue
  import opened SdcModel
  import opened SdcInvariant
  import opened SdcSteps
  import opened SdcTheorems

  function Actor(a: Action): Participant {
    match a
    case ThiefSwap(t) => TheThief(t)
    case Look(t, _, _) => TheThief(t)
    case Reserve(t) => TheThief(t)
    case ThiefUnlock(t) => TheThief(t)
    case Copy(t, _) => TheThief(t)
    case Finish(t) => TheThief(t)
    case _ => TheOwner
  }

  /** What everyone but `me` does: the possible ones among `steps`, none of them an overfilling
      release. */
  function Others(s: State, me: Participant, steps: seq<Action>): State
    decreases |steps|
  {
    if steps == [] then s
    else
      var a := steps[0];
      var s1 := if Enabled(s, a) && Actor(a) != me && (a.Release? ==> !Overfills(s)) then Apply(s, a) else s;
      Others(s1, me, steps[1..])
  }

  lemma {:induction false} OthersKeep(s: State, me: Participant, steps: seq<Action>)
    requires Inv(s)
    ensures Inv(Others(s, me, steps))
    decreases |steps|
  {
    hide Inv, Enabled, Apply, Overfills;
    if steps != [] {
      var a := steps[0];
      assert Shape(s) by { InvParts(s); }
      if Enabled(s, a) && Actor(a) != me && (a.Release? ==> !Overfills(s)) {
        StepKeeps(s, a);
        OthersKeep(Apply(s, a), me, steps[1..]);
      } else {
        OthersKeep(s, me, steps[1..]);
      }
    }
  }

  /** What thieves cannot touch. */
  ghost predicate OwnersPart(s: State, s': State) {
    && s'.max == s.max && s'.q == s.q && s'.vtail == s.vtail && s'.split == s.split && s'.nlocal == s.nlocal
    && s'.pc == s.pc && s'.aVtail == s.aVtail && s'.aSplit == s.aSplit
    && (OwnerHolds(s.pc) ==> s'.tail == s.tail && s'.aTail == s.aTail && s'.lock == s.lock && s'.holder == s.holder)
  }

  lemma ThiefLeavesOwnersPart(s: State, a: Action)
    requires Inv(s) && Enabled(s, a) && Actor(a) != TheOwner
    ensures OwnersPart(s, Apply(s, a))
  {
    InvParts(s);
    if OwnerHolds(s.pc) {
      NoSeenThief(s);
    }
    hide Inv, Thieves, Geometry, PcOk, Tiled, Lags, Slots, StealSlot, StealSize;
  }

  lemma {:induction false} OthersLeaveOwnersPart(s: State, steps: seq<Action>)
    requires Inv(s)
    ensures OwnersPart(s, Others(s, TheOwner, steps))
    decreases |steps|
  {
    hide Inv, Enabled, Apply, Overfills;
    if steps != [] {
      var a := steps[0];
      assert Shape(s) by { InvParts(s); }
      if Enabled(s, a) && Actor(a) != TheOwner {
        StepKeeps(s, a);
        ThiefLeavesOwnersPart(s, a);
        OthersLeaveOwnersPart(Apply(s, a), steps[1..]);
      } else {
        OthersLeaveOwnersPart(s, steps[1..]);
      }
    }
  }

  /** What others cannot change about thief `me`. */
  ghost predicate MyPart(s: State, s': State, me: nat) {
    && s'.max == s.max
    && (me in s.thieves <==> me in s'.thieves)
    && (me in s.thieves ==> s'.thieves[me] == s.thieves[me])
    && (me in s.thieves && ThiefHolds(s.thieves[me]) ==> s'.tail == s.tail && s'.aTail == s.aTail && s'.lock == s.lock)
  }

  lemma OtherLeavesMyPart(s: State, a: Action, me: nat)
    requires Inv(s) && Enabled(s, a) && Actor(a) != TheThief(me)
    ensures MyPart(s, Apply(s, a), me)
  {
    InvParts(s);
    hide Inv, Thieves, Geometry, PcOk, Tiled, Lags, Slots, Written, StealSlot, StealSize, SharedSize, PublicSize,
      PendingSize, PendingWraps;
  }

  lemma {:induction false} OthersLeaveMyPart(s: State, steps: seq<Action>, me: nat)
    requires Inv(s)
    ensures MyPart(s, Others(s, TheThief(me), steps), me)
    decreases |steps|
  {
    hide Inv, Enabled, Apply, Overfills;
    if steps != [] {
      var a := steps[0];
      assert Shape(s) by { InvParts(s); }
      if Enabled(s, a) && Actor(a) != TheThief(me) && (a.Release? ==> !Overfills(s)) {
        StepKeeps(s, a);
        OtherLeavesMyPart(s, a, me);
        OthersLeaveMyPart(Apply(s, a), steps[1..], me);
      } else {
        OthersLeaveMyPart(s, steps[1..], me);
      }
    }
  }

  /** A call of `reclaim_space` with the thieves' turn between its two reads. */
  function ReclaimCall(s: State, turn: seq<Action>): State
    requires s.pc.Idle? || s.pc.Waiting?
  {
    var s1 := Others(DoReadItail(s), TheOwner, turn);
    if s1.pc.Reclaiming? || s1.pc.WaitingRead? then DoReadTail(s1) else s1
  }

  // ---------------------------------------------------------------- calls as functions of their gaps

  /** A step that is passed over if it is not possible. */
  function Step(s: State, a: Action): State {
    if Enabled(s, a) then Apply(s, a) else s
  }

  function Swapped(s: State, me: Participant): State {
    match me
    case TheOwner => s.(lock := true, pc := Locked, holder := Owner)
    case TheThief(t) => s.(lock := true, thieves := s.thieves[t := Locking], holder := Holding(t))
  }

  /** The swap loop: the ring when it ends, whether with the lock, and the turns not used. */
  function LockLoop(s: State, me: Participant, turns: seq<seq<Action>>): (State, bool, seq<seq<Action>>)
    decreases |turns|
  {
    if turns == [] then (s, false, [])
    else if !s.lock then (Swapped(s, me), true, turns)
    else LockLoop(Others(s, me, turns[0]), me, turns[1..])
  }

  /** The ring as it is found under the lock. */
  function Found(s: State, me: Participant, turns: seq<seq<Action>>, gap: seq<Action>): State {
    Others(LockLoop(s, me, turns).0, me, gap)
  }

  function Unlocked(s: State): State {
    s.(lock := false, pc := Idle, holder := Nobody)
  }

  function HeadTaken(s: State): State {
    s.(nlocal := if s.nlocal > 0 then s.nlocal - 1 else 0)
  }

  function Reacquired(s: State, gap: seq<Action>): State {
    Unlocked(Others(Step(s, SdcModel.Reacquire), TheOwner, gap))
  }

  /** The busy-wait, with the lock held: the ring when it ends, and whether with room.  The turns
      alternate between the two reads of a round and the gap before the next round. */
  function WaitLoop(s: State, turns: seq<seq<Action>>): (State, bool)
    decreases |turns|
  {
    if turns == [] || !s.pc.Waiting? then (s, false)
    else
      var z := ReclaimCall(s, turns[0]);
      if z.pc.Leaving? then (z, true)
      else WaitLoop(Others(z, TheOwner, Turn(turns, 1)), if |turns| > 1 then turns[2..] else [])
  }

  /** How `ensure_space` ends: with room, with the error exit, or not yet. */
  datatype Space = Room | TooFull | StillWaiting

  predicate HasRoom(s: State, n: nat) {
    Shape(s) && s.nlocal + PublicSize(s) + n <= s.max
  }

  predicate EverFits(s: State, n: nat) {
    Shape(s) && Size(s) + n <= s.max
  }

  function EnsureCall(s: State, n: nat, turns: seq<seq<Action>>, gaps: seq<seq<Action>>): (State, Space) {
    if HasRoom(s, n) then (s, Room)
    else
      var (_, got, rest) := LockLoop(s, TheOwner, turns);
      if !got then (LockLoop(s, TheOwner, turns).0, StillWaiting)
      else
        var found := Found(s, TheOwner, turns, Turn(gaps, 0));
        if !EverFits(found, n) then (found, TooFull)
        else
          var (z, left) := WaitLoop(found.(pc := Waiting(n)), rest);
          if left then (Unlocked(Others(z, TheOwner, Turn(gaps, 1))), Room) else (z, StillWaiting)
  }

  /** After the first `n` tasks of the block are copied, task `i` in the wake of gap `gap + i`. */
  function CopyCall(s: State, me: nat, n: nat, gaps: seq<seq<Action>>, gap: nat): State {
    if n == 0 then s
    else Step(Others(CopyCall(s, me, n - 1, gaps, gap), TheThief(me), Turn(gaps, gap + n - 1)), Copy(me, n - 1))
  }

  /** Reserve and unlock. */
  function ReserveCall(s: State, me: nat, gap: seq<Action>): State {
    Step(Others(Step(s, Reserve(me)), TheThief(me), gap), ThiefUnlock(me))
  }

  /** Reserve, unlock, copy, report. */
  function TakeCall(s: State, me: nat, n: nat, gaps: seq<seq<Action>>): State {
    Step(Others(CopyCall(ReserveCall(s, me, Turn(gaps, 2)), me, n, gaps, 3), TheThief(me), Turn(gaps, 3 + n)), Finish(me))
  }

  /** The ring between the copy of the metadata and what follows it. */
  function LookCall(s: State, me: nat, want: nat, volume: Volume, turns: seq<seq<Action>>, gaps: seq<seq<Action>>): State {
    Others(Step(Found(s, TheThief(me), turns, Turn(gaps, 0)), Look(me, want, volume)), TheThief(me), Turn(gaps, 1))
  }

  /** A whole steal, and what everyone else does in its gaps. */
  function StealCall(s: State, me: nat, want: nat, volume: Volume, turns: seq<seq<Action>>, gaps: seq<seq<Action>>): State {
    var (z, got, _) := LockLoop(s, TheThief(me), turns);
    if !got then z
    else
      var seen := LookCall(s, me, want, volume, turns, gaps);
      if me in seen.thieves && seen.thieves[me].Seen? then TakeCall(seen, me, seen.thieves[me].n, gaps)
      else Step(seen, ThiefUnlock(me))
  }

  // ---------------------------------------------------------------- when the lock is obtained

  /** The ring after the first `k` turns. */
  function After(s: State, me: Participant, turns: seq<seq<Action>>, k: nat): State
    requires k <= |turns|
  {
    if k == 0 then s else Others(After(s, me, turns, k - 1), me, turns[k - 1])
  }

  /** At one of the tries the lock is free. */
  ghost predicate EverFree(s: State, me: Participant, turns: seq<seq<Action>>) {
    exists k: nat :: k < |turns| && !After(s, me, turns, k).lock
  }

  lemma {:induction false} AfterFront(s: State, me: Participant, turns: seq<seq<Action>>, k: nat)
    requires 0 < k <= |turns|
    ensures After(s, me, turns, k) == After(Others(s, me, turns[0]), me, turns[1..], k - 1)
    decreases k
  {
    hide Others;
    if k > 1 {
      AfterFront(s, me, turns, k - 1);
    } else {
      assert After(s, me, turns, 0) == s;
    }
  }

  /** How the swap loop ends: with the lock, at the first try that finds it free and with the turns from
      there on left; without it, and with no turn left, if there is no such try. */
  ghost predicate LockEnds(s: State, me: Participant, turns: seq<seq<Action>>, z: State, got: bool, rest: seq<seq<Action>>) {
    if got then
      exists k: nat :: k < |turns| && !After(s, me, turns, k).lock && (forall j: nat :: j < k ==> After(s, me, turns, j).lock)
                       && z == Swapped(After(s, me, turns, k), me) && rest == turns[k..]
    else
      z == After(s, me, turns, |turns|) && rest == [] && forall k: nat :: k < |turns| ==> After(s, me, turns, k).lock
  }

  lemma {:induction false} LockLoopEnds(s: State, me: Participant, turns: seq<seq<Action>>)
    ensures var (z, got, rest) := LockLoop(s, me, turns);
            LockEnds(s, me, turns, z, got, rest) && (got <==> EverFree(s, me, turns))
    decreases |turns|
  {
    hide Others, Swapped;
    var (z, got, rest) := LockLoop(s, me, turns);
    if turns == [] {
      assert After(s, me, turns, 0) == s;
    } else if !s.lock {
      assert !After(s, me, turns, 0).lock && turns[0..] == turns;
    } else {
      var s1, later := Others(s, me, turns[0]), turns[1..];
      LockLoopEnds(s1, me, later);
      forall k: nat | 0 < k <= |turns|
        ensures After(s, me, turns, k) == After(s1, me, later, k - 1)
      {
        AfterFront(s, me, turns, k);
      }
      LockEndsFront(s, me, turns, z, got, rest);
    }
  }

  lemma LockEndsFront(s: State, me: Participant, turns: seq<seq<Action>>, z: State, got: bool, rest: seq<seq<Action>>)
    requires turns != [] && s.lock
    requires forall k: nat :: 0 < k <= |turns| ==> After(s, me, turns, k) == After(Others(s, me, turns[0]), me, turns[1..], k - 1)
    requires LockEnds(Others(s, me, turns[0]), me, turns[1..], z, got, rest)
    ensures LockEnds(s, me, turns, z, got, rest) && (got <==> EverFree(s, me, turns))
  {
    hide Others, Swapped;
    var s1, later := Others(s, me, turns[0]), turns[1..];
    assert After(s, me, turns, 0) == s by { AfterNone(s, me, turns); }
    hide After;
    if got {
      var k: nat :| k < |later| && !After(s1, me, later, k).lock && (forall j: nat :: j < k ==> After(s1, me, later, j).lock)
                    && z == Swapped(After(s1, me, later, k), me) && rest == later[k..];
      assert After(s, me, turns, k + 1) == After(s1, me, later, k) && turns[k + 1..] == later[k..];
      forall j: nat | j < k + 1
        ensures After(s, me, turns, j).lock
      {
        if j > 0 {
          assert After(s, me, turns, j) == After(s1, me, later, j - 1);
        }
      }
    } else {
      assert After(s, me, turns, |turns|) == After(s1, me, later, |later|);
      forall k: nat | k < |turns|
        ensures After(s, me, turns, k).lock
      {
        if k > 0 {
          assert After(s, me, turns, k) == After(s1, me, later, k - 1);
        }
      }
    }
  }

  lemma AfterNone(s: State, me: Participant, turns: seq<seq<Action>>)
    ensures After(s, me, turns, 0) == s
  {
  }

  // ---------------------------------------------------------------- when the wait for space ends

  /** The ring at the beginning of round `k` of the wait, if there was no room before. */
  function RoundAt(s: State, turns: seq<seq<Action>>, k: nat): State {
    if k == 0 then s
    else
      var b := RoundAt(s, turns, k - 1);
      var z := if b.pc.Waiting? then ReclaimCall(b, Turn(turns, 2 * k - 2)) else b;
      Others(z, TheOwner, Turn(turns, 2 * k - 1))
  }

  ghost predicate NobodyStealing(s: State) {
    forall t :: !Stealing(s, t)
  }

  /** Some round begins with no steal pending. */
  ghost predicate EverQuiet(s: State, turns: seq<seq<Action>>) {
    exists k: nat :: 2 * k < |turns| && NobodyStealing(RoundAt(s, turns, k))
  }

  /** A round ends the wait exactly if no steal is pending when it begins. */
  lemma RoundLeaves(s: State, turn: seq<Action>)
    requires Inv(s) && s.pc.Waiting?
    ensures Inv(ReclaimCall(s, turn))
    ensures ReclaimCall(s, turn).pc == if s.itail == s.tail then Leaving else s.pc
    ensures s.itail == s.tail <==> NobodyStealing(s)
  {
    hide Inv, Others, PendingSize, PendingWraps;
    ItailMeetsTail(s);
    assert Shape(s) by { InvParts(s); }
    ReadItailKeeps(s);
    var s1 := DoReadItail(s);
    OthersKeep(s1, TheOwner, turn);
    OthersLeaveOwnersPart(s1, turn);
    var y := Others(s1, TheOwner, turn);
    ReadTailKeeps(y);
    StillToReclaim(y);
  }

  lemma StillToReclaim(s: State)
    requires Inv(s) && s.pc.WaitingRead?
    ensures s.vtail != s.tail
  {
    InvParts(s);
    hide Inv, Thieves, LockOk, Tiled, Lags;
    SlotsDiffer(s.aVtail, s.aTail, s.max);
  }

  lemma {:induction false} RoundFront(s: State, turns: seq<seq<Action>>, k: nat)
    requires s.pc.Waiting? && turns != [] && k > 0
    ensures var z := Others(ReclaimCall(s, turns[0]), TheOwner, Turn(turns, 1));
            RoundAt(s, turns, k) == RoundAt(z, if |turns| > 1 then turns[2..] else [], k - 1)
    decreases k
  {
    hide Others, ReclaimCall;
    var later := if |turns| > 1 then turns[2..] else [];
    if k > 1 {
      RoundFront(s, turns, k - 1);
      assert Turn(turns, 2 * k - 2) == Turn(later, 2 * (k - 1) - 2);
      assert Turn(turns, 2 * k - 1) == Turn(later, 2 * (k - 1) - 1);
    } else {
      assert RoundAt(s, turns, 0) == s;
    }
  }

  /** The wait ends with room if and only if some round begins with no steal pending. */
  lemma {:induction false} WaitLoopEnds(s: State, turns: seq<seq<Action>>)
    requires Inv(s) && s.pc.Waiting?
    ensures WaitLoop(s, turns).1 <==> EverQuiet(s, turns)
    decreases |turns|
  {
    hide Inv, Others, ReclaimCall, NobodyStealing;
    if turns != [] {
      assert RoundAt(s, turns, 0) == s;
      RoundLeaves(s, turns[0]);
      var z := ReclaimCall(s, turns[0]);
      if z.pc.Leaving? {
        assert 2 * 0 < |turns| && NobodyStealing(RoundAt(s, turns, 0));
      } else {
        var y, later := Others(z, TheOwner, Turn(turns, 1)), if |turns| > 1 then turns[2..] else [];
        OthersKeep(z, TheOwner, Turn(turns, 1));
        OthersLeaveOwnersPart(z, Turn(turns, 1));
        WaitLoopEnds(y, later);
        QuietFront(s, turns, y, later);
      }
    }
  }

  lemma QuietFront(s: State, turns: seq<seq<Action>>, y: State, later: seq<seq<Action>>)
    requires s.pc.Waiting? && turns != [] && !NobodyStealing(s)
    requires y == Others(ReclaimCall(s, turns[0]), TheOwner, Turn(turns, 1))
    requires later == if |turns| > 1 then turns[2..] else []
    ensures EverQuiet(s, turns) <==> EverQuiet(y, later)
  {
    hide Others, ReclaimCall, NobodyStealing;
    assert RoundAt(s, turns, 0) == s;
    forall k: nat | k > 0
      ensures RoundAt(s, turns, k) == RoundAt(y, later, k - 1)
    {
      RoundFront(s, turns, k);
    }
    hide RoundAt;
    if EverQuiet(s, turns) {
      var k: nat :| 2 * k < |turns| && NobodyStealing(RoundAt(s, turns, k));
      assert k > 0;
      assert 2 * (k - 1) < |later| && NobodyStealing(RoundAt(y, later, k - 1));
    }
    if EverQuiet(y, later) {
      var k: nat :| 2 * k < |later| && NobodyStealing(RoundAt(y, later, k));
      assert 2 * (k + 1) < |turns| && NobodyStealing(RoundAt(s, turns, k + 1));
    }
  }

  // ---------------------------------------------------------------- how ensure_space ends

  /** With room on entry nothing happens.  Otherwise it never got the lock, or the ring found under the
      lock is too full even for a full reclaim, or it is known whether some round of the wait begins
      with no steal pending. */
  ghost predicate EnsureEnds(s: State, n: nat, turns: seq<seq<Action>>, gaps: seq<seq<Action>>, z: State, r: Space)
    requires Shape(s)
  {
    if s.nlocal + PublicSize(s) + n <= s.max then r == Room && z == s
    else if !EverFree(s, TheOwner, turns) then r == StillWaiting && z == After(s, TheOwner, turns, |turns|)
    else
      var found, rest := Found(s, TheOwner, turns, Turn(gaps, 0)), LockLoop(s, TheOwner, turns).2;
      && Shape(found)
      && if found.nlocal + SharedSize(found) + n > s.max then r == TooFull && z == found
         else r == if EverQuiet(found.(pc := Waiting(n)), rest) then Room else StillWaiting
  }

  predicate SameOwner(s: State, z: State) {
    z.max == s.max && z.vtail == s.vtail && z.split == s.split && z.nlocal == s.nlocal
  }

  lemma {:induction false} OwnerLocks(s: State, turns: seq<seq<Action>>)
    requires Inv(s) && s.pc.Idle?
    ensures var (z, got, _) := LockLoop(s, TheOwner, turns);
            Inv(z) && SameOwner(s, z) && z.pc == if got then Locked else Idle
    decreases |turns|
  {
    hide Inv, Others;
    assert Shape(s) by { InvParts(s); }
    if turns != [] {
      if !s.lock {
        SwapKeeps(s);
      } else {
        OthersKeep(s, TheOwner, turns[0]);
        OthersLeaveOwnersPart(s, turns[0]);
        OwnerLocks(Others(s, TheOwner, turns[0]), turns[1..]);
      }
    }
  }

  lemma OwnerFinds(s: State, turns: seq<seq<Action>>, gap: seq<Action>)
    requires Inv(s) && s.pc.Idle? && LockLoop(s, TheOwner, turns).1
    ensures var z := Found(s, TheOwner, turns, gap); Inv(z) && Shape(z) && SameOwner(s, z) && z.pc.Locked?
  {
    hide Inv, Others, LockLoop;
    OwnerLocks(s, turns);
    OthersKeep(LockLoop(s, TheOwner, turns).0, TheOwner, gap);
    OthersLeaveOwnersPart(LockLoop(s, TheOwner, turns).0, gap);
    InvParts(Found(s, TheOwner, turns, gap));
  }

  lemma EnsureCallEnds(s: State, n: nat, turns: seq<seq<Action>>, gaps: seq<seq<Action>>)
    requires Inv(s) && s.pc.Idle?
    ensures var (z, r) := EnsureCall(s, n, turns, gaps); Shape(s) && EnsureEnds(s, n, turns, gaps, z, r)
  {
    hide Inv, Others, LockLoop, WaitLoop, Found, PublicSize, SharedSize, EverFree, EverQuiet, After, Unlocked;
    assert Shape(s) by { InvParts(s); }
    LockLoopEnds(s, TheOwner, turns);
    if !HasRoom(s, n) && LockLoop(s, TheOwner, turns).1 {
      var found := Found(s, TheOwner, turns, Turn(gaps, 0));
      OwnerFinds(s, turns, Turn(gaps, 0));
      if EverFits(found, n) {
        SameRoom(s, found, n);
        EnsureKeeps(found, n);
        WaitLoopEnds(found.(pc := Waiting(n)), LockLoop(s, TheOwner, turns).2);
      }
    }
  }

  lemma SameRoom(s: State, z: State, n: nat)
    requires Shape(s) && Shape(z) && SameOwner(s, z) && z.pc.Locked? && !HasRoom(s, n) && EverFits(z, n)
    ensures Enabled(z, Ensure(n))
  {
    hide SharedSize;
  }

  // ---------------------------------------------------------------- how much a steal takes

  /** `n` tasks are what a steal of `volume` takes out of `shared` when `want` are asked for: no more
      than that, and no more than half of what is shared, rounded up, or all of it. */
  predicate Takes(n: nat, shared: nat, want: nat, volume: Volume) {
    && n <= want && n <= shared
    && match volume
       case StealHalf => 2 * n <= shared + 1 && (n == want || 2 * n >= shared)
       case StealAll => n == want || n == shared
       case StealChunk => n == want || n == shared
  }

  /** What is shared is the queue less the local tasks. */
  lemma StealTakes(s: State, want: nat, volume: Volume)
    requires Inv(s)
    ensures Shape(s) && s.nlocal <= |Abs(s).deque|
    ensures Takes(StealSize(SharedSize(s), want, volume), |Abs(s).deque| - s.nlocal, want, volume)
  {
    InvParts(s);
    SizesExact(s);
    hide Inv, Thieves, LockOk, PcOk, Tiled, Lags, SharedSize, PublicSize;
  }

  /** A steal of half leaves half, rounded down, if enough was asked for. */
  lemma HalfStays(n: nat, shared: nat, want: nat)
    ensures Takes(n, shared, want, StealHalf) && want >= shared ==> shared - n == shared / 2
  {
  }

  // ---------------------------------------------------------------- what a reclaim frees

  /** With nobody in between, a reclaim frees all that has been stolen if and only if no steal is
      pending; otherwise it frees nothing. */
  lemma ReclaimFreesIff(s: State)
    requires Inv(s) && s.pc.Idle? && s.vtail != s.tail
    ensures var z := ReclaimCall(s, []);
            && Shape(s) && Shape(z) && z.pc.Idle? && z.tail == s.tail && z.vtail == (if NobodyStealing(s) then s.tail else s.vtail)
            && (NobodyStealing(s) ==> PublicSize(z) == SharedSize(z))
  {
    hide Inv, PendingSize, PendingWraps, NobodyStealing;
    InvParts(s);
    ItailMeetsTail(s);
    assert (s.itail == s.tail) == NobodyStealing(s) by { NobodyIs(s); }
  }

  lemma NobodyIs(s: State)
    ensures NobodyStealing(s) <==> forall t :: !Stealing(s, t)
  {
  }

  // ---------------------------------------------------------------- how much a reacquire takes back

  /** Of what is shared beyond the local tasks the owner takes back half, rounded up. */
  predicate TakesBack(local: nat, after: nat, all: nat) {
    var beyond := all - 2 * local;
    if beyond > 0 then local < after && beyond <= 2 * (after - local) <= beyond + 1 else after == local
  }

  lemma ReacquireTakes(s: State)
    requires Inv(s)
    ensures Shape(s) && TakesBack(s.nlocal, DoReacquire(s).nlocal, |Abs(s).deque|)
  {
    InvParts(s);
    SizesExact(s);
    hide Inv, Thieves, LockOk, PcOk, Tiled, Lags, SharedSize, PublicSize;
  }
}
