/** Whatever an operation of the owner or of a thief does, and whatever everyone else does in its gaps,
    guarded steps of the machine lead from the ring it finds to the ring it leaves. */
module SdcCalls {
  import opened Turns
  import opened TaskQueue
  import opened SdcModel
  import opened SdcInvariant
  import opened SdcSteps
  import opened SdcTheorems
  import opened SdcGaps
  import opened SdcRing

  /** Guarded steps from any state of the machine. */
  ghost predicate IsFragment(ss: seq<State>, acts: seq<Action>) {
    && |ss| == |acts| + 1
    && (forall i :: 0 <= i < |acts| ==>
      Enabled(ss[i], acts[i]) && Guarded(ss[i], acts[i]) && ss[i + 1] == Apply(ss[i], acts[i]))
  }

  /** Some guarded steps of the machine lead from `o`, which satisfies the invariant, to `s`. */
  ghost predicate Leads(o: State, s: State) {
    Inv(o) && exists ss, acts :: IsFragment(ss, acts) && ss[0] == o && ss[|acts|] == s
  }

  /** Some guarded run of the machine ends in `s`. */
  ghost predicate Reachable(s: State) {
    exists ss, acts :: IsRun(ss, acts) && ss[|acts|] == s
  }

  lemma StartsHere(o: State)
    requires Inv(o)
    ensures Leads(o, o)
  {
    hide Inv;
    assert IsFragment([o], []) && [o][0] == o;
  }

  lemma {:induction false} FragmentKeeps(ss: seq<State>, acts: seq<Action>)
    requires IsFragment(ss, acts) && Inv(ss[0])
    ensures Inv(ss[|acts|])
    decreases |acts|
  {
    hide Inv, Enabled, Apply, Guarded;
    if acts != [] {
      var k := |acts| - 1;
      assert IsFragment(ss[..k + 1], acts[..k]);
      FragmentKeeps(ss[..k + 1], acts[..k]);
      SdcSteps.StepKeeps(ss[k], acts[k]);
    }
  }

  lemma LedKeeps(o: State, s: State)
    requires Leads(o, s)
    ensures Inv(s) && Shape(s)
  {
    hide Inv;
    var ss, acts :| IsFragment(ss, acts) && ss[0] == o && ss[|acts|] == s;
    FragmentKeeps(ss, acts);
    InvParts(s);
  }

  lemma OneMoreReached(s: State, a: Action)
    requires Reachable(s) && Enabled(s, a) && Guarded(s, a)
    ensures Reachable(Apply(s, a))
  {
    hide Enabled, Apply, Init, Guarded;
    var ss, acts :| IsRun(ss, acts) && ss[|acts|] == s;
    var tt, next := ss + [Apply(s, a)], acts + [a];
    assert IsRun(tt, next) && tt[|next|] == Apply(s, a);
  }

  lemma {:induction false} FragmentReaches(ss: seq<State>, acts: seq<Action>)
    requires IsFragment(ss, acts) && Reachable(ss[0])
    ensures Reachable(ss[|acts|])
    decreases |acts|
  {
    hide Reachable, Enabled, Apply, Guarded;
    if acts != [] {
      var k := |acts| - 1;
      assert IsFragment(ss[..k + 1], acts[..k]);
      FragmentReaches(ss[..k + 1], acts[..k]);
      OneMoreReached(ss[k], acts[k]);
    }
  }

  /** So what follows a run is the end of a run. */
  lemma LeadsToReachable(o: State, s: State)
    requires Reachable(o) && Leads(o, s)
    ensures Reachable(s)
  {
    hide Reachable, Enabled, Apply, Guarded;
    var ss, acts :| IsFragment(ss, acts) && ss[0] == o && ss[|acts|] == s;
    FragmentReaches(ss, acts);
  }

  lemma StepLeads(o: State, s: State, a: Action)
    requires Leads(o, s) && (Enabled(s, a) ==> Guarded(s, a))
    ensures Leads(o, Step(s, a))
  {
    hide Enabled, Apply, Guarded, Inv;
    if Enabled(s, a) {
      var ss, acts :| IsFragment(ss, acts) && ss[0] == o && ss[|acts|] == s;
      var tt, next := ss + [Apply(s, a)], acts + [a];
      assert IsFragment(tt, next) && tt[0] == o && tt[|next|] == Apply(s, a);
    }
  }

  lemma {:induction false} OthersLead(o: State, s: State, me: Participant, steps: seq<Action>)
    requires Leads(o, s)
    ensures Leads(o, Others(s, me, steps))
    decreases |steps|
  {
    hide Leads, Enabled, Apply, Overfills, Inv;
    LedKeeps(o, s);
    if steps != [] {
      var a := steps[0];
      if Enabled(s, a) && Actor(a) != me && (a.Release? ==> !Overfills(s)) {
        StepLeads(o, s, a);
        OthersLead(o, Apply(s, a), me, steps[1..]);
      } else {
        OthersLead(o, s, me, steps[1..]);
      }
    }
  }

  // ---------------------------------------------------------------- the lock

  /** A participant that may start a call that takes the lock. */
  predicate Free(s: State, me: Participant) {
    match me
    case TheOwner => s.pc.Idle?
    case TheThief(t) => t !in s.thieves
  }

  lemma OthersLeaveFree(s: State, me: Participant, steps: seq<Action>)
    requires Inv(s) && Free(s, me)
    ensures Free(Others(s, me, steps), me)
  {
    hide Inv, Others;
    match me
    case TheOwner => OthersLeaveOwnersPart(s, steps);
    case TheThief(t) => OthersLeaveMyPart(s, steps, t);
  }

  lemma SwapLeads(o: State, s: State, me: Participant)
    requires Leads(o, s) && Free(s, me) && !s.lock
    ensures Leads(o, Swapped(s, me))
  {
    hide Leads, Inv;
    LedKeeps(o, s);
    match me
    case TheOwner => StepLeads(o, s, Swap);
    case TheThief(t) => StepLeads(o, s, ThiefSwap(t));
  }

  lemma {:induction false} LockLeads(o: State, s: State, me: Participant, turns: seq<seq<Action>>)
    requires Leads(o, s) && Free(s, me)
    ensures Leads(o, LockLoop(s, me, turns).0)
    decreases |turns|
  {
    hide Leads, Others, Free, Inv, Swapped;
    LedKeeps(o, s);
    if turns != [] {
      if !s.lock {
        SwapLeads(o, s, me);
      } else {
        OthersLead(o, s, me, turns[0]);
        OthersLeaveFree(s, me, turns[0]);
        LockLeads(o, Others(s, me, turns[0]), me, turns[1..]);
      }
    }
  }

  lemma FoundLeads(o: State, s: State, me: Participant, turns: seq<seq<Action>>, gap: seq<Action>)
    requires Leads(o, s) && Free(s, me)
    ensures Leads(o, Found(s, me, turns, gap))
  {
    hide Leads, Others, Free, LockLoop;
    LockLeads(o, s, me, turns);
    OthersLead(o, LockLoop(s, me, turns).0, me, gap);
  }

  // ---------------------------------------------------------------- a thief

  lemma {:induction false} CopyLeads(o: State, s: State, me: nat, n: nat, gaps: seq<seq<Action>>, gap: nat)
    requires Leads(o, s)
    ensures Leads(o, CopyCall(s, me, n, gaps, gap))
    decreases n
  {
    hide Leads, Step, Others;
    if n > 0 {
      CopyLeads(o, s, me, n - 1, gaps, gap);
      var z := CopyCall(s, me, n - 1, gaps, gap);
      OthersLead(o, z, TheThief(me), Turn(gaps, gap + n - 1));
      StepLeads(o, Others(z, TheThief(me), Turn(gaps, gap + n - 1)), Copy(me, n - 1));
    }
  }

  lemma TakeLeads(o: State, s: State, me: nat, n: nat, gaps: seq<seq<Action>>)
    requires Leads(o, s)
    ensures Leads(o, TakeCall(s, me, n, gaps))
  {
    hide Leads, Step, Others, CopyCall;
    StepLeads(o, s, Reserve(me));
    var s1 := Others(Step(s, Reserve(me)), TheThief(me), Turn(gaps, 2));
    OthersLead(o, Step(s, Reserve(me)), TheThief(me), Turn(gaps, 2));
    StepLeads(o, s1, ThiefUnlock(me));
    var s2 := ReserveCall(s, me, Turn(gaps, 2));
    CopyLeads(o, s2, me, n, gaps, 3);
    OthersLead(o, CopyCall(s2, me, n, gaps, 3), TheThief(me), Turn(gaps, 3 + n));
    StepLeads(o, Others(CopyCall(s2, me, n, gaps, 3), TheThief(me), Turn(gaps, 3 + n)), Finish(me));
  }

  /** A whole steal, from the first swap to the report. */
  lemma StealLeads(o: State, s: State, me: nat, want: nat, volume: Volume, turns: seq<seq<Action>>, gaps: seq<seq<Action>>)
    requires Leads(o, s) && me !in s.thieves
    ensures Leads(o, StealCall(s, me, want, volume, turns, gaps))
  {
    hide Leads, Step, Others, LockLoop, TakeCall, Found;
    LockLeads(o, s, TheThief(me), turns);
    if LockLoop(s, TheThief(me), turns).1 {
      var looked := Found(s, TheThief(me), turns, Turn(gaps, 0));
      FoundLeads(o, s, TheThief(me), turns, Turn(gaps, 0));
      StepLeads(o, looked, Look(me, want, volume));
      OthersLead(o, Step(looked, Look(me, want, volume)), TheThief(me), Turn(gaps, 1));
      var seen := LookCall(s, me, want, volume, turns, gaps);
      if me in seen.thieves && seen.thieves[me].Seen? {
        TakeLeads(o, seen, me, seen.thieves[me].n, gaps);
      }
      StepLeads(o, seen, ThiefUnlock(me));
    }
  }

  // ---------------------------------------------------------------- the owner

  lemma UnlockLeads(o: State, s: State)
    requires Leads(o, s) && s.pc.Leaving?
    ensures Leads(o, Unlocked(s))
  {
    hide Leads, Inv;
    LedKeeps(o, s);
    StepLeads(o, s, SdcModel.Unlock);
  }

  lemma ReclaimLeads(o: State, s: State, turn: seq<Action>)
    requires Leads(o, s) && (s.pc.Idle? || s.pc.Waiting?)
    ensures Leads(o, ReclaimCall(s, turn))
  {
    hide Leads, Others, Inv, DoReadItail, DoReadTail;
    LedKeeps(o, s);
    StepLeads(o, s, ReadItail);
    OthersLead(o, DoReadItail(s), TheOwner, turn);
    var s1 := Others(DoReadItail(s), TheOwner, turn);
    LedKeeps(o, s1);
    StepLeads(o, s1, ReadTail);
  }

  /** A reacquire that obtains the lock. */
  lemma ReacquireLeads(o: State, s: State, turns: seq<seq<Action>>, gaps: seq<seq<Action>>)
    requires Leads(o, s) && s.pc.Idle? && LockLoop(s, TheOwner, turns).1
    ensures Leads(o, Reacquired(Found(s, TheOwner, turns, Turn(gaps, 0)), Turn(gaps, 1)))
  {
    hide Leads, Others, Inv, LockLoop, Step, Found;
    FoundLeads(o, s, TheOwner, turns, Turn(gaps, 0));
    var found := Found(s, TheOwner, turns, Turn(gaps, 0));
    FoundLocked(o, s, turns, Turn(gaps, 0));
    LedKeeps(o, found);
    StepLeads(o, found, SdcModel.Reacquire);
    var z := Step(found, SdcModel.Reacquire);
    LeavesOnReacquire(found);
    OthersLead(o, z, TheOwner, Turn(gaps, 1));
    LedKeeps(o, z);
    OthersLeaveOwnersPart(z, Turn(gaps, 1));
    UnlockLeads(o, Others(z, TheOwner, Turn(gaps, 1)));
  }

  lemma LeavesOnReacquire(s: State)
    requires Shape(s) && s.pc.Locked?
    ensures Step(s, SdcModel.Reacquire).pc.Leaving?
  {
  }

  predicate SameSizes(s: State, z: State) {
    z.max == s.max && z.vtail == s.vtail && z.split == s.split && z.nlocal == s.nlocal
  }

  lemma {:induction false} LockIsHeld(o: State, s: State, turns: seq<seq<Action>>)
    requires Leads(o, s) && s.pc.Idle? && LockLoop(s, TheOwner, turns).1
    ensures LockLoop(s, TheOwner, turns).0.pc.Locked? && SameSizes(s, LockLoop(s, TheOwner, turns).0)
    decreases |turns|
  {
    hide Leads, Others, Inv;
    if s.lock {
      LedKeeps(o, s);
      OthersLead(o, s, TheOwner, turns[0]);
      OthersLeaveOwnersPart(s, turns[0]);
      LockIsHeld(o, Others(s, TheOwner, turns[0]), turns[1..]);
    }
  }

  lemma FoundLocked(o: State, s: State, turns: seq<seq<Action>>, gap: seq<Action>)
    requires Leads(o, s) && s.pc.Idle? && LockLoop(s, TheOwner, turns).1
    ensures Found(s, TheOwner, turns, gap).pc.Locked? && SameSizes(s, Found(s, TheOwner, turns, gap))
  {
    hide Leads, Others, Inv, LockLoop;
    LockIsHeld(o, s, turns);
    LockLeads(o, s, TheOwner, turns);
    LedKeeps(o, LockLoop(s, TheOwner, turns).0);
    OthersLeaveOwnersPart(LockLoop(s, TheOwner, turns).0, gap);
  }

  lemma {:induction false} WaitLeads(o: State, s: State, turns: seq<seq<Action>>)
    requires Leads(o, s)
    ensures Leads(o, WaitLoop(s, turns).0)
    ensures WaitLoop(s, turns).1 ==> WaitLoop(s, turns).0.pc.Leaving?
    decreases |turns|
  {
    hide Leads, Others, Inv, ReclaimCall;
    if turns != [] && s.pc.Waiting? {
      ReclaimLeads(o, s, turns[0]);
      var z := ReclaimCall(s, turns[0]);
      if !z.pc.Leaving? {
        OthersLead(o, z, TheOwner, Turn(turns, 1));
        WaitLeads(o, Others(z, TheOwner, Turn(turns, 1)), if |turns| > 1 then turns[2..] else []);
      }
    }
  }

  /** `ensure_space`, however it ends. */
  lemma EnsureLeads(o: State, s: State, n: nat, turns: seq<seq<Action>>, gaps: seq<seq<Action>>)
    requires Leads(o, s) && s.pc.Idle?
    ensures Leads(o, EnsureCall(s, n, turns, gaps).0)
  {
    hide Leads, Others, Inv, LockLoop, WaitLoop, Found, Unlocked, HasRoom, EverFits;
    LockLeads(o, s, TheOwner, turns);
    if !HasRoom(s, n) && LockLoop(s, TheOwner, turns).1 {
      var found := Found(s, TheOwner, turns, Turn(gaps, 0));
      FoundLeads(o, s, TheOwner, turns, Turn(gaps, 0));
      FoundLocked(o, s, turns, Turn(gaps, 0));
      if EverFits(found, n) {
        EnsureSteps(o, s, turns, gaps, n);
        var rest := LockLoop(s, TheOwner, turns).2;
        WaitLeads(o, found.(pc := Waiting(n)), rest);
        var (z, left) := WaitLoop(found.(pc := Waiting(n)), rest);
        if left {
          OthersLead(o, z, TheOwner, Turn(gaps, 1));
          LedKeeps(o, z);
          OthersLeaveOwnersPart(z, Turn(gaps, 1));
          UnlockLeads(o, Others(z, TheOwner, Turn(gaps, 1)));
        }
      }
    }
  }

  lemma EnsureSteps(o: State, s: State, turns: seq<seq<Action>>, gaps: seq<seq<Action>>, n: nat)
    requires Leads(o, s) && s.pc.Idle? && LockLoop(s, TheOwner, turns).1 && !HasRoom(s, n)
    requires EverFits(Found(s, TheOwner, turns, Turn(gaps, 0)), n)
    ensures Leads(o, Found(s, TheOwner, turns, Turn(gaps, 0)).(pc := Waiting(n)))
  {
    hide Leads, Others, Inv, LockLoop, Found;
    var found := Found(s, TheOwner, turns, Turn(gaps, 0));
    FoundLeads(o, s, TheOwner, turns, Turn(gaps, 0));
    FoundLocked(o, s, turns, Turn(gaps, 0));
    LedKeeps(o, s);
    LedKeeps(o, found);
    StepLeads(o, found, Ensure(n));
  }

  // ---------------------------------------------------------------- gaps

  /** Steps from any state of the machine, none of them by `me` and none an overfilling release. */
  ghost predicate WithoutMe(ss: seq<State>, acts: seq<Action>, me: Participant) {
    && |ss| == |acts| + 1
    && (forall i :: 0 <= i < |acts| ==>
      Enabled(ss[i], acts[i]) && Guarded(ss[i], acts[i]) && Actor(acts[i]) != me && ss[i + 1] == Apply(ss[i], acts[i]))
  }

  /** Whatever the others can do, they can do it in a gap. */
  lemma {:induction false} AnyGap(ss: seq<State>, acts: seq<Action>, me: Participant)
    requires WithoutMe(ss, acts, me)
    ensures Others(ss[0], me, acts) == ss[|acts|]
    decreases |acts|
  {
    hide Apply, Actor, Overfills;
    if acts != [] {
      var s, a := ss[0], acts[0];
      assert Enabled(s, a);
      assert Shape(s) && (a.Release? ==> !Overfills(s)) && ss[1] == Apply(s, a);
      hide Enabled;
      AnyGap(ss[1..], acts[1..], me);
    }
  }
}
