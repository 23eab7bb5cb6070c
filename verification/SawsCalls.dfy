/** Whatever an operation of the owner or of a thief does, and whatever everyone else does in its gaps,
    steps of the machine lead from the ring it finds to the ring it leaves: so all that holds of steps
    and of runs holds of rings used through the operations as they are written. */
module SawsCalls {
  import opened Turns
  import opened TaskQueue
  import opened SawsModel
  import opened SawsTheorems
  import opened SawsRing
  import opened SawsSteal

  /** Steps from any state of the machine. */
  ghost predicate IsFragment(ss: seq<State>, acts: seq<Action>) {
    && |ss| == |acts| + 1
    && (forall i :: 0 <= i < |acts| ==> Enabled(ss[i], acts[i]) && ss[i + 1] == Apply(ss[i], acts[i]))
  }

  /** Some steps of the machine lead from `o` to `s`. */
  ghost predicate Leads(o: State, s: State) {
    exists ss, acts :: IsFragment(ss, acts) && ss[0] == o && ss[|acts|] == s
  }

  /** Some run of the machine ends in `s`. */
  ghost predicate Reachable(s: State) {
    exists ss, acts :: IsRun(ss, acts) && ss[|acts|] == s
  }

  lemma StartsHere(o: State)
    ensures Leads(o, o)
  {
    assert IsFragment([o], []) && [o][0] == o;
  }

  lemma OneMoreReached(s: State, a: Action)
    requires Reachable(s) && Enabled(s, a)
    ensures Reachable(Apply(s, a))
  {
    hide Enabled, Apply, Init;
    var ss, acts :| IsRun(ss, acts) && ss[|acts|] == s;
    var tt, next := ss + [Apply(s, a)], acts + [a];
    assert IsRun(tt, next) && tt[|next|] == Apply(s, a);
  }

  lemma {:induction false} FragmentReaches(ss: seq<State>, acts: seq<Action>)
    requires IsFragment(ss, acts) && Reachable(ss[0])
    ensures Reachable(ss[|acts|])
    decreases |acts|
  {
    hide Reachable, Enabled, Apply;
    if acts != [] {
      var k := |acts| - 1;
      assert IsFragment(ss[..k + 1], acts[..k]);
      FragmentReaches(ss[..k + 1], acts[..k]);
      OneMoreReached(ss[k], acts[k]);
    }
  }

  /** So what follows a run is the end of a run. */
  lemma LeadsToReachable(o: State, s: State)
    requires Reachable(o) && Leads(o, s)
    ensures Reachable(s)
  {
    hide Reachable, Enabled, Apply;
    var ss, acts :| IsFragment(ss, acts) && ss[0] == o && ss[|acts|] == s;
    FragmentReaches(ss, acts);
  }

  lemma StepLeads(o: State, s: State, a: Action)
    requires Leads(o, s)
    ensures Leads(o, Step(s, a))
  {
    hide Enabled, Apply;
    if Enabled(s, a) {
      var ss, acts :| IsFragment(ss, acts) && ss[0] == o && ss[|acts|] == s;
      var tt, next := ss + [Apply(s, a)], acts + [a];
      assert IsFragment(tt, next) && tt[0] == o && tt[|next|] == Apply(s, a);
    }
  }

  lemma {:induction false} OthersLead(o: State, s: State, me: Participant, steps: seq<Action>)
    requires Leads(o, s)
    ensures Leads(o, Others(s, me, steps))
    decreases |steps|
  {
    hide Leads, Enabled, Apply;
    if steps != [] {
      var a := steps[0];
      StepLeads(o, s, a);
      OthersLead(o, if Enabled(s, a) && Actor(a) != me then Apply(s, a) else s, me, steps[1..]);
    }
  }

  // ---------------------------------------------------------------- a thief

  lemma {:induction false} CopyLeads(o: State, s: State, me: nat, n: nat, turns: seq<seq<Action>>, gap: nat)
    requires Leads(o, s)
    ensures Leads(o, CopyCall(s, me, n, turns, gap))
    decreases n
  {
    hide Leads, Step, Others;
    if n > 0 {
      CopyLeads(o, s, me, n - 1, turns, gap);
      var z := CopyCall(s, me, n - 1, turns, gap);
      OthersLead(o, z, TheThief(me), Turn(turns, gap + n - 1));
      StepLeads(o, Others(z, TheThief(me), Turn(turns, gap + n - 1)), Copy(me, n - 1));
    }
  }

  lemma TestLeads(o: State, s: State, me: nat)
    requires Leads(o, s)
    ensures Leads(o, Tested(s, me))
  {
    hide Leads, Step;
    StepLeads(o, s, if me < |s.full| && s.full[me] then Probe(me) else Peek(me));
  }

  /** A whole steal, from the first look at the word to the report. */
  lemma StealLeads(o: State, s: State, me: nat, turns: seq<seq<Action>>)
    requires Leads(o, s)
    ensures Leads(o, StealCall(s, me, turns))
  {
    hide Leads, Step, Others, Tested, CopyCall, ClaimSize, LooksAgain;
    TestLeads(o, s, me);
    OthersLead(o, Tested(s, me), TheThief(me), Turn(turns, 0));
    TestLeads(o, SeenAt(s, me, Turn(turns, 0)), me);
    var z := ClaimCall(s, me, Turn(turns, 0));
    if me in z.claims {
      var n := ClaimSize(z.claims[me]);
      CopyLeads(o, z, me, n, turns, 1);
      OthersLead(o, CopyCall(z, me, n, turns, 1), TheThief(me), Turn(turns, 1 + n));
      StepLeads(o, Others(CopyCall(z, me, n, turns, 1), TheThief(me), Turn(turns, 1 + n)), Complete(me));
    }
  }

  // ---------------------------------------------------------------- the owner

  lemma {:induction false} DriveLeads(o: State, s: State, turns: seq<seq<Action>>, n: nat)
    requires Leads(o, s)
    ensures Leads(o, Drive(s, turns, n))
    decreases n
  {
    hide Leads, Others, Enabled, Apply;
    if n > 0 {
      DriveLeads(o, s, turns, n - 1);
      var y := Others(Drive(s, turns, n - 1), TheOwner, Turn(turns, n - 1));
      OthersLead(o, Drive(s, turns, n - 1), TheOwner, Turn(turns, n - 1));
      StepLeads(o, y, NextAction(y.pc));
    }
  }

  /** An operation of the owner that begins with step `a`: release, reclaim, reacquire. */
  lemma CallLeads(o: State, s: State, a: Action, turns: seq<seq<Action>>, n: nat)
    requires Leads(o, s) && Enabled(s, a)
    ensures Leads(o, Drive(Apply(s, a), turns, n))
  {
    hide Leads, Drive, Enabled, Apply;
    StepLeads(o, s, a);
    DriveLeads(o, Apply(s, a), turns, n);
  }

  // ---------------------------------------------------------------- gaps

  /** Steps from any state of the machine, none of them by `me`. */
  ghost predicate WithoutMe(ss: seq<State>, acts: seq<Action>, me: Participant) {
    && |ss| == |acts| + 1
    && (forall i :: 0 <= i < |acts| ==>
      Enabled(ss[i], acts[i]) && Actor(acts[i]) != me && ss[i + 1] == Apply(ss[i], acts[i]))
  }

  /** Whatever the others can do, they can do it in a gap. */
  lemma {:induction false} AnyGap(ss: seq<State>, acts: seq<Action>, me: Participant)
    requires WithoutMe(ss, acts, me)
    ensures Others(ss[0], me, acts) == ss[|acts|]
    decreases |acts|
  {
    hide Enabled, Apply, Actor;
    if acts != [] {
      assert Enabled(ss[0], acts[0]);
      AnyGap(ss[1..], acts[1..], me);
    }
  }
}
