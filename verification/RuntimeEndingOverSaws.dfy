/** How the runtime over SAWS rings ends.  A vote waits for the ring's own size fields to say that no
    task is available; once nothing is alive, finishing the operation at hand and a reclaim get there. */
module RuntimeEndingOverSaws {
  import opened TaskQueue
  import opened TerminationModel
  import opened TerminationProgress
  import opened RuntimeModel
  import opened RuntimeInvariant
  import opened RuntimeSteps
  import opened RuntimeTheorems
  import opened RuntimeEnding
  import opened RuntimeOverSaws
  import S = SawsModel
  import I = SawsInvariant
  import T = SawsTheorems
  import R = SawsRing
  import Room = SawsRoom
  import Q = SawsQuiet

  /** A sequence of steps from any state of the machine. */
  ghost predicate MachineContinues(ms: seq<Machine>, steps: seq<MachineStep>) {
    && |ms| == |steps| + 1
    && Rings(ms[0]) && RInv(AbsOf(ms[0]))
    && (forall i :: 0 <= i < |steps| ==> MachineNext(ms[i], steps[i], ms[i + 1]))
  }

  lemma {:induction false} ContinuesRefines(ms: seq<Machine>, steps: seq<MachineStep>, k: nat)
    requires MachineContinues(ms, steps) && k <= |steps|
    ensures Rings(ms[k])
    ensures forall i :: 0 <= i < k ==> Next(AbsOf(ms[i]), AbsStep(ms[i], steps[i]), AbsOf(ms[i + 1]))
    decreases k
  {
    hide MachineNext, Next, Rings, RInv;
    if k > 0 {
      ContinuesRefines(ms, steps, k - 1);
      MachineRefines(ms[k - 1], steps[k - 1], ms[k]);
    }
  }

  /** What a sequence of machine steps means for the runtime. */
  lemma AsContinues(ms: seq<Machine>, steps: seq<MachineStep>)
    requires MachineContinues(ms, steps)
    ensures Continues(AbsRun(ms), AbsSteps(ms, steps)) && Rings(ms[|steps|]) && RInv(AbsOf(ms[|steps|]))
    ensures AbsRun(ms)[|steps|] == AbsOf(ms[|steps|])
  {
    hide MachineNext, Next, Rings, RInv;
    ContinuesRefines(ms, steps, |steps|);
    ContinuesKeeps(AbsRun(ms), AbsSteps(ms, steps));
  }

  lemma Extends(ms: seq<Machine>, steps: seq<MachineStep>, a: MachineStep, z: Machine)
    requires MachineContinues(ms, steps) && MachineNext(ms[|steps|], a, z)
    ensures MachineContinues(ms + [z], steps + [a])
  {
    hide MachineNext, Rings, RInv;
    var zz, more := ms + [z], steps + [a];
    forall i | 0 <= i < |more|
      ensures MachineNext(zz[i], more[i], zz[i + 1])
    {
      if i < |steps| {
        assert MachineNext(ms[i], steps[i], ms[i + 1]);
      }
    }
  }

  // ---------------------------------------------------------------- a ring comes to rest

  function WithRing(m: Machine, v: nat, r: S.State): Machine
    requires v < |m.rings|
  {
    m.(rings := m.rings[v := r])
  }

  /** A step of a ring that means nothing to the others is a step of the machine. */
  lemma SilentStep(m: Machine, v: nat, b: S.Action)
    requires SameSize(AbsOf(m)) && v < |m.rings| && S.Enabled(m.rings[v], b) && S.LabelOf(m.rings[v], b) == Silent
    ensures MachineNext(m, OnRing(v, b), WithRing(m, v, S.Apply(m.rings[v], b)))
  {
    hide S.Enabled, S.Apply, S.LabelOf;
  }

  /** A ring that stands for an empty queue. */
  ghost predicate RingEmpty(r: S.State) {
    I.Inv(r) && S.Shape(r) && r.claims == map[] && S.Unclaimed(r) == []
  }

  lemma EmptyMeans(m: Machine, v: nat, r: S.State)
    requires v < |m.rings| && RingEmpty(m.rings[v]) && RingEmpty(r)
    ensures AbsOf(WithRing(m, v, r)) == AbsOf(m) && QueueOf(r) == Queue([], map[])
  {
    hide I.Inv, S.Shape, S.Unclaimed;
    assert QueueOf(m.rings[v]) == QueueOf(r);
    assert AbsOf(WithRing(m, v, r)).queues == AbsOf(m).queues;
  }

  lemma QuietRings(m: Machine)
    requires Rings(m) && RInv(AbsOf(m)) && Live(AbsOf(m)) == multiset{}
    ensures SameSize(AbsOf(m)) && |m.pes| == |m.rings| && forall v :: 0 <= v < |m.rings| ==> RingEmpty(m.rings[v])
  {
    hide RInv, Live, I.Inv, S.Shape, S.Unclaimed, NothingLeft;
    RInvParts(AbsOf(m));
    QuietMeansNothing(AbsOf(m));
    NothingInRings(m);
    SizeOf(m);
  }

  /** The owner of ring `v` takes `n` more steps of its operation with nobody in between. */
  lemma {:induction false} Drives(m: Machine, v: nat, n: nat) returns (ms: seq<Machine>, steps: seq<MachineStep>)
    requires Rings(m) && RInv(AbsOf(m)) && Live(AbsOf(m)) == multiset{} && v < |m.rings|
    ensures MachineContinues(ms, steps) && ms[0] == m
    ensures RingEmpty(R.Drive(m.rings[v], [], n)) && ms[|steps|] == WithRing(m, v, R.Drive(m.rings[v], [], n))
    decreases n
  {
    hide Rings, RInv, Live, MachineNext, I.Inv, S.Shape, S.Unclaimed, R.OwnerStep, R.Drive, S.Apply, S.Enabled, S.LabelOf;
    QuietRings(m);
    var r := m.rings[v];
    if n == 0 {
      R.DriveStarts(r, []);
      ms, steps := [m], [];
      assert m.rings[v := r] == m.rings;
    } else {
      ms, steps := Drives(m, v, n - 1);
      var y := R.Drive(r, [], n - 1);
      Room.NobodyElse(r, n - 1);
      if y.pc.Idle? {
        IdleStays(y);
      } else {
        R.OwnerStepKeeps(y);
        R.SilentNext(y);
        Q.OwnerStepSilent(y);
        var mk := ms[|steps|];
        EmptyMeans(m, v, y);
        SilentStep(mk, v, R.NextAction(y.pc));
        var z := WithRing(mk, v, R.OwnerStep(y));
        Extends(ms, steps, OnRing(v, R.NextAction(y.pc)), z);
        ms, steps := ms + [z], steps + [OnRing(v, R.NextAction(y.pc))];
        assert z == WithRing(m, v, R.OwnerStep(y));
      }
    }
  }

  lemma IdleStays(r: S.State)
    requires r.pc.Idle?
    ensures R.OwnerStep(r) == r
  {
  }

  /** Two sequences of steps one after the other. */
  lemma {:induction false} Joined(ms: seq<Machine>, steps: seq<MachineStep>, zz: seq<Machine>, more: seq<MachineStep>)
    requires MachineContinues(ms, steps) && MachineContinues(zz, more) && zz[0] == ms[|steps|]
    ensures MachineContinues(ms + zz[1..], steps + more) && (ms + zz[1..])[|steps + more|] == zz[|more|]
  {
    hide MachineNext, Rings, RInv;
    var all, acts := ms + zz[1..], steps + more;
    forall i | 0 <= i < |acts|
      ensures MachineNext(all[i], acts[i], all[i + 1])
    {
      if i < |steps| {
        assert MachineNext(ms[i], steps[i], ms[i + 1]);
      } else {
        assert MachineNext(zz[i - |steps|], more[i - |steps|], zz[i - |steps| + 1]);
      }
    }
  }

  /** With nothing alive an element can always get to where its ring says that no task is available:
      it finishes what it is in the middle of, and reclaims. */
  lemma ComesToRest(m: Machine, v: nat) returns (ms: seq<Machine>, steps: seq<MachineStep>)
    requires Rings(m) && RInv(AbsOf(m)) && Live(AbsOf(m)) == multiset{} && v < |m.rings|
    ensures MachineContinues(ms, steps) && ms[0] == m && AbsOf(ms[|steps|]) == AbsOf(m)
    ensures v < |ms[|steps|].rings|
    ensures var r := ms[|steps|].rings[v]; S.Shape(r) && r.pc.Idle? && TasksAvail(r) == 0
  {
    hide Rings, RInv, Live, MachineNext, I.Inv, S.Shape, S.Unclaimed, S.SharedSize, R.Drive, S.Apply, S.Enabled, S.LabelOf;
    QuietRings(m);
    var r := m.rings[v];
    var n := Q.Settles(r);
    ms, steps := Drives(m, v, n);
    var y, mk := R.Drive(r, [], n), ms[|steps|];
    EmptyMeans(m, v, y);
    var k := Room.QuietReclaim(y);
    Room.ReclaimStarts(y);
    StartIsSilent(y);
    SilentStep(mk, v, S.StartReclaim);
    var y1 := S.Apply(y, S.StartReclaim);
    var z := WithRing(mk, v, y1);
    Extends(ms, steps, OnRing(v, S.StartReclaim), z);
    ms, steps := ms + [z], steps + [OnRing(v, S.StartReclaim)];
    EmptyMeans(mk, v, y1);
    AsContinues(ms, steps);
    var zz, more := Drives(z, v, k);
    Joined(ms, steps, zz, more);
    ms, steps := ms + zz[1..], steps + more;
    EmptyMeans(z, v, R.Drive(y1, [], k));
  }

  lemma StartIsSilent(r: S.State)
    requires S.Enabled(r, S.StartReclaim)
    ensures S.LabelOf(r, S.StartReclaim) == Silent
  {
  }

  // ---------------------------------------------------------------- votes over rings

  lemma VoteStep(m: Machine, i: nat, s': System)
    requires SameSize(AbsOf(m)) && i < |m.rings| && S.Shape(m.rings[i]) && m.rings[i].pc.Idle? && TasksAvail(m.rings[i]) == 0
    requires Next(AbsOf(m), Attempt(i), s')
    ensures MachineNext(m, Attempts(i), m.(net := s'.net, pes := s'.pes, moments := s'.moments))
  {
    hide Live, S.Shape, TasksAvail, Apply, Enabled;
    var z := m.(net := s'.net, pes := s'.pes, moments := s'.moments);
    assert AbsOf(z) == s';
  }

  lemma BroadcastStep(m: Machine, i: nat, s': System)
    requires Next(AbsOf(m), Broadcast(i), s')
    ensures MachineNext(m, Broadcasts(i), m.(net := s'.net))
  {
    hide Live, Apply, Enabled;
    var z := m.(net := s'.net);
    assert AbsOf(z) == s';
  }

  /** The last step moved the voting. */
  ghost predicate LastMatters(ms: seq<Machine>, steps: seq<MachineStep>)
    requires |ms| == |steps| + 1
  {
    steps != [] && var k := |steps| - 1; Matters(AbsOf(ms[k]), AbsStep(ms[k], steps[k]))
  }

  /** Over rings too: while nothing is alive and somebody is still in the loop, an effective vote or
      broadcast can be reached. */
  lemma QuietVoteOverRings(m: Machine) returns (ms: seq<Machine>, steps: seq<MachineStep>)
    requires Rings(m) && RInv(AbsOf(m)) && Live(AbsOf(m)) == multiset{} && !EverybodyDone(AbsOf(m))
    ensures MachineContinues(ms, steps) && ms[0] == m && LastMatters(ms, steps)
  {
    hide Rings, RInv, Live, MachineNext, Next, Apply, Enabled, S.Shape, TasksAvail, Effective;
    QuietRings(m);
    var a, s' := QuietVoteProceeds(AbsOf(m));
    if a.Attempt? {
      VoteInRange(AbsOf(m), a.i, s');
      ms, steps := ComesToRest(m, a.i);
      var mk := ms[|steps|];
      VoteStep(mk, a.i, s');
      var z := mk.(net := s'.net, pes := s'.pes, moments := s'.moments);
      Extends(ms, steps, Attempts(a.i), z);
      ms, steps := ms + [z], steps + [Attempts(a.i)];
    } else {
      BroadcastStep(m, a.i, s');
      var z := m.(net := s'.net);
      Extends([m], [], Broadcasts(a.i), z);
      ms, steps := [m] + [z], [] + [Broadcasts(a.i)];
    }
  }

  lemma VoteInRange(s: System, i: nat, s': System)
    requires Next(s, Attempt(i), s')
    ensures i < |s.queues|
  {
    hide Live, Apply, Enabled;
  }

  // ---------------------------------------------------------------- exactly when

  ghost predicate MachineQuiet(m: Machine) {
    Rings(m) && Quiet(AbsOf(m))
  }

  /** On every schedule over rings only boundedly many steps that matter remain once nothing is alive
      and nothing was dropped, and until everybody has left the loop one of them can be reached. */
  lemma QuietEndsOverRings(ms: seq<Machine>, steps: seq<MachineStep>) returns (zz: seq<Machine>, more: seq<MachineStep>)
    requires MachineContinues(ms, steps) && MachineQuiet(ms[0])
    ensures StepsThatMatter(AbsRun(ms), AbsSteps(ms, steps)) <= RuntimeEnding.Bound(AbsOf(ms[0]))
    ensures !EverybodyDone(AbsOf(ms[|steps|])) ==>
              MachineContinues(zz, more) && zz[0] == ms[|steps|] && LastMatters(zz, more)
  {
    hide RInv, Live, MachineNext, Next, Rings, EverybodyDone, StepsThatMatter, RuntimeEnding.Bound, LastMatters;
    AsContinues(ms, steps);
    QuietEnds(AbsRun(ms), AbsSteps(ms, steps));
    zz, more := [], [];
    if !EverybodyDone(AbsOf(ms[|steps|])) {
      StillQuiet(AbsRun(ms), AbsSteps(ms, steps));
      zz, more := QuietVoteOverRings(ms[|steps|]);
    }
  }

  lemma StillQuiet(ss: seq<System>, steps: seq<Step>)
    requires QuietRun(ss, steps)
    ensures Quiet(ss[|steps|])
  {
    hide RInv, Next, Live, Settled, Rank, Matters;
    QuietGoes(ss, steps);
  }

  /** Everybody can still leave the loop. */
  ghost predicate CanEndOverRings(m: Machine) {
    exists ms, steps :: MachineContinues(ms, steps) && ms[0] == m && EverybodyDone(AbsOf(ms[|steps|]))
  }

  lemma {:induction false} MoreMatter(ss: seq<System>, steps: seq<Step>, zz: seq<System>, more: seq<Step>)
    requires |ss| == |steps| + 1 && |zz| == |more| + 1 && zz[0] == ss[|steps|]
    ensures |ss + zz[1..]| == |steps + more| + 1
    ensures StepsThatMatter(ss + zz[1..], steps + more) == StepsThatMatter(ss, steps) + StepsThatMatter(zz, more)
    decreases |more|
  {
    hide Matters;
    if more == [] {
      assert ss + zz[1..] == ss && steps + more == steps;
    } else {
      var k := |more| - 1;
      MoreMatter(ss, steps, zz[..k + 1], more[..k]);
      var all, acts := ss + zz[1..], steps + more;
      var j := |acts| - 1;
      assert all[..j + 1] == ss + zz[..k + 1][1..];
      assert acts[..j] == steps + more[..k];
      assert all[j] == zz[k] && acts[j] == more[k];
    }
  }

  lemma OneMatters(ss: seq<System>, steps: seq<Step>)
    requires |ss| == |steps| + 1 && steps != [] && Matters(ss[|steps| - 1], steps[|steps| - 1])
    ensures StepsThatMatter(ss, steps) > 0
  {
    hide Matters;
  }

  lemma {:induction false} ExtendOverRings(ms: seq<Machine>, steps: seq<MachineStep>)
    returns (zz: seq<Machine>, more: seq<MachineStep>)
    requires MachineContinues(ms, steps) && MachineQuiet(ms[0])
    ensures MachineContinues(zz, more) && zz[0] == ms[0] && EverybodyDone(AbsOf(zz[|more|]))
    decreases RuntimeEnding.Bound(AbsOf(ms[0])) - StepsThatMatter(AbsRun(ms), AbsSteps(ms, steps))
  {
    hide RInv, MachineNext, Rings, Quiet, EverybodyDone, StepsThatMatter, RuntimeEnding.Bound, Matters, MachineContinues;
    assert |ms| == |steps| + 1 by { ContinuesSize(ms, steps); }
    var tt, next := QuietEndsOverRings(ms, steps);
    if EverybodyDone(AbsOf(ms[|steps|])) {
      zz, more := ms, steps;
    } else {
      ContinuesSize(tt, next);
      Joined(ms, steps, tt, next);
      var all, acts := ms + tt[1..], steps + next;
      MoreMatter(AbsRun(ms), AbsSteps(ms, steps), AbsRun(tt), AbsSteps(tt, next));
      OneMatters(AbsRun(tt), AbsSteps(tt, next));
      assert AbsRun(all) == AbsRun(ms) + AbsRun(tt)[1..];
      JoinedSteps(ms, steps, tt, next);
      var _, _ := QuietEndsOverRings(all, acts);
      zz, more := ExtendOverRings(all, acts);
    }
  }

  lemma ContinuesSize(ms: seq<Machine>, steps: seq<MachineStep>)
    requires MachineContinues(ms, steps)
    ensures |ms| == |steps| + 1
  {
    hide MachineNext, Rings, RInv;
  }

  lemma JoinedSteps(ms: seq<Machine>, steps: seq<MachineStep>, zz: seq<Machine>, more: seq<MachineStep>)
    requires |ms| == |steps| + 1 && |zz| == |more| + 1 && zz[0] == ms[|steps|]
    ensures AbsSteps(ms + zz[1..], steps + more) == AbsSteps(ms, steps) + AbsSteps(zz, more)
  {
    hide AbsStep;
    var all, acts := ms + zz[1..], steps + more;
    forall i | 0 <= i < |acts|
      ensures AbsSteps(all, acts)[i] == (AbsSteps(ms, steps) + AbsSteps(zz, more))[i]
    {
      assert i >= |steps| ==> all[i] == zz[i - |steps|] && acts[i] == more[i - |steps|];
    }
  }

  /** Over rings, too, with nothing alive everybody can still leave the loop if and only if no task was
      ever added to another element. */
  lemma CanEndOverRingsIff(m: Machine)
    requires Rings(m) && RInv(AbsOf(m)) && Live(AbsOf(m)) == multiset{}
    ensures CanEndOverRings(m) <==> m.dropped == multiset{}
  {
    hide Rings, RInv, MachineNext, Next, Live, EverybodyDone;
    QuietRings(m);
    CanEndIff(AbsOf(m));
    if m.dropped == multiset{} {
      assert MachineContinues([m], []);
      var zz, more := ExtendOverRings([m], []);
    }
    forall ms, steps | MachineContinues(ms, steps) && ms[0] == m && EverybodyDone(AbsOf(ms[|steps|]))
      ensures CanEnd(AbsOf(m))
    {
      AsContinues(ms, steps);
      assert AbsRun(ms)[0] == AbsOf(m);
    }
  }

  /** A machine run that has come to where nothing is alive can be brought to its end if and only if
      none of its steps, and nothing before the barrier, added a task to another element. */
  lemma MachineRunCanEndIff(ms: seq<Machine>, steps: seq<MachineStep>)
    requires IsMachineRun(ms, steps) && Live(AbsOf(ms[|steps|])) == multiset{}
    ensures CanEndOverRings(ms[|steps|]) <==>
              ms[0].dropped == multiset{} && forall k :: 0 <= k < |steps| ==> !steps[k].RemoteAdds?
  {
    hide Rings, RInv, MachineNext, Next, Live, AtBarrier, CanEndOverRings;
    BarrierInv(AbsOf(ms[0]));
    assert MachineContinues(ms, steps);
    AsContinues(ms, steps);
    CanEndOverRingsIff(ms[|steps|]);
    var acts := AbsSteps(ms, steps);
    DroppedIff(AbsRun(ms), acts);
    assert forall k :: 0 <= k < |steps| ==> (acts[k].RemoteAdd? <==> steps[k].RemoteAdds?);
  }
}
