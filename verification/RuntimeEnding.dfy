/** How the runtime ends: once nothing is alive everybody leaves the loop after boundedly many steps
    that matter, unless a task was ever added to another element; then nobody ever does. */
module RuntimeEnding {
  import opened TaskQueue
  import opened TerminationModel
  import opened TerminationInvariant
  import opened TerminationSteps
  import opened TerminationSafety
  import opened TerminationProgress
  import opened RuntimeModel
  import opened RuntimeInvariant
  import opened RuntimeSteps
  import opened RuntimeTheorems

  ghost predicate EverybodyDone(s: System) {
    forall i :: 0 <= i < |s.pes| ==> s.pes[i].Done?
  }

  // ---------------------------------------------------------------- after a remote add

  /** A dropped task is never forgotten. */
  lemma DroppedStays(s: System, a: Step, s': System)
    requires Next(s, a, s')
    ensures s.dropped <= s'.dropped && (!a.RemoteAdd? ==> s'.dropped == s.dropped)
    ensures a.RemoteAdd? ==> s'.dropped != multiset{}
  {
    hide Live, Uncounted, Apply, Enabled, NewTasks, MayHappen, QueueStep;
    if a.RemoteAdd? {
      assert a.x in s'.dropped;
    }
  }

  /** While a task is dropped the root has decided nothing and nobody has left the loop. */
  lemma DroppedBlocks(s: System)
    requires RInv(s) && s.dropped != multiset{}
    ensures SameSize(s) && !Decided(s.net) && forall i :: 0 <= i < |s.pes| ==> !s.pes[i].Done?
  {
    hide RInv, Decided, Inv, NothingLeft, Live;
    RInvParts(s);
    if Decided(s.net) {
      DecidedMeansQuiet(s);
    }
    forall i | 0 <= i < |s.pes|
      ensures !s.pes[i].Done?
    {
      if s.pes[i].Done? {
        DoneMeansDone(s, i);
      }
    }
  }

  /** A sequence of steps from any state of the runtime. */
  ghost predicate Continues(ss: seq<System>, steps: seq<Step>) {
    && |ss| == |steps| + 1
    && RInv(ss[0])
    && (forall i :: 0 <= i < |steps| ==> Next(ss[i], steps[i], ss[i + 1]))
  }

  lemma ContinuesPrefix(ss: seq<System>, steps: seq<Step>)
    requires Continues(ss, steps) && steps != []
    ensures var k := |steps| - 1; Continues(ss[..k + 1], steps[..k]) && Next(ss[k], steps[k], ss[k + 1])
  {
    hide Next, RInv;
  }

  lemma {:induction false} ContinuesKeeps(ss: seq<System>, steps: seq<Step>)
    requires Continues(ss, steps)
    ensures RInv(ss[|steps|]) && ss[0].dropped <= ss[|steps|].dropped
    decreases |steps|
  {
    hide RInv, Next;
    if steps != [] {
      var k := |steps| - 1;
      ContinuesPrefix(ss, steps);
      ContinuesKeeps(ss[..k + 1], steps[..k]);
      NextKeeps(ss[k], steps[k], ss[k + 1]);
      DroppedStays(ss[k], steps[k], ss[k + 1]);
    }
  }

  /** One remote add is enough: on any run, from then on no evaluation of the root is ever true and
      nobody ever leaves the loop, whatever happens afterwards. */
  lemma RemoteAddNeverEnds(ss: seq<System>, steps: seq<Step>, k: nat)
    requires RuntimeTheorems.IsRun(ss, steps) && k < |steps| && steps[k].RemoteAdd?
    ensures var s := ss[|steps|]; SameSize(s) && !Decided(s.net) && forall i :: 0 <= i < |s.pes| ==> !s.pes[i].Done?
  {
    hide RInv, Next, AtBarrier, Decided;
    assert RuntimeTheorems.IsRun(ss[..k + 1], steps[..k]);
    RuntimeTheorems.RunKeeps(ss[..k + 1], steps[..k]);
    NextKeeps(ss[k], steps[k], ss[k + 1]);
    DroppedStays(ss[k], steps[k], ss[k + 1]);
    var zz, rest := ss[k + 1..], steps[k + 1..];
    forall i | 0 <= i < |rest|
      ensures Next(zz[i], rest[i], zz[i + 1])
    {
      assert Next(ss[k + 1 + i], steps[k + 1 + i], ss[k + 1 + i + 1]);
    }
    ContinuesKeeps(zz, rest);
    DroppedBlocks(ss[|steps|]);
  }

  // ---------------------------------------------------------------- nothing is alive

  /** Everything added and kept has been executed, and nothing was dropped. */
  ghost predicate Quiet(s: System) {
    RInv(s) && Live(s) == multiset{} && s.dropped == multiset{}
  }

  /** Whether a step of the runtime moves the voting forward. */
  ghost predicate Matters(s: System, a: Step) {
    || (a.Attempt? && Effective(s.net, Vote(a.i)))
    || (a.Broadcast? && Effective(s.net, SendRight(a.i)))
  }

  /** Once nothing is alive there are only votes, broadcasts and steps of rings that mean nothing. */
  lemma QuietSteps(s: System, a: Step, s': System)
    requires RInv(s) && Live(s) == multiset{} && Next(s, a, s')
    ensures a.Attempt? ==> Enabled(s.net, Vote(a.i)) && s'.net == Apply(s.net, Vote(a.i))
    ensures a.Broadcast? ==> Enabled(s.net, SendRight(a.i)) && s'.net == Apply(s.net, SendRight(a.i))
    ensures !a.Attempt? && !a.Broadcast? ==> s'.net == s.net
    ensures s'.dropped == s.dropped
  {
    hide RInv, Live, Inv, Moments, Conserved, Leavers, Apply, Enabled, Uncounted, Flights;
    RInvParts(s);
    QuietMeansNothing(s);
  }

  lemma {:induction false} QuietStays(s: System, a: Step, s': System)
    requires RInv(s) && Live(s) == multiset{} && Next(s, a, s')
    ensures RInv(s') && Live(s') == multiset{}
  {
    hide RInv, Next, Live;
    NextKeeps(s, a, s');
    NothingComesAlive(s, a, s');
  }

  lemma NothingComesAlive(s: System, a: Step, s': System)
    requires RInv(s) && RInv(s') && Live(s) == multiset{} && Next(s, a, s')
    ensures Live(s') == multiset{}
  {
    hide RInv, Inv, Moments, Conserved, Leavers, Live, Flights, Apply, Enabled, Uncounted, QueueStep, MayHappen, AfterEvent;
    RInvParts(s);
    RInvParts(s');
    QuietMeansNothing(s);
    match a
    case Event(v, l) =>
      EventLive(s, v, l, s');
      NothingNew(s, v, l);
    case Attempt(i) => VoteModes(s, i, s');
    case Broadcast(i) => SameLive(s, s');
    case _ =>
  }

  lemma SameLive(s: System, s': System)
    requires s'.queues == s.queues && s'.pes == s.pes
    ensures Live(s') == Live(s)
  {
  }

  ghost predicate QuietRun(ss: seq<System>, steps: seq<Step>) {
    Continues(ss, steps) && Quiet(ss[0])
  }

  /** How many of the steps moved the voting forward. */
  ghost function StepsThatMatter(ss: seq<System>, steps: seq<Step>): nat
    requires |ss| == |steps| + 1
  {
    if steps == [] then 0
    else
      var k := |steps| - 1;
      StepsThatMatter(ss[..k + 1], steps[..k]) + if Matters(ss[k], steps[k]) then 1 else 0
  }

  /** With nothing alive and nothing dropped the counters are final and balanced. */
  lemma QuietIsBalanced(s: System)
    requires Quiet(s)
    ensures Inv(s.net) && Balanced(s.net.counters) && Shape(s.net) && SameSize(s)
  {
    hide RInv, Inv, Moments, Leavers, Live, Flights, Total;
    RInvParts(s);
    QuietMeansNothing(s);
    NobodyUncounted(s.pes);
  }

  ghost predicate Goes(s: System, z: System, e: nat, r: int)
    requires Shape(s.net)
  {
    && Quiet(z) && |z.pes| == |s.pes| == |s.net.nodes| && Shape(z.net) && |z.net.nodes| == |s.net.nodes|
    && Settled(z.net, s.net.counters, e)
    && Rank(z.net, |s.net.nodes|) >= r
  }

  lemma GoesOn(s: System, z: System, e: nat, r: int, a: Step, z': System)
    requires Shape(s.net) && Goes(s, z, e, r) && Next(z, a, z')
    ensures Goes(s, z', e, r + if Matters(z, a) then 1 else 0)
  {
    hide RInv, Next, Live, Settled, Rank, Effective, Apply, Enabled;
    QuietStays(z, a, z');
    QuietSteps(z, a, z');
    RInvParts(z');
    SameNumber(z, a, z');
    hide Inv, Moments, Flights, Leavers, Conserved;
    SettledInv(z.net, s.net.counters, e);
    if a.Attempt? {
      StepSettles(z.net, s.net.counters, e, Vote(a.i));
      RankOfStep(z.net, Vote(a.i));
    } else if a.Broadcast? {
      StepSettles(z.net, s.net.counters, e, SendRight(a.i));
      RankOfStep(z.net, SendRight(a.i));
    }
  }

  lemma SettledInv(net: Net, c: seq<Counters>, e: nat)
    requires Settled(net, c, e)
    ensures Inv(net)
  {
  }

  lemma SameNumber(s: System, a: Step, s': System)
    requires RInv(s) && Next(s, a, s')
    ensures |s'.pes| == |s.pes|
  {
    hide RInv, Live, Apply, Enabled, QueueStep, MayHappen;
  }

  lemma {:induction false} QuietGoes(ss: seq<System>, steps: seq<Step>)
    requires QuietRun(ss, steps)
    ensures Shape(ss[0].net) && |ss[0].net.nodes| == |ss[0].pes|
    ensures Goes(ss[0], ss[|steps|], |ss[0].net.evals|, Rank(ss[0].net, |ss[0].pes|) + StepsThatMatter(ss, steps))
    decreases |steps|
  {
    hide RInv, Next, Quiet, Goes, Rank, Matters;
    QuietIsBalanced(ss[0]);
    if steps == [] {
      StartsSettled(ss[0].net);
      hide Settled;
      GoesAtStart(ss[0]);
    } else {
      var k := |steps| - 1;
      ContinuesPrefix(ss, steps);
      QuietGoes(ss[..k + 1], steps[..k]);
      GoesOn(ss[0], ss[k], |ss[0].net.evals|,
        Rank(ss[0].net, |ss[0].pes|) + StepsThatMatter(ss[..k + 1], steps[..k]), steps[k], ss[k + 1]);
    }
  }

  lemma GoesAtStart(s: System)
    requires Quiet(s) && SameSize(s) && Settled(s.net, s.net.counters, |s.net.evals|)
    ensures Goes(s, s, |s.net.evals|, Rank(s.net, |s.pes|))
  {
    hide RInv, Live, Settled, Rank;
  }

  /** How many steps that matter can be left, whoever takes them. */
  function Bound(s: System): nat {
    |s.pes| * (4 * |s.net.evals| + 15)
  }

  /** Once nothing is alive and nothing was dropped, only boundedly many steps that matter remain,
      whatever the schedule, and until everybody has left the loop one of them can be taken. */
  lemma QuietEnds(ss: seq<System>, steps: seq<Step>)
    requires QuietRun(ss, steps)
    ensures RInv(ss[|steps|]) && StepsThatMatter(ss, steps) <= Bound(ss[0])
    ensures !EverybodyDone(ss[|steps|]) ==>
              exists a, s' :: Next(ss[|steps|], a, s') && Matters(ss[|steps|], a)
  {
    hide RInv, Next, Live, Settled, Rank, StepsThatMatter, Effective, EverybodyDone;
    var s, z := ss[0], ss[|steps|];
    QuietIsBalanced(s);
    QuietGoes(ss, steps);
    SettledEvals(z.net, s.net.counters, |s.net.evals|);
    RankRoom(s.net, z.net);
    if !EverybodyDone(z) {
      SomebodyThere(z);
      var a, s' := QuietVoteProceeds(z);
    }
  }

  lemma SettledEvals(net: Net, c: seq<Counters>, e: nat)
    requires Settled(net, c, e)
    ensures Inv(net) && |net.evals| <= e + 3
  {
    hide Inv;
  }

  lemma SomebodyThere(s: System)
    requires !EverybodyDone(s)
    ensures exists i :: 0 <= i < |s.pes| && !s.pes[i].Done?
  {
  }

  // ---------------------------------------------------------------- exactly when

  lemma {:induction false} Extend(ss: seq<System>, steps: seq<Step>) returns (zz: seq<System>, more: seq<Step>)
    requires QuietRun(ss, steps)
    ensures QuietRun(zz, more) && zz[0] == ss[0] && EverybodyDone(zz[|more|])
    decreases Bound(ss[0]) - StepsThatMatter(ss, steps)
  {
    hide RInv, Next, Quiet, Matters, EverybodyDone, Bound;
    QuietEnds(ss, steps);
    var k := |steps|;
    if EverybodyDone(ss[k]) {
      zz, more := ss, steps;
    } else {
      var a, s' :| Next(ss[k], a, s') && Matters(ss[k], a);
      var tt, next := ss + [s'], steps + [a];
      assert tt[..k + 1] == ss && next[..k] == steps;
      assert StepsThatMatter(tt, next) == StepsThatMatter(ss, steps) + 1;
      QuietEnds(tt, next);
      zz, more := Extend(tt, next);
    }
  }

  /** Everybody can still leave the loop. */
  ghost predicate CanEnd(s: System) {
    exists ss, steps :: Continues(ss, steps) && ss[0] == s && EverybodyDone(ss[|steps|])
  }

  /** With nothing alive, everybody can still leave the loop if and only if no task was ever added to
      another element: the condition on the callers is `proc == rank` in every call of `gtc_add`. */
  lemma CanEndIff(s: System)
    requires RInv(s) && Live(s) == multiset{} && SameSize(s)
    ensures CanEnd(s) <==> s.dropped == multiset{}
  {
    hide RInv, Next, Live, Decided;
    if s.dropped == multiset{} {
      var zz, more := Extend([s], []);
    } else {
      forall ss, steps | Continues(ss, steps) && ss[0] == s
        ensures !EverybodyDone(ss[|steps|])
      {
        ContinuesKeeps(ss, steps);
        SomebodyStays(ss[|steps|]);
      }
    }
  }

  lemma SomebodyStays(s: System)
    requires RInv(s) && s.dropped != multiset{}
    ensures !EverybodyDone(s)
  {
    hide RInv, Decided;
    DroppedBlocks(s);
    assert !s.pes[0].Done?;
  }

  lemma {:induction false} DroppedIff(ss: seq<System>, steps: seq<Step>)
    requires Continues(ss, steps)
    ensures ss[|steps|].dropped == multiset{} <==>
              ss[0].dropped == multiset{} && forall k :: 0 <= k < |steps| ==> !steps[k].RemoteAdd?
    decreases |steps|
  {
    hide RInv, Next;
    if steps != [] {
      var k := |steps| - 1;
      ContinuesPrefix(ss, steps);
      DroppedIff(ss[..k + 1], steps[..k]);
      DroppedStays(ss[k], steps[k], ss[k + 1]);
    }
  }

  /** A run that has come to where nothing is alive can be brought to its end if and only if none of
      its steps, and nothing before the barrier, added a task to another element. */
  lemma RunCanEndIff(ss: seq<System>, steps: seq<Step>)
    requires RuntimeTheorems.IsRun(ss, steps) && Live(ss[|steps|]) == multiset{}
    ensures CanEnd(ss[|steps|]) <==>
              ss[0].dropped == multiset{} && forall k :: 0 <= k < |steps| ==> !steps[k].RemoteAdd?
  {
    hide RInv, Next, Live, AtBarrier, CanEnd;
    BarrierInv(ss[0]);
    ContinuesKeeps(ss, steps);
    RInvParts(ss[|steps|]);
    CanEndIff(ss[|steps|]);
    DroppedIff(ss, steps);
  }

  // ---------------------------------------------------------------- a run that never ends

  function TwoElements(x: Task, spawned: nat, completed: nat, pes: seq<Mode>, q: Queue): System
    requires |pes| == 2
  {
    var net := Net([FRESH_NODE, FRESH_NODE], [Counters(spawned, completed), Counters(0, 0)],
                   [[], []], [], [Counters(1, 0), Counters(0, 0)]);
    System([q, Queue([], map[])], pes, net, multiset{x}, if completed == 1 then multiset{x} else multiset{},
           multiset{}, [], Moment({}, 0, 1, 0))
  }

  /** Two elements, one task `x`, whose callback adds `y` to the other element: `x` is executed, `y`
      never is, and from there nobody can ever leave the loop. */
  lemma RemoteAddRun(x: Task, y: Task) returns (ss: seq<System>, steps: seq<Step>)
    ensures RuntimeTheorems.IsRun(ss, steps) && |steps| == 3 && steps[1] == RemoteAdd(0, y)
    ensures var s := ss[3];
            && SameSize(s) && RInv(s) && Live(s) == multiset{}
            && s.executed == multiset{x} && s.dropped == multiset{y} && !CanEnd(s)
  {
    var empty := Queue([], map[]);
    var s0 := TwoElements(x, 1, 0, [Searching, Searching], Queue([x], map[]));
    var s1 := TwoElements(x, 1, 0, [Running(x), Searching], empty);
    var s2 := TwoElements(x, 2, 0, [Running(x), Searching], empty).(dropped := multiset{y});
    var s3 := TwoElements(x, 2, 1, [Searching, Searching], empty).(dropped := multiset{y});
    ss, steps := [s0, s1, s2, s3], [Event(0, Popped(x)), RemoteAdd(0, y), Finish(0)];
    RemoteAddStarts(s0, x);
    RemoteAddSteps(x, y);
    hide AtBarrier, Next, TwoElements, CanEnd, RInv;
    RuntimeTheorems.RunKeeps(ss, steps);
    RemoteAddQuiet(s3, x, y);
    CanEndIff(s3);
  }

  lemma {:induction false} RemoteAddStarts(s: System, x: Task)
    requires s == TwoElements(x, 1, 0, [Searching, Searching], Queue([x], map[]))
    ensures AtBarrier(s)
  {
    LiveOfTwo(s);
    TotalOfTwo(s.net.counters);
    assert multiset([x]) == multiset{x};
    InFlightEmpty(2);
    NobodyUncounted(s.pes);
  }

  lemma {:induction false} LiveOfTwo(s: System)
    requires |s.queues| == |s.pes| == 2
    ensures Live(s) == (Held(s.queues[0], 2) + Held(s.queues[1], 2)) + (Carried(s.pes[0]) + Carried(s.pes[1]))
  {
    hide Held, Carried;
    assert s.queues[..1] == [s.queues[0]] && s.pes[..1] == [s.pes[0]];
    assert HeldIn([s.queues[0]], 2) == Held(s.queues[0], 2);
    assert CarriedBy([s.pes[0]]) == Carried(s.pes[0]);
  }

  lemma {:induction false} TotalOfTwo(cs: seq<Counters>)
    requires |cs| == 2
    ensures Total(cs) == Add(cs[0], cs[1])
  {
    assert cs[..1] == [cs[0]];
    assert Total([cs[0]]) == cs[0];
  }

  lemma RemoteAddSteps(x: Task, y: Task)
    ensures var empty := Queue([], map[]);
            var s0 := TwoElements(x, 1, 0, [Searching, Searching], Queue([x], map[]));
            var s1 := TwoElements(x, 1, 0, [Running(x), Searching], empty);
            var s2 := TwoElements(x, 2, 0, [Running(x), Searching], empty).(dropped := multiset{y});
            var s3 := TwoElements(x, 2, 1, [Searching, Searching], empty).(dropped := multiset{y});
            Next(s0, Event(0, Popped(x)), s1) && Next(s1, RemoteAdd(0, y), s2) && Next(s2, Finish(0), s3)
  {
    hide Live, Uncounted;
  }

  lemma RemoteAddQuiet(s: System, x: Task, y: Task)
    requires s == TwoElements(x, 2, 1, [Searching, Searching], Queue([], map[])).(dropped := multiset{y})
    ensures SameSize(s) && Live(s) == multiset{} && s.executed == multiset{x} && s.dropped == multiset{y}
  {
    LiveOfTwo(s);
    InFlightEmpty(2);
  }
}
