/** The runtime over SAWS rings: every step of every ring is a step of the runtime over abstract
    queues, so what holds end to end holds of the rings. */
module RuntimeOverSaws {
  import opened TaskQueue
  import opened TerminationModel
  import opened RuntimeModel
  import opened RuntimeInvariant
  import opened RuntimeTheorems
  import S = SawsModel
  import I = SawsInvariant
  import T = SawsTheorems
  import R = SawsRing

  /** As `System`, with the rings in place of the queues. */
  datatype Machine = Machine(
    rings: seq<S.State>, pes: seq<Mode>, net: Net,
    added: multiset<Task>, executed: multiset<Task>, dropped: multiset<Task>, moments: seq<Moment>, first: Moment)

  datatype MachineStep =
    | OnRing(v: nat, a: S.Action)
    | Counts(i: nat)
    | RemoteAdds(i: nat, x: Task)
    | Finishes(i: nat)
    | Attempts(i: nat)
    | Broadcasts(i: nat)

  ghost predicate Rings(m: Machine) {
    forall v :: 0 <= v < |m.rings| ==> I.Inv(m.rings[v]) && S.Shape(m.rings[v])
  }

  ghost function QueueOf(r: S.State): Queue {
    if S.Shape(r) then S.Abs(r) else Queue([], map[])
  }

  ghost function Queues(rings: seq<S.State>): (qs: seq<Queue>)
    ensures |qs| == |rings|
  {
    seq(|rings|, v requires 0 <= v < |rings| => QueueOf(rings[v]))
  }

  ghost function AbsOf(m: Machine): System {
    System(Queues(m.rings), m.pes, m.net, m.added, m.executed, m.dropped, m.moments, m.first)
  }

  function AbsStep(m: Machine, a: MachineStep): Step {
    match a
    case OnRing(v, b) => Event(v, if v < |m.rings| && S.Enabled(m.rings[v], b) then S.LabelOf(m.rings[v], b) else Silent)
    case Counts(i) => Count(i)
    case RemoteAdds(i, x) => RemoteAdd(i, x)
    case Finishes(i) => Finish(i)
    case Attempts(i) => Attempt(i)
    case Broadcasts(i) => Broadcast(i)
  }

  /** `gtc_tasks_avail`. */
  function TasksAvail(r: S.State): nat
    requires S.Shape(r)
  {
    r.nlocal + S.SharedSize(r)
  }

  /** Ring steps happen as the loops allow the event they mean; the other steps are those of the
      runtime, except that a vote looks at the ring's own size fields. */
  ghost predicate MachineNext(m: Machine, a: MachineStep, m': Machine) {
    match a
    case OnRing(v, b) =>
      && SameSize(AbsOf(m)) && v < |m.rings| && S.Enabled(m.rings[v], b)
      && var l := S.LabelOf(m.rings[v], b);
      && MayHappen(m.pes, v, l)
      && m' == m.(rings := m.rings[v := S.Apply(m.rings[v], b)], pes := AfterEvent(m.pes, v, l),
                  added := m.added + NewTasks(m.pes, v, l))
    case Attempts(i) =>
      && i < |m.rings| && S.Shape(m.rings[i]) && m.rings[i].pc.Idle? && TasksAvail(m.rings[i]) == 0
      && m'.rings == m.rings
      && NextButForQueue(AbsOf(m), i, AbsOf(m'))
    case _ => m'.rings == m.rings && Next(AbsOf(m), AbsStep(m, a), AbsOf(m'))
  }

  /** A vote of the runtime without its look at the own queue. */
  ghost predicate NextButForQueue(s: System, i: nat, s': System) {
    && SameSize(s) && i < |s.pes| && s.pes[i].Searching?
    && Enabled(s.net, Vote(i))
    && var net' := Apply(s.net, Vote(i));
    && Shape(net') && i < |net'.nodes|
    && s' == s.(net := net', pes := if Detected(net', i) then s.pes[i := Done] else s.pes,
                moments := if |net'.evals| > |s.net.evals| then s.moments + [Now(s)] else s.moments)
  }

  ghost predicate StartsAtBarrier(m: Machine) {
    Rings(m) && AtBarrier(AbsOf(m))
  }

  lemma RingStepRefines(m: Machine, v: nat, b: S.Action, m': Machine)
    requires Rings(m) && MachineNext(m, OnRing(v, b), m')
    ensures Rings(m') && Next(AbsOf(m), AbsStep(m, OnRing(v, b)), AbsOf(m'))
  {
    hide I.Inv, S.Apply, S.LabelOf, S.Abs, S.Shape, S.Enabled, QueueStep, MayHappen, AfterEvent, NewTasks;
    T.StepKeeps(m.rings[v], b);
    T.StepRefines(m.rings[v], b);
    var r' := S.Apply(m.rings[v], b);
    assert AbsOf(m').queues == AbsOf(m).queues[v := QueueOf(r')];
  }

  /** An idle ring whose owner finds no task available has nothing unclaimed. */
  lemma NoneAvailable(r: S.State)
    requires I.Inv(r) && S.Shape(r) && r.pc.Idle? && TasksAvail(r) == 0
    ensures QueueOf(r).deque == []
  {
    T.NothingToReacquire(r);
    hide I.Inv, S.Unclaimed;
  }

  lemma VoteRefines(m: Machine, i: nat, m': Machine)
    requires Rings(m) && MachineNext(m, Attempts(i), m')
    ensures Rings(m') && Next(AbsOf(m), Attempt(i), AbsOf(m'))
  {
    hide I.Inv, S.Shape, Apply, Enabled, TasksAvail, QueueOf, Now, SameSize;
    NoneAvailable(m.rings[i]);
  }

  lemma OtherRefines(m: Machine, a: MachineStep, m': Machine)
    requires Rings(m) && MachineNext(m, a, m') && !a.OnRing? && !a.Attempts?
    ensures Rings(m') && Next(AbsOf(m), AbsStep(m, a), AbsOf(m'))
  {
    hide I.Inv, S.Shape, Next, AbsOf;
  }

  /** Every step of the machine is a step of the runtime. */
  lemma MachineRefines(m: Machine, a: MachineStep, m': Machine)
    requires Rings(m) && MachineNext(m, a, m')
    ensures Rings(m') && Next(AbsOf(m), AbsStep(m, a), AbsOf(m'))
  {
    hide Rings, MachineNext, Next, AbsOf;
    match a
    case OnRing(v, b) => RingStepRefines(m, v, b, m');
    case Attempts(i) => VoteRefines(m, i, m');
    case _ => OtherRefines(m, a, m');
  }

  // ---------------------------------------------------------------- runs

  ghost predicate IsMachineRun(ms: seq<Machine>, steps: seq<MachineStep>) {
    && |ms| == |steps| + 1
    && StartsAtBarrier(ms[0])
    && (forall i :: 0 <= i < |steps| ==> MachineNext(ms[i], steps[i], ms[i + 1]))
  }

  ghost function AbsRun(ms: seq<Machine>): (ss: seq<System>)
    ensures |ss| == |ms|
  {
    seq(|ms|, i requires 0 <= i < |ms| => AbsOf(ms[i]))
  }

  ghost function AbsSteps(ms: seq<Machine>, steps: seq<MachineStep>): (r: seq<Step>)
    requires |ms| == |steps| + 1
    ensures |r| == |steps|
  {
    seq(|steps|, i requires 0 <= i < |steps| => AbsStep(ms[i], steps[i]))
  }

  lemma {:induction false} MachineRunRefines(ms: seq<Machine>, steps: seq<MachineStep>, k: nat)
    requires IsMachineRun(ms, steps) && k <= |steps|
    ensures Rings(ms[k])
    ensures forall i :: 0 <= i < k ==> Next(AbsOf(ms[i]), AbsStep(ms[i], steps[i]), AbsOf(ms[i + 1]))
    decreases k
  {
    hide MachineNext, Next, Rings, AtBarrier;
    if k > 0 {
      MachineRunRefines(ms, steps, k - 1);
      MachineRefines(ms[k - 1], steps[k - 1], ms[k]);
    }
  }

  /** End to end over the rings: on every run, when one element has left its loop, every ring is
      without unclaimed tasks and without outstanding claims, every task ever added has been
      executed exactly once, and none was dropped. */
  lemma EndToEndOverRings(ms: seq<Machine>, steps: seq<MachineStep>, i: nat)
    requires IsMachineRun(ms, steps) && i < |ms[|steps|].pes| && ms[|steps|].pes[i].Done?
    ensures var m := ms[|steps|];
            && m.executed == m.added && m.dropped == multiset{}
            && Rings(m)
            && (forall v :: 0 <= v < |m.rings| ==>
              S.Shape(m.rings[v]) && S.Unclaimed(m.rings[v]) == [] && m.rings[v].claims == map[])
  {
    var m := ms[|steps|];
    hide MachineNext, Next, AtBarrier, NothingLeft, I.Inv, S.Shape;
    MachineRunRefines(ms, steps, |steps|);
    var ss, acts := AbsRun(ms), AbsSteps(ms, steps);
    assert IsRun(ss, acts);
    hide IsMachineRun, IsRun;
    EndToEnd(ss, acts);
    hide Live, Total, Uncounted;
    assert ss[|acts|].pes[i].Done?;
    NothingInRings(m);
  }

  lemma NothingInRings(m: Machine)
    requires Rings(m) && SameSize(AbsOf(m)) && NothingLeft(AbsOf(m))
    ensures forall v :: 0 <= v < |m.rings| ==> S.Unclaimed(m.rings[v]) == [] && m.rings[v].claims == map[]
  {
    hide I.Inv, S.Shape, S.Unclaimed;
    forall v | 0 <= v < |m.rings|
      ensures S.Unclaimed(m.rings[v]) == [] && m.rings[v].claims == map[]
    {
      assert AbsOf(m).queues[v] == S.Abs(m.rings[v]);
      NoFlight(m.rings[v]);
    }
  }

  lemma NoFlight(r: S.State)
    requires S.Flight(r) == map[]
    ensures r.claims == map[]
  {
    forall t | t in r.claims
      ensures t in S.Flight(r)
    {
    }
  }

  // ---------------------------------------------------------------- progress

  /** The stolen block does not fit what the size fields say is free.  The code reclaims then, and
      takes its error exit if that does not help; `SawsRoom` says what a reclaim is worth. */
  predicate NoRoom(m: Machine, i: nat)
    requires i < |m.pes| == |m.rings| && S.Shape(m.rings[i])
  {
    && m.pes[i].Holding? && m.rings[i].pc.Idle?
    && m.rings[i].nlocal + S.SharedSize(m.rings[i]) + |m.pes[i].es| > m.rings[i].max
  }

  /** The steps with which element `i` works on a live task: the operation of its ring it is in the
      middle of, the next task of the block it is stealing, or what its mode calls for. */
  predicate Works(m: Machine, i: nat, a: MachineStep)
    requires i < |m.pes| == |m.rings|
  {
    match m.pes[i]
    case Running(x) => a == MachineStep.Finishes(i)
    case Adding(x) => a == Counts(i)
    case Stealing(v) => a == OnRing(v, S.Complete(i)) || (a.OnRing? && a.v == v && a.a.Copy? && a.a.t == i)
    case Holding(es) =>
      if i < |m.rings| && !m.rings[i].pc.Idle? then a == OnRing(i, R.NextAction(m.rings[i].pc)) else a == OnRing(i, S.Push(es))
    case Searching =>
      if i < |m.rings| && !m.rings[i].pc.Idle? then a == OnRing(i, R.NextAction(m.rings[i].pc))
      else a == OnRing(i, S.Pop) || a == OnRing(i, S.Disable)
    case Done => false
  }

  /** A step of a ring that the loops allow is a step of the machine. */
  function After(m: Machine, v: nat, b: S.Action): Machine
    requires v < |m.rings| == |m.pes| && S.Enabled(m.rings[v], b) && MayHappen(m.pes, v, S.LabelOf(m.rings[v], b))
  {
    var l := S.LabelOf(m.rings[v], b);
    m.(rings := m.rings[v := S.Apply(m.rings[v], b)], pes := AfterEvent(m.pes, v, l),
       added := m.added + NewTasks(m.pes, v, l))
  }

  /** What an owner in the middle of an operation does next means nothing to the others. */
  lemma OwnerGoesOn(r: S.State)
    requires I.Inv(r) && !r.pc.Idle?
    ensures S.Enabled(r, R.NextAction(r.pc)) && S.LabelOf(r, R.NextAction(r.pc)) == Silent
  {
    hide I.Inv, S.Shape;
    R.OwnerStepKeeps(r);
  }

  /** A thief that has claimed a block can copy a task of it that it has not copied, or complete. */
  lemma ThiefGoesOn(r: S.State, t: nat) returns (b: S.Action)
    requires S.Shape(r) && t in r.claims
    ensures S.Enabled(r, b) && (b == S.Complete(t) || (b.Copy? && b.t == t && b.i !in r.claims[t].got))
    ensures b.Copy? ==> S.LabelOf(r, b) == Silent
    ensures b.Complete? ==> S.LabelOf(r, b).Delivered? && S.LabelOf(r, b).thief == t
  {
    hide S.Shape, S.ClaimSize, S.Received;
    if i: nat :| i < S.ClaimSize(r.claims[t]) && i !in r.claims[t].got {
      b := S.Copy(t, i);
    } else {
      b := S.Complete(t);
    }
  }

  /** An idle owner with something unclaimed can pop or start to reacquire. */
  lemma OwnerCanTake(r: S.State) returns (b: S.Action)
    requires I.Inv(r) && S.Shape(r) && r.pc.Idle? && S.Unclaimed(r) != []
    ensures S.Enabled(r, b) && (b == S.Pop || b == S.Disable)
    ensures S.LabelOf(r, b) == Silent || S.LabelOf(r, b).Popped?
  {
    hide I.Inv, S.Shape, S.Unclaimed;
    if r.nlocal > 0 {
      b := S.Pop;
    } else {
      if S.SharedSize(r) == 0 {
        T.NothingToReacquire(r);
      }
      b := S.Disable;
    }
  }

  lemma RingOf(m: Machine, v: nat)
    requires Rings(m) && v < |m.rings|
    ensures S.Shape(m.rings[v]) && I.Inv(m.rings[v])
    ensures AbsOf(m).queues[v].deque == S.Unclaimed(m.rings[v])
    ensures forall t :: t in AbsOf(m).queues[v].flight ==> t in m.rings[v].claims
  {
    hide I.Inv, S.Shape, S.Unclaimed;
  }

  lemma AfterIsStep(m: Machine, v: nat, b: S.Action)
    requires SameSize(AbsOf(m)) && v < |m.rings| == |m.pes|
    requires S.Enabled(m.rings[v], b) && MayHappen(m.pes, v, S.LabelOf(m.rings[v], b))
    ensures MachineNext(m, OnRing(v, b), After(m, v, b))
  {
    hide S.Enabled, S.Apply, S.LabelOf, MayHappen, AfterEvent, NewTasks, SameSize;
  }

  /** Over rings, too, work never gets stuck but in one way: while a task is alive, some element that
      is still in the loop can take a step that works on one, unless all it could do is push a stolen
      block into a ring that has no room for it.  With room the push is possible. */
  lemma MachineWorkProceeds(m: Machine) returns (i: nat, a: MachineStep, m': Machine)
    requires Rings(m) && RInv(AbsOf(m)) && Live(AbsOf(m)) != multiset{}
    ensures i < |m.pes| == |m.rings| && S.Shape(m.rings[i]) && SameSize(AbsOf(m)) && CanWork(AbsOf(m), i)
    ensures if NoRoom(m, i) then a == OnRing(i, S.Push(m.pes[i].es)) && forall z :: !MachineNext(m, a, z)
            else Works(m, i, a) && MachineNext(m, a, m')
  {
    hide Rings, RInv, Live, Next, MachineNext, S.Shape, I.Inv, S.Apply, S.SharedSize, S.Unclaimed, S.Received, QueueStep;
    i := SomebodyCanWork(AbsOf(m));
    RInvParts(AbsOf(m));
    SizeOf(m);
    RingOf(m, i);
    m' := m;
    match m.pes[i]
    case Running(x) => a, m' := FinishStep(m, i);
    case Adding(x) => a, m' := CountStep(m, i);
    case _ => a, m' := RingStep(m, i);
  }

  lemma SizeOf(m: Machine)
    requires SameSize(AbsOf(m))
    ensures |m.pes| == |m.rings|
  {
  }

  lemma FinishStep(m: Machine, i: nat) returns (a: MachineStep, m': Machine)
    requires SameSize(AbsOf(m)) && i < |m.pes| && m.pes[i].Running?
    ensures a == MachineStep.Finishes(i) && MachineNext(m, a, m')
  {
    a := MachineStep.Finishes(i);
    m' := m.(pes := m.pes[i := Searching], executed := m.executed + multiset{m.pes[i].x},
             net := m.net.(counters := m.net.counters[i := Bump(m.net.counters[i], 0, 1)]));
    hide Live;
  }

  lemma CountStep(m: Machine, i: nat) returns (a: MachineStep, m': Machine)
    requires SameSize(AbsOf(m)) && i < |m.pes| && m.pes[i].Adding?
    ensures a == Counts(i) && MachineNext(m, a, m')
  {
    a := Counts(i);
    m' := m.(pes := m.pes[i := Running(m.pes[i].x)],
             net := m.net.(counters := m.net.counters[i := Bump(m.net.counters[i], 1, 0)]));
    hide Live;
  }

  lemma RingStep(m: Machine, i: nat) returns (a: MachineStep, m': Machine)
    requires Rings(m) && SameSize(AbsOf(m)) && i < |m.pes| == |m.rings| && S.Shape(m.rings[i]) && CanWork(AbsOf(m), i)
    requires m.pes[i].Searching? || m.pes[i].Holding? || m.pes[i].Stealing?
    ensures if NoRoom(m, i) then a == OnRing(i, S.Push(m.pes[i].es)) && forall z :: !MachineNext(m, a, z)
            else Works(m, i, a) && MachineNext(m, a, m')
  {
    hide Rings, MachineNext, S.Shape, I.Inv, S.Apply, S.SharedSize, S.Unclaimed, S.Received;
    RingOf(m, i);
    var v, b := i, S.Pop;
    if m.pes[i].Stealing? {
      v := m.pes[i].v;
      RingOf(m, v);
      b := ThiefGoesOn(m.rings[v], i);
    } else if !m.rings[i].pc.Idle? {
      b := R.NextAction(m.rings[i].pc);
      OwnerGoesOn(m.rings[i]);
    } else if m.pes[i].Holding? {
      b := S.Push(m.pes[i].es);
    } else {
      b := OwnerCanTake(m.rings[i]);
    }
    a, m' := OnRing(v, b), m;
    if NoRoom(m, i) {
      CannotPush(m, i);
    } else {
      m' := After(m, v, b);
      AfterIsStep(m, v, b);
    }
  }

  lemma CannotPush(m: Machine, i: nat)
    requires i < |m.pes| == |m.rings| && S.Shape(m.rings[i]) && NoRoom(m, i)
    ensures forall z :: !MachineNext(m, OnRing(i, S.Push(m.pes[i].es)), z)
  {
    hide S.SharedSize, S.Apply;
  }
}
