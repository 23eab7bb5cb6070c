/** End to end: when `gtc_process` returns anywhere, every task that was ever added has been executed
    exactly once, and until then the runtime never gets stuck. */
module RuntimeTheorems {
  import opened TaskQueue
  import opened TerminationModel
  import opened TerminationInvariant
  import opened TerminationSteps
  import opened TerminationSafety
  import opened TerminationProgress
  import opened RuntimeModel
  import opened RuntimeInvariant
  import opened RuntimeSteps

  // ---------------------------------------------------------------- nobody stops early

  /** No task is queued, in flight, in a steal buffer or running. */
  ghost predicate NothingLeft(s: System) {
    && (forall v :: 0 <= v < |s.queues| ==> s.queues[v] == Queue([], map[]))
    && (forall i :: 0 <= i < |s.pes| ==> s.pes[i].Searching? || s.pes[i].Done?)
  }

  /** Between the last two waves nobody's counters moved. */
  lemma SameSample(net: Net, j: nat, w: nat)
    requires Inv(net) && w + 2 == |net.evals| && Decided(net) && j < |net.nodes|
    ensures j < |net.evals[w]| && w + 1 < |net.samples[j]| && net.evals[w][j] == net.samples[j][w + 1]
  {
    InvParts(net);
    hide Inv, Tree, Root, Grounds, Balanced;
    DecisionIsTrue(net);
    assert Bracketed(net, j, w + 1);
    assert net.evals[w][j] == Wave(net.samples, w + 1)[j];
  }

  /** Whoever was busy at an evaluation shows in the wave after it. */
  lemma NobodyWasBusy(s: System, w: nat)
    requires RInv(s) && w + 2 == |s.net.evals| && Decided(s.net)
    ensures w < |s.moments| && s.moments[w].busy == {}
  {
    RInvParts(s);
    hide RInv, Inv, Flights, Leavers, Conserved, Live, Total, Busy;
    assert MomentOk(s, w);
    forall j: nat
      ensures j !in s.moments[w].busy
    {
      if j < |s.pes| {
        SameSample(s.net, j, w);
      }
    }
  }

  lemma DecidedMeansQuiet(s: System)
    requires RInv(s) && Decided(s.net)
    ensures Live(s) == multiset{} && s.dropped == multiset{}
  {
    RInvParts(s);
    RootHasDecided(s.net);
    DecisionIsTrue(s.net);
    hide RInv, Inv, Flights, Leavers, Conserved, Live, Total, Wave, RootSum, Busy, BusyShows;
    var k := |s.net.evals|;
    if k >= 2 {
      NobodyWasBusy(s, k - 2);
      assert MomentOk(s, k - 2);
    }
  }

  lemma {:induction false} BlockInFlight(f: map<nat, seq<Task>>, n: nat, t: nat)
    requires t < n
    ensures t in f ==> |f[t]| <= |InFlight(f, n)|
    decreases n
  {
    if t < n - 1 {
      BlockInFlight(f, n - 1, t);
    }
    assert n - 1 in f ==> |multiset(f[n - 1])| == |f[n - 1]|;
  }

  lemma QuietQueue(s: System, v: nat)
    requires SameSize(s) && Flights(s) && v < |s.queues| && Live(s) == multiset{}
    ensures s.queues[v] == Queue([], map[])
  {
    var q, n := s.queues[v], |s.pes|;
    assert HeldIn(s.queues, n) == multiset{};
    NothingHeld(s.queues, n);
    FlightsBounded(s, v);
    assert FlightOk(q, s.pes, v);
    hide Flights, Live, HeldIn, CarriedBy, Carried;
    assert |multiset(q.deque)| == |q.deque|;
    assert multiset(q.deque) <= Held(q, n) == multiset{};
    assert |InFlight(q.flight, n)| == 0;
    forall t: nat
      ensures t !in q.flight
    {
      if t < n {
        BlockInFlight(q.flight, n, t);
      }
    }
    assert q.flight == map[];
  }

  lemma StealsFrom(s: System, i: nat)
    requires SameSize(s) && Flights(s) && i < |s.pes|
    ensures s.pes[i].Stealing? ==> s.pes[i].v < |s.queues| && i in s.queues[s.pes[i].v].flight
    ensures s.pes[i].Holding? ==> |Carried(s.pes[i])| > 0
  {
    assert ModeOk(s.pes[i], |s.queues|);
    if s.pes[i].Stealing? {
      assert FlightOk(s.queues[s.pes[i].v], s.pes, s.pes[i].v);
      assert Steals(s.pes, i, s.pes[i].v);
    }
  }

  lemma QuietMode(s: System, i: nat)
    requires SameSize(s) && Flights(s) && i < |s.pes| && Live(s) == multiset{}
    requires forall v: nat :: v < |s.queues| ==> s.queues[v] == Queue([], map[])
    ensures s.pes[i].Searching? || s.pes[i].Done?
  {
    CarriedIn(s.pes, i);
    CarriesOne(s.pes[i]);
    StealsFrom(s, i);
    hide CarriedBy, HeldIn, Carried, Flights;
    assert Carried(s.pes[i]) <= Live(s);
  }

  lemma QuietMeansNothing(s: System)
    requires SameSize(s) && Flights(s) && Live(s) == multiset{}
    ensures NothingLeft(s)
  {
    hide Flights, Live;
    forall v: nat | v < |s.queues|
      ensures s.queues[v] == Queue([], map[])
    {
      QuietQueue(s, v);
    }
    forall i: nat | i < |s.pes|
      ensures s.pes[i].Searching? || s.pes[i].Done?
    {
      QuietMode(s, i);
    }
  }

  /** Nobody stops early: when one element has left its loop, nothing is queued, in flight, held or
      running anywhere, every task ever added has been executed exactly once, and none was dropped. */
  lemma DoneMeansDone(s: System, i: nat)
    requires RInv(s) && i < |s.pes| && s.pes[i].Done?
    ensures NothingLeft(s) && s.executed == s.added && s.dropped == multiset{}
  {
    RInvParts(s);
    hide RInv, Inv, Moments, Flights, Live, Decided, Total, Uncounted, NothingLeft;
    DetectedIsDecided(s.net, i);
    DecidedMeansQuiet(s);
    QuietMeansNothing(s);
  }

  // ---------------------------------------------------------------- runs

  ghost predicate IsRun(ss: seq<System>, steps: seq<Step>) {
    && |ss| == |steps| + 1
    && AtBarrier(ss[0])
    && (forall i :: 0 <= i < |steps| ==> Next(ss[i], steps[i], ss[i + 1]))
  }

  lemma RunPrefix(ss: seq<System>, steps: seq<Step>)
    requires IsRun(ss, steps) && steps != []
    ensures var k := |steps| - 1; IsRun(ss[..k + 1], steps[..k]) && Next(ss[k], steps[k], ss[k + 1])
  {
    hide Next, AtBarrier;
  }

  lemma {:induction false} RunKeeps(ss: seq<System>, steps: seq<Step>)
    requires IsRun(ss, steps)
    ensures RInv(ss[|steps|])
    decreases |steps|
  {
    hide RInv, Next, AtBarrier;
    if steps == [] {
      BarrierInv(ss[0]);
    } else {
      var k := |steps| - 1;
      RunPrefix(ss, steps);
      RunKeeps(ss[..k + 1], steps[..k]);
      NextKeeps(ss[k], steps[k], ss[k + 1]);
    }
  }

  /** End-to-end conservation over any run: live and dropped tasks are those spawned and not
      completed, and when `gtc_process` has returned anywhere, nothing was ever dropped and everything
      added has been executed exactly once. */
  lemma EndToEnd(ss: seq<System>, steps: seq<Step>)
    requires IsRun(ss, steps)
    ensures var s := ss[|steps|];
            && SameSize(s)
            && s.added == s.executed + Live(s)
            && Total(s.net.counters).spawned + Uncounted(s.pes) == Total(s.net.counters).completed + |Live(s)| + |s.dropped|
            && ((exists i :: 0 <= i < |s.pes| && s.pes[i].Done?) ==>
                  NothingLeft(s) && s.executed == s.added && s.dropped == multiset{})
  {
    var s := ss[|steps|];
    hide IsRun, RInv, Inv, Moments, Flights, Live, Total, Uncounted, NothingLeft;
    RunKeeps(ss, steps);
    RInvParts(s);
    if i :| 0 <= i < |s.pes| && s.pes[i].Done? {
      DoneMeansDone(s, i);
    }
  }

  // ---------------------------------------------------------------- nobody gets stuck

  /** As long as a task is alive, some element can take a step that works on one: deliver a block,
      push it, finish or count, or pop from a queue that is not empty. */
  ghost predicate CanWork(s: System, i: nat)
    requires SameSize(s) && i < |s.pes|
  {
    match s.pes[i]
    case Searching => s.queues[i].deque != []
    case Stealing(v) => v < |s.queues| && i in s.queues[v].flight
    case Holding(es) => es != []
    case Running(x) => true
    case Adding(x) => true
    case Done => false
  }

  lemma CanWorkIsStep(s: System, i: nat) returns (a: Step, s': System)
    requires SameSize(s) && i < |s.pes| && CanWork(s, i)
    ensures Next(s, a, s') && !a.Attempt? && !a.Broadcast?
  {
    match s.pes[i]
    case Searching =>
      var q := s.queues[i];
      var z := |q.deque| - 1;
      a := Event(i, Popped(q.deque[z]));
      assert q.deque == q.deque[..z] + [q.deque[z]];
      s' := s.(queues := s.queues[i := q.(deque := q.deque[..z])], pes := AfterEvent(s.pes, i, a.l),
        added := s.added + NewTasks(s.pes, i, a.l));
    case Stealing(v) =>
      var q := s.queues[v];
      a := Event(v, Delivered(i, q.flight[i]));
      s' := s.(queues := s.queues[v := q.(flight := q.flight - {i})], pes := AfterEvent(s.pes, v, a.l),
        added := s.added + NewTasks(s.pes, v, a.l));
    case Holding(es) =>
      var q := s.queues[i];
      a := Event(i, Pushed(es));
      s' := s.(queues := s.queues[i := q.(deque := q.deque + es)], pes := AfterEvent(s.pes, i, a.l),
        added := s.added + NewTasks(s.pes, i, a.l));
    case Running(x) =>
      a := Finish(i);
      s' := s.(pes := s.pes[i := Searching], executed := s.executed + multiset{x},
               net := s.net.(counters := s.net.counters[i := Bump(s.net.counters[i], 0, 1)]));
    case Adding(x) =>
      a := Count(i);
      s' := s.(pes := s.pes[i := Running(x)],
               net := s.net.(counters := s.net.counters[i := Bump(s.net.counters[i], 1, 0)]));
  }

  lemma {:induction false} SomebodyHolds(queues: seq<Queue>, n: nat) returns (v: nat)
    requires HeldIn(queues, n) != multiset{}
    ensures v < |queues| && Held(queues[v], n) != multiset{}
    decreases |queues|
  {
    hide Held;
    var z := |queues| - 1;
    if Held(queues[z], n) != multiset{} {
      v := z;
    } else {
      v := SomebodyHolds(queues[..z], n);
    }
  }

  lemma {:induction false} SomebodyCarries(pes: seq<Mode>) returns (i: nat)
    requires CarriedBy(pes) != multiset{}
    ensures i < |pes| && Carried(pes[i]) != multiset{}
    decreases |pes|
  {
    hide Carried;
    var z := |pes| - 1;
    if Carried(pes[z]) != multiset{} {
      i := z;
    } else {
      i := SomebodyCarries(pes[..z]);
    }
  }

  lemma {:induction false} SomebodyFlies(f: map<nat, seq<Task>>, n: nat) returns (t: nat)
    requires InFlight(f, n) != multiset{}
    ensures t < n && t in f
  {
    if n - 1 in f {
      t := n - 1;
    } else {
      t := SomebodyFlies(f, n - 1);
    }
  }

  /** Work never gets stuck: a live task can be worked on by someone who is still in the loop. */
  lemma LiveWorkProceeds(s: System) returns (i: nat, a: Step, s': System)
    requires RInv(s) && Live(s) != multiset{}
    ensures SameSize(s) && i < |s.pes| && CanWork(s, i)
    ensures Next(s, a, s') && !a.Attempt? && !a.Broadcast?
  {
    i := SomebodyCanWork(s);
    hide RInv, Live, Next, CanWork;
    a, s' := CanWorkIsStep(s, i);
  }

  lemma SomebodyCanWork(s: System) returns (i: nat)
    requires RInv(s) && Live(s) != multiset{}
    ensures SameSize(s) && i < |s.pes| && CanWork(s, i)
  {
    RInvParts(s);
    hide RInv, Inv, Moments, Conserved, Leavers;
    if CarriedBy(s.pes) != multiset{} {
      i := SomebodyCarries(s.pes);
      hide CarriedBy, HeldIn;
    } else {
      var v := SomebodyHolds(s.queues, |s.pes|);
      hide CarriedBy, HeldIn, Flights, InFlight;
      i := HeldCanWork(s, v);
    }
  }

  lemma HeldCanWork(s: System, v: nat) returns (i: nat)
    requires RInv(s) && Live(s) != multiset{} && v < |s.queues| && SameSize(s)
             && Held(s.queues[v], |s.pes|) != multiset{}
    ensures i < |s.pes| && CanWork(s, i)
  {
    RInvParts(s);
    hide RInv, Inv, Moments, Conserved, Leavers, Live;
    if InFlight(s.queues[v].flight, |s.pes|) != multiset{} {
      i := SomebodyFlies(s.queues[v].flight, |s.pes|);
      hide InFlight;
      assert FlightOk(s.queues[v], s.pes, v);
      assert Steals(s.pes, i, v);
    } else {
      hide InFlight;
      i := v;
      assert ModeOk(s.pes[v], |s.queues|);
      NotDone(s, v);
      StealsFrom(s, v);
    }
  }

  lemma NotDone(s: System, v: nat)
    requires RInv(s) && Live(s) != multiset{} && v < |s.pes|
    ensures !s.pes[v].Done?
  {
    if s.pes[v].Done? {
      RInvParts(s);
      hide RInv, Inv, Moments, Flights, Live, Decided, Conserved;
      DetectedIsDecided(s.net, v);
      DecidedMeansQuiet(s);
    }
  }

  /** When nothing is alive and somebody is still in the loop, a vote or a broadcast that makes
      progress can be made, so the loop is left in the end. */
  lemma QuietVoteProceeds(s: System) returns (a: Step, s': System)
    requires RInv(s) && Live(s) == multiset{} && exists i :: 0 <= i < |s.pes| && !s.pes[i].Done?
    ensures SameSize(s) && Next(s, a, s')
    ensures a.Attempt? || a.Broadcast?
    ensures Effective(s.net, if a.Attempt? then Vote(a.i) else SendRight(a.i))
  {
    RInvParts(s);
    hide RInv, Inv, Moments, Flights, Live, Conserved, Effective, Apply;
    QuietMeansNothing(s);
    assert !AllDetected(s.net);
    var n := NeverStuck(s.net);
    EffectiveIsVote(s.net, n);
    match n
    case Vote(i) =>
      a := Attempt(i);
      var net' := Apply(s.net, Vote(i));
      RootIsUp(s.net);
      VoteFrame(s.net, i);
      s' := s.(net := net', pes := if Detected(net', i) then s.pes[i := Done] else s.pes,
               moments := if |net'.evals| > |s.net.evals| then s.moments + [Now(s)] else s.moments);
    case SendRight(i) =>
      a := Broadcast(i);
      s' := s.(net := Apply(s.net, SendRight(i)));
  }

  lemma EffectiveIsVote(net: Net, a: Action)
    requires Effective(net, a)
    ensures Enabled(net, a) && !a.Work?
    ensures a.Vote? ==> a.i < |net.nodes| && Shape(net) && !Detected(net, a.i)
  {
  }
}
