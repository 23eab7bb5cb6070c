/** Every step of the runtime keeps its invariant. */
module RuntimeSteps {
  import opened TaskQueue
  import opened TerminationModel
  import opened TerminationInvariant
  import opened TerminationSteps
  import opened TerminationSafety
  import opened RuntimeModel
  import opened RuntimeInvariant

  // ---------------------------------------------------------------- queue events

  /** The element whose mode an event changes. */
  function Mover(v: nat, l: Label): nat {
    match l
    case Claimed(t, _) => t
    case Delivered(t, _) => t
    case _ => v
  }

  lemma EventModes(s: System, v: nat, l: Label)
    requires SameSize(s) && v < |s.pes| && MayHappen(s.pes, v, l)
    ensures var i := Mover(v, l);
            && i < |s.pes| && AfterEvent(s.pes, v, l) == s.pes[i := AfterEvent(s.pes, v, l)[i]]
            && (InTask(s.pes[i]) ==> InTask(AfterEvent(s.pes, v, l)[i]))
            && (!l.Silent? ==> !s.pes[i].Done? && !AfterEvent(s.pes, v, l)[i].Done?)
  {
  }

  /** What the mover gives to and takes from the queue, it had or gets. */
  lemma EventHands(s: System, v: nat, l: Label)
    requires SameSize(s) && v < |s.pes| && MayHappen(s.pes, v, l)
    ensures var i := Mover(v, l);
            Carried(AfterEvent(s.pes, v, l)[i]) + GivenBy(l) == Carried(s.pes[i]) + TakenBy(l) + NewTasks(s.pes, v, l)
  {
  }

  lemma Balance(h': multiset<Task>, h: multiset<Task>, q': multiset<Task>, q: multiset<Task>, g: multiset<Task>,
    t: multiset<Task>,
                c': multiset<Task>, c: multiset<Task>, m': multiset<Task>, m: multiset<Task>, n: multiset<Task>)
    requires h' + q == h + q' && q + g == q' + t && c' + m == c + m' && m' + g == m + t + n
    ensures h' + c' == h + c + n
  {
    forall e: Task
      ensures (h' + c')[e] == (h + c + n)[e]
    {
      assert (h' + q)[e] == (h + q')[e] && (q + g)[e] == (q' + t)[e];
      assert (c' + m)[e] == (c + m')[e] && (m' + g)[e] == (m + t + n)[e];
    }
  }

  lemma FlightsBounded(s: System, v: nat)
    requires SameSize(s) && Flights(s) && v < |s.queues|
    ensures forall t :: t in s.queues[v].flight ==> t < |s.pes|
  {
    assert FlightOk(s.queues[v], s.pes, v);
  }

  /** An event moves live tasks around and adds exactly the new ones. */
  lemma EventLive(s: System, v: nat, l: Label, s': System)
    requires Next(s, Event(v, l), s') && Flights(s) && Flights(s')
    ensures Live(s') == Live(s) + NewTasks(s.pes, v, l)
  {
    var i, n := Mover(v, l), |s.pes|;
    EventModes(s, v, l);
    EventHands(s, v, l);
    FlightsBounded(s, v);
    FlightsBounded(s', v);
    StepConserves(s.queues[v], l, s'.queues[v], n);
    HeldUpdate(s.queues, n, v, s'.queues[v]);
    CarriedUpdate(s.pes, i, s'.pes[i]);
    hide QueueStep, Held, HeldIn, CarriedBy, Carried, GivenBy, TakenBy, NewTasks, AfterEvent, MayHappen, Flights;
    Balance(HeldIn(s'.queues, n), HeldIn(s.queues, n), Held(s'.queues[v], n), Held(s.queues[v], n), GivenBy(l),
      TakenBy(l),
            CarriedBy(s'.pes), CarriedBy(s.pes), Carried(s'.pes[i]), Carried(s.pes[i]), NewTasks(s.pes, v, l));
  }

  /** The queue of an event and the mode of its mover change together. */
  lemma EventFlight(q: Queue, l: Label, q': Queue, pes: seq<Mode>, v: nat)
    requires v < |pes| && MayHappen(pes, v, l) && QueueStep(q, l, q') && FlightOk(q, pes, v)
    ensures FlightOk(q', AfterEvent(pes, v, l), v)
  {
    var pes' := AfterEvent(pes, v, l);
    forall t: nat
      ensures t in q'.flight <==> Steals(pes', t, v)
    {
      assert t in q.flight <==> Steals(pes, t, v);
    }
  }

  lemma OtherFlight(q: Queue, l: Label, pes: seq<Mode>, v: nat, u: nat)
    requires v < |pes| && u != v && MayHappen(pes, v, l) && FlightOk(q, pes, u)
    ensures FlightOk(q, AfterEvent(pes, v, l), u)
  {
    var pes' := AfterEvent(pes, v, l);
    forall t: nat
      ensures t in q.flight <==> Steals(pes', t, u)
    {
      assert t in q.flight <==> Steals(pes, t, u);
    }
  }

  lemma EventFlights(s: System, v: nat, l: Label, s': System)
    requires Next(s, Event(v, l), s') && Flights(s)
    ensures Flights(s')
  {
    hide QueueStep, MayHappen, AfterEvent;
    forall u: nat | u < |s'.queues|
      ensures FlightOk(s'.queues[u], s'.pes, u)
    {
      assert FlightOk(s.queues[u], s.pes, u);
      if u == v {
        EventFlight(s.queues[v], l, s'.queues[v], s.pes, v);
      } else {
        OtherFlight(s.queues[u], l, s.pes, v, u);
      }
    }
    EventMode(s, v, l, s');
  }

  lemma EventMode(s: System, v: nat, l: Label, s': System)
    requires Next(s, Event(v, l), s') && Flights(s)
    ensures forall i :: 0 <= i < |s'.pes| ==> ModeOk(s'.pes[i], |s'.queues|)
  {
    assert FlightOk(s.queues[v], s.pes, v);
    hide NewTasks;
  }

  /** An element that neither starts nor ends a steal. */
  lemma ModeFlights(s: System, s': System, i: nat, m: Mode)
    requires SameSize(s) && Flights(s) && i < |s.pes| && !s.pes[i].Stealing? && !m.Stealing? && !m.Holding?
    requires s'.queues == s.queues && s'.pes == s.pes[i := m]
    ensures Flights(s')
  {
    forall u: nat | u < |s'.queues|
      ensures FlightOk(s'.queues[u], s'.pes, u)
    {
      assert FlightOk(s.queues[u], s.pes, u);
      forall t: nat
        ensures t in s.queues[u].flight <==> Steals(s'.pes, t, u)
      {
        assert t in s.queues[u].flight <==> Steals(s.pes, t, u);
      }
    }
  }

  lemma {:induction false} CarriedIn(pes: seq<Mode>, i: nat)
    requires i < |pes|
    ensures Carried(pes[i]) <= CarriedBy(pes)
    decreases |pes|
  {
    hide Carried;
    if i < |pes| - 1 {
      CarriedIn(pes[..|pes| - 1], i);
    }
  }

  lemma CarriesOne(m: Mode)
    ensures InTask(m) ==> |Carried(m)| == 1
    ensures m.Searching? || m.Done? || m.Stealing? ==> Carried(m) == multiset{}
  {
  }

  /** A change of one mode changes what is alive by what that element carries. */
  lemma ModeLive(s: System, s': System, i: nat, m: Mode)
    requires i < |s.pes| && s'.queues == s.queues && s'.pes == s.pes[i := m]
    ensures Live(s') + Carried(s.pes[i]) == Live(s) + Carried(m)
    ensures |Live(s')| + |Carried(s.pes[i])| == |Live(s)| + |Carried(m)|
  {
    CarriedUpdate(s.pes, i, m);
    hide HeldIn, CarriedBy, Carried;
    var h, a, b := HeldIn(s.queues, |s.pes|), CarriedBy(s'.pes), CarriedBy(s.pes);
    assert (h + a) + Carried(s.pes[i]) == h + (a + Carried(s.pes[i]));
    assert (h + b) + Carried(m) == h + (b + Carried(m));
    assert |Live(s') + Carried(s.pes[i])| == |Live(s') | + |Carried(s.pes[i])|;
    assert |Live(s) + Carried(m)| == |Live(s)| + |Carried(m)|;
  }

  /** Nothing new comes from nothing. */
  lemma NothingNew(s: System, v: nat, l: Label)
    requires SameSize(s) && v < |s.pes| && MayHappen(s.pes, v, l) && Live(s) == multiset{}
    ensures NewTasks(s.pes, v, l) == multiset{}
  {
    CarriedIn(s.pes, v);
    CarriesOne(s.pes[v]);
    hide Held, HeldIn, CarriedBy, Carried;
    assert Carried(s.pes[v]) <= Live(s);
  }

  lemma EventCounts(s: System, v: nat, l: Label, s': System)
    requires Next(s, Event(v, l), s') && Flights(s) && Flights(s') && Conserved(s)
    ensures Conserved(s')
  {
    var i := Mover(v, l);
    hide QueueStep, Live, Flights, Uncounted, Total, Inv;
    EventLive(s, v, l, s');
    EventModes(s, v, l);
    EventAdds(s, v, l);
    UncountedUpdate(s.pes, i, s'.pes[i]);
    hide NewTasks, AfterEvent, MayHappen;
  }

  /** An event that adds a task leaves its adder to count it. */
  lemma EventAdds(s: System, v: nat, l: Label)
    requires SameSize(s) && v < |s.pes| && MayHappen(s.pes, v, l)
    ensures var i := Mover(v, l);
            && |NewTasks(s.pes, v, l)| == (if AfterEvent(s.pes, v, l)[i].Adding? then 1 else 0) - (if s.pes[i].Adding? then 1 else 0)
  {
    if l.Pushed? && s.pes[v].Running? {
      assert |multiset(l.es)| == |l.es|;
    }
  }

  /** Moments stay true when nobody leaves a task, no counter moves and no sample is taken. */
  lemma MomentsKept(s: System, s': System)
    requires SameSize(s) && SameSize(s') && |s'.pes| == |s.pes| && Moments(s)
    requires s'.moments == s.moments && s'.first == s.first
    requires s'.net.evals == s.net.evals && s'.net.samples == s.net.samples && s'.net.start == s.net.start
    requires forall j :: 0 <= j < |s.pes| ==>
               s.net.counters[j].completed + (if InTask(s.pes[j]) then 1 else 0)
               <= s'.net.counters[j].completed + (if InTask(s'.pes[j]) then 1 else 0)
    requires Live(s) == multiset{} ==> Live(s') == multiset{} && s'.dropped == s.dropped
    ensures Moments(s')
  {
    hide Live, Total;
    forall w | 0 <= w < |s.moments|
      ensures MomentOk(s', w)
    {
      assert MomentOk(s, w);
      forall j | j in s.moments[w].busy
        ensures j < |s.pes| && Busy(s', j, w) && BusyShows(s', j, w)
      {
        assert Busy(s, j, w) && BusyShows(s, j, w);
      }
    }
  }

  lemma EventKeeps(s: System, v: nat, l: Label, s': System)
    requires RInv(s) && Next(s, Event(v, l), s')
    ensures RInv(s')
  {
    hide RInv, Inv, Live, Moments, Conserved, Flights, QueueStep, MayHappen, AfterEvent;
    RInvParts(s);
    EventModes(s, v, l);
    EventFlights(s, v, l, s');
    EventCounts(s, v, l, s');
    EventLive(s, v, l, s');
    if Live(s) == multiset{} {
      NothingNew(s, v, l);
    }
    hide NewTasks;
    MomentsKept(s, s');
    EventLeavers(s, v, l, s');
    RInvWhole(s');
  }

  lemma EventLeavers(s: System, v: nat, l: Label, s': System)
    requires Next(s, Event(v, l), s') && Leavers(s)
    ensures SameSize(s') && Leavers(s')
  {
    EventModes(s, v, l);
    hide QueueStep, MayHappen, NewTasks;
  }

  // ---------------------------------------------------------------- counting and finishing

  /** Work that moves one counter up. */
  lemma CounterKeeps(net: Net, i: nat, spawned: nat, completed: nat)
    requires Inv(net) && i < |net.counters|
    ensures Inv(net.(counters := net.counters[i := Bump(net.counters[i], spawned, completed)]))
  {
    hide Inv;
    WorkKeeps(net, net.counters[i := Bump(net.counters[i], spawned, completed)]);
  }

  lemma CountConserves(s: System, i: nat, s': System)
    requires Next(s, Count(i), s') && Conserved(s)
    ensures Conserved(s') && Live(s') == Live(s)
  {
    hide Total, Live, Uncounted;
    TotalUpdate(s.net.counters, i, 1, 0);
    ModeLive(s, s', i, s'.pes[i]);
    UncountedUpdate(s.pes, i, s'.pes[i]);
    assert Carried(s'.pes[i]) == Carried(s.pes[i]);
    Cancel(Live(s'), Live(s), Carried(s.pes[i]));
    hide Carried;
  }

  lemma CountKeeps(s: System, i: nat, s': System)
    requires RInv(s) && Next(s, Count(i), s')
    ensures RInv(s')
  {
    hide RInv, Inv, Total, Live, Moments, Conserved, Flights;
    RInvParts(s);
    CounterKeeps(s.net, i, 1, 0);
    CountConserves(s, i, s');
    ModeFlights(s, s', i, s'.pes[i]);
    MomentsKept(s, s');
    RInvWhole(s');
  }

  /** A remote add moves one counter and one task out of reach; whoever makes it is inside a task. */
  lemma RemoteAddConserves(s: System, i: nat, x: Task, s': System)
    requires Next(s, RemoteAdd(i, x), s') && Conserved(s)
    ensures Conserved(s') && Live(s') == Live(s) && Live(s) != multiset{}
  {
    hide Total, HeldIn, CarriedBy, Uncounted, Carried;
    TotalUpdate(s.net.counters, i, 1, 0);
    CarriedIn(s.pes, i);
    CarriesOne(s.pes[i]);
    assert |s'.dropped| == |s.dropped| + 1;
    assert Carried(s.pes[i]) <= Live(s);
  }

  lemma RemoteAddKeeps(s: System, i: nat, x: Task, s': System)
    requires RInv(s) && Next(s, RemoteAdd(i, x), s')
    ensures RInv(s')
  {
    hide RInv, Inv, Total, Live, Moments, Conserved;
    RInvParts(s);
    CounterKeeps(s.net, i, 1, 0);
    RemoteAddConserves(s, i, x, s');
    MomentsKept(s, s');
    RInvWhole(s');
  }

  lemma Cancel(a: multiset<Task>, b: multiset<Task>, x: multiset<Task>)
    requires a + x == b + x
    ensures a == b
  {
    forall e: Task
      ensures a[e] == b[e]
    {
      assert (a + x)[e] == (b + x)[e];
    }
  }

  lemma FinishConserves(s: System, i: nat, s': System)
    requires Next(s, Finish(i), s') && Conserved(s)
    ensures Conserved(s') && Live(s') <= Live(s)
  {
    hide Total, Live, Uncounted;
    var x := multiset{s.pes[i].x};
    TotalUpdate(s.net.counters, i, 0, 1);
    ModeLive(s, s', i, Searching);
    UncountedUpdate(s.pes, i, Searching);
    assert Carried(s.pes[i]) == x && Carried(Searching) == multiset{};
    hide Carried;
    Less(s.executed, x, Live(s'), Live(s));
  }

  lemma Less(e: multiset<Task>, x: multiset<Task>, l': multiset<Task>, l: multiset<Task>)
    requires l' + x == l
    ensures l' <= l && (e + x) + l' == e + l
  {
    assert (e + x) + l' == e + (l' + x);
  }

  lemma FinishKeeps(s: System, i: nat, s': System)
    requires RInv(s) && Next(s, Finish(i), s')
    ensures RInv(s')
  {
    hide RInv, Inv, Total, Live, Moments, Conserved, Flights;
    RInvParts(s);
    CounterKeeps(s.net, i, 0, 1);
    FinishConserves(s, i, s');
    ModeFlights(s, s', i, Searching);
    MomentsKept(s, s');
    RInvWhole(s');
  }

  // ---------------------------------------------------------------- votes

  /** What a vote leaves alone: counters, the verdicts of others, earlier samples. */
  lemma VoteFrame(net: Net, i: nat)
    requires Shape(net) && Enabled(net, Vote(i)) && net.nodes[0].up
    ensures var net' := Apply(net, Vote(i));
            && Shape(net') && |net'.nodes| == |net.nodes| && net'.counters == net.counters && net'.start == net.start
            && (forall j :: 0 <= j < |net.nodes| && j != i ==> (Detected(net', j) <==> Detected(net, j)))
            && (forall j :: 0 <= j < |net.nodes| && j != i ==> net'.samples[j] == net.samples[j])
            && (net'.samples[i] == net.samples[i] || net'.samples[i] == net.samples[i] + [net.counters[i]])
            && (net'.evals == net.evals || net'.evals == net.evals + [net.counters])
  {
    hide HaveVotes;
  }

  /** When the root evaluates, nobody is ahead of it. */
  lemma NobodyAhead(net: Net, i: nat)
    requires Inv(net) && Enabled(net, Vote(i)) && |Apply(net, Vote(i)).evals| > |net.evals|
    ensures Shape(Apply(net, Vote(i))) && |Apply(net, Vote(i)).samples| == |net.nodes|
    ensures forall j :: 0 <= j < |net.nodes| ==> |Apply(net, Vote(i)).samples[j]| <= |net.evals| + 1
  {
    hide Inv, Tree, Root, Grounds, History, Apply, Judging, Enabled;
    RootIsUp(net);
    InvParts(net);
    var net' := Apply(net, Vote(i));
    VoteFrame(net, i);
    JudgesNow(net, i);
    forall j | 0 <= j < |net.nodes|
      ensures |net'.samples[j]| <= |net.evals| + 1
    {
      if j > 0 {
        AllVoted(net, j);
      }
    }
  }

  lemma JudgesNow(net: Net, i: nat)
    requires Shape(net) && Enabled(net, Vote(i)) && net.nodes[0].up && |Apply(net, Vote(i)).evals| > |net.evals|
    ensures i == 0 && (|net.nodes| > 1 ==> Judging(net))
  {
    hide HaveVotes;
  }

  lemma OldMoment(s: System, i: nat, s': System, w: nat)
    requires SameSize(s) && SameSize(s') && |s'.pes| == |s.pes| && Moments(s) && w < |s.moments| <= |s'.moments|
    requires i < |s.pes| && !InTask(s.pes[i])
    requires |s'.moments| == |s'.net.evals| && s'.moments[w] == s.moments[w]
    requires w < |s.net.evals| && s'.net.evals[w] == s.net.evals[w] && s'.net.counters == s.net.counters
    requires forall j :: 0 <= j < |s.pes| ==> (InTask(s'.pes[j]) <==> InTask(s.pes[j]))
    requires forall j :: 0 <= j < |s.pes| && j != i ==> s'.net.samples[j] == s.net.samples[j]
    requires s'.net.samples[i] == s.net.samples[i] || s'.net.samples[i] == s.net.samples[i] + [s.net.counters[i]]
    requires Live(s') == Live(s) && s'.dropped == s.dropped
    ensures MomentOk(s', w)
  {
    hide Live, Total;
    assert MomentOk(s, w);
    forall j | j in s.moments[w].busy
      ensures j < |s.pes| && Busy(s', j, w) && BusyShows(s', j, w)
    {
      assert Busy(s, j, w) && BusyShows(s, j, w);
    }
  }

  lemma NewMoment(s: System, s': System, w: nat)
    requires SameSize(s) && SameSize(s') && |s'.pes| == |s.pes| && Conserved(s)
    requires w == |s.moments| == |s.net.evals| && s'.moments == s.moments + [Now(s)]
    requires s'.net.evals == s.net.evals + [s.net.counters] && s'.net.counters == s.net.counters
    requires forall j :: 0 <= j < |s.pes| ==> (InTask(s'.pes[j]) <==> InTask(s.pes[j]))
    requires forall j :: 0 <= j < |s.pes| ==> |s'.net.samples[j]| <= w + 1
    requires Live(s') == Live(s) && s'.dropped == s.dropped
    ensures MomentOk(s', w)
  {
    hide Live, Total;
    var m := Now(s);
    if m.busy == {} {
      forall i | 0 <= i < |s.pes|
        ensures !s.pes[i].Adding?
      {
        assert i !in m.busy;
      }
      NobodyUncounted(s.pes);
    }
  }

  lemma VoteLeavers(s: System, i: nat, s': System)
    requires Next(s, Attempt(i), s') && Leavers(s) && s.net.nodes[0].up
    ensures SameSize(s') && |s'.pes| == |s.pes| && Leavers(s')
    ensures s'.pes == s.pes[i := s'.pes[i]] && (s'.pes[i].Searching? || s'.pes[i].Done?)
  {
    VoteFrame(s.net, i);
    hide Apply, Enabled, Live, Uncounted;
  }

  lemma VoteModes(s: System, i: nat, s': System)
    requires Next(s, Attempt(i), s') && Flights(s) && Leavers(s) && Inv(s.net)
    ensures |s'.pes| == |s.pes| && s'.queues == s.queues && s'.pes == s.pes[i := s'.pes[i]]
    ensures s'.net == Apply(s.net, Vote(i)) && SameSize(s')
    ensures Flights(s') && Leavers(s') && Live(s') == Live(s) && Uncounted(s'.pes) == Uncounted(s.pes)
    ensures !InTask(s.pes[i]) && forall j :: 0 <= j < |s.pes| ==> (InTask(s'.pes[j]) <==> InTask(s.pes[j]))
  {
    hide Inv, Apply, Enabled, Flights, Live, Uncounted;
    RootIsUp(s.net);
    VoteLeavers(s, i, s');
    hide Leavers;
    ModeLive(s, s', i, s'.pes[i]);
    UncountedUpdate(s.pes, i, s'.pes[i]);
    CarriesOne(s'.pes[i]);
    CarriesOne(s.pes[i]);
    hide Carried;
    Cancel(Live(s'), Live(s), multiset{});
    ModeFlights(s, s', i, s'.pes[i]);
  }

  lemma VoteKeepsMoments(s: System, i: nat, s': System)
    requires Next(s, Attempt(i), s') && Flights(s) && Leavers(s) && Inv(s.net) && Conserved(s) && Moments(s)
    requires SameSize(s') && |s'.pes| == |s.pes|
    ensures Moments(s')
  {
    hide Inv, Apply, Flights, Leavers, Conserved, Live, Total, Enabled, Now;
    VoteModes(s, i, s');
    RootIsUp(s.net);
    VoteFrame(s.net, i);
    if |s'.net.evals| > |s.net.evals| {
      NobodyAhead(s.net, i);
      NewMoment(s, s', |s.moments|);
    }
    forall w | 0 <= w < |s'.moments|
      ensures MomentOk(s', w)
    {
      if w < |s.moments| {
        OldMoment(s, i, s', w);
      }
    }
  }

  lemma VoteConserves(s: System, i: nat, s': System)
    requires Next(s, Attempt(i), s') && Flights(s) && Leavers(s) && Inv(s.net) && Conserved(s)
    ensures SameSize(s') && Conserved(s')
  {
    hide Inv, Apply, Enabled, Flights, Leavers, Live, Uncounted, Total;
    VoteModes(s, i, s');
    RootIsUp(s.net);
    VoteFrame(s.net, i);
  }

  lemma AttemptKeeps(s: System, i: nat, s': System)
    requires RInv(s) && Next(s, Attempt(i), s')
    ensures RInv(s')
  {
    hide RInv, Inv, Live, Moments, Flights, Leavers, Conserved, Apply, Enabled;
    RInvParts(s);
    VoteModes(s, i, s');
    VoteConserves(s, i, s');
    VoteKeepsMoments(s, i, s');
    StepKeeps(s.net, Vote(i));
    RInvWhole(s');
  }

  lemma BroadcastKeeps(s: System, i: nat, s': System)
    requires RInv(s) && Next(s, Broadcast(i), s')
    ensures RInv(s')
  {
    RInvParts(s);
    StepKeeps(s.net, SendRight(i));
    hide RInv, Inv, Total, Moments;
    hide Live;
    MomentsKept(s, s');
    RInvWhole(s');
  }

  // ---------------------------------------------------------------- all steps

  lemma BarrierInv(s: System)
    requires AtBarrier(s)
    ensures RInv(s)
  {
    InitInv(s.net);
    assert Uncounted(s.pes) == 0 by { NobodyUncounted(s.pes); }
    hide Inv, Total, Live, Uncounted;
  }

  lemma NextKeeps(s: System, a: Step, s': System)
    requires RInv(s) && Next(s, a, s')
    ensures RInv(s')
  {
    hide RInv, Next;
    match a
    case Event(v, l) => EventKeeps(s, v, l, s');
    case Count(i) => CountKeeps(s, i, s');
    case RemoteAdd(i, x) => RemoteAddKeeps(s, i, x, s');
    case Finish(i) => FinishKeeps(s, i, s');
    case Attempt(i) => AttemptKeeps(s, i, s');
    case Broadcast(i) => BroadcastKeeps(s, i, s');
  }
}
