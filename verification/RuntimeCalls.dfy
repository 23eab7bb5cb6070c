/** Whatever an element does in its loop, and whatever everyone else does in the gaps, steps of the
    runtime lead from the system it finds to the system it leaves: so all that holds of steps and of
    runs holds of elements that run the loop as it is written. */
module RuntimeCalls {
  import opened Turns
  import opened TaskQueue
  import opened TerminationModel
  import opened RuntimeModel
  import opened RuntimeTheorems
  import opened RuntimeWorker

  /** Steps from any state of the runtime. */
  ghost predicate IsFragment(ss: seq<System>, steps: seq<RuntimeModel.Step>) {
    |ss| == |steps| + 1 && forall i :: 0 <= i < |steps| ==> Next(ss[i], steps[i], ss[i + 1])
  }

  /** Some steps of the runtime lead from `o` to `s`. */
  ghost predicate Leads(o: System, s: System) {
    exists ss, steps :: IsFragment(ss, steps) && ss[0] == o && ss[|steps|] == s
  }

  /** Some run of the runtime ends in `s`. */
  ghost predicate Reachable(s: System) {
    exists ss, steps :: RuntimeTheorems.IsRun(ss, steps) && ss[|steps|] == s
  }

  lemma StartsHere(o: System)
    ensures Leads(o, o)
  {
    assert IsFragment([o], []) && [o][0] == o;
  }

  /** So what follows a run is the end of a run. */
  lemma LeadsToReachable(o: System, s: System)
    requires Reachable(o) && Leads(o, s)
    ensures Reachable(s)
  {
    hide Next, AtBarrier;
    var ss, steps :| RuntimeTheorems.IsRun(ss, steps) && ss[|steps|] == o;
    var zz, more :| IsFragment(zz, more) && zz[0] == o && zz[|more|] == s;
    var all, acts := ss + zz[1..], steps + more;
    forall i | 0 <= i < |acts|
      ensures Next(all[i], acts[i], all[i + 1])
    {
      if i < |steps| {
        assert Next(ss[i], steps[i], ss[i + 1]);
      } else {
        assert Next(zz[i - |steps|], more[i - |steps|], zz[i - |steps| + 1]);
      }
    }
    assert RuntimeTheorems.IsRun(all, acts) && all[|acts|] == s;
  }

  lemma MoveLeads(o: System, s: System, i: nat, m: Move)
    requires Leads(o, s)
    ensures Leads(o, Do(s, i, m))
  {
    hide SameSize, StepOf, Next;
    if SameSize(s) && i < |s.pes| && StepOf(s, i, m).Some? {
      StepIsNext(s, i, m);
      var ss, steps :| IsFragment(ss, steps) && ss[0] == o && ss[|steps|] == s;
      var zz, more := ss + [Do(s, i, m)], steps + [StepOf(s, i, m).value.0];
      assert IsFragment(zz, more) && zz[0] == o && zz[|more|] == Do(s, i, m);
    }
  }

  lemma {:induction false} OthersLead(o: System, s: System, me: nat, moves: seq<(nat, Move)>)
    requires Leads(o, s)
    ensures Leads(o, Others(s, me, moves))
    decreases |moves|
  {
    hide Leads, Do;
    if moves != [] {
      var (i, m) := moves[0];
      MoveLeads(o, s, i, m);
      OthersLead(o, if i != me then Do(s, i, m) else s, me, moves[1..]);
    }
  }

  lemma StealLeads(o: System, s: System, me: nat, r: Round, gap: nat)
    requires Leads(o, s)
    ensures Leads(o, StealCall(s, me, r, gap))
  {
    hide Leads, Do, Others;
    if CanSteal(s, r) {
      MoveLeads(o, s, me, Claim(r.v, r.n));
      OthersLead(o, Do(s, me, Claim(r.v, r.n)), me, Turn(r.turns, gap));
      var claimed := Others(Do(s, me, Claim(r.v, r.n)), me, Turn(r.turns, gap));
      MoveLeads(o, claimed, me, Deliver);
      OthersLead(o, Do(claimed, me, Deliver), me, Turn(r.turns, gap + 1));
      MoveLeads(o, Others(Do(claimed, me, Deliver), me, Turn(r.turns, gap + 1)), me, PushBlock);
    }
  }

  lemma VoteLeads(o: System, s: System, me: nat, turn: seq<(nat, Move)>)
    requires Leads(o, s)
    ensures Leads(o, VoteCall(s, me, turn))
  {
    hide Leads, Do, Others;
    var z := Do(s, me, VoteIt);
    MoveLeads(o, s, me, VoteIt);
    OthersLead(o, z, me, turn);
    MoveLeads(o, Others(z, me, turn), me, SendIt);
  }

  lemma RoundLeads(o: System, s: System, me: nat, r: Round)
    requires Leads(o, s)
    ensures Leads(o, RoundCall(s, me, r))
  {
    hide Leads, Do, Others, StealCall, VoteCall;
    OthersLead(o, s, me, Turn(r.turns, 0));
    StealLeads(o, Others(s, me, Turn(r.turns, 0)), me, r, 1);
    OthersLead(o, StealCall(Others(s, me, Turn(r.turns, 0)), me, r, 1), me, Turn(r.turns, 3));
    var stolen := Others(StealCall(Others(s, me, Turn(r.turns, 0)), me, r, 1), me, Turn(r.turns, 3));
    var z := Others(stolen, me, Turn(r.turns, 4));
    OthersLead(o, stolen, me, Turn(r.turns, 4));
    VoteLeads(o, z, me, Turn(r.turns, 5));
    MoveLeads(o, z, me, Pop);
  }

  lemma {:induction false} SearchLeads(o: System, s: System, me: nat, rounds: seq<Round>)
    requires Leads(o, s)
    ensures Leads(o, SearchCall(s, me, rounds).0)
    decreases |rounds|
  {
    hide Leads, RoundCall;
    if rounds != [] && Searches(s, me) {
      RoundLeads(o, s, me, rounds[0]);
      SearchLeads(o, RoundCall(s, me, rounds[0]), me, rounds[1..]);
    }
  }

  lemma AddLeads(o: System, s: System, me: nat, target: nat, y: Task, turn: seq<(nat, Move)>)
    requires Leads(o, s)
    ensures Leads(o, AddCall(s, me, target, y, turn))
  {
    hide Leads, Do, Others;
    MoveLeads(o, s, me, Add(y));
    OthersLead(o, Do(s, me, Add(y)), me, turn);
    MoveLeads(o, Others(Do(s, me, Add(y)), me, turn), me, CountIt);
    OthersLead(o, s, me, turn);
    MoveLeads(o, Others(s, me, turn), me, AddRemote(y));
  }

  lemma {:induction false} AddsLead(o: System, s: System, me: nat, adds: seq<(nat, Task)>, k: nat, turns: seq<seq<(nat, Move)>>, gap: nat)
    requires Leads(o, s) && k <= |adds|
    ensures Leads(o, AddsCall(s, me, adds, k, turns, gap))
    decreases k
  {
    hide Leads, Others, AddCall;
    if k == 0 {
      OthersLead(o, s, me, Turn(turns, gap));
    } else {
      AddsLead(o, s, me, adds, k - 1, turns, gap);
      var (target, y) := adds[k - 1];
      AddLeads(o, AddsCall(s, me, adds, k - 1, turns, gap), me, target, y, Turn(turns, gap + 2 * k - 1));
      var z := AddCall(AddsCall(s, me, adds, k - 1, turns, gap), me, target, y, Turn(turns, gap + 2 * k - 1));
      OthersLead(o, z, me, Turn(turns, gap + 2 * k));
    }
  }

  lemma ExecuteLeads(o: System, s: System, me: nat, adds: seq<(nat, Task)>, turns: seq<seq<(nat, Move)>>, gap: nat)
    requires Leads(o, s)
    ensures Leads(o, ExecuteCall(s, me, adds, turns, gap))
  {
    hide Leads, Do, AddsCall;
    AddsLead(o, s, me, adds, |adds|, turns, gap);
    MoveLeads(o, AddsCall(s, me, adds, |adds|, turns, gap), me, FinishIt);
  }

  lemma TaskLeads(o: System, s: System, me: nat, children: Task -> seq<(nat, Task)>, rounds: seq<Round>)
    requires Leads(o, s) && rounds != []
    ensures Leads(o, TaskCall(s, me, children, rounds).0)
  {
    hide Leads, Do, Others, ExecuteCall, SearchCall;
    var turns := rounds[0].turns;
    var s1 := Others(s, me, Turn(turns, 0));
    OthersLead(o, s, me, Turn(turns, 0));
    MoveLeads(o, s1, me, Pop);
    SearchLeads(o, Do(s1, me, Pop), me, rounds[1..]);
    var (z, rest) := GetBufCall(s1, me, rounds[1..]);
    if me < |z.pes| && z.pes[me].Running? {
      ExecuteLeads(o, z, me, children(z.pes[me].x), turns, 1);
    }
  }

  /** The whole of `gtc_process`. */
  lemma {:induction false} LoopLeads(o: System, s: System, me: nat, children: Task -> seq<(nat, Task)>, rounds: seq<Round>)
    requires Leads(o, s)
    ensures Leads(o, LoopCall(s, me, children, rounds))
    decreases |rounds|
  {
    hide Leads, TaskCall;
    if rounds != [] && Searches(s, me) {
      TaskLeads(o, s, me, children, rounds);
      var (z, rest) := TaskCall(s, me, children, rounds);
      LoopLeads(o, z, me, children, rest);
    }
  }

  // ---------------------------------------------------------------- gaps

  /** Which element takes a step. */
  function Who(a: Step): nat {
    match a
    case Event(v, l) => if l.Claimed? then l.thief else if l.Delivered? then l.thief else v
    case Count(i) => i
    case RemoteAdd(i, _) => i
    case Finish(i) => i
    case Attempt(i) => i
    case Broadcast(i) => i
  }

  predicate MeansNothing(a: Step) {
    a.Event? && a.l.Silent?
  }

  function MoveOf(s: System, a: Step): Move
    requires SameSize(s) && !MeansNothing(a)
  {
    match a
    case Event(v, Popped(_)) => Pop
    case Event(v, Claimed(_, es)) => Claim(v, |es|)
    case Event(v, Delivered(_, _)) => Deliver
    case Event(v, Pushed(es)) => if v < |s.pes| && s.pes[v].Holding? then PushBlock else if es != [] then Add(es[0]) else Pop
    case Count(_) => CountIt
    case RemoteAdd(_, x) => AddRemote(x)
    case Finish(_) => FinishIt
    case Attempt(_) => VoteIt
    case Broadcast(_) => SendIt
    case _ => Pop
  }

  lemma EventIsMove(s: System, v: nat, l: Label, s': System)
    requires Next(s, Event(v, l), s') && !l.Silent? && Who(Event(v, l)) < |s.pes|
    ensures var e := EventOf(s, Who(Event(v, l)), MoveOf(s, Event(v, l)));
            e.Some? && e.value == (v, l, s'.queues[v])
  {
    hide Live, AfterEvent, NewTasks;
    if l.Pushed? && !s.pes[v].Holding? {
      assert l.es == [l.es[0]];
    }
  }

  /** Every step of the runtime is a move. */
  lemma NextIsMove(s: System, a: Step, s': System)
    requires Next(s, a, s') && !MeansNothing(a) && Who(a) < |s.pes|
    ensures Do(s, Who(a), MoveOf(s, a)) == s'
  {
    hide Live, Uncounted, AfterEvent, NewTasks, MayHappen, QueueStep, EventOf, Apply, Enabled;
    if a.Event? {
      EventIsMove(s, a.v, a.l, s');
    }
  }

  lemma Changes(s: System, a: Step, s': System)
    requires Next(s, a, s')
    ensures Who(a) < |s.pes| && (MeansNothing(a) ==> s' == s)
  {
    hide Live, Uncounted, Apply;
    if MeansNothing(a) {
      assert s.queues[a.v := s'.queues[a.v]] == s.queues;
    }
  }

  /** Whatever the others can do, they can do it in a gap. */
  lemma {:induction false} AnyGap(ss: seq<System>, steps: seq<Step>, me: nat) returns (moves: seq<(nat, Move)>)
    requires |ss| == |steps| + 1
    requires forall i :: 0 <= i < |steps| ==> Next(ss[i], steps[i], ss[i + 1]) && Who(steps[i]) != me
    ensures Others(ss[0], me, moves) == ss[|steps|]
    decreases |steps|
  {
    hide Next, Do, Who, MeansNothing, SameSize;
    moves := [];
    if steps != [] {
      assert Next(ss[0], steps[0], ss[1]);
      Changes(ss[0], steps[0], ss[1]);
      moves := AnyGap(ss[1..], steps[1..], me);
      if !MeansNothing(steps[0]) {
        NextSized(ss[0], steps[0], ss[1]);
        NextIsMove(ss[0], steps[0], ss[1]);
        var first := (Who(steps[0]), MoveOf(ss[0], steps[0]));
        assert ([first] + moves)[1..] == moves;
        moves := [first] + moves;
      }
    }
  }

  lemma NextSized(s: System, a: Step, s': System)
    requires Next(s, a, s')
    ensures SameSize(s)
  {
    hide Live, Uncounted, Apply, Enabled, SameSize;
  }
}
