/** One processing element's `gtc_process` loop, as it is written, inside the whole runtime.  Between
    any two of its steps the other elements may take any number of theirs; which ones is a parameter,
    and moves that are not possible at that moment are passed over. */
module RuntimeWorker {
  import opened Turns
  import opened TaskQueue
  import opened TerminationModel
  import opened TerminationInvariant
  import opened TerminationSteps
  import opened RuntimeModel
  import opened RuntimeInvariant
  import opened RuntimeSteps
  import opened RuntimeTheorems

  /** A step an element may try to take. */
  datatype Move =
    | Pop
    | Claim(v: nat, n: nat)
    | Deliver
    | PushBlock
    | Add(x: Task)
    | AddRemote(x: Task)
    | CountIt
    | FinishIt
    | VoteIt
    | SendIt

  /** The queue event a move is, if it is possible. */
  function EventOf(s: System, i: nat, m: Move): Option<(nat, Label, Queue)>
    requires SameSize(s) && i < |s.pes|
  {
    var q := s.queues[i];
    match m
    case Pop =>
      if s.pes[i].Searching? && q.deque != [] then
        Some((i, Popped(q.deque[|q.deque| - 1]), q.(deque := q.deque[..|q.deque| - 1])))
      else None
    case Claim(v, n) =>
      if s.pes[i].Searching? && v < |s.queues| && 0 < n <= |s.queues[v].deque| && i !in s.queues[v].flight then
        var u := s.queues[v];
        Some((v, Claimed(i, u.deque[..n]), Queue(u.deque[n..], u.flight[i := u.deque[..n]])))
      else None
    case Deliver =>
      if s.pes[i].Stealing? && s.pes[i].v < |s.queues| && i in s.queues[s.pes[i].v].flight then
        var u := s.queues[s.pes[i].v];
        Some((s.pes[i].v, Delivered(i, u.flight[i]), u.(flight := u.flight - {i})))
      else None
    case PushBlock =>
      if s.pes[i].Holding? then Some((i, Pushed(s.pes[i].es), q.(deque := q.deque + s.pes[i].es))) else None
    case Add(x) =>
      if s.pes[i].Running? then Some((i, Pushed([x]), q.(deque := q.deque + [x]))) else None
    case _ => None
  }

  lemma EventPossible(s: System, i: nat, m: Move)
    requires SameSize(s) && i < |s.pes| && EventOf(s, i, m).Some?
    ensures var (v, l, q) := EventOf(s, i, m).value;
            v < |s.queues| && MayHappen(s.pes, v, l) && QueueStep(s.queues[v], l, q)
  {
    if m.Pop? {
      var d := s.queues[i].deque;
      assert d == d[..|d| - 1] + [d[|d| - 1]];
    } else if m.Claim? {
      var d := s.queues[m.v].deque;
      assert d == d[..m.n] + d[m.n..];
    }
  }

  /** The step of the runtime a move is, and the state after it; an impossible move does nothing. */
  function StepOf(s: System, i: nat, m: Move): Option<(Step, System)>
    requires SameSize(s) && i < |s.pes|
  {
    match m
    case CountIt =>
      if s.pes[i].Adding? then
        Some((Count(i), s.(pes := s.pes[i := Running(s.pes[i].x)],
                           net := s.net.(counters := s.net.counters[i := Bump(s.net.counters[i], 1, 0)]))))
      else None
    case AddRemote(x) =>
      if s.pes[i].Running? then
        Some((RemoteAdd(i, x), s.(dropped := s.dropped + multiset{x},
                                  net := s.net.(counters := s.net.counters[i := Bump(s.net.counters[i], 1, 0)]))))
      else None
    case FinishIt =>
      if s.pes[i].Running? then
        Some((Finish(i), s.(pes := s.pes[i := Searching], executed := s.executed + multiset{s.pes[i].x},
                            net := s.net.(counters := s.net.counters[i := Bump(s.net.counters[i], 0, 1)]))))
      else None
    case VoteIt =>
      if s.pes[i].Searching? && s.queues[i].deque == [] && Enabled(s.net, Vote(i)) then
        var net' := Apply(s.net, Vote(i));
        if Shape(net') && i < |net'.nodes| then
          Some((Attempt(i), s.(net := net', pes := if Detected(net', i) then s.pes[i := Done] else s.pes,
                               moments := if |net'.evals| > |s.net.evals| then s.moments + [Now(s)] else s.moments)))
        else None
      else None
    case SendIt =>
      if Enabled(s.net, SendRight(i)) then Some((Broadcast(i), s.(net := Apply(s.net, SendRight(i))))) else None
    case _ =>
      var e := EventOf(s, i, m);
      if e.None? then None
      else
        EventPossible(s, i, m);
        var (v, l, q) := e.value;
        Some((Event(v, l), s.(queues := s.queues[v := q], pes := AfterEvent(s.pes, v, l),
          added := s.added + NewTasks(s.pes, v, l))))
  }

  function Do(s: System, i: nat, m: Move): System {
    if SameSize(s) && i < |s.pes| && StepOf(s, i, m).Some? then StepOf(s, i, m).value.1 else s
  }

  lemma StepIsNext(s: System, i: nat, m: Move)
    requires SameSize(s) && i < |s.pes| && StepOf(s, i, m).Some?
    ensures Next(s, StepOf(s, i, m).value.0, Do(s, i, m))
  {
    hide Live, Uncounted, Apply, Enabled, NewTasks, Shape, QueueStep, EventOf, MayHappen, AfterEvent;
    if EventOf(s, i, m).Some? {
      EventPossible(s, i, m);
    }
  }

  lemma DoKeeps(s: System, i: nat, m: Move)
    requires RInv(s)
    ensures RInv(Do(s, i, m)) && SameSize(s) && SameSize(Do(s, i, m)) && |Do(s, i, m).pes| == |s.pes|
  {
    hide RInv, StepOf, Next;
    RInvParts(s);
    if i < |s.pes| && StepOf(s, i, m).Some? {
      StepIsNext(s, i, m);
      NextKeeps(s, StepOf(s, i, m).value.0, Do(s, i, m));
      RInvParts(Do(s, i, m));
      NextSize(s, StepOf(s, i, m).value.0, Do(s, i, m));
    }
  }

  /** What the moves on queues do. */
  lemma EventDoes(s: System, i: nat, m: Move)
    requires RInv(s) && i < |s.pes| && SameSize(s) && EventOf(s, i, m).Some?
    ensures var s', (v, l, q) := Do(s, i, m), EventOf(s, i, m).value;
            && v < |s.queues| && MayHappen(s.pes, v, l)
            && RInv(s') && SameSize(s') && |s'.pes| == |s.pes|
            && s'.queues == s.queues[v := q] && s'.pes == AfterEvent(s.pes, v, l) && s'.net == s.net
            && s'.added == s.added + NewTasks(s.pes, v, l) && s'.executed == s.executed && s'.dropped == s.dropped
  {
    hide RInv, MayHappen, AfterEvent, NewTasks, QueueStep, Shape, Apply, Enabled, Live, Uncounted;
    DoKeeps(s, i, m);
    EventPossible(s, i, m);
  }

  lemma NextSize(s: System, a: Step, s': System)
    requires RInv(s) && Next(s, a, s')
    ensures |s'.pes| == |s.pes|
  {
    hide RInv, Live, Apply, Enabled, QueueStep, MayHappen;
  }

  /** What an element has claimed stays in flight, whatever the others do. */
  ghost predicate MyFlight(queues: seq<Queue>, queues': seq<Queue>, me: nat) {
    && |queues'| == |queues|
    && forall v :: 0 <= v < |queues| && me in queues[v].flight ==>
         me in queues'[v].flight && queues'[v].flight[me] == queues[v].flight[me]
  }

  /** What the others cannot change about element `me`; its queue they can only empty, and what has
      been added, executed or dropped stays so. */
  ghost predicate MyPart(s: System, s': System, me: nat) {
    && SameSize(s) && SameSize(s') && |s'.pes| == |s.pes| && me < |s.pes|
    && s'.pes[me] == s.pes[me]
    && s'.net.counters[me] == s.net.counters[me]
    && s'.net.nodes[me].pending == s.net.nodes[me].pending
    && (s.queues[me].deque == [] ==> s'.queues[me].deque == [])
    && MyFlight(s.queues, s'.queues, me)
    && s.added <= s'.added && s.executed <= s'.executed && s.dropped <= s'.dropped
  }

  lemma VoteLeavesOthers(net: Net, i: nat, me: nat)
    requires Enabled(net, Vote(i)) && i != me && me < |net.nodes| && net.nodes[0].up
    ensures var net' := Apply(net, Vote(i));
            Shape(net') && |net'.nodes| == |net.nodes| && net'.nodes[me].pending == net.nodes[me].pending
              && net'.counters == net.counters
  {
    hide HaveVotes;
  }

  lemma SendLeavesOthers(net: Net, i: nat, me: nat)
    requires Enabled(net, SendRight(i)) && i != me && me < |net.nodes|
    ensures var net' := Apply(net, SendRight(i));
            Shape(net') && |net'.nodes| == |net.nodes| && net'.nodes[me].pending == net.nodes[me].pending
              && net'.counters == net.counters
  {
  }

  lemma EventLeavesOthers(s: System, i: nat, m: Move, me: nat)
    requires SameSize(s) && i < |s.pes| && i != me && me < |s.pes| && EventOf(s, i, m).Some?
    ensures var (v, l, q) := EventOf(s, i, m).value;
            && v < |s.queues| && MayHappen(s.pes, v, l) && AfterEvent(s.pes, v, l)[me] == s.pes[me]
            && (s.queues[me].deque == [] ==> s.queues[v := q][me].deque == [])
            && MyFlight(s.queues, s.queues[v := q], me)
  {
    EventPossible(s, i, m);
  }

  lemma CounterLeavesMine(s: System, i: nat, m: Move, me: nat)
    requires SameSize(s) && SameSize(Do(s, i, m)) && |Do(s, i, m).pes| == |s.pes|
    requires i != me && i < |s.pes| && me < |s.pes| && (m.CountIt? || m.FinishIt? || m.AddRemote?)
    ensures MyPart(s, Do(s, i, m), me)
  {
    hide Live, Uncounted, Apply, Enabled, EventOf;
    FlightStays(s.queues, me);
    hide MyFlight;
  }

  lemma NetLeavesMine(s: System, i: nat, m: Move, me: nat)
    requires SameSize(s) && SameSize(Do(s, i, m)) && |Do(s, i, m).pes| == |s.pes| && s.net.nodes[0].up
    requires i != me && i < |s.pes| && me < |s.pes| && (m.VoteIt? || m.SendIt?)
    ensures MyPart(s, Do(s, i, m), me)
  {
    hide Live, Uncounted, Apply, Enabled, EventOf;
    FlightStays(s.queues, me);
    hide MyFlight;
    if Enabled(s.net, Vote(i)) {
      VoteLeavesOthers(s.net, i, me);
    }
    if Enabled(s.net, SendRight(i)) {
      SendLeavesOthers(s.net, i, me);
    }
  }

  lemma QueueMoveLeavesMine(s: System, i: nat, m: Move, me: nat)
    requires RInv(s) && SameSize(s) && i != me && i < |s.pes| && me < |s.pes| && EventOf(s, i, m).Some?
    ensures MyPart(s, Do(s, i, m), me)
  {
    hide RInv, Do, EventOf, MayHappen, AfterEvent, MyFlight, Shape;
    EventDoes(s, i, m);
    EventLeavesOthers(s, i, m, me);
  }

  lemma NothingHappens(s: System, i: nat, m: Move, me: nat)
    requires SameSize(s) && me < |s.pes|
    requires i >= |s.pes| || (!m.CountIt? && !m.FinishIt? && !m.AddRemote? && !m.VoteIt? && !m.SendIt? && EventOf(s, i, m).None?)
    ensures MyPart(s, Do(s, i, m), me)
  {
    hide EventOf, Apply, Enabled, Live, Uncounted;
    FlightStays(s.queues, me);
    hide MyFlight;
  }

  lemma OthersLeaveMine(s: System, i: nat, m: Move, me: nat)
    requires RInv(s) && i != me && me < |s.pes|
    ensures MyPart(s, Do(s, i, m), me)
  {
    hide RInv, Do, EventOf, MyPart, Inv, Moments, Flights, Conserved, Leavers, Shape;
    DoKeeps(s, i, m);
    RInvParts(s);
    RootIsUp(s.net);
    if i >= |s.pes| {
      NothingHappens(s, i, m, me);
    } else if m.CountIt? || m.FinishIt? || m.AddRemote? {
      CounterLeavesMine(s, i, m, me);
    } else if m.VoteIt? || m.SendIt? {
      NetLeavesMine(s, i, m, me);
    } else if EventOf(s, i, m).Some? {
      QueueMoveLeavesMine(s, i, m, me);
    } else {
      NothingHappens(s, i, m, me);
    }
  }

  lemma FlightStays(queues: seq<Queue>, me: nat)
    ensures MyFlight(queues, queues, me)
  {
  }

  lemma FlightStaysOn(queues: seq<Queue>, queues': seq<Queue>, queues'': seq<Queue>, me: nat)
    requires MyFlight(queues, queues', me) && MyFlight(queues', queues'', me)
    ensures MyFlight(queues, queues'', me)
  {
  }

  /** The moves of the others, in turn; moves of `me` are passed over. */
  function Others(s: System, me: nat, moves: seq<(nat, Move)>): System
    decreases |moves|
  {
    if moves == [] then s
    else
      var (i, m) := moves[0];
      Others(if i != me then Do(s, i, m) else s, me, moves[1..])
  }

  lemma {:induction false} OthersKeep(s: System, me: nat, moves: seq<(nat, Move)>)
    requires RInv(s) && me < |s.pes|
    ensures RInv(Others(s, me, moves)) && MyPart(s, Others(s, me, moves), me)
    decreases |moves|
  {
    hide RInv, Do, MyFlight;
    RInvParts(s);
    FlightStays(s.queues, me);
    if moves != [] {
      var (i, m) := moves[0];
      if i != me {
        DoKeeps(s, i, m);
        OthersLeaveMine(s, i, m, me);
        OthersKeep(Do(s, i, m), me, moves[1..]);
        FlightStaysOn(s.queues, Do(s, i, m).queues, Others(s, me, moves).queues, me);
      } else {
        OthersKeep(s, me, moves[1..]);
      }
    }
  }

  // ---------------------------------------------------------------- the loop of one element

  datatype Outcome = Got(x: Task) | Terminated | Unfinished

  /** The environment of one round of the search loop: the victim the selector picks, how much the
      victim's ring lets it steal, and what the others do in each gap. */
  datatype Round = Round(v: nat, n: nat, turns: seq<seq<(nat, Move)>>)

  /** The tasks among `adds` for the own element, in the order they are added. */
  function OwnTasks(adds: seq<(nat, Task)>, me: nat): seq<Task> {
    if adds == [] then []
    else OwnTasks(adds[..|adds| - 1], me) + if adds[|adds| - 1].0 == me then [adds[|adds| - 1].1] else []
  }

  lemma OneMoreOwn(adds: seq<(nat, Task)>, k: nat, me: nat)
    requires k < |adds|
    ensures OwnTasks(adds[..k + 1], me) == OwnTasks(adds[..k], me) + if adds[k].0 == me then [adds[k].1] else []
  {
    assert adds[..k + 1][..k] == adds[..k];
  }

  /** What adding `y` to element `target` puts into the collection, and what it drops. */
  function KeptOf(target: nat, y: Task, me: nat): multiset<Task> {
    if target == me then multiset{y} else multiset{}
  }

  function DroppedOf(target: nat, y: Task, me: nat): multiset<Task> {
    if target != me then multiset{y} else multiset{}
  }

  function Kept(adds: seq<(nat, Task)>, me: nat): multiset<Task> {
    if adds == [] then multiset{}
    else
      var (target, y) := adds[|adds| - 1];
      Kept(adds[..|adds| - 1], me) + KeptOf(target, y, me)
  }

  function Dropped(adds: seq<(nat, Task)>, me: nat): multiset<Task> {
    if adds == [] then multiset{}
    else
      var (target, y) := adds[|adds| - 1];
      Dropped(adds[..|adds| - 1], me) + DroppedOf(target, y, me)
  }

  function Tasks(adds: seq<(nat, Task)>): (r: seq<Task>)
    ensures |r| == |adds|
  {
    seq(|adds|, k requires 0 <= k < |adds| => adds[k].1)
  }

  /** Every task a callback adds is kept or dropped. */
  lemma {:induction false} AddsSplit(adds: seq<(nat, Task)>, me: nat)
    ensures Kept(adds, me) + Dropped(adds, me) == multiset(Tasks(adds))
    decreases |adds|
  {
    if adds != [] {
      var k := |adds| - 1;
      var (target, y) := adds[k];
      AddsSplit(adds[..k], me);
      TasksOneMore(adds);
      assert KeptOf(target, y, me) + DroppedOf(target, y, me) == multiset{y};
      hide KeptOf, DroppedOf, Tasks;
    }
  }

  lemma TasksOneMore(adds: seq<(nat, Task)>)
    requires adds != []
    ensures var k := |adds| - 1; multiset(Tasks(adds)) == multiset(Tasks(adds[..k])) + multiset{adds[k].1}
  {
    assert Tasks(adds) == Tasks(adds[..|adds| - 1]) + [adds[|adds| - 1].1];
  }

  /** Which of the two depends on its target alone. */
  lemma {:induction false} KeptAreOwn(adds: seq<(nat, Task)>, me: nat, y: Task)
    requires y in Kept(adds, me)
    ensures exists k :: 0 <= k < |adds| && adds[k] == (me, y)
    decreases |adds|
  {
    var k := |adds| - 1;
    if adds[k] != (me, y) {
      KeptAreOwn(adds[..k], me, y);
      var j :| 0 <= j < k && adds[..k][j] == (me, y);
      assert adds[j] == (me, y);
    }
  }

  lemma {:induction false} DroppedAreRemote(adds: seq<(nat, Task)>, me: nat, y: Task)
    requires y in Dropped(adds, me)
    ensures exists k :: 0 <= k < |adds| && adds[k].0 != me && adds[k].1 == y
    decreases |adds|
  {
    var k := |adds| - 1;
    if adds[k].0 == me || adds[k].1 != y {
      DroppedAreRemote(adds[..k], me, y);
      var j :| 0 <= j < k && adds[..k][j].0 != me && adds[..k][j].1 == y;
      assert adds[j].0 != me && adds[j].1 == y;
    }
  }

  /** What the callbacks of several tasks add, keep and drop. */
  function Spawns(children: Task -> seq<(nat, Task)>, ran: seq<Task>): nat {
    if ran == [] then 0 else Spawns(children, ran[..|ran| - 1]) + |children(ran[|ran| - 1])|
  }

  function KeptBy(children: Task -> seq<(nat, Task)>, ran: seq<Task>, me: nat): multiset<Task> {
    if ran == [] then multiset{} else KeptBy(children, ran[..|ran| - 1], me) + Kept(children(ran[|ran| - 1]), me)
  }

  function DroppedBy(children: Task -> seq<(nat, Task)>, ran: seq<Task>, me: nat): multiset<Task> {
    if ran == [] then multiset{} else DroppedBy(children, ran[..|ran| - 1], me) + Dropped(children(ran[|ran| - 1]), me)
  }

  predicate EndsWith(q: seq<Task>, es: seq<Task>) {
    |es| <= |q| && q[|q| - |es|..] == es
  }

  /** The front of the victim's queue is now the end of the thief's. */
  predicate Brought(queues: seq<Queue>, r: Round, n: nat, mine: seq<Task>) {
    r.v < |queues| && n == r.n <= |queues[r.v].deque| && EndsWith(mine, queues[r.v].deque[..n])
  }

  /** The block a thief may take, as large as the victim's ring lets it. */
  predicate MayTake(queues: seq<Queue>, v: nat, n: nat) {
    v < |queues| && 0 < n <= |queues[v].deque|
  }

  predicate OtherDeques(queues: seq<Queue>, queues': seq<Queue>, v: nat) {
    |queues'| == |queues| && forall u :: 0 <= u < |queues| && u != v ==> queues'[u].deque == queues[u].deque
  }

  predicate SameDeques(queues: seq<Queue>, queues': seq<Queue>) {
    |queues'| == |queues| && forall u :: 0 <= u < |queues| ==> queues'[u].deque == queues[u].deque
  }

  /** After a steal, and a pop, that nobody interfered with. */
  predicate TookLast(queues: seq<Queue>, v: nat, n: nat, queues': seq<Queue>, me: nat, x: Task)
    requires MayTake(queues, v, n)
  {
    && v < |queues'| && me < |queues'|
    && queues[v].deque == queues'[me].deque + [x] + queues'[v].deque && |queues'[me].deque| == n - 1
  }

  /** What a vote does to the tree: the machine's vote and, for an element with two children, the
      second half of its broadcast. */
  predicate VoteTaken(net: Net, net': Net, me: nat, quiet: bool) {
    && Enabled(net, Vote(me))
    && var z := Apply(net, Vote(me));
    && me < |z.nodes|
    && (!z.nodes[me].pending ==> net' == z)
    && (z.nodes[me].pending && quiet ==> Enabled(z, SendRight(me)) && net' == Apply(z, SendRight(me)))
  }

  /** What follows a try to steal: a vote if there is nothing of its own, or else a look there. */
  predicate VotedOrLooked(s: System, s': System, me: nat, r: Round, o: Outcome) {
    var z := Others(s, me, Turn(r.turns, 4));
    && me < |s.queues| && me < |z.queues|
    && if s.queues[me].deque == [] then VoteTaken(z.net, s'.net, me, Turn(r.turns, 5) == []) && (o.Terminated? <==> Finds(z.net, me))
       else if z.queues[me].deque == [] then o.Unfinished?
       else me < |s'.queues| && o.Got? && z.queues[me].deque == s'.queues[me].deque + [o.x]
  }

  /** The vote would detect termination. */
  predicate Finds(net: Net, me: nat) {
    Enabled(net, Vote(me)) && Shape(Apply(net, Vote(me))) && me < |Apply(net, Vote(me)).nodes| && Detected(Apply(net, Vote(me)), me)
  }

  // ---------------------------------------------------------------- calls as functions of their gaps

  predicate Searches(s: System, me: nat) {
    me < |s.pes| && s.pes[me].Searching?
  }

  predicate NothingOwn(s: System, me: nat) {
    me < |s.queues| && s.queues[me].deque == []
  }

  predicate CanSteal(s: System, r: Round) {
    r.v < |s.queues| && 0 < r.n <= |s.queues[r.v].deque|
  }

  function StealCall(s: System, me: nat, r: Round, gap: nat): System {
    if !CanSteal(s, r) then s
    else
      var claimed := Others(Do(s, me, Claim(r.v, r.n)), me, Turn(r.turns, gap));
      var copied := Others(Do(claimed, me, Deliver), me, Turn(r.turns, gap + 1));
      Do(copied, me, PushBlock)
  }

  function VoteCall(s: System, me: nat, turn: seq<(nat, Move)>): System {
    var z := Do(s, me, VoteIt);
    if me < |z.net.nodes| && z.net.nodes[me].pending then Do(Others(z, me, turn), me, SendIt) else z
  }

  /** One round of the search: steal, and then vote or look into the own queue. */
  function RoundCall(s: System, me: nat, r: Round): System {
    var stolen := Others(StealCall(Others(s, me, Turn(r.turns, 0)), me, r, 1), me, Turn(r.turns, 3));
    var z := Others(stolen, me, Turn(r.turns, 4));
    if NothingOwn(stolen, me) then VoteCall(z, me, Turn(r.turns, 5)) else Do(z, me, Pop)
  }

  /** Rounds until there is something to run, or termination, or no round is left; the system then,
      and the rounds not used. */
  function SearchCall(s: System, me: nat, rounds: seq<Round>): (r: (System, seq<Round>))
    ensures |r.1| <= |rounds|
    decreases |rounds|
  {
    if rounds == [] || !Searches(s, me) then (s, rounds)
    else SearchCall(RoundCall(s, me, rounds[0]), me, rounds[1..])
  }

  function GetBufCall(s: System, me: nat, rounds: seq<Round>): (r: (System, seq<Round>))
    ensures |r.1| <= |rounds|
  {
    SearchCall(Do(s, me, Pop), me, rounds)
  }

  function AddCall(s: System, me: nat, target: nat, y: Task, turn: seq<(nat, Move)>): System {
    if target == me then Do(Others(Do(s, me, Add(y)), me, turn), me, CountIt)
    else Do(Others(s, me, turn), me, AddRemote(y))
  }

  /** A callback up to its `k`-th add. */
  function AddsCall(s: System, me: nat, adds: seq<(nat, Task)>, k: nat, turns: seq<seq<(nat, Move)>>, gap: nat): System
    requires k <= |adds|
  {
    if k == 0 then Others(s, me, Turn(turns, gap))
    else
      var (target, y) := adds[k - 1];
      var z := AddCall(AddsCall(s, me, adds, k - 1, turns, gap), me, target, y, Turn(turns, gap + 2 * k - 1));
      Others(z, me, Turn(turns, gap + 2 * k))
  }

  function ExecuteCall(s: System, me: nat, adds: seq<(nat, Task)>, turns: seq<seq<(nat, Move)>>, gap: nat): System {
    Do(AddsCall(s, me, adds, |adds|, turns, gap), me, FinishIt)
  }

  /** Once around the loop: get a task and run it; the system then, and the rounds not used. */
  function TaskCall(s: System, me: nat, children: Task -> seq<(nat, Task)>, rounds: seq<Round>): (r: (System, seq<Round>))
    requires rounds != []
    ensures |r.1| < |rounds|
  {
    var turns := rounds[0].turns;
    var (z, rest) := GetBufCall(Others(s, me, Turn(turns, 0)), me, rounds[1..]);
    (if me < |z.pes| && z.pes[me].Running? then ExecuteCall(z, me, children(z.pes[me].x), turns, 1) else z, rest)
  }

  /** The whole loop, and what everyone else does in its gaps. */
  function LoopCall(s: System, me: nat, children: Task -> seq<(nat, Task)>, rounds: seq<Round>): System
    decreases |rounds|
  {
    if rounds == [] || !Searches(s, me) then s
    else
      var (z, rest) := TaskCall(s, me, children, rounds);
      LoopCall(z, me, children, rest)
  }

  /** What is added, executed or dropped stays so, and nobody joins or leaves. */
  predicate NothingGoes(s: System, s': System) {
    |s'.pes| == |s.pes| && s.added <= s'.added && s.executed <= s'.executed && s.dropped <= s'.dropped
  }

  lemma AppendEnds(q: seq<Task>, es: seq<Task>)
    ensures EndsWith(q + es, es)
  {
  }

  class Worker {
    const me: nat
    /** The tasks the callback of a task adds, each with the element it is added to. */
    const children: Task -> seq<(nat, Task)>
    var sys: System

    /** Between two steps of its loop. */
    ghost predicate Valid()
      reads this
    {
      RInv(sys) && me < |sys.pes| && SameSize(sys) && !sys.net.nodes[me].pending
    }

    method Yield(turn: seq<(nat, Move)>)
      requires RInv(sys) && me < |sys.pes|
      modifies this
      ensures RInv(sys) && sys == Others(old(sys), me, turn) && MyPart(old(sys), sys, me)
    {
      OthersKeep(sys, me, turn);
      hide RInv;
      sys := Others(sys, me, turn);
    }

    /** `gtc_get_local_buf`. */
    method GetLocal() returns (x: Option<Task>)
      requires Valid() && sys.pes[me].Searching?
      modifies this
      ensures Valid() && sys == Do(old(sys), me, Pop) && NothingGoes(old(sys), sys) && sys.net == old(sys.net)
      ensures x.Some? ==> sys.pes[me] == Running(x.value)
      ensures x.Some? ==> old(sys.queues[me].deque) == sys.queues[me].deque + [x.value]
      ensures OtherDeques(old(sys.queues), sys.queues, me)
      ensures x.None? ==> sys == old(sys) && sys.queues[me].deque == []
    {
      hide RInv, Do, Shape;
      var q := sys.queues[me].deque;
      x := None;
      if q == [] {
        NothingToPop(sys, me);
      } else {
        EventDoes(sys, me, Pop);
        x := Some(q[|q| - 1]);
        sys := Do(sys, me, Pop);
      }
    }

    /** `gtc_steal_tail`: claim a block, copy it, push it onto the own queue. */
    method StealTail(r: Round, gap: nat) returns (n: nat)
      requires Valid() && sys.pes[me].Searching?
      modifies this
      ensures Valid() && sys == StealCall(old(sys), me, r, gap) && NothingGoes(old(sys), sys)
      ensures sys.pes[me].Searching? && sys.net.counters[me] == old(sys.net.counters[me])
      ensures n == if MayTake(old(sys.queues), r.v, r.n) then r.n else 0
      ensures n > 0 && r.turns == [] && r.v != me ==>
                && r.v < |sys.queues| && sys.queues[r.v].deque == old(sys.queues)[r.v].deque[n..]
                && sys.queues[me].deque == old(sys.queues[me].deque) + old(sys.queues)[r.v].deque[..n]
      ensures n > 0 ==> Brought(old(sys.queues), r, n, sys.queues[me].deque)
      ensures n == 0 ==> sys == old(sys)
    {
      hide RInv, Shape, EndsWith, Do, Others;
      n := 0;
      if r.v < |sys.queues| && 0 < r.n <= |sys.queues[r.v].deque| {
        n := r.n;
        ghost var block := sys.queues[r.v].deque[..n];
        TakeBlock(r.v, n);
        NoGap(sys, me);
        Yield(Turn(r.turns, gap));
        var es := BringHome();
        assert es == block;
        NoGap(sys, me);
        Yield(Turn(r.turns, gap + 1));
        ghost var mine := sys.queues[me].deque;
        PushHome(es);
        AppendEnds(mine, es);
      }
    }

    method TakeBlock(v: nat, n: nat)
      requires Valid() && sys.pes[me].Searching? && v < |sys.queues| && 0 < n <= |sys.queues[v].deque|
      modifies this
      ensures Valid() && sys == Do(old(sys), me, Claim(v, n)) && NothingGoes(old(sys), sys) && sys.net == old(sys.net)
      ensures sys.pes[me] == Stealing(v) && v < |sys.queues| && me in sys.queues[v].flight
      ensures sys.queues[v].flight[me] == old(sys.queues[v].deque)[..n]
      ensures sys.queues[v].deque == old(sys.queues[v].deque)[n..] && OtherDeques(old(sys.queues), sys.queues, v)
    {
      hide RInv, Do, Shape;
      NotInFlight(sys, me, v);
      EventDoes(sys, me, Claim(v, n));
      sys := Do(sys, me, Claim(v, n));
    }

    method BringHome() returns (es: seq<Task>)
      requires Valid() && sys.pes[me].Stealing?
      modifies this
      ensures Valid() && sys == Do(old(sys), me, Deliver) && NothingGoes(old(sys), sys) && sys.net == old(sys.net)
      ensures sys.pes[me] == Holding(es)
      ensures var v := old(sys.pes[me].v);
              v < |old(sys.queues)| && me in old(sys.queues)[v].flight && es == old(sys.queues)[v].flight[me]
      ensures SameDeques(old(sys.queues), sys.queues)
    {
      hide RInv, Do, Shape;
      InOneFlight(sys, me);
      EventDoes(sys, me, Deliver);
      es := sys.queues[sys.pes[me].v].flight[me];
      sys := Do(sys, me, Deliver);
    }

    method PushHome(es: seq<Task>)
      requires Valid() && sys.pes[me] == Holding(es)
      modifies this
      ensures Valid() && sys == Do(old(sys), me, PushBlock) && NothingGoes(old(sys), sys) && sys.net == old(sys.net)
      ensures sys.pes[me].Searching? && sys.queues[me].deque == old(sys.queues[me].deque) + es
      ensures OtherDeques(old(sys.queues), sys.queues, me)
    {
      hide RInv, Do, Shape;
      EventDoes(sys, me, PushBlock);
      sys := Do(sys, me, PushBlock);
    }

    /** The vote of an element that finds its own queue empty. */
    method AttemptVote(turn: seq<(nat, Move)>) returns (terminated: bool)
      requires Valid() && sys.pes[me].Searching? && sys.queues[me].deque == []
      modifies this
      ensures Valid() && sys == VoteCall(old(sys), me, turn) && NothingGoes(old(sys), sys)
      ensures VoteTaken(old(sys.net), sys.net, me, turn == []) && (terminated <==> Finds(old(sys.net), me))
      ensures sys.net.counters[me] == old(sys.net.counters[me])
      ensures if terminated then sys.pes[me].Done? else sys.pes[me].Searching?
    {
      hide RInv, Do, Shape, Others;
      VoteDoes(sys, me);
      sys := Do(sys, me, VoteIt);
      terminated := sys.pes[me].Done?;
      if sys.net.nodes[me].pending {
        NoGap(sys, me);
        Yield(turn);
        SendDoes(sys, me);
        sys := Do(sys, me, SendIt);
      }
    }

    /** `gtc_get_buf`, as far as `rounds` goes. */
    method GetBuf(rounds: seq<Round>) returns (o: Outcome, rest: seq<Round>)
      requires Valid() && sys.pes[me].Searching?
      modifies this
      ensures Valid() && (sys, rest) == GetBufCall(old(sys), me, rounds) && NothingGoes(old(sys), sys)
      ensures match o
              case Got(x) => sys.pes[me] == Running(x)
              case Terminated => sys.pes[me].Done?
              case Unfinished => sys.pes[me].Searching? && rest == []
      ensures old(sys.queues[me].deque) != [] ==>
                && rest == rounds && o.Got? && old(sys.queues[me].deque) == sys.queues[me].deque + [o.x]
      ensures old(sys.queues[me].deque) == [] && rounds != [] && rounds[0].turns == []
              && MayTake(old(sys.queues), rounds[0].v, rounds[0].n) ==>
                && rest == rounds[1..] && o.Got? && TookLast(old(sys.queues), rounds[0].v, rounds[0].n, sys.queues, me, o.x)
      ensures sys.net.counters[me] == old(sys.net.counters[me])
    {
      hide RInv, RoundCall, Do, MayTake, TookLast, VoteTaken, Finds;
      rest := rounds;
      var x := GetLocal();
      if x.Some? {
        return Got(x.value), rest;
      }
      while rest != []
        invariant Valid() && sys.pes[me].Searching? && NothingGoes(old(sys), sys)
        invariant SearchCall(sys, me, rest) == GetBufCall(old(sys), me, rounds)
        invariant old(sys.queues[me].deque) == []
        invariant || (rest == rounds && sys == old(sys))
                  || (rounds != [] && !(rounds[0].turns == [] && MayTake(old(sys.queues), rounds[0].v, rounds[0].n)))
        invariant sys.net.counters[me] == old(sys.net.counters[me])
        decreases |rest|
      {
        var r := rest[0];
        rest := rest[1..];
        ghost var tried, brought;
        o, tried, brought := OneRound(r);
        if !o.Unfinished? {
          return o, rest;
        }
      }
      o := Unfinished;
    }

    /** One round of the search loop: steal, and then vote or look into the own queue.  `tried` is the
        system when the victim's turn comes, `brought` that after the steal. */
    method OneRound(r: Round) returns (o: Outcome, ghost tried: System, ghost brought: System)
      requires Valid() && sys.pes[me].Searching?
      modifies this
      ensures Valid() && sys == RoundCall(old(sys), me, r) && NothingGoes(old(sys), sys)
      ensures match o
              case Got(x) => sys.pes[me] == Running(x)
              case Terminated => sys.pes[me].Done?
              case Unfinished => sys.pes[me].Searching?
      ensures tried == Others(old(sys), me, Turn(r.turns, 0)) && me < |brought.queues|
      ensures if MayTake(tried.queues, r.v, r.n) then Brought(tried.queues, r, r.n, brought.queues[me].deque) else brought == tried
      ensures VotedOrLooked(Others(brought, me, Turn(r.turns, 3)), sys, me, r, o)
      ensures old(sys.queues[me].deque) == [] && r.turns == [] && MayTake(old(sys.queues), r.v, r.n) ==>
                o.Got? && TookLast(old(sys.queues), r.v, r.n, sys.queues, me, o.x)
      ensures sys.net.counters[me] == old(sys.net.counters[me])
    {
      hide RInv, Others, Do, StealCall, VoteCall, Shape, VotedOrLooked, EndsWith, TookLast, OtherDeques;
      ghost var s0 := sys;
      NoGap(sys, me);
      Yield(Turn(r.turns, 0));
      tried := sys;
      var stolen := StealTail(r, 1);
      brought := sys;
      NoGap(sys, me);
      Yield(Turn(r.turns, 3));
      ghost var own := sys.queues;
      o := VoteOrGet(r);
      if s0.queues[me].deque == [] && r.turns == [] && MayTake(s0.queues, r.v, r.n) {
        QuietTakesLast(s0.queues, own, sys.queues, me, r.v, r.n, o.x);
      }
    }

    /** What follows a try to steal. */
    method VoteOrGet(r: Round) returns (o: Outcome)
      requires Valid() && sys.pes[me].Searching?
      modifies this
      ensures Valid() && NothingGoes(old(sys), sys)
      ensures var z := Others(old(sys), me, Turn(r.turns, 4));
              sys == if NothingOwn(old(sys), me) then VoteCall(z, me, Turn(r.turns, 5)) else Do(z, me, Pop)
      ensures VotedOrLooked(old(sys), sys, me, r, o)
      ensures r.turns == [] && old(sys.queues[me].deque) != [] ==>
                && o.Got? && old(sys.queues[me].deque) == sys.queues[me].deque + [o.x]
                && OtherDeques(old(sys.queues), sys.queues, me)
      ensures match o
              case Got(x) => sys.pes[me] == Running(x)
              case Terminated => sys.pes[me].Done?
              case Unfinished => sys.pes[me].Searching?
      ensures sys.net.counters[me] == old(sys.net.counters[me])
    {
      hide RInv, Others, Do, VoteCall, Shape, VoteTaken, Finds;
      o := Unfinished;
      NoGap(sys, me);
      if sys.queues[me].deque == [] {
        Yield(Turn(r.turns, 4));
        var terminated := AttemptVote(Turn(r.turns, 5));
        if terminated {
          o := Terminated;
        }
      } else {
        Yield(Turn(r.turns, 4));
        var x := GetLocal();
        if x.Some? {
          o := Got(x.value);
        }
      }
    }

    /** `gtc_task_execute`: the callback adds its tasks, each pushed and then counted, and only then
        is the task itself counted as completed. */
    method Execute(x: Task, turns: seq<seq<(nat, Move)>>, gap: nat)
      requires Valid() && sys.pes[me] == Running(x)
      modifies this
      ensures Valid() && sys == ExecuteCall(old(sys), me, children(x), turns, gap) && |sys.pes| == old(|sys.pes|)
      ensures sys.pes[me].Searching?
      ensures sys.net.counters[me] == Bump(old(sys.net.counters[me]), |children(x)|, 1)
      ensures old(sys.executed) + multiset{x} <= sys.executed
      ensures old(sys.added) + Kept(children(x), me) <= sys.added
      ensures old(sys.dropped) + Dropped(children(x), me) <= sys.dropped
      ensures turns == [] ==> sys.queues[me].deque == old(sys.queues[me].deque) + OwnTasks(children(x), me)
    {
      hide RInv, Others, Do, AddsCall, SameSize, Kept, Dropped, AddedSoFar, OwnTasks;
      ghost var s0 := sys;
      NoGap(sys, me);
      assert me < |s0.net.counters| by { SizedCounters(s0, me); }
      Yield(Turn(turns, gap));
      AddsStart(s0, sys, me, children(x), turns, gap);
      var k := 0;
      while k < |children(x)|
        invariant k <= |children(x)| && Valid() && sys.pes[me] == Running(x)
        invariant sys == AddsCall(s0, me, children(x), k, turns, gap)
        invariant AddedSoFar(s0, sys, me, children(x), k, turns == [])
      {
        ghost var s := sys;
        AddsStep(s0, me, children(x), k, turns, gap);
        OneAdd(x, children(x)[k].0, children(x)[k].1, turns, gap + 2 * k + 1);
        OneMoreAdd(s0, s, sys, me, children(x), k, turns == []);
        k := k + 1;
      }
      AllAdded(s0, sys, me, children(x), turns == []);
      CompleteTask(x);
    }

    /** One add of a callback, and the gap after it. */
    method OneAdd(x: Task, target: nat, y: Task, turns: seq<seq<(nat, Move)>>, gap: nat)
      requires Valid() && sys.pes[me] == Running(x)
      modifies this
      ensures Valid() && sys.pes[me] == Running(x)
      ensures sys == Others(AddCall(old(sys), me, target, y, Turn(turns, gap)), me, Turn(turns, gap + 1))
      ensures AddedOne(old(sys), sys, me, target, y, turns == [])
    {
      hide RInv, Others, AddCall, MyFlight;
      AddTask(x, target, y, Turn(turns, gap));
      NoGap(sys, me);
      Yield(Turn(turns, gap + 1));
    }

    /** `gtc_add` from inside a callback: a task for the own element is pushed and then counted, a
        task for another one is counted only. */
    method AddTask(x: Task, target: nat, y: Task, turn: seq<(nat, Move)>)
      requires Valid() && sys.pes[me] == Running(x)
      modifies this
      ensures Valid() && sys == AddCall(old(sys), me, target, y, turn) && |sys.pes| == old(|sys.pes|)
      ensures sys.pes[me] == Running(x)
      ensures sys.net.counters[me] == Bump(old(sys.net.counters[me]), 1, 0)
      ensures old(sys.executed) <= sys.executed
      ensures old(sys.added) + (if target == me then multiset{y} else multiset{}) <= sys.added
      ensures old(sys.dropped) + (if target == me then multiset{} else multiset{y}) <= sys.dropped
      ensures turn == [] ==>
                sys.queues[me].deque == old(sys.queues[me].deque) + (if target == me then [y] else [])
    {
      hide RInv, Do, Shape, Others;
      if target == me {
        EventDoes(sys, me, Add(y));
        sys := Do(sys, me, Add(y));
        NoGap(sys, me);
        Yield(turn);
        CountDoes(sys, me);
        sys := Do(sys, me, CountIt);
      } else {
        NoGap(sys, me);
        Yield(turn);
        RemoteDoes(sys, me, y);
        sys := Do(sys, me, AddRemote(y));
      }
    }

    method CompleteTask(x: Task)
      requires Valid() && sys.pes[me] == Running(x)
      modifies this
      ensures Valid() && sys == Do(old(sys), me, FinishIt) && |sys.pes| == old(|sys.pes|) && sys.pes[me].Searching?
      ensures sys.net.counters[me] == Bump(old(sys.net.counters[me]), 0, 1)
      ensures sys.executed == old(sys.executed) + multiset{x}
      ensures sys.added == old(sys.added) && sys.dropped == old(sys.dropped) && sys.queues == old(sys.queues)
    {
      hide RInv, Do, Shape;
      FinishDoes(sys, me);
      sys := Do(sys, me, FinishIt);
    }

    /** `gtc_process`, as far as `rounds` goes: when it returns, every task ever added anywhere has
        been executed exactly once and nothing is left.  It does not return once any task was added
        to another element.  `ran` are the tasks this element executes. */
    method Process(rounds: seq<Round>) returns (finished: bool, ghost ran: seq<Task>)
      requires Valid() && sys.pes[me].Searching?
      modifies this
      ensures Valid() && sys == LoopCall(old(sys), me, children, rounds) && NothingGoes(old(sys), sys)
      ensures finished ==> sys.pes[me].Done? && NothingLeft(sys) && sys.executed == sys.added
      ensures finished ==> sys.dropped == multiset{}
      ensures !finished ==> sys.pes[me].Searching?
      ensures Ran(old(sys), sys, me, children, ran)
    {
      hide RInv, NothingLeft, TaskCall, LoopCall, Ran, SameSize;
      ghost var s0 := sys;
      RanNothing(s0, me, children);
      var rest := rounds;
      finished, ran := false, [];
      while rest != [] && !finished
        invariant Valid() && NothingGoes(s0, sys) && Ran(s0, sys, me, children, ran)
        invariant if finished then sys.pes[me].Done? else sys.pes[me].Searching?
        invariant LoopCall(sys, me, children, rest) == LoopCall(s0, me, children, rounds)
        decreases |rest|
      {
        LoopOnce(sys, me, children, rest);
        ghost var s, x := sys, None;
        rest, x := OneTask(rest);
        RanOneMore(s0, s, sys, me, children, ran, x);
        ran := ran + if x.Some? then [x.value] else [];
        finished := sys.pes[me].Done?;
      }
      LoopEnds(sys, me, children, rest);
      if finished {
        DoneMeansDone(sys, me);
      }
    }

    /** Once around the loop; `x` is the task executed. */
    method OneTask(rounds: seq<Round>) returns (rest: seq<Round>, ghost x: Option<Task>)
      requires Valid() && sys.pes[me].Searching? && rounds != []
      modifies this
      ensures Valid() && (sys, rest) == TaskCall(old(sys), me, children, rounds) && NothingGoes(old(sys), sys)
      ensures sys.pes[me].Searching? || sys.pes[me].Done?
      ensures x.None? ==> sys.pes[me].Done? || rest == []
      ensures RanOne(old(sys), sys, me, children, x)
    {
      hide RInv, Others, GetBufCall, ExecuteCall, SameSize, Kept, Dropped, MyFlight, TookLast, MayTake, RanOne;
      ghost var s0 := sys;
      SizedCounters(s0, me);
      var turns := rounds[0].turns;
      Yield(Turn(turns, 0));
      var o;
      o, rest := GetBuf(rounds[1..]);
      x := None;
      ghost var s1 := sys;
      SizedCounters(s1, me);
      if o.Got? {
        x := Some(o.x);
        Execute(o.x, turns, 1);
        SizedCounters(sys, me);
      }
      RanSome(s0, s1, sys, me, children, x);
    }
  }

  /** What executing one task, or none, leaves of the element's account: its counters, and what is in
      the collection, executed and dropped because of it. */
  ghost predicate RanOne(s: System, s': System, me: nat, children: Task -> seq<(nat, Task)>, x: Option<Task>) {
    && me < |s.net.counters| && me < |s'.net.counters|
    && match x
       case None => s'.net.counters[me] == s.net.counters[me]
       case Some(y) =>
         && s'.net.counters[me] == Bump(s.net.counters[me], |children(y)|, 1)
         && s.executed + multiset{y} <= s'.executed
         && s.added + Kept(children(y), me) <= s'.added && s.dropped + Dropped(children(y), me) <= s'.dropped
  }

  /** The same for several tasks. */
  ghost predicate Ran(s: System, s': System, me: nat, children: Task -> seq<(nat, Task)>, ran: seq<Task>) {
    && me < |s.net.counters| && me < |s'.net.counters|
    && s'.net.counters[me] == Bump(s.net.counters[me], Spawns(children, ran), |ran|)
    && s.executed + multiset(ran) <= s'.executed
    && s.added + KeptBy(children, ran, me) <= s'.added && s.dropped + DroppedBy(children, ran, me) <= s'.dropped
  }

  lemma RanNothing(s: System, me: nat, children: Task -> seq<(nat, Task)>)
    requires SameSize(s) && me < |s.pes|
    ensures Ran(s, s, me, children, [])
  {
  }

  lemma RanOneMore(s0: System, s: System, s': System, me: nat, children: Task -> seq<(nat, Task)>, ran: seq<Task>, x: Option<Task>)
    requires Ran(s0, s, me, children, ran) && RanOne(s, s', me, children, x) && NothingGoes(s, s')
    ensures Ran(s0, s', me, children, ran + if x.Some? then [x.value] else [])
  {
    hide Kept, Dropped;
    if x.Some? {
      var more := ran + [x.value];
      assert more[..|more| - 1] == ran;
    } else {
      assert ran + [] == ran;
    }
  }

  lemma RanSome(s0: System, s: System, s': System, me: nat, children: Task -> seq<(nat, Task)>, x: Option<Task>)
    requires me < |s0.net.counters| && me < |s.net.counters| && me < |s'.net.counters|
    requires NothingGoes(s0, s) && s.net.counters[me] == s0.net.counters[me]
    requires if x.None? then s' == s
             else && s'.net.counters[me] == Bump(s.net.counters[me], |children(x.value)|, 1)
                  && s.executed + multiset{x.value} <= s'.executed
                  && s.added + Kept(children(x.value), me) <= s'.added
                  && s.dropped + Dropped(children(x.value), me) <= s'.dropped
    ensures RanOne(s0, s', me, children, x)
  {
    hide Kept, Dropped;
  }

  lemma LoopOnce(s: System, me: nat, children: Task -> seq<(nat, Task)>, rounds: seq<Round>)
    requires rounds != [] && Searches(s, me)
    ensures var (z, rest) := TaskCall(s, me, children, rounds);
            LoopCall(s, me, children, rounds) == LoopCall(z, me, children, rest)
  {
    hide TaskCall;
  }

  lemma LoopEnds(s: System, me: nat, children: Task -> seq<(nat, Task)>, rounds: seq<Round>)
    requires rounds == [] || !Searches(s, me)
    ensures LoopCall(s, me, children, rounds) == s
  {
    hide TaskCall;
  }

  /** A steal into an empty queue, and a pop. */
  lemma QuietTakesLast(q0: seq<Queue>, q1: seq<Queue>, q2: seq<Queue>, me: nat, v: nat, n: nat, x: Task)
    requires MayTake(q0, v, n) && v != me && me < |q0| && me < |q1| && v < |q1| && me < |q2| && q0[me].deque == []
    requires q1[v].deque == q0[v].deque[n..] && q1[me].deque == q0[me].deque + q0[v].deque[..n]
    requires q1[me].deque == q2[me].deque + [x] && OtherDeques(q1, q2, me)
    ensures TookLast(q0, v, n, q2, me, x)
  {
    assert q0[v].deque == q0[v].deque[..n] + q0[v].deque[n..];
  }

  lemma NoGap(s: System, me: nat)
    ensures Others(s, me, []) == s
  {
  }

  lemma NothingToPop(s: System, i: nat)
    requires SameSize(s) && i < |s.pes| && s.queues[i].deque == []
    ensures Do(s, i, Pop) == s
  {
    hide Shape;
  }

  /** One add of element `me`, whatever everyone else does, and if they do nothing. */
  ghost predicate AddedOne(s: System, s': System, me: nat, target: nat, y: Task, quiet: bool) {
    && |s'.pes| == |s.pes| && me < |s.net.counters| && me < |s'.net.counters|
    && s'.net.counters[me] == Bump(s.net.counters[me], 1, 0)
    && s.executed <= s'.executed && s.added + KeptOf(target, y, me) <= s'.added
    && s.dropped + DroppedOf(target, y, me) <= s'.dropped
    && me < |s.queues| && me < |s'.queues|
    && (quiet ==> s'.queues[me].deque == s.queues[me].deque + if target == me then [y] else [])
  }

  /** The first `k` adds of a callback. */
  ghost predicate AddedSoFar(s: System, s': System, me: nat, adds: seq<(nat, Task)>, k: nat, quiet: bool) {
    && k <= |adds| && |s'.pes| == |s.pes| && me < |s.net.counters| && me < |s'.net.counters|
    && s'.net.counters[me] == Bump(s.net.counters[me], k, 0)
    && s.executed <= s'.executed && s.added + Kept(adds[..k], me) <= s'.added
    && s.dropped + Dropped(adds[..k], me) <= s'.dropped
    && me < |s.queues| && me < |s'.queues|
    && (quiet ==> s'.queues[me].deque == s.queues[me].deque + OwnTasks(adds[..k], me))
  }

  lemma SizedCounters(s: System, me: nat)
    requires SameSize(s) && me < |s.pes|
    ensures me < |s.net.counters|
  {
  }

  lemma AddsStart(s: System, s': System, me: nat, adds: seq<(nat, Task)>, turns: seq<seq<(nat, Move)>>, gap: nat)
    requires SameSize(s) && s' == Others(s, me, Turn(turns, gap)) && MyPart(s, s', me)
    ensures s' == AddsCall(s, me, adds, 0, turns, gap) && AddedSoFar(s, s', me, adds, 0, turns == [])
  {
    hide MyFlight, Do;
    NoGap(s, me);
    hide Others;
  }

  lemma AllAdded(s: System, s': System, me: nat, adds: seq<(nat, Task)>, quiet: bool)
    requires AddedSoFar(s, s', me, adds, |adds|, quiet)
    ensures |s'.pes| == |s.pes| && me < |s.net.counters| && me < |s'.net.counters|
    ensures s'.net.counters[me] == Bump(s.net.counters[me], |adds|, 0)
    ensures s.executed <= s'.executed && s.added + Kept(adds, me) <= s'.added && s.dropped + Dropped(adds, me) <= s'.dropped
    ensures me < |s.queues| && me < |s'.queues|
    ensures quiet ==> s'.queues[me].deque == s.queues[me].deque + OwnTasks(adds, me)
  {
    hide Kept, Dropped;
    assert adds[..|adds|] == adds;
  }

  lemma AddsStep(s: System, me: nat, adds: seq<(nat, Task)>, k: nat, turns: seq<seq<(nat, Move)>>, gap: nat)
    requires k < |adds|
    ensures var z := AddCall(AddsCall(s, me, adds, k, turns, gap), me, adds[k].0, adds[k].1, Turn(turns, gap + 2 * k + 1));
            AddsCall(s, me, adds, k + 1, turns, gap) == Others(z, me, Turn(turns, gap + 2 * k + 2))
  {
    hide Others, AddCall;
  }

  lemma OneMoreAdd(s0: System, s: System, s': System, me: nat, adds: seq<(nat, Task)>, k: nat, quiet: bool)
    requires k < |adds| && AddedSoFar(s0, s, me, adds, k, quiet) && AddedOne(s, s', me, adds[k].0, adds[k].1, quiet)
    ensures AddedSoFar(s0, s', me, adds, k + 1, quiet)
  {
    hide KeptOf, DroppedOf, OwnTasks, Kept, Dropped;
    OneMoreOwn(adds, k, me);
    OneMoreKept(adds, k, me);
  }

  lemma OneMoreKept(adds: seq<(nat, Task)>, k: nat, me: nat)
    requires k < |adds|
    ensures Kept(adds[..k + 1], me) == Kept(adds[..k], me) + KeptOf(adds[k].0, adds[k].1, me)
    ensures Dropped(adds[..k + 1], me) == Dropped(adds[..k], me) + DroppedOf(adds[k].0, adds[k].1, me)
  {
    hide KeptOf, DroppedOf;
    assert adds[..k + 1][..k] == adds[..k];
  }

  // What the moves without a queue event do.

  lemma CountDoes(s: System, i: nat)
    requires RInv(s) && i < |s.pes| && s.pes[i].Adding?
    ensures var s' := Do(s, i, CountIt);
            && RInv(s') && SameSize(s) && SameSize(s') && |s'.pes| == |s.pes| && s'.pes[i] == Running(s.pes[i].x)
            && s'.net.counters[i] == Bump(s.net.counters[i], 1, 0) && s'.net.nodes == s.net.nodes && s'.queues == s.queues
            && s'.added == s.added && s'.executed == s.executed && s'.dropped == s.dropped
  {
    hide RInv, Live, Uncounted, Apply, Enabled, NewTasks, EventOf, MayHappen, AfterEvent;
    DoKeeps(s, i, CountIt);
  }

  lemma RemoteDoes(s: System, i: nat, y: Task)
    requires RInv(s) && i < |s.pes| && s.pes[i].Running?
    ensures var s' := Do(s, i, AddRemote(y));
            && RInv(s') && SameSize(s) && SameSize(s') && |s'.pes| == |s.pes| && s'.pes == s.pes
            && s'.net.counters[i] == Bump(s.net.counters[i], 1, 0) && s'.net.nodes == s.net.nodes && s'.queues == s.queues
            && s'.added == s.added && s'.executed == s.executed && s'.dropped == s.dropped + multiset{y}
  {
    hide RInv, Live, Uncounted, Apply, Enabled, NewTasks, EventOf, MayHappen, AfterEvent;
    DoKeeps(s, i, AddRemote(y));
  }

  lemma FinishDoes(s: System, i: nat)
    requires RInv(s) && i < |s.pes| && s.pes[i].Running?
    ensures var s' := Do(s, i, FinishIt);
            && RInv(s') && SameSize(s) && SameSize(s') && |s'.pes| == |s.pes| && s'.pes[i] == Searching
            && s'.net.counters[i] == Bump(s.net.counters[i], 0, 1) && s'.net.nodes == s.net.nodes && s'.queues == s.queues
            && s'.added == s.added && s'.executed == s.executed + multiset{s.pes[i].x} && s'.dropped == s.dropped
  {
    hide RInv, Live, Uncounted, Apply, Enabled, NewTasks, EventOf, MayHappen, AfterEvent;
    DoKeeps(s, i, FinishIt);
  }

  lemma VoteDoes(s: System, i: nat)
    requires RInv(s) && i < |s.pes| && s.pes[i].Searching? && SameSize(s) && s.queues[i].deque == []
             && !s.net.nodes[i].pending
    ensures Enabled(s.net, Vote(i))
    ensures var s' := Do(s, i, VoteIt);
            && RInv(s') && SameSize(s') && |s'.pes| == |s.pes| && s'.net == Apply(s.net, Vote(i))
            && s'.net.counters == s.net.counters
            && s'.added == s.added && s'.executed == s.executed && s'.dropped == s.dropped
            && (s'.pes[i].Done? <==> Detected(s'.net, i)) && (!s'.pes[i].Done? ==> s'.pes[i].Searching?)
  {
    hide RInv, Inv, Flights, Moments, Conserved, Live, Uncounted, Apply, EventOf, AfterEvent, MayHappen, NewTasks;
    RInvParts(s);
    DoKeeps(s, i, VoteIt);
    RootIsUp(s.net);
    VoteFrame(s.net, i);
  }

  lemma SendDoes(s: System, i: nat)
    requires RInv(s) && i < |s.pes| && SameSize(s) && s.net.nodes[i].pending
    ensures var s' := Do(s, i, SendIt);
            && RInv(s') && SameSize(s') && |s'.pes| == |s.pes| && s'.pes == s.pes && s'.queues == s.queues
            && Enabled(s.net, SendRight(i)) && s'.net == Apply(s.net, SendRight(i))
            && s'.net.counters == s.net.counters && !s'.net.nodes[i].pending
            && s'.added == s.added && s'.executed == s.executed && s'.dropped == s.dropped
  {
    hide RInv, Inv, Flights, Moments, Conserved, Live, Uncounted, EventOf, AfterEvent, MayHappen, NewTasks;
    RInvParts(s);
    DoKeeps(s, i, SendIt);
    PendingHasRight(s.net, i);
  }

  lemma PendingHasRight(net: Net, i: nat)
    requires Inv(net) && i < |net.nodes| && net.nodes[i].pending
    ensures Enabled(net, SendRight(i))
  {
    InvParts(net);
    hide Inv, Tree, Grounds, History, Edge, Verdict, TreeSum;
    if i > 0 {
      TreeAt(net, i);
    }
  }

  lemma NotInFlight(s: System, me: nat, v: nat)
    requires RInv(s) && me < |s.pes| && s.pes[me].Searching? && v < |s.queues|
    ensures me !in s.queues[v].flight
  {
    RInvParts(s);
    hide RInv;
    assert FlightOk(s.queues[v], s.pes, v);
    assert !Steals(s.pes, me, v);
  }

  lemma InOneFlight(s: System, me: nat)
    requires RInv(s) && me < |s.pes| && s.pes[me].Stealing?
    ensures s.pes[me].v < |s.queues| && me in s.queues[s.pes[me].v].flight
  {
    RInvParts(s);
    hide RInv;
    StealsFrom(s, me);
  }
}
