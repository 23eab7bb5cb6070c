/** The queue every ring buffer of the runtime implements, seen from outside: a deque of
    unclaimed tasks plus, for each thief, the block it has claimed but not yet received. */
module TaskQueue {

  datatype Option<T> = None | Some(value: T)

  /** Who acts on a ring. */
  datatype Participant = TheOwner | TheThief(t: nat)

  /** A task descriptor; one occupies one slot of a ring. */
  datatype Task = Task(id: int)

  datatype Queue = Queue(deque: seq<Task>, flight: map<nat, seq<Task>>)

  /** What one atomic step of a queue means to the rest of the system. */
  datatype Label =
    | Silent
    | Pushed(es: seq<Task>)
    | Popped(x: Task)
    | Claimed(thief: nat, es: seq<Task>)
    | Delivered(thief: nat, es: seq<Task>)

  /** The owner works at the end of the deque, thieves remove nonempty prefixes, and a claimed
      block reaches its thief exactly as it was published. */
  predicate QueueStep(a: Queue, l: Label, b: Queue) {
    match l
    case Silent => b == a
    case Pushed(es) => b == a.(deque := a.deque + es)
    case Popped(x) => a.deque == b.deque + [x] && b.flight == a.flight
    case Claimed(t, es) =>
      && es != [] && a.deque == es + b.deque
      && t !in a.flight && b.flight == a.flight[t := es]
    case Delivered(t, es) =>
      && t in a.flight && a.flight[t] == es
      && b == a.(flight := a.flight - {t})
  }

  // ---------------------------------------------------------------- conservation over runs

  ghost predicate IsQueueRun(qs: seq<Queue>, ls: seq<Label>) {
    && |qs| == |ls| + 1
    && qs[0] == Queue([], map[])
    && (forall i :: 0 <= i < |ls| ==> QueueStep(qs[i], ls[i], qs[i + 1]))
  }

  function GivenBy(l: Label): multiset<Task> {
    if l.Pushed? then multiset(l.es) else multiset{}
  }

  function TakenBy(l: Label): multiset<Task> {
    if l.Popped? then multiset{l.x} else if l.Delivered? then multiset(l.es) else multiset{}
  }

  /** Everything the owner put in. */
  function Given(ls: seq<Label>): multiset<Task> {
    if ls == [] then multiset{} else Given(ls[..|ls| - 1]) + GivenBy(ls[|ls| - 1])
  }

  /** Everything the owner took out, and everything thieves received. */
  function Taken(ls: seq<Label>): multiset<Task> {
    if ls == [] then multiset{} else Taken(ls[..|ls| - 1]) + TakenBy(ls[|ls| - 1])
  }

  /** Everything thieves below `n` have claimed and not yet received. */
  function InFlight(f: map<nat, seq<Task>>, n: nat): multiset<Task> {
    if n == 0 then multiset{}
    else InFlight(f, n - 1) + if n - 1 in f then multiset(f[n - 1]) else multiset{}
  }

  lemma {:induction false} InFlightOthers(f: map<nat, seq<Task>>, g: map<nat, seq<Task>>, t: nat, n: nat)
    requires forall u :: u < n && u != t ==> (u in f <==> u in g) && (u in f ==> f[u] == g[u])
    requires t !in f && t in g
    ensures InFlight(g, n) == InFlight(f, n) + if t < n then multiset(g[t]) else multiset{}
  {
    if n > 0 {
      InFlightOthers(f, g, t, n - 1);
    }
  }

  /** The tasks the queue still holds. */
  function Held(q: Queue, n: nat): multiset<Task> {
    multiset(q.deque) + InFlight(q.flight, n)
  }

  /** Exactly once: whatever was pushed has been taken once, or is still held once, by the deque
      or by the one thief that claimed it. */
  lemma {:induction false} QueueConserves(qs: seq<Queue>, ls: seq<Label>, n: nat)
    requires IsQueueRun(qs, ls)
    requires forall i, t :: 0 <= i < |qs| && t in qs[i].flight ==> t < n
    ensures Given(ls) == Taken(ls) + Held(qs[|ls|], n)
    decreases |ls|
  {
    if ls == [] {
      InFlightEmpty(n);
    } else {
      var k := |ls| - 1;
      RunPrefix(qs, ls);
      QueueConserves(qs[..k + 1], ls[..k], n);
      hide Held, GivenBy, TakenBy, QueueStep, IsQueueRun;
      StepConserves(qs[k], ls[k], qs[k + 1], n);
      Carry(Given(ls[..k]), Taken(ls[..k]), Held(qs[k], n), GivenBy(ls[k]), TakenBy(ls[k]), Held(qs[k + 1], n));
    }
  }

  lemma Carry(g: multiset<Task>, t: multiset<Task>, h: multiset<Task>, dg: multiset<Task>, dt: multiset<Task>,
    h': multiset<Task>)
    requires g == t + h && h + dg == h' + dt
    ensures g + dg == t + dt + h'
  {
    assert g + dg == t + (h + dg);
  }

  lemma RunPrefix(qs: seq<Queue>, ls: seq<Label>)
    requires IsQueueRun(qs, ls) && ls != []
    ensures var k := |ls| - 1; IsQueueRun(qs[..k + 1], ls[..k]) && QueueStep(qs[k], ls[k], qs[k + 1])
  {
    hide QueueStep;
  }

  lemma {:induction false} InFlightEmpty(n: nat)
    ensures InFlight(map[], n) == multiset{}
  {
    if n > 0 {
      InFlightEmpty(n - 1);
    }
  }

  lemma StepConserves(a: Queue, l: Label, b: Queue, n: nat)
    requires QueueStep(a, l, b)
    requires forall t :: t in a.flight || t in b.flight ==> t < n
    ensures Held(a, n) + GivenBy(l) == Held(b, n) + TakenBy(l)
  {
    match l
    case Claimed(t, es) => InFlightOthers(a.flight, b.flight, t, n);
    case Delivered(t, es) => InFlightOthers(b.flight, a.flight, t, n);
    case _ =>
  }
}
