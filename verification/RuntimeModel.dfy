/** The whole runtime (libtc/common.c, libtc/collection-saws.c, libtc/task.c): every processing
    element runs the `gtc_process` loop over its own queue, steals from others, executes tasks whose
    callbacks add tasks, and votes when it is out of work.

    A queue is what TaskQueue says it is; which ring implements it does not matter here.  The model
    starts at the barrier at the entry of `gtc_process`: what was added before is in the queues. */
module RuntimeModel {
  import opened TaskQueue
  import opened TerminationModel

  /** Where a processing element is in its loop. */
  datatype Mode =
    | Searching                       // looking for work in `gtc_get_buf`
    | Stealing(v: nat)                // has claimed a block of `v` and is copying it
    | Holding(es: seq<Task>)          // the block is in the steal buffer, not yet in the own queue
    | Running(x: Task)                // inside the callback of `x`
    | Adding(x: Task)                 // in `gtc_add`: the new task is pushed, not yet counted
    | Done                            // the vote has returned 1

  /** What the root's evaluation found, for the proof: who was inside a task, how many were between
      push and count, how many tasks were alive and how many had been dropped. */
  datatype Moment = Moment(busy: set<nat>, adding: nat, live: nat, dropped: nat)

  /** `net` holds the counters and the termination detection.  `added` and `executed` record which
      tasks have been added and whose callback has finished, `dropped` which were added to another
      element, `moments` what was the case at each evaluation of the root and `first` what was the
      case at the barrier. */
  datatype System = System(
    queues: seq<Queue>, pes: seq<Mode>, net: Net,
    added: multiset<Task>, executed: multiset<Task>, dropped: multiset<Task>, moments: seq<Moment>, first: Moment)

  datatype Step =
    | Event(v: nat, l: Label)         // something happens to the queue of `v`
    | Count(i: nat)                   // `++tasks_spawned`
    | RemoteAdd(i: nat, x: Task)      // `gtc_add` for another element: counted, stored nowhere
    | Finish(i: nat)                  // the callback returns and `tasks_completed++`
    | Attempt(i: nat)                 // `td_set_counters` and `td_attempt_vote`
    | Broadcast(i: nat)               // the second half of a broadcast of the verdict

  predicate SameSize(s: System) {
    && Shape(s.net) && |s.queues| == |s.pes| == |s.net.nodes|
  }

  // ---------------------------------------------------------------- what is alive

  function Carried(m: Mode): multiset<Task> {
    match m
    case Holding(es) => multiset(es)
    case Running(x) => multiset{x}
    case Adding(x) => multiset{x}
    case _ => multiset{}
  }

  function CarriedBy(pes: seq<Mode>): multiset<Task> {
    if pes == [] then multiset{} else CarriedBy(pes[..|pes| - 1]) + Carried(pes[|pes| - 1])
  }

  /** The tasks in the queues and in the hands of thieves that have claimed them. */
  function HeldIn(queues: seq<Queue>, n: nat): multiset<Task> {
    if queues == [] then multiset{} else HeldIn(queues[..|queues| - 1], n) + Held(queues[|queues| - 1], n)
  }

  /** Every task added and not yet executed to the end. */
  function Live(s: System): multiset<Task> {
    HeldIn(s.queues, |s.pes|) + CarriedBy(s.pes)
  }

  predicate InTask(m: Mode) {
    m.Running? || m.Adding?
  }

  /** How many elements are between pushing a new task and counting it. */
  function Uncounted(pes: seq<Mode>): nat {
    if pes == [] then 0 else Uncounted(pes[..|pes| - 1]) + if pes[|pes| - 1].Adding? then 1 else 0
  }

  function Now(s: System): Moment {
    Moment((set i | 0 <= i < |s.pes| && InTask(s.pes[i])), Uncounted(s.pes), |Live(s)|, |s.dropped|)
  }

  // ---------------------------------------------------------------- steps

  /** Which queue events each element's loop makes possible: it pushes the block it holds or the
      task its callback adds, takes from its own queue and steals only while searching. */
  predicate MayHappen(pes: seq<Mode>, v: nat, l: Label)
    requires v < |pes|
  {
    match l
    case Silent => true
    case Pushed(es) => pes[v] == Holding(es) || (pes[v].Running? && |es| == 1)
    case Popped(x) => pes[v].Searching?
    case Claimed(t, es) => t < |pes| && pes[t].Searching?
    case Delivered(t, es) => t < |pes| && pes[t] == Stealing(v)
  }

  function AfterEvent(pes: seq<Mode>, v: nat, l: Label): (r: seq<Mode>)
    requires v < |pes| && MayHappen(pes, v, l)
    ensures |r| == |pes|
  {
    match l
    case Silent => pes
    case Pushed(es) => pes[v := if pes[v].Holding? then Searching else Adding(pes[v].x)]
    case Popped(x) => pes[v := Running(x)]
    case Claimed(t, es) => pes[t := Stealing(v)]
    case Delivered(t, es) => pes[t := Holding(es)]
  }

  /** The tasks an event adds to the collection: those pushed from inside a callback. */
  function NewTasks(pes: seq<Mode>, v: nat, l: Label): multiset<Task>
    requires v < |pes|
  {
    if l.Pushed? && pes[v].Running? then multiset(l.es) else multiset{}
  }

  function Bump(c: Counters, spawned: nat, completed: nat): Counters {
    Counters(c.spawned + spawned, c.completed + completed)
  }

  /** One step of the system.  A vote is attempted only by an element that finds its own queue
      empty; the counters it samples are its own. */
  predicate Next(s: System, a: Step, s': System) {
    SameSize(s) &&
    match a
    case Event(v, l) =>
      && v < |s.queues| == |s'.queues| && MayHappen(s.pes, v, l)
      && QueueStep(s.queues[v], l, s'.queues[v])
      && s' == s.(queues := s.queues[v := s'.queues[v]], pes := AfterEvent(s.pes, v, l),
                  added := s.added + NewTasks(s.pes, v, l))
    case Count(i) =>
      && i < |s.pes| && s.pes[i].Adding?
      && s' == s.(pes := s.pes[i := Running(s.pes[i].x)],
                  net := s.net.(counters := s.net.counters[i := Bump(s.net.counters[i], 1, 0)]))
    case RemoteAdd(i, x) =>
      && i < |s.pes| && s.pes[i].Running?
      && s' == s.(dropped := s.dropped + multiset{x},
                  net := s.net.(counters := s.net.counters[i := Bump(s.net.counters[i], 1, 0)]))
    case Finish(i) =>
      && i < |s.pes| && s.pes[i].Running?
      && s' == s.(pes := s.pes[i := Searching], executed := s.executed + multiset{s.pes[i].x},
                  net := s.net.(counters := s.net.counters[i := Bump(s.net.counters[i], 0, 1)]))
    case Attempt(i) =>
      && i < |s.pes| && s.pes[i].Searching? && s.queues[i].deque == []
      && Enabled(s.net, Vote(i))
      && var net' := Apply(s.net, Vote(i));
      && Shape(net') && i < |net'.nodes|
      && s' == s.(net := net', pes := if Detected(net', i) then s.pes[i := Done] else s.pes,
                  moments := if |net'.evals| > |s.net.evals| then s.moments + [Now(s)] else s.moments)
    case Broadcast(i) =>
      && Enabled(s.net, SendRight(i))
      && s' == s.(net := Apply(s.net, SendRight(i)))
  }

  /** The barrier at the entry of `gtc_process`: everybody is about to search, and what is in the
      queues, or was dropped, has been counted. */
  ghost predicate AtBarrier(s: System) {
    && SameSize(s) && Init(s.net)
    && (forall i :: 0 <= i < |s.pes| ==> s.pes[i] == Searching && s.queues[i].flight == map[])
    && s.added == s.executed + Live(s)
    && Total(s.net.counters).spawned == Total(s.net.counters).completed + |Live(s)| + |s.dropped|
    && s.moments == [] && s.first == Now(s)
  }
}
