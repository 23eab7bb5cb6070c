/** The split deferred-copy ring (libtc/sdc_shr_ring.c) and its lock (libtc/mutex.c) as a state
    machine.

    Thieves reserve a block under the victim's lock, give the lock back, copy the block and only
    then add to `itail`.  The owner pushes, pops, releases and reclaims without the lock.  Every
    swap of the lock word, every read the owner makes of memory thieves write, every task copied
    and every write to shared memory is a step of its own. */
module SdcModel {
  import opened RingArith
  import opened RingSlots
  import opened TaskQueue

  /** A reservation since the last reclaim, in the order in which they were made (history). */
  datatype Block = Block(base: nat, n: nat, thief: nat, done: bool)

  /** Where a thief is in `pop_n_tail`.  `k` and `tasks` record, for the proof, which reservation
      is its own and what the block held when it was made. */
  datatype Thief =
    | Locking                                          // holds the lock, metadata not yet copied
    | Seen(tail: nat, n: nat)                          // knows how much to take
    | Empty                                            // found nothing, still holds the lock
    | Reserved(tail: nat, n: nat, locked: bool, got: map<nat, Task>, k: nat, tasks: seq<Task>)

  /** What the owner remembers of a read of `itail`; the last three fields are history: how many
      reservations there were, how much of them was pending, how many of those wrapped. */
  datatype Capture = Capture(itail: int, blocks: nat, pending: nat, wraps: nat)

  /** Where the owner is. */
  datatype Pc =
    | Idle
    | Reclaiming(c: Capture)               // reclaim_space: itail read, tail not yet
    | Locked                               // holds the lock
    | Waiting(n: nat)                      // ensure_space: busy-waits for room for n, holding the lock
    | WaitingRead(n: nat, c: Capture)
    | Leaving                              // about to unlock

  datatype Holder = Nobody | Owner | Holding(t: nat)

  datatype State = State(
    max: nat, q: seq<Task>, tail: nat, itail: int, vtail: nat, split: nat, nlocal: nat, lock: bool,
    pc: Pc, thieves: map<nat, Thief>,
    // history: unwrapped positions, reservations since the last reclaim, who holds the lock
    aTail: nat, aVtail: nat, aSplit: nat, log: seq<Block>, holder: Holder)

  datatype Volume = StealHalf | StealAll | StealChunk

  datatype Action =
    | Push(es: seq<Task>)
    | Pop
    | Release
    | ReadItail
    | ReadTail
    | Swap
    | Reacquire
    | Ensure(n: nat)
    | Unlock
    | ThiefSwap(t: nat)
    | Look(t: nat, want: nat, volume: Volume)
    | Reserve(t: nat)
    | ThiefUnlock(t: nat)
    | Copy(t: nat, i: nat)
    | Finish(t: nat)

  // ---------------------------------------------------------------- states

  predicate Shape(s: State) {
    && 0 < s.max == |s.q|
    && s.tail < s.max && s.vtail < s.max && s.split < s.max
  }

  /** `sdc_shrb_reset`. */
  predicate Init(s: State) {
    && 0 < s.max == |s.q|
    && s.tail == 0 && s.itail == 0 && s.vtail == 0 && s.split == 0 && s.nlocal == 0 && !s.lock
    && s.pc == Idle && s.thieves == map[]
    && s.aTail == 0 && s.aVtail == 0 && s.aSplit == 0 && s.log == [] && s.holder == Nobody
  }

  // ---------------------------------------------------------------- queries

  function Distance(from: nat, to: nat, max: nat): nat
    requires from < max && to < max
  {
    if from == to then 0 else if from < to then to - from else to + max - from
  }

  function SharedSize(s: State): nat
    requires Shape(s)
  {
    Distance(s.tail, s.split, s.max)
  }

  function PublicSize(s: State): nat
    requires Shape(s)
  {
    Distance(s.vtail, s.split, s.max)
  }

  function Size(s: State): nat
    requires Shape(s)
  {
    s.nlocal + SharedSize(s)
  }

  /** How many tasks a thief that wants at most `want` reserves. */
  function StealSize(shared: nat, want: nat, volume: Volume): nat {
    var most := if volume.StealHalf? then HalfUp(shared) else shared;
    if most < want then most else want
  }

  /** The most a steal from a ring of `max` slots ever reserves: no more than half of the slots are
      shared at a time, and the only slot of a ring of one never is. */
  function MostStolen(max: nat, want: nat, volume: Volume): nat {
    StealSize(if max == 1 then 0 else HalfUp(max), want, volume)
  }

  /** Slot the `i`-th task of a block of `n` at `tail` is copied from: the two cases of the copy. */
  function StealSlot(max: nat, tail: nat, n: nat, i: nat): (r: nat)
    requires i < n <= max && tail < max
    ensures r < max
  {
    if tail + (n - 1) < max then tail + i
    else
      var part := max - tail;
      if i < part then tail + i else i - part
  }

  /** What a finished steal adds to `itail`: one turn less if the block wrapped. */
  function Increment(tail: nat, n: nat, max: nat): int
    requires max > 0
  {
    if (tail + n) % max > tail then n else n - max
  }

  // ---------------------------------------------------------------- steps

  predicate Enabled(s: State, a: Action) {
    Shape(s) &&
    match a
    case Push(es) => s.pc.Idle? && |es| > 0 && s.nlocal + PublicSize(s) + |es| <= s.max
    case Pop => s.pc.Idle? && s.nlocal > 0
    case Release => s.pc.Idle? && s.nlocal > 0 && SharedSize(s) == 0
    case ReadItail => s.pc.Idle? || s.pc.Waiting?
    case ReadTail => s.pc.Reclaiming? || s.pc.WaitingRead?
    case Swap => s.pc.Idle?
    case Reacquire => s.pc.Locked?
    case Ensure(n) => s.pc.Locked? && s.nlocal + PublicSize(s) + n > s.max && Size(s) + n <= s.max
    case Unlock => s.pc.Leaving?
    case ThiefSwap(t) => t !in s.thieves
    case Look(t, want, volume) => t in s.thieves && s.thieves[t].Locking?
    case Reserve(t) => t in s.thieves && s.thieves[t].Seen?
    case ThiefUnlock(t) => t in s.thieves && (s.thieves[t].Empty? || (s.thieves[t].Reserved? && s.thieves[t].locked))
    case Copy(t, i) => t in s.thieves && s.thieves[t].Reserved? && !s.thieves[t].locked && i < s.thieves[t].n
    case Finish(t) =>
      t in s.thieves && s.thieves[t].Reserved? && !s.thieves[t].locked
      && forall i :: 0 <= i < s.thieves[t].n ==> i in s.thieves[t].got
  }

  function Apply(s: State, a: Action): State
    requires Enabled(s, a)
  {
    match a
    case Push(es) => DoPush(s, es)
    case Pop => s.(nlocal := s.nlocal - 1)
    case Release => DoRelease(s)
    case ReadItail => DoReadItail(s)
    case ReadTail => DoReadTail(s)
    case Swap => if s.lock then s else s.(lock := true, pc := Locked, holder := Owner)
    case Reacquire => DoReacquire(s)
    case Ensure(n) => s.(pc := Waiting(n))
    case Unlock => s.(lock := false, pc := Idle, holder := Nobody)
    case ThiefSwap(t) =>
      if s.lock then s else s.(lock := true, thieves := s.thieves[t := Locking], holder := Holding(t))
    case Look(t, want, volume) => DoLook(s, t, want, volume)
    case Reserve(t) => DoReserve(s, t)
    case ThiefUnlock(t) => DoThiefUnlock(s, t)
    case Copy(t, i) => DoCopy(s, t, i)
    case Finish(t) => DoFinish(s, t)
  }

  function DoPush(s: State, es: seq<Task>): State
    requires Shape(s)
  {
    s.(q := Written(s.q, s.split + s.nlocal, es), nlocal := s.nlocal + |es|)
  }

  function DoRelease(s: State): State
    requires Shape(s)
  {
    var amount := HalfUp(s.nlocal);
    s.(nlocal := s.nlocal - amount, split := (s.split + amount) % s.max, aSplit := s.aSplit + amount)
  }

  function DoReadItail(s: State): State
    requires s.pc.Idle? || s.pc.Waiting?
  {
    var c := Capture(s.itail, |s.log|, PendingSize(s.log), PendingWraps(s.log, s.max));
    s.(pc := if s.pc.Idle? then Reclaiming(c) else WaitingRead(s.pc.n, c))
  }

  /** The read of `tail` that ends a call of `reclaim_space`; the busy-wait repeats the call until
      it has reclaimed something. */
  function DoReadTail(s: State): State
    requires s.pc.Reclaiming? || s.pc.WaitingRead?
  {
    var reclaims := s.vtail != s.tail && s.pc.c.itail == s.tail;
    var s1 := if reclaims then s.(vtail := s.tail, aVtail := s.aTail, log := []) else s;
    s1.(pc := if s.pc.Reclaiming? then Idle else if reclaims then Leaving else Waiting(s.pc.n))
  }

  function DoReacquire(s: State): State
    requires Shape(s)
  {
    if SharedSize(s) > s.nlocal then
      var amount := HalfUp(SharedSize(s) - s.nlocal);
      s.(nlocal := s.nlocal + amount, split := Retreat(s.split, amount, s.max), pc := Leaving,
         aSplit := if amount <= s.aSplit then s.aSplit - amount else 0)
    else
      s.(pc := Leaving)
  }

  function DoLook(s: State, t: nat, want: nat, volume: Volume): State
    requires Shape(s)
  {
    var n := StealSize(SharedSize(s), want, volume);
    s.(thieves := s.thieves[t := if n > 0 then Seen(s.tail, n) else Empty])
  }

  function DoReserve(s: State, t: nat): State
    requires Shape(s) && t in s.thieves && s.thieves[t].Seen?
  {
    var d := s.thieves[t];
    s.(tail := (d.tail + d.n) % s.max,
       thieves := s.thieves[t := Reserved(d.tail, d.n, true, map[], |s.log|, Slots(s.q, s.aTail, d.n))],
       aTail := s.aTail + d.n,
       log := s.log + [Block(s.aTail, d.n, t, false)])
  }

  function DoThiefUnlock(s: State, t: nat): State
    requires t in s.thieves
  {
    var d := s.thieves[t];
    s.(lock := false, holder := Nobody,
       thieves := if d.Reserved? then s.thieves[t := d.(locked := false)] else s.thieves - {t})
  }

  function DoCopy(s: State, t: nat, i: nat): State
    requires Shape(s) && t in s.thieves && s.thieves[t].Reserved? && i < s.thieves[t].n
  {
    var d := s.thieves[t];
    var x := if d.n <= s.max && d.tail < s.max then s.q[StealSlot(s.max, d.tail, d.n, i)] else Task(0);
    s.(thieves := s.thieves[t := d.(got := d.got[i := x])])
  }

  function DoFinish(s: State, t: nat): State
    requires Shape(s) && t in s.thieves && s.thieves[t].Reserved?
  {
    var d := s.thieves[t];
    s.(itail := s.itail + Increment(d.tail, d.n, s.max),
       thieves := s.thieves - {t},
       log := if d.k < |s.log| then s.log[d.k := s.log[d.k].(done := true)] else s.log)
  }

  // ---------------------------------------------------------------- sums over reservations

  /** Tasks reserved, pending or not. */
  function TotalSize(log: seq<Block>): nat {
    if log == [] then 0 else TotalSize(log[..|log| - 1]) + log[|log| - 1].n
  }

  /** Tasks whose steal is pending. */
  function PendingSize(log: seq<Block>): nat {
    if log == [] then 0
    else PendingSize(log[..|log| - 1]) + if log[|log| - 1].done then 0 else log[|log| - 1].n
  }

  /** What the pending steals will add to `itail`. */
  function PendingIncrements(log: seq<Block>, max: nat): int
    requires max > 0
  {
    if log == [] then 0
    else
      var b := log[|log| - 1];
      PendingIncrements(log[..|log| - 1], max) + if b.done then 0 else Increment(b.base % max, b.n, max)
  }

  /** How many pending blocks wrap. */
  function PendingWraps(log: seq<Block>, max: nat): nat {
    if log == [] || max == 0 then 0
    else
      var b := log[|log| - 1];
      PendingWraps(log[..|log| - 1], max) + if !b.done && (b.base % max + b.n) % max <= b.base % max then 1 else 0
  }

  /** How many steals are pending. */
  function PendingCount(log: seq<Block>): nat {
    if log == [] then 0
    else PendingCount(log[..|log| - 1]) + if log[|log| - 1].done then 0 else 1
  }

  // ---------------------------------------------------------------- abstraction

  /** The tasks nobody has reserved. */
  function Unclaimed(s: State): seq<Task>
    requires Shape(s)
  {
    Slots(s.q, s.aTail, if s.aTail <= s.aSplit + s.nlocal then s.aSplit + s.nlocal - s.aTail else 0)
  }

  function Flight(s: State): map<nat, seq<Task>> {
    map t | t in s.thieves && s.thieves[t].Reserved? :: s.thieves[t].tasks
  }

  function Abs(s: State): Queue
    requires Shape(s)
  {
    Queue(Unclaimed(s), Flight(s))
  }

  function Received(d: Thief): (r: seq<Task>)
    requires d.Reserved? && forall i :: 0 <= i < d.n ==> i in d.got
    ensures |r| == d.n
  {
    seq(d.n, i requires 0 <= i < d.n => d.got[i])
  }

  function LabelOf(s: State, a: Action): Label
    requires Enabled(s, a)
  {
    match a
    case Push(es) => Pushed(es)
    case Pop => Popped(s.q[(s.split + s.nlocal - 1) % s.max])
    case Reserve(t) => Claimed(t, Slots(s.q, s.aTail, s.thieves[t].n))
    case Finish(t) => Delivered(t, Received(s.thieves[t]))
    case _ => Silent
  }
}
