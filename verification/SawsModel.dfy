/** The SAWS ring buffer (libtc/saws_shrb.c) as a state machine.

    One owner and `npes` thieves act on the ring of one victim.  Every access to memory that
    the other side can see is a step of its own: the atomics on the steal word, each read of a
    completion status, each task copied by a thief, each completion.  Updates of fields that
    only the owner reads are folded into the step they accompany. */
module SawsModel {
  import opened StealSeries
  import opened RingArith
  import opened RingSlots
  import opened TaskQueue

  const ATTEMPT_LIMIT: nat := 0x100_0000
  const RING_LIMIT: nat := 0x8_0000
  const MAX_EPOCHS: nat := 2

  /** `saws_completion_t`. */
  datatype Record = Record(itasks: nat, vtail: nat, done: bool, maxsteals: nat, status: seq<nat>)

  function NoStatus(): (r: seq<nat>)
    ensures |r| == STATUS_SLOTS && forall i :: 0 <= i < |r| ==> r[i] == 0
  {
    seq(STATUS_SLOTS, i => 0)
  }

  function NoRecord(): Record {
    Record(0, 0, false, 0, NoStatus())
  }

  /** The four fields of the published word. */
  datatype Word = Word(attempts: nat, valid: nat, itasks: nat, tail: nat)

  /** A block a thief has claimed and not yet reported complete.  `epoch`, `index`, `itasks` and
      `rtail` are what the thief read; `base` and `tasks` record, for the proof, the unwrapped
      position of the block and what it held when it was claimed. */
  datatype Claim = Claim(epoch: nat, index: nat, itasks: nat, rtail: nat, got: map<nat, Task>,
                         base: nat, tasks: seq<Task>)

  /** History of the epoch instance a record currently describes: where it starts, how many tasks
      were published for it and how many blocks were claimed. */
  datatype Instance = Instance(start: nat, published: nat, claims: nat)

  /** Where the owner is. */
  datatype Pc =
    | Idle
    | Publishing                                         // release: record written, word not yet set
    | ReclaimLast(i: nat, sum: nat)                      // reclaim: scanning the previous epoch
    | ReclaimCur(i: nat, sum: nat)                       // reclaim: scanning the current epoch
    | Waiting(att: nat, i: nat, sum: nat)                // reacquire: steals disabled, waiting
    | Deciding(att: nat)                                 // reacquire: previous epoch complete
    | Scanning(att: nat, left: nat, i: nat, index: nat)  // reacquire: epochs switched
    | Republishing(att: nat, left: nat, i: nat, index: nat)

  datatype State = State(
    max: nat, npes: nat,
    // the ring as the owner and the thieves see it
    q: seq<Task>, tail: nat, split: nat, nlocal: nat, cur: nat, last: nat, rec: seq<Record>, word: Word,
    // the participants
    pc: Pc, full: seq<bool>, claims: map<nat, Claim>,
    // history: unwrapped positions of tail and split, epoch instances, how many completed steals
    // of the epoch the tail accounts for, and the thieves that failed on the current word
    aTail: nat, aSplit: int, inst: seq<Instance>, counted: nat, failed: set<nat>)

  datatype Action =
    | Push(es: seq<Task>)
    | Pop
    | Release
    | Publish
    | StartReclaim
    | ReclaimRead
    | Disable
    | WaitRead
    | Decide
    | ScanRead
    | Republish
    | Probe(t: nat)
    | Peek(t: nat)
    | Copy(t: nat, i: nat)
    | Complete(t: nat)

  // ---------------------------------------------------------------- shape

  predicate Shape(s: State) {
    && 2 <= s.max <= RING_LIMIT
    && s.npes + STATUS_SLOTS < ATTEMPT_LIMIT
    && |s.q| == s.max
    && s.tail < s.max && s.split < s.max
    && s.cur < MAX_EPOCHS && s.last == 1 - s.cur
    && |s.rec| == MAX_EPOCHS && |s.inst| == MAX_EPOCHS
    && (forall e :: 0 <= e < MAX_EPOCHS ==> |s.rec[e].status| == STATUS_SLOTS && s.rec[e].maxsteals <= STATUS_SLOTS)
    && |s.full| == s.npes
    && (forall t :: t in s.claims ==> t < s.npes && s.claims[t].epoch < MAX_EPOCHS && s.claims[t].index < STATUS_SLOTS)
  }

  /** `saws_shrb_reset`. */
  predicate Init(s: State) {
    && 2 <= s.max <= RING_LIMIT
    && s.npes + STATUS_SLOTS < ATTEMPT_LIMIT
    && |s.q| == s.max
    && s.tail == 0 && s.split == 0 && s.nlocal == 0 && s.cur == 0 && s.last == 1
    && s.rec == [NoRecord(), NoRecord().(done := true)]
    && s.word == Word(0, 3, 0, 0)
    && s.pc == Idle && s.full == seq(s.npes, i => true) && s.claims == map[]
    && s.aTail == 0 && s.aSplit == 0 && s.inst == [Instance(0, 0, 0), Instance(0, 0, 0)]
    && s.counted == 0 && s.failed == {}
  }

  // ---------------------------------------------------------------- queries

  function SharedSize(s: State): nat
    requires Shape(s)
  {
    if s.tail == s.split then 0
    else if s.tail < s.split then s.split - s.tail
    else s.split + s.max - s.tail
  }

  function ClaimStart(c: Claim): nat {
    c.rtail + Offset(c.itasks, c.index)
  }

  function ClaimSize(c: Claim): nat {
    BlockSize(c.itasks, c.index)
  }

  /** Half of the local tasks, rounded up. */
  function ReleaseAmount(s: State): nat {
    s.nlocal / 2 + s.nlocal % 2
  }

  /** How many of the unclaimed tasks the owner takes back. */
  function ReacquireAmount(left: nat): nat {
    if left == 1 then 1 else left / 2 + left % 2
  }

  // ---------------------------------------------------------------- the steps

  predicate Enabled(s: State, a: Action) {
    Shape(s) &&
    match a
    case Push(es) => s.pc.Idle? && |es| > 0 && s.nlocal + SharedSize(s) + |es| <= s.max
    case Pop => s.pc.Idle? && s.nlocal > 0
    case Release => s.pc.Idle? && s.nlocal > 0 && SharedSize(s) == 0
    case Publish => s.pc.Publishing?
    case StartReclaim => s.pc.Idle?
    case ReclaimRead => s.pc.ReclaimLast? || s.pc.ReclaimCur?
    case Disable => s.pc.Idle? && SharedSize(s) > s.nlocal && s.nlocal == 0
    case WaitRead => s.pc.Waiting?
    case Decide => s.pc.Deciding?
    case ScanRead => s.pc.Scanning?
    case Republish => s.pc.Republishing?
    case Probe(t) => t < s.npes && t !in s.claims && s.full[t]
    case Peek(t) => t < s.npes && t !in s.claims && !s.full[t]
    case Copy(t, i) => t in s.claims && i < ClaimSize(s.claims[t])
    case Complete(t) => t in s.claims && (forall i :: 0 <= i < ClaimSize(s.claims[t]) ==> i in s.claims[t].got)
  }

  function Apply(s: State, a: Action): State
    requires Enabled(s, a)
  {
    match a
    case Push(es) => DoPush(s, es)
    case Pop => s.(nlocal := s.nlocal - 1)
    case Release => DoRelease(s)
    case Publish => DoPublish(s)
    case StartReclaim => s.(pc := if s.rec[s.last].done then ReclaimCur(0, 0) else ReclaimLast(0, 0))
    case ReclaimRead => if s.pc.ReclaimLast? then DoReclaimLast(s) else DoReclaimCur(s)
    case Disable => DoDisable(s)
    case WaitRead => s.(pc := NextWait(s))
    case Decide => DoDecide(s)
    case ScanRead => s.(pc := NextScan(s))
    case Republish => DoRepublish(s)
    case Probe(t) => DoProbe(s, t)
    case Peek(t) => DoPeek(s, t)
    case Copy(t, i) => DoCopy(s, t, i)
    case Complete(t) => DoComplete(s, t)
  }

  function DoPush(s: State, es: seq<Task>): State
    requires Shape(s)
  {
    s.(q := Written(s.q, s.split + s.nlocal, es), nlocal := s.nlocal + |es|)
  }

  function DoRelease(s: State): State
    requires Shape(s)
  {
    var n := ReleaseAmount(s);
    s.(nlocal := s.nlocal - n,
       split := (s.split + n) % s.max,
       rec := s.rec[s.cur := Record(n, s.tail, false, MaxSteals(n), NoStatus())],
       pc := Publishing,
       aSplit := s.aSplit + n,
       inst := s.inst[s.cur := Instance(s.aTail, n, 0)],
       counted := 0)
  }

  function DoPublish(s: State): State
    requires Shape(s)
  {
    s.(word := Word(0, s.cur, s.rec[s.cur].itasks, s.tail), failed := {}, pc := Idle)
  }

  /** One read of the previous epoch's statuses, or the end of that loop. */
  function DoReclaimLast(s: State): State
    requires Shape(s) && s.pc.ReclaimLast?
  {
    var r := s.rec[s.last];
    if s.pc.i < r.maxsteals then
      if r.status[s.pc.i] == 0 then s.(pc := Idle)
      else s.(pc := ReclaimLast(s.pc.i + 1, s.pc.sum + r.status[s.pc.i]))
    else if s.pc.sum == r.itasks then
      s.(tail := s.rec[s.cur].vtail, rec := s.rec[s.last := r.(done := true)],
         pc := ReclaimCur(0, 0), aTail := s.inst[s.cur].start, counted := 0)
    else
      s.(pc := ReclaimCur(0, 0))
  }

  /** One read of the current epoch's statuses, or the end of that loop. */
  function DoReclaimCur(s: State): State
    requires Shape(s) && s.pc.ReclaimCur?
  {
    var r := s.rec[s.cur];
    if s.pc.i < r.maxsteals && r.status[s.pc.i] != 0 then
      s.(pc := ReclaimCur(s.pc.i + 1, s.pc.sum + r.status[s.pc.i]))
    else
      var t := s.(rec := if s.pc.sum == r.itasks then s.rec[s.cur := r.(done := true)] else s.rec, pc := Idle);
      if s.rec[s.last].done && s.pc.sum > 0 then
        t.(tail := (r.vtail + s.pc.sum) % s.max,
           aTail := s.inst[s.cur].start + s.pc.sum, counted := s.pc.i)
      else t
  }

  /** The fetch-or: steals are refused from here to the next set of the word. */
  function DoDisable(s: State): State
    requires Shape(s)
  {
    var v := if s.word.valid < 2 then s.word.valid + 2 else s.word.valid;
    s.(word := s.word.(valid := v),
       pc := if s.rec[s.last].done then Deciding(s.word.attempts) else Waiting(s.word.attempts, 0, 0))
  }

  /** One status read of the retry loop; a round that comes up short starts over. */
  function NextWait(s: State): Pc
    requires Shape(s) && s.pc.Waiting?
  {
    var r := s.rec[s.last];
    if s.pc.i < r.maxsteals then Waiting(s.pc.att, s.pc.i + 1, s.pc.sum + r.status[s.pc.i])
    else if s.pc.sum == r.itasks then Deciding(s.pc.att)
    else Waiting(s.pc.att, 0, 0)
  }

  /** Take back half of what is unclaimed and switch epochs, or republish nothing. */
  function DoDecide(s: State): State
    requires Shape(s) && s.pc.Deciding?
  {
    var att := s.pc.att;
    var left := Left(s.word.itasks, att);
    var amount := ReacquireAmount(left);
    if amount == 0 then
      s.(word := Word(0, s.cur, 0, s.tail), failed := {}, pc := Idle)
    else
      s.(nlocal := s.nlocal + amount,
         split := Retreat(s.split, amount, s.max),
         cur := s.last, last := s.cur,
         rec := s.rec[s.last := NoRecord()],
         pc := Scanning(att, left - amount, 0, s.rec[s.cur].vtail),
         aSplit := s.aSplit - amount,
         inst := s.inst[s.last := Instance(s.inst[s.cur].start + Offset(s.word.itasks, att), left - amount, 0)])
  }

  /** One status read of the prefix of the epoch that was current. */
  function NextScan(s: State): Pc
    requires Shape(s) && s.pc.Scanning?
  {
    var r := s.rec[s.last];
    if s.pc.i < r.maxsteals && r.status[s.pc.i] != 0 then
      Scanning(s.pc.att, s.pc.left, s.pc.i + 1, s.pc.index + r.status[s.pc.i])
    else
      Republishing(s.pc.att, s.pc.left, s.pc.i, s.pc.index)
  }

  function DoRepublish(s: State): State
    requires Shape(s) && s.pc.Republishing?
  {
    var stolen := Offset(s.word.itasks, s.pc.att);
    var o := s.rec[s.last];
    var v := (o.vtail + stolen) % s.max;
    var advance := s.pc.index > s.tail;
    s.(tail := if advance then s.pc.index % s.max else s.tail,
       rec := s.rec[s.last := o.(itasks := stolen, maxsteals := s.pc.att)]
                   [s.cur := Record(s.pc.left, v, false, MaxSteals(s.pc.left), s.rec[s.cur].status)],
       word := Word(0, s.cur, s.pc.left, v), failed := {}, pc := Idle,
       aTail := if advance then s.inst[s.last].start + Offset(s.inst[s.last].published, s.pc.i) else s.aTail,
       counted := 0)
  }

  /** The thief's fetch-add.  On an enabled word with blocks left it is a claim. */
  function DoProbe(s: State, t: nat): State
    requires Shape(s) && t < s.npes
  {
    var w := s.word;
    var t1 := s.(word := w.(attempts := (w.attempts + 1) % ATTEMPT_LIMIT));
    if w.valid >= MAX_EPOCHS then t1
    else if w.attempts >= MaxSteals(w.itasks) then
      t1.(full := s.full[t := false], failed := s.failed + {t})
    else
      var e := w.valid;
      var base := s.inst[e].start + Offset(w.itasks, w.attempts);
      var tasks := Slots(s.q, base, BlockSize(w.itasks, w.attempts));
      t1.(claims := s.claims[t := Claim(e, w.attempts, w.itasks, w.tail, map[], base, tasks)],
          inst := s.inst[e := s.inst[e].(claims := s.inst[e].claims + 1)])
  }

  /** The thief's plain fetch while it believes the victim empty. */
  function DoPeek(s: State, t: nat): State
    requires Shape(s) && t < s.npes
  {
    if s.word.valid < MAX_EPOCHS && s.word.attempts < MaxSteals(s.word.itasks)
    then s.(full := s.full[t := true]) else s
  }

  function DoCopy(s: State, t: nat, i: nat): State
    requires Shape(s) && t in s.claims && i < ClaimSize(s.claims[t])
  {
    var c := s.claims[t];
    var x := if ClaimSize(c) <= s.max && ClaimStart(c) + ClaimSize(c) <= 2 * s.max
             then s.q[CopySlot(s.max, ClaimStart(c), ClaimSize(c), i)] else Task(0);
    s.(claims := s.claims[t := c.(got := c.got[i := x])])
  }

  function DoComplete(s: State, t: nat): State
    requires Shape(s) && t in s.claims
  {
    var c := s.claims[t];
    var r := s.rec[c.epoch];
    s.(rec := s.rec[c.epoch := r.(status := r.status[c.index := r.status[c.index] + ClaimSize(c)])],
       claims := s.claims - {t})
  }

  // ---------------------------------------------------------------- abstraction

  /** First position no thief has claimed. */
  function First(s: State): nat
    requires Shape(s)
  {
    s.inst[s.cur].start + Offset(s.inst[s.cur].published, s.inst[s.cur].claims)
  }

  function Top(s: State): int {
    s.aSplit + s.nlocal
  }

  /** The tasks nobody has taken. */
  function Unclaimed(s: State): seq<Task>
    requires Shape(s)
  {
    Slots(s.q, First(s), if First(s) <= Top(s) then Top(s) - First(s) else 0)
  }

  function Flight(s: State): map<nat, seq<Task>> {
    map t | t in s.claims :: s.claims[t].tasks
  }

  function Abs(s: State): Queue
    requires Shape(s)
  {
    Queue(Unclaimed(s), Flight(s))
  }

  /** What a thief has in its steal buffer once every task is copied. */
  function Received(c: Claim): (r: seq<Task>)
    requires forall i :: 0 <= i < ClaimSize(c) ==> i in c.got
    ensures |r| == ClaimSize(c)
  {
    seq(ClaimSize(c), i requires 0 <= i < ClaimSize(c) => c.got[i])
  }

  /** What the caller of a step learns. */
  function LabelOf(s: State, a: Action): Label
    requires Enabled(s, a)
  {
    match a
    case Push(es) => Pushed(es)
    case Pop => Popped(s.q[(s.split + s.nlocal - 1) % s.max])
    case Probe(t) =>
      var s' := DoProbe(s, t);
      if t in s'.claims then Claimed(t, s'.claims[t].tasks) else Silent
    case Complete(t) => Delivered(t, Received(s.claims[t]))
    case _ => Silent
  }
}
