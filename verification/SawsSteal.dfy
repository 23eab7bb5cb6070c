/** A thief's steal from a remote SAWS ring, as it is written. */
module SawsSteal {
  import opened Turns
  import opened StealSeries
  import opened RingArith
  import opened RingSlots
  import opened RingMemory
  import opened TaskQueue
  import opened SawsModel
  import opened SawsInvariant
  import opened SawsThief
  import opened SawsTheorems
  import opened SawsRing

  // ---------------------------------------------------------------- what others leave alone

  /** What others cannot change about thief `me`. */
  predicate MyPart(s: State, s': State, me: nat) {
    && s'.max == s.max && s'.npes == s.npes && |s'.q| == |s.q| && |s'.full| == |s.full|
    && (me in s'.claims <==> me in s.claims)
    && (me in s.claims ==> s'.claims[me] == s.claims[me])
    && (me < |s.full| ==> s'.full[me] == s.full[me])
  }

  lemma OtherLeavesMyPart(s: State, a: Action, me: nat)
    requires Enabled(s, a) && Actor(a) != TheThief(me)
    ensures MyPart(s, Apply(s, a), me)
  {
    hide MaxSteals, Left, SharedSize, Slots, CopySlot, ClaimSize, Written;
  }

  lemma {:induction false} OthersLeaveMyPart(s: State, steps: seq<Action>, me: nat)
    ensures MyPart(s, Others(s, TheThief(me), steps), me)
    decreases |steps|
  {
    hide Enabled, Apply;
    if steps != [] {
      var a := steps[0];
      if Enabled(s, a) && Actor(a) != TheThief(me) {
        OtherLeavesMyPart(s, a, me);
        OthersLeaveMyPart(Apply(s, a), steps[1..], me);
      } else {
        OthersLeaveMyPart(s, steps[1..], me);
      }
    }
  }

  // ---------------------------------------------------------------- what the thief's steps do

  /** The word still has a block for one more claim. */
  predicate HasBlock(w: Word) {
    w.valid < MAX_EPOCHS && w.attempts < MaxSteals(w.itasks)
  }

  lemma ProbeDoes(s: State, me: nat)
    requires Inv(s) && me < s.npes && me !in s.claims && me < |s.full| && s.full[me]
    ensures Shape(s) && Inv(DoProbe(s, me)) && Shape(DoProbe(s, me)) && Enabled(s, Probe(me))
    ensures var s', w := DoProbe(s, me), s.word;
            && s' == s.(word := w.(attempts := (w.attempts + 1) % ATTEMPT_LIMIT), full := s'.full, failed := s'.failed,
                        claims := s'.claims, inst := s'.inst)
            && (me in s'.claims <==> HasBlock(w)) && |s'.full| == |s.full|
            && (HasBlock(w) ==>
                  var c := s'.claims[me];
                  && c.epoch == w.valid && c.index == w.attempts && c.itasks == w.itasks && c.rtail == w.tail
                    && c.got == map[]
                  && |c.tasks| <= |Unclaimed(s)| && c.tasks == Unclaimed(s)[..|c.tasks|])
  {
    hide Inv, MaxSteals, Left, Unclaimed, Slots;
    InvShape(s);
    StepKeeps(s, Probe(me));
    StepRefines(s, Probe(me));
    InvShape(DoProbe(s, me));
  }

  lemma PeekDoes(s: State, me: nat)
    requires Inv(s) && me < s.npes && me !in s.claims && me < |s.full| && !s.full[me]
    ensures Shape(s) && Inv(DoPeek(s, me)) && Shape(DoPeek(s, me)) && Enabled(s, Peek(me))
    ensures DoPeek(s, me) == s.(full := if HasBlock(s.word) then s.full[me := true] else s.full)
  {
    hide Inv, MaxSteals;
    InvShape(s);
    StepKeeps(s, Peek(me));
    InvShape(DoPeek(s, me));
  }

  /** The claim has been copied up to its `n`-th task. */
  ghost predicate CopiedUpTo(c: Claim, n: nat) {
    n <= |c.tasks| && forall i :: i in c.got <==> 0 <= i < n
  }

  predicate SameBlock(c: Claim, c': Claim) {
    c' == c.(got := c'.got)
  }

  /** The slot the `i`-th task of a claim is copied from. */
  function SlotOf(max: nat, c: Claim, i: nat): int {
    if i < ClaimSize(c) <= max && ClaimStart(c) + ClaimSize(c) <= 2 * max then CopySlot(max, ClaimStart(c), ClaimSize(c), i) else -1
  }

  lemma ClaimFits(s: State, me: nat)
    requires Inv(s) && me in s.claims
    ensures Shape(s) && Claims(s) && Statuses(s, 0) && Statuses(s, 1)
    ensures var c := s.claims[me];
            && 0 < ClaimSize(c) == |c.tasks| <= s.max && ClaimStart(c) + ClaimSize(c) <= 2 * s.max
            && c.epoch < MAX_EPOCHS && c.index < STATUS_SLOTS
  {
    InvShape(s);
    InvAll(s);
    var c := s.claims[me];
    hide Inv, Geometry, TailPosition, RecordFields, DoneFlags, PcOk, WordOk, MaxSteals, Left, Statuses, First;
    assert ClaimOk(s, c);
    assert Statuses(s, 0) && Statuses(s, 1);
    ClaimBounds(s, c);
    BlockInside(c.itasks, c.index);
    assert c.rtail < s.max;
  }

  lemma CopyDoes(s: State, me: nat, i: nat)
    requires Inv(s) && me in s.claims && i < ClaimSize(s.claims[me]) && CopiedUpTo(s.claims[me], i)
    ensures Shape(s)
    ensures var s', slot := DoCopy(s, me, i), SlotOf(s.max, s.claims[me], i);
            && Inv(s') && s' == s.(claims := s'.claims) && me in s'.claims
            && SameBlock(s.claims[me], s'.claims[me]) && CopiedUpTo(s'.claims[me], i + 1)
            && 0 <= slot < |s.q| && i < |s.claims[me].tasks| && s.q[slot] == s.claims[me].tasks[i]
  {
    hide Inv, MaxSteals, Left, Statuses, ClaimSize, ClaimStart, CopySlot;
    ClaimFits(s, me);
    CopyKeeps(s, me, i);
    CopiedClaim(s, me, i);
    hide Claims;
  }

  lemma CompleteDoes(s: State, me: nat)
    requires Inv(s) && me in s.claims && CopiedUpTo(s.claims[me], ClaimSize(s.claims[me]))
    ensures Shape(s) && Enabled(s, Complete(me)) && Inv(DoComplete(s, me))
    ensures var c := s.claims[me];
            && c.epoch < |s.rec| && c.index < |s.rec[c.epoch].status|
            && var r := s.rec[c.epoch];
            DoComplete(s, me) == s.(rec := s.rec[c.epoch := r.(status := r.status[c.index := r.status[c.index]
              + ClaimSize(c)])],
                                    claims := s.claims - {me})
  {
    hide Inv, MaxSteals, Left, ClaimSize;
    InvShape(s);
    CompleteKeeps(s, me);
  }

  // ---------------------------------------------------------------- a steal as steps of the machine

  /** A step that is passed over if it is not possible. */
  function Step(s: State, a: Action): State {
    if Enabled(s, a) then Apply(s, a) else s
  }

  /** The fetch-add, or the plain fetch while the victim is believed empty. */
  function Tested(s: State, me: nat): State {
    Step(s, if me < |s.full| && s.full[me] then Probe(me) else Peek(me))
  }

  /** The first look was a plain fetch, and it found something. */
  predicate LooksAgain(s: State, me: nat) {
    me < |s.full| && !s.full[me] && HasBlock(s.word)
  }

  /** The ring at the fetch that decides: on entry, or once the victim is no longer believed empty. */
  function SeenAt(s: State, me: nat, turn: seq<Action>): State {
    if LooksAgain(s, me) then Others(Tested(s, me), TheThief(me), turn) else s
  }

  function ClaimCall(s: State, me: nat, turn: seq<Action>): State {
    Tested(SeenAt(s, me, turn), me)
  }

  /** After the first `n` tasks of the block are copied, task `i` in the wake of gap `gap + i`. */
  function CopyCall(s: State, me: nat, n: nat, turns: seq<seq<Action>>, gap: nat): State {
    if n == 0 then s
    else Step(Others(CopyCall(s, me, n - 1, turns, gap), TheThief(me), Turn(turns, gap + n - 1)), Copy(me, n - 1))
  }

  function FetchCall(s: State, me: nat, n: nat, turns: seq<seq<Action>>, gap: nat): State {
    Step(Others(CopyCall(s, me, n, turns, gap), TheThief(me), Turn(turns, gap + n)), Complete(me))
  }

  /** A whole steal, and what everyone else does in its gaps. */
  function StealCall(s: State, me: nat, turns: seq<seq<Action>>): State {
    var z := ClaimCall(s, me, Turn(turns, 0));
    if me in z.claims then FetchCall(z, me, ClaimSize(z.claims[me]), turns, 1) else z
  }

  lemma CopyCallStep(s: State, z: State, me: nat, i: nat, turns: seq<seq<Action>>, gap: nat)
    requires z == Others(CopyCall(s, me, i, turns, gap), TheThief(me), Turn(turns, gap + i))
    requires Shape(z) && me in z.claims && i < ClaimSize(z.claims[me])
    ensures CopyCall(s, me, i + 1, turns, gap) == DoCopy(z, me, i)
  {
    hide Others, DoCopy, ClaimSize, Shape;
  }

  lemma FetchCallEnds(s: State, z: State, me: nat, n: nat, turns: seq<seq<Action>>, gap: nat)
    requires z == Others(CopyCall(s, me, n, turns, gap), TheThief(me), Turn(turns, gap + n))
    requires Enabled(z, Complete(me))
    ensures FetchCall(s, me, n, turns, gap) == Apply(z, Complete(me))
  {
    hide Others, CopyCall, Enabled, Apply;
  }

  lemma TestedIs(s: State, me: nat)
    requires Shape(s) && me < s.npes && me !in s.claims && me < |s.full|
    ensures Tested(s, me) == if s.full[me] then DoProbe(s, me) else DoPeek(s, me)
  {
    hide DoProbe, DoPeek;
  }

  // ---------------------------------------------------------------- the steal

  /** Everyone else's turn, seen by thief `me`. */
  method Yield(rb: Ring, me: nat, turn: seq<Action>)
    requires rb.Valid()
    modifies rb, rb.q
    ensures rb.Valid() && rb.View() == Others(old(rb.View()), TheThief(me), turn)
    ensures MyPart(old(rb.View()), rb.View(), me)
  {
    hide Inv, Others;
    var s := Others(rb.View(), TheThief(me), turn);
    OthersKeep(rb.View(), TheThief(me), turn);
    OthersLeaveMyPart(rb.View(), turn, me);
    rb.tail, rb.split, rb.nlocal, rb.cur, rb.last, rb.completed, rb.word, rb.world
      := s.tail, s.split, s.nlocal, s.cur, s.last, s.rec, s.word, s;
    CopyIn(rb.q, 0, s.q);
    assert rb.View() == s;
  }

  /** The fetch-add, or the plain fetch while the victim is believed empty. */
  method TestWord(rb: Ring, me: nat) returns (sv: Word, full: bool)
    requires rb.Valid() && me < rb.world.npes && me !in rb.world.claims && me < |rb.world.full|
    modifies rb
    ensures rb.Valid() && rb.View() == Tested(old(rb.View()), me)
    ensures sv == old(rb.word) && full == old(rb.world.full[me])
    ensures rb.world.npes == old(rb.world.npes) && |rb.world.full| == old(|rb.world.full|)
    ensures !full ==> me !in rb.world.claims && rb.world.full[me] == HasBlock(sv)
    ensures full ==> (me in rb.world.claims <==> HasBlock(sv))
    ensures full && HasBlock(sv) ==>
            Shape(old(rb.View())) && Claimed(rb.world.claims[me], sv, old(Unclaimed(rb.View())))
  {
    hide Inv, Unclaimed, MaxSteals, DoProbe, DoPeek, HasBlock;
    ghost var s := rb.View();
    sv, full := rb.word, rb.world.full[me];
    InvShape(s);
    TestedIs(s, me);
    hide Tested;
    if full {
      ProbeDoes(s, me);
      rb.world := DoProbe(rb.View(), me);
      rb.word := sv.(attempts := (sv.attempts + 1) % ATTEMPT_LIMIT);
      assert rb.View() == DoProbe(s, me);
    } else {
      PeekDoes(s, me);
      rb.world := DoPeek(rb.View(), me);
      assert rb.View() == DoPeek(s, me);
    }
  }

  /** The claim is what the word said, and holds a prefix of what was unclaimed. */
  ghost predicate Claimed(c: Claim, sv: Word, unclaimed: seq<Task>) {
    && c.epoch == sv.valid && c.index == sv.attempts && c.itasks == sv.itasks && c.rtail == sv.tail && c.got == map[]
    && |c.tasks| <= |unclaimed| && c.tasks == unclaimed[..|c.tasks|]
  }

  /** Copies `count` slots from `from` on, the tasks of the block from index `first` on; everyone
      else goes on before each of them.  `s0` is the ring before the first task of the block. */
  method CopySlots(ghost s0: State, rb: Ring, me: nat, e: array<Task>, from: nat, first: nat, count: nat,
    turns: seq<seq<Action>>, gap: nat)
    requires rb.Valid() && me in rb.world.claims && e != rb.q
    requires from + count <= rb.max && first + count <= ClaimSize(rb.world.claims[me]) <= e.Length
    requires forall i :: first <= i < first + count ==> SlotOf(rb.max, rb.world.claims[me], i) == from + (i - first)
    requires CopiedUpTo(rb.world.claims[me], first) && e[..first] == rb.world.claims[me].tasks[..first]
    requires rb.View() == CopyCall(s0, me, first, turns, gap)
    modifies rb, rb.q, e
    ensures rb.Valid() && me in rb.world.claims && SameBlock(old(rb.world.claims[me]), rb.world.claims[me])
    ensures CopiedUpTo(rb.world.claims[me], first + count)
    ensures e[..first + count] == rb.world.claims[me].tasks[..first + count]
    ensures e[first + count..] == old(e[first + count..])
    ensures rb.View() == CopyCall(s0, me, first + count, turns, gap)
  {
    hide Inv, Others, CopySlot, CopyCall, ClaimSize, SlotOf;
    var i := 0;
    ghost var c0 := rb.world.claims[me];
    while i < count
      invariant i <= count && rb.Valid() && me in rb.world.claims && SameBlock(c0, rb.world.claims[me])
      invariant CopiedUpTo(rb.world.claims[me], first + i)
      invariant e[..first + i] == rb.world.claims[me].tasks[..first + i]
      invariant e[first + i..] == old(e[first + i..])
      invariant rb.View() == CopyCall(s0, me, first + i, turns, gap)
    {
      SameSize(c0, rb.world.claims[me]);
      SameSlot(rb.max, c0, rb.world.claims[me], first + i);
      Yield(rb, me, Turn(turns, gap + first + i));
      assert SlotOf(rb.max, c0, first + i) == from + i;
      ghost var z := rb.View();
      InvShape(z);
      CopyCallStep(s0, z, me, first + i, turns, gap);
      CopyOneSlot(rb, me, e, from + i, first + i);
      i := i + 1;
    }
  }

  method CopyOneSlot(rb: Ring, me: nat, e: array<Task>, slot: nat, i: nat)
    requires rb.Valid() && me in rb.world.claims && e != rb.q
    requires slot < rb.max && i < ClaimSize(rb.world.claims[me]) <= e.Length
    requires SlotOf(rb.max, rb.world.claims[me], i) == slot
    requires CopiedUpTo(rb.world.claims[me], i) && e[..i] == rb.world.claims[me].tasks[..i]
    modifies rb, e
    ensures rb.Valid() && Shape(old(rb.View())) && rb.View() == DoCopy(old(rb.View()), me, i)
    ensures me in rb.world.claims && SameBlock(old(rb.world.claims[me]), rb.world.claims[me])
    ensures CopiedUpTo(rb.world.claims[me], i + 1) && e[..i + 1] == rb.world.claims[me].tasks[..i + 1]
    ensures e[i + 1..] == old(e[i + 1..])
  {
    hide Inv, DoCopy, SlotOf, Shape, ClaimSize;
    ghost var s := rb.View();
    CopyDoes(s, me, i);
    e[i] := rb.q[slot];
    rb.world := DoCopy(rb.View(), me, i);
    assert rb.View() == DoCopy(s, me, i);
  }

  /** The copy of a claimed block: in one piece, in two, or in one piece past the end of the ring. */
  method CopyBlock(rb: Ring, me: nat, e: array<Task>, start: nat, ntasks: nat, turns: seq<seq<Action>>, gap: nat)
    requires rb.Valid() && me in rb.world.claims && e != rb.q && e.Length >= ntasks
    requires start == ClaimStart(rb.world.claims[me]) && ntasks == ClaimSize(rb.world.claims[me])
    requires rb.world.claims[me].got == map[]
    modifies rb, rb.q, e
    ensures rb.Valid() && rb.View() == CopyCall(old(rb.View()), me, ntasks, turns, gap)
    ensures me in rb.world.claims && SameBlock(old(rb.world.claims[me]), rb.world.claims[me])
    ensures CopiedUpTo(rb.world.claims[me], ntasks) && e[..ntasks] == rb.world.claims[me].tasks
    ensures e[ntasks..] == old(e[ntasks..])
  {
    hide Inv, SlotOf, ClaimSize, ClaimStart, CopiedUpTo, Others, CopyCall, Step;
    ghost var c, s0 := rb.world.claims[me], rb.View();
    CopyCallStarts(s0, me, turns, gap);
    ClaimFitsRing(rb.View(), me);
    SlotsOfClaim(rb.max, c);
    NothingCopied(c);
    if start + ntasks < rb.max {
      CopySlots(s0, rb, me, e, start, 0, ntasks, turns, gap);
    } else {
      var part: int := rb.max - start;
      if part > 0 {
        CopySlots(s0, rb, me, e, start, 0, part, turns, gap);
        SameSize(c, rb.world.claims[me]);
        SlotsOfClaim(rb.max, rb.world.claims[me]);
        CopySlots(s0, rb, me, e, 0, part, ntasks - part, turns, gap);
      } else {
        CopySlots(s0, rb, me, e, -part, 0, ntasks, turns, gap);
      }
    }
    assert c.tasks[..ntasks] == c.tasks;
  }

  lemma ClaimFitsRing(s: State, me: nat)
    requires Inv(s) && me in s.claims
    ensures var c := s.claims[me];
            0 < ClaimSize(c) == |c.tasks| <= s.max && ClaimStart(c) + ClaimSize(c) <= 2 * s.max
  {
    hide Inv, ClaimSize, ClaimStart;
    ClaimFits(s, me);
  }

  /** Every claim fits a buffer for the largest block. */
  lemma ClaimFitsBuffer(s: State, me: nat)
    requires Inv(s) && me in s.claims
    ensures Shape(s) && ClaimSize(s.claims[me]) <= LargestBlock(s.max)
  {
    hide Inv, Geometry, TailPosition, Statuses, RecordFields, DoneFlags, PcOk, WordOk, MaxSteals, Left, First, Offset;
    InvShape(s);
    InvAll(s);
    var c := s.claims[me];
    assert ClaimOk(s, c);
    ClaimBounds(s, c);
    BlockBelow(c.itasks, c.index, s.max);
  }

  lemma CopyCallStarts(s: State, me: nat, turns: seq<seq<Action>>, gap: nat)
    ensures CopyCall(s, me, 0, turns, gap) == s
  {
  }

  lemma SameSlot(max: nat, c: Claim, c': Claim, i: nat)
    requires SameBlock(c, c')
    ensures SlotOf(max, c', i) == SlotOf(max, c, i)
  {
    hide Left, CopySlot;
  }

  lemma NothingCopied(c: Claim)
    requires c.got == map[]
    ensures CopiedUpTo(c, 0)
  {
  }

  /** The slots of the pieces. */
  lemma SlotsOfClaim(max: nat, c: Claim)
    requires 0 < ClaimSize(c) <= max && ClaimStart(c) + ClaimSize(c) <= 2 * max
    ensures var n, part: int := ClaimSize(c), max - ClaimStart(c);
            if n < part then forall i :: 0 <= i < n ==> SlotOf(max, c, i) == ClaimStart(c) + i
            else if part > 0 then
              && part <= n
              && (forall i :: 0 <= i < part ==> SlotOf(max, c, i) == ClaimStart(c) + i)
              && (forall i :: part <= i < n ==> SlotOf(max, c, i) == i - part)
            else forall i :: 0 <= i < n ==> SlotOf(max, c, i) == -part + i
  {
    hide ClaimSize, ClaimStart;
  }

  /** The add that reports the completion. */
  method ReportCompletion(rb: Ring, me: nat, epoch: nat, index: nat, ntasks: nat)
    requires rb.Valid() && me in rb.world.claims
    requires epoch == rb.world.claims[me].epoch && index == rb.world.claims[me].index
             && ntasks == ClaimSize(rb.world.claims[me])
    requires CopiedUpTo(rb.world.claims[me], ntasks)
    modifies rb
    ensures rb.Valid() && me !in rb.world.claims
    ensures Enabled(old(rb.View()), Complete(me)) && rb.View() == Apply(old(rb.View()), Complete(me))
  {
    hide Inv, ClaimSize, DoComplete, CopiedUpTo;
    ghost var s := rb.View();
    CompleteDoes(s, me);
    rb.world := rb.world.(claims := rb.world.claims - {me});
    var r := rb.completed[epoch];
    rb.completed := rb.completed[epoch := r.(status := r.status[index := r.status[index] + ntasks])];
    assert rb.View() == DoComplete(s, me);
    hide Enabled;
  }

  /** What a steal brings home: nothing when the word read was disabled or had no block left, and
      otherwise the next block of the tasks unclaimed at the fetch-add. */
  ghost predicate BroughtHome(s: State, ntasks: nat, got: seq<Task>)
    requires Shape(s)
  {
    && (ntasks > 0 <==> HasBlock(s.word))
    && (ntasks > 0 ==> ntasks == BlockSize(s.word.itasks, s.word.attempts)
                       && ntasks <= |Unclaimed(s)| && got == Unclaimed(s)[..ntasks])
  }

  /** What a steal takes from a ring, whatever the series says: half of the unclaimed tasks that are not
      local, rounded down, but at least one, from the front; nothing while steals are disabled or a
      release is about to publish. */
  ghost predicate Stolen(s: State, n: nat, got: seq<Task>)
    requires Shape(s)
  {
    var unclaimed := Unclaimed(s);
    var shared := |unclaimed| - s.nlocal;
    if s.word.valid >= MAX_EPOCHS || s.pc.Publishing? then n == 0
    else 0 <= n == (if shared <= 1 then shared else shared / 2) <= |unclaimed| && got == unclaimed[..n]
  }

  lemma HomeIsStolen(s: State, n: nat, got: seq<Task>)
    requires Inv(s) && Shape(s) && BroughtHome(s, n, got) && |got| == n
    ensures Stolen(s, n, got)
  {
    hide Inv, Core, TailPosition, Statuses, Claims, RecordFields, DoneFlags, PcOk, MaxSteals, Left, Unclaimed, Slots, WordOk,
      Geometry, First;
    InvAll(s);
    if s.word.valid < MAX_EPOCHS {
      if s.pc.Publishing? {
        NothingPublished(s);
      } else {
        WordNames(s);
      }
    }
  }

  lemma NothingPublished(s: State)
    requires Shape(s) && s.pc.Publishing? && WordOk(s) && s.word.valid < MAX_EPOCHS
    ensures !HasBlock(s.word)
  {
    hide MaxSteals, Left;
  }

  /** The word has a block for one more claim exactly if something shared is unclaimed, and it is half of
      that. */
  lemma WordNames(s: State)
    requires Shape(s) && Geometry(s) && WordOk(s) && Statuses(s, s.cur) && s.word.valid < MAX_EPOCHS && !s.pc.Publishing?
    ensures var shared := |Unclaimed(s)| - s.nlocal;
            && shared >= 0 && (HasBlock(s.word) <==> shared > 0)
            && (shared > 0 ==> BlockSize(s.word.itasks, s.word.attempts) == if shared == 1 then 1 else shared / 2)
  {
    var c := s.inst[s.cur];
    UnclaimedLength(s);
    WordOfCurrent(s);
    hide WordOk, Geometry, Unclaimed, First, Left, MaxSteals, Statuses;
    NoSteals();
    LeftPositive(c.published, c.claims);
    BlockIsHalf(c.published, c.claims);
  }

  lemma UnclaimedLength(s: State)
    requires Shape(s) && Geometry(s)
    ensures |Unclaimed(s)| - s.nlocal == Left(s.inst[s.cur].published, s.inst[s.cur].claims)
  {
    hide Left;
  }

  lemma WordOfCurrent(s: State)
    requires Shape(s) && WordOk(s) && s.word.valid < MAX_EPOCHS && !s.pc.Publishing?
    ensures var c := s.inst[s.cur];
            if s.word.itasks == 0 then c.claims == MaxSteals(c.published)
            else s.word.itasks == c.published && c.claims == if s.word.attempts <= MaxSteals(c.published) then s.word.attempts else MaxSteals(c.published)
  {
    hide MaxSteals, Left;
  }

  lemma BlockIsHalf(n: nat, k: nat)
    ensures var left := Left(n, k); BlockSize(n, k) == if left == 1 then 1 else left / 2
  {
    hide Left;
  }

  /** `saws_shrb_pop_n_tail`.  The buffer has to hold the largest block the ring hands out, whatever
      the caller asks for. */
  method PopNTail(rb: Ring, me: nat, e: array<Task>, turns: seq<seq<Action>>) returns (ntasks: nat)
    requires rb.Valid() && me < rb.world.npes && me !in rb.world.claims && me < |rb.world.full|
    requires e != rb.q && e.Length >= LargestBlock(rb.max)
    modifies rb, rb.q, e
    ensures rb.Valid() && me !in rb.world.claims
    ensures rb.View() == StealCall(old(rb.View()), me, turns)
    ensures var seen := SeenAt(old(rb.View()), me, Turn(turns, 0));
            Inv(seen) && Shape(seen) && ntasks <= e.Length && BroughtHome(seen, ntasks, e[..ntasks])
    ensures Shape(old(rb.View())) && FromEntry(old(rb.View()), me, Turn(turns, 0), ntasks, e[..ntasks])
    ensures e[ntasks..] == old(e[ntasks..])
  {
    hide Inv, Others, Unclaimed, HasBlock, ClaimSize, BroughtHome, Shape, SeenAt, ClaimCall, FetchCall, FromEntry;
    ghost var s0 := rb.View();
    InvShape(s0);
    ghost var seen := SeenAt(rb.View(), me, Turn(turns, 0));
    var sv, worth := ClaimBlock(rb, me, Turn(turns, 0));
    if !worth {
      NothingHome(seen, e[..0]);
      HomeFromEntry(s0, me, Turn(turns, 0), 0, e[..0]);
      return 0;
    }
    ghost var c := rb.world.claims[me];
    ClaimFitsBuffer(rb.View(), me);
    ntasks := FetchBlock(rb, me, e, sv, turns, 1);
    BlockHome(seen, c, e[..ntasks]);
    HomeFromEntry(s0, me, Turn(turns, 0), ntasks, e[..ntasks]);
  }

  /** A thief that believes the victim full takes from the ring as it is.  One that believes it empty
      takes nothing if there is nothing to take, and otherwise from the ring as it is after the gap. */
  ghost predicate FromEntry(s: State, me: nat, turn: seq<Action>, n: nat, got: seq<Task>)
    requires Shape(s)
  {
    && me < |s.full|
    && if s.full[me] then Stolen(s, n, got)
       else if Stolen(s, 0, []) then n == 0
       else var z := Others(s.(full := s.full[me := true]), TheThief(me), turn); Shape(z) && Stolen(z, n, got)
  }

  lemma HomeFromEntry(s: State, me: nat, turn: seq<Action>, n: nat, got: seq<Task>)
    requires Inv(s) && Shape(s) && me < s.npes && me !in s.claims && me < |s.full| && |got| == n
    requires Inv(SeenAt(s, me, turn)) && Shape(SeenAt(s, me, turn)) && BroughtHome(SeenAt(s, me, turn), n, got)
    ensures FromEntry(s, me, turn, n, got)
  {
    hide Inv, Others, Unclaimed, BroughtHome, Shape, Stolen, Tested, HasBlock;
    HomeIsStolen(SeenAt(s, me, turn), n, got);
    if !s.full[me] {
      TestedIs(s, me);
      PeekDoes(s, me);
      LooksIff(s);
      if !HasBlock(s.word) {
        HomeIsNothing(s, n, got);
      }
    }
  }

  lemma HomeIsNothing(s: State, n: nat, got: seq<Task>)
    requires Shape(s) && BroughtHome(s, n, got) && !HasBlock(s.word)
    ensures n == 0
  {
  }

  lemma LooksIff(s: State)
    requires Inv(s) && Shape(s)
    ensures HasBlock(s.word) <==> !Stolen(s, 0, [])
  {
    hide Inv, Core, TailPosition, Statuses, Claims, RecordFields, DoneFlags, PcOk, MaxSteals, Left, Unclaimed, Slots, WordOk,
      Geometry, First;
    InvAll(s);
    if s.word.valid < MAX_EPOCHS {
      if s.pc.Publishing? {
        NothingPublished(s);
      } else {
        WordNames(s);
      }
    }
  }

  /** With a claim on the word `sv`: replay the series, copy the block, report it. */
  method FetchBlock(rb: Ring, me: nat, e: array<Task>, sv: Word, turns: seq<seq<Action>>, gap: nat) returns (ntasks: nat)
    requires rb.Valid() && me in rb.world.claims && e != rb.q && e.Length >= ClaimSize(rb.world.claims[me])
    requires Claimed(rb.world.claims[me], sv, rb.world.claims[me].tasks)
    modifies rb, rb.q, e
    ensures rb.Valid() && me !in rb.world.claims
    ensures rb.View() == FetchCall(old(rb.View()), me, ntasks, turns, gap)
    ensures var c := old(rb.world.claims[me]);
            0 < ntasks == ClaimSize(c) == |c.tasks| <= e.Length && e[..ntasks] == c.tasks
    ensures e[ntasks..] == old(e[ntasks..])
  {
    hide Inv, Others, ClaimSize, ClaimStart, Left, Volume, Apply, Enabled, CopiedUpTo, CopyCall, FetchCall;
    ghost var c, s0 := rb.world.claims[me], rb.View();
    ClaimFitsRing(s0, me);
    var stolen, left := ReplaySteals(sv.itasks, sv.attempts);
    ntasks := if left != 1 then left / 2 else 1;
    ClaimOffsets(c);
    CopyBlock(rb, me, e, sv.tail + stolen, ntasks, turns, gap);
    SameSize(c, rb.world.claims[me]);
    Yield(rb, me, Turn(turns, gap + ntasks));
    ghost var z := rb.View();
    ReportCompletion(rb, me, sv.valid, sv.attempts, ntasks);
    FetchCallEnds(s0, z, me, ntasks, turns, gap);
  }

  lemma SameSize(c: Claim, c': Claim)
    requires SameBlock(c, c')
    ensures ClaimSize(c') == ClaimSize(c) && ClaimStart(c') == ClaimStart(c)
  {
    hide Left;
  }

  lemma NothingHome(s: State, got: seq<Task>)
    requires Shape(s) && !HasBlock(s.word)
    ensures BroughtHome(s, 0, got)
  {
    hide HasBlock;
  }

  lemma BlockHome(s: State, c: Claim, got: seq<Task>)
    requires Shape(s) && HasBlock(s.word) && Claimed(c, s.word, Unclaimed(s)) && got == c.tasks
             && 0 < ClaimSize(c) == |c.tasks|
    ensures BroughtHome(s, ClaimSize(c), got)
  {
    hide HasBlock, Unclaimed;
  }

  /** The tests on the word up to a claim; a victim believed empty is first looked at without
      counting an attempt. */
  method ClaimBlock(rb: Ring, me: nat, turn: seq<Action>) returns (sv: Word, worth: bool)
    requires rb.Valid() && me < rb.world.npes && me !in rb.world.claims && me < |rb.world.full|
    modifies rb, rb.q
    ensures rb.Valid() && rb.View() == ClaimCall(old(rb.View()), me, turn)
    ensures var seen := SeenAt(old(rb.View()), me, turn);
            && Inv(seen) && Shape(seen) && sv == seen.word && worth == HasBlock(sv)
            && (worth ==> me in rb.world.claims && Claimed(rb.world.claims[me], sv, Unclaimed(seen)))
    ensures !worth ==> me !in rb.world.claims
  {
    hide Inv, Others, Unclaimed, HasBlock, Claimed, Tested;
    var full;
    InvShape(rb.View());
    sv, full := TestWord(rb, me);
    worth := Worth(sv);
    if !full && worth {
      Yield(rb, me, turn);
      InvShape(rb.View());
      sv, full := TestWord(rb, me);
      worth := Worth(sv);
    }
  }

  /** The test on the word as the code spells it. */
  method Worth(sv: Word) returns (r: bool)
    ensures r == HasBlock(sv)
  {
    if sv.valid >= MAX_EPOCHS {
      return false;
    }
    var maxsteals := CountSteals(sv.itasks);
    r := sv.attempts < maxsteals;
  }

  lemma ClaimOffsets(c: Claim)
    ensures ClaimStart(c) == c.rtail + Offset(c.itasks, c.index)
    ensures var left := Left(c.itasks, c.index); ClaimSize(c) == if left != 1 then left / 2 else 1
    ensures ClaimSize(c) == BlockSize(c.itasks, c.index)
  {
  }
}
