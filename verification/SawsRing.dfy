/** The owner's and the thief's operations on the SAWS ring as they are written, updating the ring in
    place.  Between any two accesses to shared memory the other participants may take any number of
    steps; which ones is a parameter, and steps that are not possible at that moment are passed
    over. */
module SawsRing {
  import opened Turns
  import opened StealSeries
  import opened RingArith
  import opened RingSlots
  import opened RingMemory
  import opened TaskQueue
  import opened SawsModel
  import opened SawsInvariant
  import opened SawsThief
  import opened SawsOwner
  import opened SawsTheorems

  function Actor(a: Action): Participant {
    match a
    case Probe(t) => TheThief(t)
    case Peek(t) => TheThief(t)
    case Copy(t, _) => TheThief(t)
    case Complete(t) => TheThief(t)
    case _ => TheOwner
  }

  /** What everyone but `me` does: the possible ones among `steps`. */
  function Others(s: State, me: Participant, steps: seq<Action>): State
    decreases |steps|
  {
    if steps == [] then s
    else
      var a := steps[0];
      Others(if Enabled(s, a) && Actor(a) != me then Apply(s, a) else s, me, steps[1..])
  }

  lemma {:induction false} OthersKeep(s: State, me: Participant, steps: seq<Action>)
    requires Inv(s)
    ensures Inv(Others(s, me, steps))
    decreases |steps|
  {
    hide Inv, Enabled, Apply;
    if steps != [] {
      var a := steps[0];
      if Enabled(s, a) && Actor(a) != me {
        StepKeeps(s, a);
        OthersKeep(Apply(s, a), me, steps[1..]);
      } else {
        OthersKeep(s, me, steps[1..]);
      }
    }
  }

  predicate SameButStatus(r: Record, r0: Record) {
    r == r0.(status := r.status)
  }

  /** Thieves touch nothing of the ring but the attempts in the word and the statuses. */
  predicate OwnersPart(s: State, s': State) {
    && s'.max == s.max && s'.npes == s.npes && s'.q == s.q && s'.tail == s.tail && s'.split == s.split
      && s'.nlocal == s.nlocal
    && s'.cur == s.cur && s'.last == s.last && s'.pc == s.pc && s'.aTail == s.aTail && s'.aSplit == s.aSplit
    && |s'.rec| == |s.rec|
    && (forall e :: 0 <= e < |s.rec| ==> SameButStatus(s'.rec[e], s.rec[e]))
    && s'.word == s.word.(attempts := s'.word.attempts)
  }

  lemma ThiefLeavesOwnersPart(s: State, a: Action)
    requires Enabled(s, a) && Actor(a) != TheOwner
    ensures OwnersPart(s, Apply(s, a))
  {
    hide MaxSteals, Left, SharedSize, Slots, CopySlot, ClaimSize;
  }

  lemma {:induction false} OthersLeaveOwnersPart(s: State, steps: seq<Action>)
    ensures OwnersPart(s, Others(s, TheOwner, steps))
    decreases |steps|
  {
    hide Enabled, Apply;
    if steps != [] {
      var a := steps[0];
      if Enabled(s, a) && Actor(a) != TheOwner {
        ThiefLeavesOwnersPart(s, a);
        OthersLeaveOwnersPart(Apply(s, a), steps[1..]);
      } else {
        OthersLeaveOwnersPart(s, steps[1..]);
      }
    }
  }

  // ---------------------------------------------------------------- operations of several steps

  /** The owner's next step inside an operation. */
  function NextAction(pc: Pc): Action {
    match pc
    case Idle => Pop
    case Publishing => Publish
    case ReclaimLast(_, _) => ReclaimRead
    case ReclaimCur(_, _) => ReclaimRead
    case Waiting(_, _, _) => WaitRead
    case Deciding(_) => Decide
    case Scanning(_, _, _, _) => ScanRead
    case Republishing(_, _, _, _) => Republish
  }

  function OwnerStep(s: State): State {
    if !s.pc.Idle? && Enabled(s, NextAction(s.pc)) then Apply(s, NextAction(s.pc)) else s
  }

  /** After `n` more steps of the owner's operation, each preceded by the thieves' turn. */
  function Drive(s: State, turns: seq<seq<Action>>, n: nat): State {
    if n == 0 then s else OwnerStep(Others(Drive(s, turns, n - 1), TheOwner, Turn(turns, n - 1)))
  }

  lemma OwnerStepKeeps(s: State)
    requires Inv(s) && !s.pc.Idle?
    ensures Enabled(s, NextAction(s.pc)) && OwnerStep(s) == Apply(s, NextAction(s.pc)) && Inv(OwnerStep(s))
  {
    hide Inv, Apply;
    assert Shape(s) by { InvShape(s); }
    StepKeeps(s, NextAction(s.pc));
  }

  function HeadTaken(s: State): State {
    s.(nlocal := if s.nlocal > 0 then s.nlocal - 1 else 0)
  }

  /** A reacquire is not even tried while there are local tasks. */
  lemma NotBoth(s: State)
    ensures Enabled(s, Disable) ==> s.nlocal == 0
  {
  }

  /** What a release publishes: the older part of what is unclaimed, from the first unclaimed task on. */
  lemma PublishesOlder(s: State, s1: State, s2: State)
    requires Inv(s) && Shape(s) && s.pc.Idle? && s.nlocal > 0 && SharedSize(s) == 0
    requires s1 == DoRelease(s) && OwnersPart(s1, s2) && Inv(s2) && Inv(OwnerStep(s2))
    ensures var z := OwnerStep(s2);
            && Shape(z) && z.nlocal == s.nlocal / 2 && Unclaimed(z) == Unclaimed(s)
            && z.word == Word(0, z.cur, |Unclaimed(s)| - s.nlocal / 2, z.tail)
            && SharedSize(z) == z.word.itasks && First(z) % z.max == z.word.tail
  {
    hide Inv, SharedSize, MaxSteals, Left, Slots, Core, TailPosition, Statuses, Claims, DoneFlags, PcOk, Geometry,
      RecordFields, WordOk, First, OwnerStep, DoRelease;
    var z := OwnerStep(s2);
    InvShape(s);
    InvAll(s);
    InvShape(s2);
    InvShape(z);
    InvAll(z);
    ReleaseFields(s);
    PublishDoes(s2);
    FreshEpoch(z);
    AllLocal(s);
    SharedSizeIs(s);
    SharedSizeIs(z);
  }

  lemma ReleaseIf(s: State)
    requires Shape(s) && s.pc.Idle?
    ensures Enabled(s, Release) <==> s.nlocal > 0 && SharedSize(s) == 0
  {
    hide SharedSize;
  }

  lemma ReleaseFields(s: State)
    requires Shape(s) && s.nlocal > 0
    ensures var z, n := DoRelease(s), s.nlocal - s.nlocal / 2;
            && n > 0 && z.nlocal == s.nlocal / 2 && z.aSplit == s.aSplit + n && z.aTail == s.aTail && z.q == s.q
            && z.max == s.max && z.cur == s.cur < |z.rec| && z.rec[z.cur].itasks == n && z.pc.Publishing?
  {
    hide MaxSteals, Left;
  }

  /** A word that nobody has tried yet names what is shared. */
  lemma FreshEpoch(s: State)
    requires Shape(s) && s.pc.Idle? && Geometry(s) && WordOk(s)
    requires s.word.valid == s.cur && s.word.attempts == 0 && s.word.itasks > 0
    ensures First(s) == s.aSplit - s.word.itasks && First(s) % s.max == s.word.tail
  {
    hide MaxSteals, Left;
    OffsetZero(s.inst[s.cur].published);
  }

  /** With nothing shared all that is unclaimed is local. */
  lemma AllLocal(s: State)
    requires Shape(s) && Geometry(s) && SharedSize(s) == 0
    ensures First(s) == s.aSplit && |Unclaimed(s)| == s.nlocal
  {
    hide SharedSize, First;
    SharedSizeIs(s);
  }

  lemma PublishDoes(s: State)
    requires Shape(s) && s.pc.Publishing?
    ensures OwnerStep(s) == DoPublish(s)
  {
  }

  class Ring {
    const max: nat
    const q: array<Task>
    var tail: nat
    var split: nat
    var nlocal: nat
    var cur: nat
    var last: nat
    var completed: seq<Record>
    var word: Word
    /** Where everyone is, and the history; its copies of the fields above are not used. */
    var world: State

    function View(): State
      reads this, q
    {
      world.(max := max, q := q[..], tail := tail, split := split, nlocal := nlocal, cur := cur, last := last,
        rec := completed, word := word)
    }

    ghost predicate Valid()
      reads this, q
    {
      q.Length == max && Inv(View())
    }

    /** `saws_shrb_create` and `saws_shrb_reset`. */
    constructor (size: nat, npes: nat, blank: Task)
      requires 2 <= size <= RING_LIMIT && npes + STATUS_SLOTS < ATTEMPT_LIMIT
      ensures Valid() && Init(View()) && max == size && world.npes == npes && fresh(q)
    {
      hide Inv, Abs;
      max := size;
      q := new Task[size](_ => blank);
      tail, split, nlocal, cur, last := 0, 0, 0, 0, 1;
      completed := [NoRecord(), NoRecord().(done := true)];
      word := Word(0, 3, 0, 0);
      world := State(size, npes, [], 0, 0, 0, 0, 1, [], Word(0, 3, 0, 0), Idle, seq(npes, i => true), map[],
                     0, 0, [Instance(0, 0, 0), Instance(0, 0, 0)], 0, {});
      new;
      InitInv(View());
    }

    /** The thieves' turn. */
    method Wait(turn: seq<Action>)
      requires Valid()
      modifies this
      ensures Valid() && View() == Others(old(View()), TheOwner, turn) && OwnersPart(old(View()), View())
      ensures world.pc == old(world.pc) && tail == old(tail) && split == old(split) && nlocal == old(nlocal)
      ensures cur == old(cur) && last == old(last)
      ensures |completed| == old(|completed|) && forall e :: 0 <= e < |completed| ==>
              SameButStatus(completed[e], old(completed[e]))
      ensures word == old(word).(attempts := word.attempts)
    {
      hide Inv, Others;
      var s := Others(View(), TheOwner, turn);
      OthersKeep(View(), TheOwner, turn);
      OthersLeaveOwnersPart(View(), turn);
      completed, word, world := s.rec, s.word, s;
      assert View() == s;
    }

    // -------------------------------------------------------------- release

    /** `saws_shrb_release`: with local tasks and nothing shared the owner keeps half of them, rounded
        down, and publishes the older ones under a fresh word; otherwise nothing happens. */
    method Release(turn: seq<Action>)
      requires Valid() && world.pc.Idle?
      modifies this
      ensures Valid() && world.pc.Idle? && Shape(old(View())) && Shape(View())
      ensures if old(nlocal) > 0 && old(SharedSize(View())) == 0
              then && nlocal == old(nlocal) / 2 && Unclaimed(View()) == old(Unclaimed(View()))
                   && word == Word(0, cur, |old(Unclaimed(View()))| - old(nlocal) / 2, tail)
                   && SharedSize(View()) == word.itasks && First(View()) % max == word.tail
              else View() == old(View())
      ensures View() == if old(Enabled(View(), SawsModel.Release)) then Drive(DoRelease(old(View())), [turn], 1) else old(View())
    {
      ghost var s := View();
      assert Shape(s) by { InvShape(s); }
      hide Inv, Others, OwnersPart, OwnerStep, DoRelease, Unclaimed, First, Shape;
      ReleaseIf(s);
      if nlocal > 0 && SharedSize(View()) == 0 {
        var nshared := TakeShare();
        ghost var s1 := View();
        Wait(turn);
        ghost var s2 := View();
        PublishShare(nshared);
        PublishesOlder(s, s1, s2);
      }
      assert Shape(View()) by { InvShape(View()); }
    }

    method TakeShare() returns (nshared: nat)
      requires Valid() && Enabled(View(), SawsModel.Release)
      modifies this
      ensures Valid() && View() == DoRelease(old(View())) && nshared == completed[cur].itasks
    {
      hide Inv, MaxSteals, SharedSize, Left;
      ghost var s := View();
      StepKeeps(s, SawsModel.Release);
      nshared := nlocal / 2 + nlocal % 2;
      var m := CountSteals(nshared);
      world := DoRelease(View());
      nlocal := nlocal - nshared;
      split := (split + nshared) % max;
      completed := completed[cur := Record(nshared, tail, false, m, NoStatus())];
      assert View() == DoRelease(s);
    }

    method PublishShare(nshared: nat)
      requires Valid() && world.pc.Publishing? && nshared == completed[cur].itasks
      modifies this
      ensures Valid() && View() == OwnerStep(old(View())) && world.pc.Idle?
    {
      ghost var s := View();
      OwnerStepKeeps(s);
      hide Inv;
      world := DoPublish(View());
      word := Word(0, cur, nshared, tail);
      assert View() == DoPublish(s);
    }

    // -------------------------------------------------------------- reclaim

    /** `saws_shrb_reclaim_space`: `n` counts the reads, and `turns[k]` happens before read `k`. */
    method ReclaimSpace(turns: seq<seq<Action>>) returns (ghost n: nat)
      requires Valid() && world.pc.Idle?
      modifies this
      ensures Valid() && world.pc.Idle?
      ensures Enabled(old(View()), StartReclaim) && View() == Drive(Apply(old(View()), StartReclaim), turns, n)
    {
      assert Shape(View()) by { InvShape(View()); }
      hide Inv, Others, Drive, OwnerStep;
      BeginReclaim();
      ghost var s0 := View();
      n := 0;
      assert View() == Drive(s0, turns, n) by { DriveStarts(s0, turns); }
      var k := 0;
      if !completed[last].done {
        var ok;
        ok, k, n := ReclaimPrevious(s0, turns);
        if !ok {
          return;
        }
      }
      n := ReclaimCurrent(s0, turns, k, n);
    }

    method BeginReclaim()
      requires Valid() && world.pc.Idle?
      modifies this
      ensures Valid() && Enabled(old(View()), StartReclaim) && View() == Apply(old(View()), StartReclaim)
      ensures |completed| == MAX_EPOCHS && last < MAX_EPOCHS && cur < MAX_EPOCHS
      ensures world.pc == if completed[last].done then ReclaimCur(0, 0) else ReclaimLast(0, 0)
    {
      ghost var s := View();
      assert Shape(s) by { InvShape(s); }
      StepKeeps(s, StartReclaim);
      hide Inv;
      world := world.(pc := if completed[last].done then ReclaimCur(0, 0) else ReclaimLast(0, 0));
      assert View() == Apply(s, StartReclaim);
    }

    /** The loop over the previous epoch; false when a steal of it is still open. */
    method ReclaimPrevious(ghost s0: State, turns: seq<seq<Action>>) returns (ok: bool, k: nat, ghost n: nat)
      requires Valid() && world.pc == ReclaimLast(0, 0) && View() == s0 && last < |completed|
      modifies this
      ensures Valid() && View() == Drive(s0, turns, n) && n == k
      ensures world.pc == if ok then ReclaimCur(0, 0) else Idle
      ensures cur == old(cur) && |completed| == old(|completed|)
    {
      hide Inv, Others, Drive, OwnerStep, View;
      DriveStarts(s0, turns);
      n, k := 0, 0;
      var i, sum := 0, 0;
      var bound := completed[last].maxsteals;
      while i < bound
        invariant Valid() && n == k && View() == Drive(s0, turns, n)
        invariant world.pc == ReclaimLast(i, sum) && i <= bound && last < |completed|
                  && bound == completed[last].maxsteals
        invariant cur == old(cur) && |completed| == old(|completed|)
      {
        DriveStep(s0, turns, n);
        Wait(Turn(turns, k));
        var st := ReadLast(i, sum);
        n, k := n + 1, k + 1;
        if st == 0 {
          return false, k, n;
        }
        sum := sum + st;
        i := i + 1;
      }
      DriveStep(s0, turns, n);
      Wait(Turn(turns, k));
      EndLast(i, sum);
      n, k := n + 1, k + 1;
      ok := true;
    }

    /** One status of the previous epoch. */
    method ReadLast(i: nat, sum: nat) returns (st: nat)
      requires Valid() && world.pc == ReclaimLast(i, sum) && last < |completed| && i < completed[last].maxsteals
      modifies this`world
      ensures Valid() && View() == OwnerStep(old(View()))
      ensures world.pc == if st == 0 then Idle else ReclaimLast(i + 1, sum + st)
    {
      hide Inv, OwnerStep;
      ghost var s := View();
      LastReads(s);
      st := completed[last].status[i];
      world := world.(pc := if st == 0 then Idle else ReclaimLast(i + 1, sum + st));
      assert View() == OwnerStep(s);
    }

    /** The end of that loop: the tail jumps to the current epoch if the sums agree. */
    method EndLast(i: nat, sum: nat)
      requires Valid() && world.pc == ReclaimLast(i, sum) && last < |completed| && i >= completed[last].maxsteals
      modifies this
      ensures Valid() && View() == OwnerStep(old(View())) && world.pc == ReclaimCur(0, 0)
      ensures cur == old(cur) && |completed| == old(|completed|)
    {
      hide Inv, OwnerStep;
      ghost var s := View();
      LastEnds(s);
      world := OwnerStep(View());
      if sum == completed[last].itasks {
        tail := completed[cur].vtail;
        completed := completed[last := completed[last].(done := true)];
      }
      assert View() == OwnerStep(s);
    }

    /** The longest run of completed steals of the current epoch. */
    method ReclaimCurrent(ghost s0: State, turns: seq<seq<Action>>, k0: nat, ghost n0: nat) returns (ghost n: nat)
      requires Valid() && world.pc == ReclaimCur(0, 0) && n0 == k0 && View() == Drive(s0, turns, n0)
               && cur < |completed|
      modifies this
      ensures Valid() && View() == Drive(s0, turns, n) && world.pc.Idle?
    {
      hide Inv, Others, Drive, OwnerStep, View;
      n := n0;
      var k, i, sum := k0, 0, 0;
      var bound := completed[cur].maxsteals;
      var open := false;
      while i < bound
        invariant Valid() && n == k && View() == Drive(s0, turns, n)
        invariant world.pc == ReclaimCur(i, sum) && i <= bound && cur < |completed| && bound == completed[cur].maxsteals
      {
        DriveStep(s0, turns, n);
        Wait(Turn(turns, k));
        var more;
        more, sum := ReadCur(i, sum);
        n, k, i := n + 1, k + 1, i + 1;
        if !more {
          return;
        }
      }
      DriveStep(s0, turns, n);
      Wait(Turn(turns, k));
      EndCur(i, sum);
      n := n + 1;
    }

    /** One status of the current epoch; a steal still open ends the scan. */
    method ReadCur(i: nat, sum: nat) returns (more: bool, sum': nat)
      requires Valid() && world.pc == ReclaimCur(i, sum) && cur < |completed| && i < completed[cur].maxsteals
      modifies this
      ensures Valid() && View() == OwnerStep(old(View()))
      ensures world.pc == if more then ReclaimCur(i + 1, sum') else Idle
      ensures cur == old(cur) && |completed| == old(|completed|)
              && completed[cur].maxsteals == old(completed[cur].maxsteals)
    {
      hide Inv, OwnerStep;
      ghost var s := View();
      CurReads(s);
      more, sum' := completed[cur].status[i] != 0, sum + completed[cur].status[i];
      if more {
        world := world.(pc := ReclaimCur(i + 1, sum'));
        assert View() == OwnerStep(s);
      } else {
        EndCur(i, sum);
      }
    }

    method EndCur(i: nat, sum: nat)
      requires Valid() && world.pc == ReclaimCur(i, sum) && cur < |completed|
      requires i < completed[cur].maxsteals ==> i < |completed[cur].status| && completed[cur].status[i] == 0
      modifies this
      ensures Valid() && View() == OwnerStep(old(View())) && world.pc.Idle?
      ensures cur == old(cur) && |completed| == old(|completed|)
              && completed[cur].maxsteals == old(completed[cur].maxsteals)
    {
      hide Inv, OwnerStep;
      ghost var s := View();
      CurEnds(s);
      world := OwnerStep(View());
      if sum == completed[cur].itasks {
        completed := completed[cur := completed[cur].(done := true)];
      }
      if completed[last].done && sum > 0 {
        tail := (completed[cur].vtail + sum) % max;
      }
      assert View() == OwnerStep(s);
    }

    // -------------------------------------------------------------- reacquire

    /** `saws_shrb_reacquire`; false when `turns` runs out while the owner still waits for steals of
        the previous epoch. */
    method Reacquire(turns: seq<seq<Action>>) returns (done: bool, ghost n: nat)
      requires Valid() && world.pc.Idle?
      modifies this
      ensures Valid() && if done then world.pc.Idle? else world.pc.Waiting? && n >= |turns|
      ensures if old(Enabled(View(), Disable))
              then var s0 := Apply(old(View()), Disable);
                   && View() == Drive(s0, turns, n) && Reacquiring(s0, turns, n) && Shape(s0)
                   && (done ==> nlocal == HalfUp(|Unclaimed(s0)|))
              else done && View() == old(View())
    {
      InvShape(View());
      hide Inv, Others, Drive, OwnerStep, Reacquiring, Apply, SharedSize, Unclaimed;
      n := 0;
      if SharedSize(View()) <= nlocal || nlocal != 0 {
        return true, n;
      }
      var sv := DisableSteals();
      ghost var s0 := View();
      InvShape(s0);
      DriveStarts(s0, turns);
      ReacquiringStarts(s0, turns);
      var k := 0;
      if !completed[last].done {
        done, k, n := AwaitPrevious(s0, sv, turns);
        if !done {
          return;
        }
      }
      n := TakeBack(s0, sv, turns, k, n);
      done := true;
    }

    /** What follows once the previous epoch is complete. */
    method TakeBack(ghost s0: State, sv: Word, turns: seq<seq<Action>>, k0: nat, ghost n0: nat) returns (ghost n: nat)
      requires Valid() && world.pc == Deciding(sv.attempts) && word.itasks == sv.itasks
      requires View() == Drive(s0, turns, n0) && Reacquiring(s0, turns, n0) && n0 == k0 && Inv(s0)
      modifies this
      ensures Valid() && View() == Drive(s0, turns, n) && Reacquiring(s0, turns, n) && world.pc.Idle?
      ensures Shape(s0) && nlocal == HalfUp(|Unclaimed(s0)|)
    {
      hide Inv, Others, Drive, OwnerStep, Reacquiring, View, Left, Unclaimed, HalfUp;
      DriveFreezes(s0, turns, n0);
      var stolen, left := ReplaySteals(sv.itasks, sv.attempts);
      var amount := if left == 1 then 1 else left / 2 + left % 2;
      DriveStep(s0, turns, n0);
      StillReacquiring();
      ReacquiringStep(s0, turns, n0);
      FrozenByOthers(View(), Turn(turns, k0));
      Wait(Turn(turns, k0));
      TakeHalf(sv, left, amount);
      n := n0 + 1;
      if amount > 0 {
        n := SwitchEpochs(s0, sv, stolen, left - amount, turns, k0 + 1, n);
      }
    }

    lemma StillReacquiring()
      requires world.pc.Waiting? || world.pc.Deciding? || world.pc.Scanning? || world.pc.Republishing?
      ensures InReacquire(View())
    {
    }

    /** The fetch-or. */
    method DisableSteals() returns (sv: Word)
      requires Valid() && Enabled(View(), Disable)
      modifies this
      ensures Valid() && Enabled(old(View()), Disable) && View() == Apply(old(View()), Disable)
      ensures sv == old(word) && word == sv.(valid := word.valid) && InReacquire(View())
      ensures |completed| == MAX_EPOCHS && last < MAX_EPOCHS && cur < MAX_EPOCHS
      ensures world.pc == if completed[last].done then Deciding(sv.attempts) else Waiting(sv.attempts, 0, 0)
    {
      hide Inv, SharedSize, Core;
      ghost var s := View();
      InvShape(s);
      StepKeeps(s, Disable);
      sv := word;
      word := word.(valid := if word.valid < 2 then word.valid + 2 else word.valid);
      world := world.(pc := if completed[last].done then Deciding(sv.attempts) else Waiting(sv.attempts, 0, 0));
      assert View() == Apply(s, Disable);
    }

    /** The retry loop over the statuses of the previous epoch. */
    method AwaitPrevious(ghost s0: State, sv: Word, turns: seq<seq<Action>>) returns (done: bool, k: nat, ghost n: nat)
      requires Valid() && world.pc == Waiting(sv.attempts, 0, 0) && View() == s0 && last < |completed|
               && word.itasks == sv.itasks
      modifies this
      ensures Valid() && View() == Drive(s0, turns, n) && Reacquiring(s0, turns, n) && n == k
      ensures if done then world.pc == Deciding(sv.attempts) else world.pc.Waiting? && n >= |turns|
      ensures word.itasks == old(word.itasks) && last == old(last) && cur == old(cur) && |completed| == old(|completed|)
    {
      hide Inv, Others, Drive, OwnerStep, Reacquiring, View;
      DriveStarts(s0, turns);
      ReacquiringStarts(s0, turns);
      n, k := 0, 0;
      while k < |turns|
        invariant Valid() && n == k && View() == Drive(s0, turns, n) && Reacquiring(s0, turns, n)
        invariant world.pc == Waiting(sv.attempts, 0, 0)
        invariant word.itasks == old(word.itasks) && last == old(last) && cur == old(cur)
                  && |completed| == old(|completed|)
        decreases |turns| - k
      {
        ghost var k0 := k;
        var i, sum := 0, 0;
        var bound := completed[last].maxsteals;
        while i < bound
          invariant Valid() && n == k && View() == Drive(s0, turns, n) && Reacquiring(s0, turns, n)
          invariant word.itasks == old(word.itasks) && last == old(last) && cur == old(cur)
                    && |completed| == old(|completed|)
          invariant world.pc == Waiting(sv.attempts, i, sum) && i <= bound && bound == completed[last].maxsteals
                    && k >= k0
        {
          DriveStep(s0, turns, n);
          StillReacquiring();
          ReacquiringStep(s0, turns, n);
          Wait(Turn(turns, k));
          sum := WaitRead(sv.attempts, i, sum);
          n, k, i := n + 1, k + 1, i + 1;
        }
        DriveStep(s0, turns, n);
        StillReacquiring();
        ReacquiringStep(s0, turns, n);
        Wait(Turn(turns, k));
        done := EndWait(sv.attempts, i, sum);
        n, k := n + 1, k + 1;
        if done {
          return;
        }
      }
      done := false;
    }

    method WaitRead(att: nat, i: nat, sum: nat) returns (sum': nat)
      requires Valid() && world.pc == Waiting(att, i, sum) && last < |completed| && i < completed[last].maxsteals
      modifies this`world
      ensures Valid() && View() == OwnerStep(old(View())) && world.pc == Waiting(att, i + 1, sum')
    {
      hide Inv, OwnerStep;
      ghost var s := View();
      WaitSteps(s);
      sum' := sum + completed[last].status[i];
      world := world.(pc := Waiting(att, i + 1, sum'));
      assert View() == OwnerStep(s);
    }

    /** The end of a round: done, or all over again. */
    method EndWait(att: nat, i: nat, sum: nat) returns (done: bool)
      requires Valid() && world.pc == Waiting(att, i, sum) && last < |completed| && i >= completed[last].maxsteals
      modifies this`world
      ensures Valid() && View() == OwnerStep(old(View()))
      ensures world.pc == if done then Deciding(att) else Waiting(att, 0, 0)
    {
      hide Inv, OwnerStep;
      ghost var s := View();
      WaitSteps(s);
      done := sum == completed[last].itasks;
      world := world.(pc := if done then Deciding(att) else Waiting(att, 0, 0));
      assert View() == OwnerStep(s);
    }

    /** Take back the newer half of what is unclaimed and switch epochs, or publish an empty word. */
    method TakeHalf(sv: Word, left: nat, amount: nat)
      requires Valid() && world.pc == Deciding(sv.attempts) && word.itasks == sv.itasks
      requires left == Left(sv.itasks, sv.attempts) && amount == if left == 1 then 1 else left / 2 + left % 2
      modifies this
      ensures Valid() && View() == OwnerStep(old(View()))
      ensures if amount == 0 then world.pc.Idle?
              else && cur < |completed| && last < |completed|
                   && world.pc == Scanning(sv.attempts, left - amount, 0, completed[last].vtail)
                   && word.itasks == sv.itasks
      ensures Shape(old(View())) && nlocal == HalfUp(|old(Unclaimed(View()))|)
    {
      hide Inv, OwnerStep, Left, Retreat, Unclaimed;
      ghost var s := View();
      DecideDoes(s);
      DecideTakes(s);
      world := OwnerStep(View());
      if amount > 0 {
        nlocal := nlocal + amount;
        split := Retreat(split, amount, max);
        cur := (cur + 1) % MAX_EPOCHS;
        last := (last + 1) % MAX_EPOCHS;
        completed := completed[cur := NoRecord()];
      } else {
        word := Word(0, cur, 0, tail);
      }
      assert View() == OwnerStep(s);
    }

    /** The scan of the epoch that was current, and the new word. */
    method SwitchEpochs(ghost s0: State, sv: Word, stolen: nat, left: nat, turns: seq<seq<Action>>, k0: nat,
      ghost n0: nat) returns (ghost n: nat)
      requires Valid() && last < |completed| && world.pc == Scanning(sv.attempts, left, 0, completed[last].vtail)
      requires View() == Drive(s0, turns, n0) && Reacquiring(s0, turns, n0) && n0 == k0
      requires word.itasks == sv.itasks && stolen == Offset(sv.itasks, sv.attempts)
      modifies this
      ensures Valid() && View() == Drive(s0, turns, n) && Reacquiring(s0, turns, n) && world.pc.Idle?
      ensures nlocal == old(nlocal)
    {
      hide Inv, Others, Drive, OwnerStep, Reacquiring, View, Left;
      n := n0;
      var k, i, completedIndex := k0, 0, completed[last].vtail;
      var more := true;
      while more
        invariant Valid() && n == k && View() == Drive(s0, turns, n) && Reacquiring(s0, turns, n)
        invariant last < |completed| && i <= completed[last].maxsteals && word.itasks == sv.itasks
                  && nlocal == old(nlocal)
        invariant world.pc == if more then Scanning(sv.attempts, left, i, completedIndex) else Republishing(sv.attempts, left, i, completedIndex)
        decreases completed[last].maxsteals - i, more
      {
        DriveStep(s0, turns, n);
        StillReacquiring();
          ReacquiringStep(s0, turns, n);
        Wait(Turn(turns, k));
        more, completedIndex := ScanRead(sv.attempts, left, i, completedIndex);
        n, k := n + 1, k + 1;
        if more {
          i := i + 1;
        }
      }
      DriveStep(s0, turns, n);
      StillReacquiring();
          ReacquiringStep(s0, turns, n);
      Wait(Turn(turns, k));
      Republish(sv, stolen, left, i, completedIndex);
      n := n + 1;
    }

    method ScanRead(att: nat, left: nat, i: nat, index: nat) returns (more: bool, index': nat)
      requires Valid() && world.pc == Scanning(att, left, i, index) && last < |completed|
               && i <= completed[last].maxsteals
      modifies this`world
      ensures Valid() && View() == OwnerStep(old(View()))
      ensures more ==> i < completed[last].maxsteals
      ensures world.pc == if more then Scanning(att, left, i + 1, index') else Republishing(att, left, i, index')
    {
      hide Inv, OwnerStep;
      ghost var s := View();
      ScanSteps(s);
      more, index' := false, index;
      if i < completed[last].maxsteals && completed[last].status[i] != 0 {
        more, index' := true, index + completed[last].status[i];
      }
      world := world.(pc := if more then Scanning(att, left, i + 1, index') else Republishing(att, left, i, index'));
      assert View() == OwnerStep(s);
    }

    method Republish(sv: Word, stolen: nat, left: nat, i: nat, index: nat)
      requires Valid() && world.pc == Republishing(sv.attempts, left, i, index)
      requires word.itasks == sv.itasks && stolen == Offset(sv.itasks, sv.attempts)
      modifies this
      ensures Valid() && View() == OwnerStep(old(View())) && world.pc.Idle? && nlocal == old(nlocal)
    {
      hide Inv, OwnerStep, Left, MaxSteals;
      ghost var s := View();
      RepublishDoes(s);
      world := OwnerStep(View());
      if index > tail {
        tail := index % max;
      }
      var m := CountSteals(left);
      completed := completed[last := completed[last].(itasks := stolen, maxsteals := sv.attempts)];
      var vtail := (completed[last].vtail + completed[last].itasks) % max;
      completed := completed[cur := completed[cur].(itasks := left, maxsteals := m, done := false, vtail := vtail)];
      word := Word(0, cur, left, completed[cur].vtail);
      assert View() == OwnerStep(s);
    }

    // -------------------------------------------------------------- push and pop

    /** `saws_shrb_pop_head`: nothing is returned exactly when nothing was unclaimed on entry, which
        is when steals are disabled if it comes to that; otherwise the newest task is. */
    method PopHead(turns: seq<seq<Action>>) returns (done: bool, x: Option<Task>, ghost n: nat)
      requires Valid() && world.pc.Idle?
      modifies this
      ensures Valid() && if done then world.pc.Idle? else world.pc.Waiting? && n >= |turns|
      ensures var z := if old(Enabled(View(), Disable)) then Drive(Apply(old(View()), Disable), turns, n) else old(View());
              View() == if x.Some? then HeadTaken(z) else z
      ensures Shape(old(View())) && Shape(View())
      ensures done ==> (x.None? <==> old(Unclaimed(View())) == [])
      ensures done && x.Some? ==> old(Unclaimed(View())) == Unclaimed(View()) + [x.value]
    {
      ghost var s := View();
      InvShape(s);
      hide Inv, Others, Drive, OwnerStep, Reacquiring, Apply, Unclaimed, Enabled;
      done, x, n := true, None, 0;
      NotBoth(s);
      if nlocal == 0 {
        ghost var may := Enabled(s, Disable);
        done, n := Reacquire(turns);
        PopAfter(s, turns, n, View());
        if !may {
          NothingShared(s);
        }
      } else {
        LocalIsUnclaimed(s);
      }
      InvShape(View());
      if done && nlocal > 0 {
        var y := TakeHead();
        x := Some(y);
      }
    }

    method TakeHead() returns (x: Task)
      requires Valid() && world.pc.Idle? && nlocal > 0
      modifies this
      ensures Valid() && View() == HeadTaken(old(View()))
      ensures Shape(old(View())) && Shape(View()) && old(Unclaimed(View())) == Unclaimed(View()) + [x]
    {
      hide Inv, Unclaimed;
      ghost var s := View();
      InvShape(s);
      StepKeeps(s, Pop);
      StepRefines(s, Pop);
      x := q[(split + nlocal - 1) % max];
      nlocal := nlocal - 1;
      assert View() == Apply(s, Pop);
    }

    /** `saws_shrb_ensure_space`: false is the error exit. */
    method EnsureSpace(n: nat, turns: seq<seq<Action>>) returns (room: bool, ghost steps: nat)
      requires Valid() && world.pc.Idle?
      modifies this
      ensures Valid() && world.pc.Idle? && Shape(View()) && Shape(old(View()))
      ensures room <==> nlocal + SharedSize(View()) + n <= max
      ensures if old(nlocal + SharedSize(View())) + n <= max then View() == old(View())
              else Enabled(old(View()), StartReclaim) && View() == Drive(Apply(old(View()), StartReclaim), turns, steps)
    {
      InvShape(View());
      hide Inv, Others, Drive, OwnerStep, Apply;
      steps := 0;
      if max < nlocal + SharedSize(View()) + n {
        steps := ReclaimSpace(turns);
        InvShape(View());
      }
      room := nlocal + SharedSize(View()) + n <= max;
    }

    /** `saws_shrb_push_n_head`, and with a single task `saws_shrb_push_head`. */
    method PushNHead(es: seq<Task>, turns: seq<seq<Action>>) returns (room: bool, ghost steps: nat)
      requires Valid() && world.pc.Idle? && es != []
      modifies this, q
      ensures Valid() && world.pc.Idle? && Shape(View()) && Shape(old(View())) && Enabled(old(View()), StartReclaim)
      ensures var before := if old(nlocal + SharedSize(View())) + |es| <= max then old(View())
                            else Drive(Apply(old(View()), StartReclaim), turns, steps);
              && Inv(before) && Shape(before) && (room <==> before.nlocal + SharedSize(before) + |es| <= max)
              && (room ==> View() == DoPush(before, es) && Unclaimed(View()) == Unclaimed(before) + es)
              && (!room ==> View() == before)
    {
      hide Inv, Drive, Unclaimed;
      ghost var before;
      assert Shape(old(View())) by { InvShape(View()); }
      room, steps := EnsureSpace(|es|, turns);
      before := View();
      if room {
        StepKeeps(before, Push(es));
        StepRefines(before, Push(es));
        hide SharedSize;
        PushBlock(q, split, nlocal, es);
        nlocal := nlocal + |es|;
        assert View() == DoPush(before, es);
      }
    }
  }

  // What stays put while steals are disabled.

  lemma FrozenByThief(s: State, a: Action)
    requires Inv(s) && InReacquire(s) && Enabled(s, a) && Actor(a) != TheOwner
    ensures Shape(s) && Shape(Apply(s, a)) && InReacquire(Apply(s, a)) && Unclaimed(Apply(s, a)) == Unclaimed(s)
  {
    hide Inv, Unclaimed, Apply, LabelOf, Flight, SharedSize, MaxSteals, Left;
    InvShape(s);
    InvAll(s);
    StepRefines(s, a);
    WordDisabled(s);
    ThiefLeavesOwnersPart(s, a);
    ThiefLabel(s, a);
  }

  lemma WordDisabled(s: State)
    requires Shape(s) && InReacquire(s) && WordOk(s)
    ensures s.word.valid >= MAX_EPOCHS
  {
    hide MaxSteals, Left;
  }

  lemma ThiefLabel(s: State, a: Action)
    requires Enabled(s, a) && Actor(a) != TheOwner && s.word.valid >= MAX_EPOCHS
    ensures LabelOf(s, a).Silent? || LabelOf(s, a).Delivered?
  {
    hide MaxSteals, Left, SharedSize, ClaimSize, Received;
  }

  lemma {:induction false} FrozenByOthers(s: State, steps: seq<Action>)
    requires Inv(s) && InReacquire(s)
    ensures Shape(s) && Inv(Others(s, TheOwner, steps)) && Shape(Others(s, TheOwner, steps))
    ensures InReacquire(Others(s, TheOwner, steps)) && Unclaimed(Others(s, TheOwner, steps)) == Unclaimed(s)
    decreases |steps|
  {
    hide Inv, Enabled, Apply, Unclaimed, InReacquire;
    InvShape(s);
    if steps != [] {
      var a := steps[0];
      if Enabled(s, a) && Actor(a) != TheOwner {
        StepKeeps(s, a);
        FrozenByThief(s, a);
        FrozenByOthers(Apply(s, a), steps[1..]);
      } else {
        FrozenByOthers(s, steps[1..]);
      }
    }
  }

  lemma FrozenByOwner(s: State)
    requires Inv(s) && InReacquire(s)
    ensures Shape(s) && Inv(OwnerStep(s)) && Shape(OwnerStep(s)) && Unclaimed(OwnerStep(s)) == Unclaimed(s)
  {
    hide Inv, Unclaimed, Apply, LabelOf, OwnerStep, Enabled;
    InvShape(s);
    OwnerStepKeeps(s);
    StepRefines(s, NextAction(s.pc));
    SilentNext(s);
  }

  lemma SilentNext(s: State)
    requires Enabled(s, NextAction(s.pc)) && !s.pc.Idle?
    ensures LabelOf(s, NextAction(s.pc)) == Silent
  {
    hide SharedSize, MaxSteals, Left;
  }

  /** A reacquire leaves the unclaimed tasks as they were when it disabled steals. */
  lemma {:induction false} DriveFreezes(s: State, turns: seq<seq<Action>>, n: nat)
    requires Inv(s) && Reacquiring(s, turns, n)
    ensures Shape(s) && Inv(Drive(s, turns, n)) && Shape(Drive(s, turns, n))
    ensures Unclaimed(Drive(s, turns, n)) == Unclaimed(s)
  {
    hide Inv, Unclaimed, OwnerStep, Others, InReacquire;
    InvShape(s);
    if n > 0 {
      DriveFreezes(s, turns, n - 1);
      var d := Drive(s, turns, n - 1);
      FrozenByOthers(d, Turn(turns, n - 1));
      FrozenByOwner(Others(d, TheOwner, Turn(turns, n - 1)));
    }
  }

  lemma PopAfter(s: State, turns: seq<seq<Action>>, n: nat, s': State)
    requires Inv(s) && Shape(s) && s.pc.Idle?
    requires if Enabled(s, Disable) then s' == Drive(Apply(s, Disable), turns, n) && Reacquiring(Apply(s, Disable), turns, n) else s' == s
    ensures Shape(s') && Unclaimed(s') == Unclaimed(s)
    ensures Enabled(s, Disable) ==> Shape(Apply(s, Disable)) && Unclaimed(Apply(s, Disable)) == Unclaimed(s)
  {
    hide Inv, Unclaimed, Apply, Drive, Reacquiring, Enabled;
    if Enabled(s, Disable) {
      StepKeeps(s, Disable);
      StepRefines(s, Disable);
      InvShape(Apply(s, Disable));
      DriveFreezes(Apply(s, Disable), turns, n);
    }
  }

  lemma NothingShared(s: State)
    requires Inv(s) && Shape(s) && s.pc.Idle? && s.nlocal == 0 && !Enabled(s, Disable)
    ensures Unclaimed(s) == []
  {
    hide Inv, Unclaimed;
    NothingToReacquire(s);
  }

  lemma LocalIsUnclaimed(s: State)
    requires Inv(s) && s.nlocal > 0
    ensures Shape(s) && Unclaimed(s) != []
  {
    InvShape(s);
    InvAll(s);
    hide Inv, Core, TailPosition, Statuses, Claims, RecordFields, DoneFlags, WordOk, MaxSteals, Left;
  }

  /** What the owner takes back is the newer half of what is unclaimed. */
  lemma DecideTakes(s: State)
    requires Inv(s) && s.pc.Deciding?
    ensures Shape(s) && OwnerStep(s).nlocal == HalfUp(|Unclaimed(s)|)
  {
    hide Inv, Unclaimed, Apply, OwnerStep;
    InvShape(s);
    OwnerStepKeeps(s);
    ReacquireTakesHalf(s);
  }

  /** Every state the operation goes through before its `n`-th step has steals disabled. */
  ghost predicate Reacquiring(s: State, turns: seq<seq<Action>>, n: nat) {
    n == 0 || (Reacquiring(s, turns, n - 1) && InReacquire(Drive(s, turns, n - 1)))
  }

  lemma ReacquiringStarts(s: State, turns: seq<seq<Action>>)
    ensures Reacquiring(s, turns, 0)
  {
  }

  lemma ReacquiringStep(s: State, turns: seq<seq<Action>>, n: nat)
    requires Reacquiring(s, turns, n) && InReacquire(Drive(s, turns, n))
    ensures Reacquiring(s, turns, n + 1)
  {
  }

  // What the steps of a reacquire do to the fields.

  lemma WaitSteps(s: State)
    requires Inv(s) && s.pc.Waiting? && s.last < |s.rec|
    ensures s.pc.i < s.rec[s.last].maxsteals ==> s.pc.i < |s.rec[s.last].status|
    ensures Inv(OwnerStep(s))
    ensures OwnerStep(s) == s.(pc := if s.pc.i < s.rec[s.last].maxsteals then Waiting(s.pc.att, s.pc.i + 1, s.pc.sum + s.rec[s.last].status[s.pc.i])
                                     else if s.pc.sum == s.rec[s.last].itasks then Deciding(s.pc.att)
                                     else Waiting(s.pc.att, 0, 0))
  {
    OwnerStepKeeps(s);
    InvShape(s);
    hide Inv;
  }

  lemma DecideDoes(s: State)
    requires Inv(s) && s.pc.Deciding?
    ensures Shape(s) && Inv(OwnerStep(s))
    ensures var s', left := OwnerStep(s), Left(s.word.itasks, s.pc.att);
            var amount := ReacquireAmount(left);
            if amount == 0 then s' == s.(word := Word(0, s.cur, 0, s.tail), failed := s'.failed, pc := Idle)
            else s' == s.(nlocal := s.nlocal + amount, split := Retreat(s.split, amount, s.max), cur := s.last,
              last := s.cur,
                          rec := s.rec[s.last := NoRecord()],
                            pc := Scanning(s.pc.att, left - amount, 0, s.rec[s.cur].vtail),
                          aSplit := s'.aSplit, inst := s'.inst)
  {
    hide Inv, Left, MaxSteals, Retreat, Core, DoDecide, Shape;
    OwnerStepKeeps(s);
    InvShape(s);
    ApplyDecide(s);
    DecideFields(s);
  }

  lemma ApplyDecide(s: State)
    requires Shape(s) && s.pc.Deciding?
    ensures Enabled(s, NextAction(s.pc)) && Apply(s, NextAction(s.pc)) == DoDecide(s)
  {
    hide DoDecide;
  }

  lemma DecideFields(s: State)
    requires Shape(s) && s.pc.Deciding?
    ensures var s', left := DoDecide(s), Left(s.word.itasks, s.pc.att);
            var amount := ReacquireAmount(left);
            if amount == 0 then s' == s.(word := Word(0, s.cur, 0, s.tail), failed := s'.failed, pc := Idle)
            else s' == s.(nlocal := s.nlocal + amount, split := Retreat(s.split, amount, s.max), cur := s.last,
              last := s.cur,
                          rec := s.rec[s.last := NoRecord()],
                            pc := Scanning(s.pc.att, left - amount, 0, s.rec[s.cur].vtail),
                          aSplit := s'.aSplit, inst := s'.inst)
  {
    hide Left, Retreat;
  }

  lemma ScanSteps(s: State)
    requires Inv(s) && s.pc.Scanning? && s.last < |s.rec|
    ensures s.pc.i < s.rec[s.last].maxsteals ==> s.pc.i < |s.rec[s.last].status|
    ensures Inv(OwnerStep(s))
    ensures OwnerStep(s) == s.(pc := if s.pc.i < s.rec[s.last].maxsteals && s.rec[s.last].status[s.pc.i] != 0
                                     then Scanning(s.pc.att, s.pc.left, s.pc.i + 1, s.pc.index + s.rec[s.last].status[s.pc.i])
                                     else Republishing(s.pc.att, s.pc.left, s.pc.i, s.pc.index))
  {
    hide Inv, OwnerStep, SharedSize, MaxSteals, Left;
    OwnerStepKeeps(s);
    InvShape(s);
    ApplyScan(s);
  }

  lemma ApplyScan(s: State)
    requires Shape(s) && s.pc.Scanning?
    ensures Enabled(s, NextAction(s.pc)) && Apply(s, NextAction(s.pc)) == s.(pc := NextScan(s))
  {
  }

  lemma ApplyRepublish(s: State)
    requires Shape(s) && s.pc.Republishing?
    ensures Enabled(s, NextAction(s.pc)) && Apply(s, NextAction(s.pc)) == DoRepublish(s)
  {
    hide DoRepublish;
  }

  lemma RepublishDoes(s: State)
    requires Inv(s) && s.pc.Republishing?
    ensures Shape(s) && Inv(OwnerStep(s))
    ensures var s', stolen, o := OwnerStep(s), Offset(s.word.itasks, s.pc.att), s.rec[s.last];
            var v := (o.vtail + stolen) % s.max;
            s' == s.(tail := if s.pc.index > s.tail then s.pc.index % s.max else s.tail,
                     rec := s.rec[s.last := o.(itasks := stolen, maxsteals := s.pc.att)]
                                 [s.cur := Record(s.pc.left, v, false, MaxSteals(s.pc.left), s.rec[s.cur].status)],
                     word := Word(0, s.cur, s.pc.left, v), failed := s'.failed, pc := Idle,
                     aTail := s'.aTail, counted := s'.counted)
  {
    hide Inv, Left, MaxSteals, OwnerStep, Apply, Enabled;
    OwnerStepKeeps(s);
    InvShape(s);
    ApplyRepublish(s);
  }

  // What the steps of a reclaim do to the fields.

  lemma LastReads(s: State)
    requires Inv(s) && s.pc.ReclaimLast? && s.last < |s.rec| && s.pc.i < s.rec[s.last].maxsteals
    ensures s.pc.i < |s.rec[s.last].status| && Inv(OwnerStep(s))
    ensures var st := s.rec[s.last].status[s.pc.i];
            OwnerStep(s) == s.(pc := if st == 0 then Idle else ReclaimLast(s.pc.i + 1, s.pc.sum + st))
  {
    OwnerStepKeeps(s);
    InvShape(s);
    hide Inv;
  }

  lemma LastEnds(s: State)
    requires Inv(s) && s.pc.ReclaimLast? && s.last < |s.rec| && s.pc.i >= s.rec[s.last].maxsteals
    ensures s.cur < |s.rec| && Inv(OwnerStep(s))
    ensures var s', agree := OwnerStep(s), s.pc.sum == s.rec[s.last].itasks;
            s' == s.(tail := if agree then s.rec[s.cur].vtail else s.tail,
                     rec := if agree then s.rec[s.last := s.rec[s.last].(done := true)] else s.rec,
                     pc := ReclaimCur(0, 0), aTail := s'.aTail, counted := s'.counted)
  {
    OwnerStepKeeps(s);
    InvShape(s);
    hide Inv;
  }

  lemma CurReads(s: State)
    requires Inv(s) && s.pc.ReclaimCur? && s.cur < |s.rec| && s.pc.i < s.rec[s.cur].maxsteals
    ensures s.pc.i < |s.rec[s.cur].status| && Inv(OwnerStep(s))
    ensures var st := s.rec[s.cur].status[s.pc.i];
            st != 0 ==> OwnerStep(s) == s.(pc := ReclaimCur(s.pc.i + 1, s.pc.sum + st))
  {
    OwnerStepKeeps(s);
    InvShape(s);
    hide Inv;
  }

  lemma CurEnds(s: State)
    requires Inv(s) && s.pc.ReclaimCur? && s.cur < |s.rec|
    requires s.pc.i < s.rec[s.cur].maxsteals ==> s.pc.i < |s.rec[s.cur].status| && s.rec[s.cur].status[s.pc.i] == 0
    ensures s.last < |s.rec| && s.last != s.cur && s.max > 0 && Inv(OwnerStep(s))
    ensures var s', r, sum := OwnerStep(s), s.rec[s.cur], s.pc.sum;
            s' == s.(tail := if s.rec[s.last].done && sum > 0 then (r.vtail + sum) % s.max else s.tail,
                     rec := if sum == r.itasks then s.rec[s.cur := r.(done := true)] else s.rec,
                     pc := Idle, aTail := s'.aTail, counted := s'.counted)
  {
    hide Inv, Core, DoReclaimCur;
    OwnerStepKeeps(s);
    InvShape(s);
    ApplyReclaimCur(s);
    CurFields(s);
  }

  lemma ApplyReclaimCur(s: State)
    requires Shape(s) && s.pc.ReclaimCur?
    ensures Enabled(s, NextAction(s.pc)) && Apply(s, NextAction(s.pc)) == DoReclaimCur(s)
  {
    hide DoReclaimCur;
  }

  lemma CurFields(s: State)
    requires Shape(s) && s.pc.ReclaimCur?
    requires s.pc.i < s.rec[s.cur].maxsteals ==> s.pc.i < |s.rec[s.cur].status| && s.rec[s.cur].status[s.pc.i] == 0
    ensures var s', r, sum := DoReclaimCur(s), s.rec[s.cur], s.pc.sum;
            s' == s.(tail := if s.rec[s.last].done && sum > 0 then (r.vtail + sum) % s.max else s.tail,
                     rec := if sum == r.itasks then s.rec[s.cur := r.(done := true)] else s.rec,
                     pc := Idle, aTail := s'.aTail, counted := s'.counted)
  {
  }

  lemma DriveStarts(s: State, turns: seq<seq<Action>>)
    ensures Drive(s, turns, 0) == s
  {
  }

  lemma DriveStep(s: State, turns: seq<seq<Action>>, n: nat)
    ensures Drive(s, turns, n + 1) == OwnerStep(Others(Drive(s, turns, n), TheOwner, Turn(turns, n)))
  {
  }
}
