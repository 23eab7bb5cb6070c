/** The operations of the split deferred-copy ring as they are written, updating the ring in place.
    Between any two accesses to shared memory the other participants may take any number of steps;
    which ones is a parameter, and steps that are not possible at that moment are passed over. */
module SdcRing {
  import opened Turns
  import opened RingArith
  import opened RingSlots
  import opened RingMemory
  import opened TaskQueue
  import opened SdcModel
  import opened SdcInvariant
  import opened SdcSteps
  import opened SdcTheorems
  import opened SdcGaps

  class Ring {
    const max: nat
    const q: array<Task>
    var tail: nat
    var itail: int
    var vtail: nat
    var split: nat
    var nlocal: nat
    var lock: bool
    /** Where everyone is, and the history; its copies of the fields above are not used. */
    var world: State

    function View(): State
      reads this, q
    {
      world.(max := max, q := q[..], tail := tail, itail := itail, vtail := vtail, split := split,
        nlocal := nlocal, lock := lock)
    }

    ghost predicate Valid()
      reads this, q
    {
      q.Length == max && Inv(View())
    }

    /** `sdc_shrb_create` and `sdc_shrb_reset`. */
    constructor (size: nat, blank: Task)
      requires size > 0
      ensures Valid() && Init(View()) && max == size && fresh(q)
    {
      max := size;
      q := new Task[size](_ => blank);
      tail, itail, vtail, split, nlocal, lock := 0, 0, 0, 0, 0, false;
      world := State(size, [], 0, 0, 0, 0, 0, false, Idle, map[], 0, 0, 0, [], Nobody);
      new;
      InitInv(View());
    }

    /** The thieves' turn. */
    method Wait(turn: seq<Action>)
      requires Valid()
      modifies this
      ensures Valid() && View() == Others(old(View()), TheOwner, turn)
      ensures OwnersPart(old(View()), View())
    {
      var s := Others(View(), TheOwner, turn);
      OthersKeep(View(), TheOwner, turn);
      OthersLeaveOwnersPart(View(), turn);
      tail, itail, lock, world := s.tail, s.itail, s.lock, s;
      hide Inv, Others;
      assert View() == s;
    }

    method Release()
      requires Valid() && world.pc.Idle?
      modifies this
      ensures View() == if old(Enabled(View(), SdcModel.Release)) then DoRelease(old(View())) else old(View())
      ensures Shape(old(View())) && if old(nlocal) > 0 && old(SharedSize(View())) == 0
              then && nlocal == old(nlocal) / 2 && split == (old(split) + old(nlocal) - old(nlocal) / 2) % max
                   && tail == old(tail) && itail == old(itail) && vtail == old(vtail) && lock == old(lock)
                   && q[..] == old(q[..])
              else View() == old(View())
      ensures q.Length == max
      ensures Valid() <==> !(old(Enabled(View(), SdcModel.Release)) && Overfills(old(View())))
    {
      hide Inv, Overfills, Geometry, Tiled, Lags, Thieves, LockOk, PcOk, Distance;
      ghost var s := View();
      InvParts(s);
      if Enabled(s, SdcModel.Release) {
        ReleaseKeepsIff(s);
      }
      if nlocal > 0 && Distance(tail, split, max) == 0 {
        var amount := nlocal / 2 + nlocal % 2;
        nlocal := nlocal - amount;
        split := (split + amount) % max;
        world := world.(aSplit := world.aSplit + amount);
        assert View() == DoRelease(s);
      }
    }

    method ReclaimSpace(turn: seq<Action>) returns (reclaimed: nat)
      requires Valid() && (world.pc.Idle? || world.pc.Waiting?)
      modifies this
      ensures Valid() && View() == ReclaimCall(old(View()), turn)
      ensures reclaimed == world.aVtail - old(world.aVtail)
      ensures reclaimed > 0 <==> vtail != old(vtail)
    {
      ghost var s0 := View();
      ReadItailKeeps(s0);
      var v, it := vtail, itail;
      world := DoReadItail(View());
      assert View() == DoReadItail(s0);
      hide Inv, Others;
      Wait(turn);
      reclaimed := ReclaimUpTo(v, it);
    }

    /** The second half of a reclaim: the read of `tail` and what follows. */
    method ReclaimUpTo(v: nat, it: int) returns (reclaimed: nat)
      requires Valid() && (world.pc.Reclaiming? || world.pc.WaitingRead?) && v == vtail && it == world.pc.c.itail
      modifies this
      ensures Valid() && View() == DoReadTail(old(View()))
      ensures reclaimed == world.aVtail - old(world.aVtail)
      ensures reclaimed > 0 <==> vtail != old(vtail)
    {
      ghost var s := View();
      assert Shape(s) by { InvParts(s); }
      ReadTailKeeps(s);
      ReclaimedSlots(s);
      hide Inv;
      world := DoReadTail(View());
      var t := tail;
      if v != t && it == t {
        vtail := t;
        reclaimed := if t > v then t - v else max - v + t;
      } else {
        reclaimed := 0;
      }
      assert View() == DoReadTail(s);
    }

    /** The swap loop of the lock, as far as `turns` goes. */
    method AcquireLock(turns: seq<seq<Action>>) returns (got: bool, rest: seq<seq<Action>>)
      requires Valid() && world.pc.Idle?
      modifies this
      ensures Valid() && (View(), got, rest) == LockLoop(old(View()), TheOwner, turns)
      ensures LockEnds(old(View()), TheOwner, turns, View(), got, rest) && (got <==> EverFree(old(View()), TheOwner, turns))
      ensures old(!lock) && turns != [] ==>
                got && rest == turns && View() == old(View()).(lock := true, pc := Locked, holder := Owner)
      ensures got ==> world.pc.Locked?
      ensures !got ==> world.pc.Idle? && rest == []
      ensures vtail == old(vtail) && split == old(split) && nlocal == old(nlocal)
    {
      hide Inv, Others, LockEnds, EverFree;
      LockLoopEnds(View(), TheOwner, turns);
      got, rest := false, turns;
      while rest != []
        invariant Valid() && world.pc.Idle?
        invariant LockLoop(View(), TheOwner, rest) == LockLoop(old(View()), TheOwner, turns)
        invariant vtail == old(vtail) && split == old(split) && nlocal == old(nlocal)
        decreases |rest|
      {
        ghost var s := View();
        assert Shape(s) by { InvParts(s); }
        var was := lock;
        lock := true;
        if !was {
          SwapKeeps(s);
          world := world.(pc := Locked, holder := Owner);
          assert View() == Apply(s, Swap);
          got := true;
          return;
        }
        assert View() == s;
        Wait(rest[0]);
        rest := rest[1..];
      }
    }

    method ReleaseLock()
      requires Valid() && world.pc.Leaving?
      modifies this
      ensures Valid() && View() == Unlocked(old(View()))
    {
      assert Shape(View()) by { InvParts(View()); }
      UnlockKeeps(View());
      hide Inv;
      ghost var s := View();
      lock := false;
      world := world.(pc := Idle, holder := Nobody);
      assert View() == s.(lock := false, pc := Idle, holder := Nobody);
    }

    /** Called with the lock held. */
    method TakeBack()
      requires Valid() && world.pc.Locked?
      modifies this
      ensures Valid() && View() == DoReacquire(old(View()))
    {
      hide Inv, DoReacquire, Distance, Retreat;
      ghost var s := View();
      assert Shape(s) by { InvParts(s); }
      ReacquireKeeps(s);
      ReacquireChanges(s);
      var shared := Distance(tail, split, max);
      world := DoReacquire(View());
      if shared > nlocal {
        var diff := shared - nlocal;
        var amount := diff / 2 + diff % 2;
        nlocal := nlocal + amount;
        split := Retreat(split, amount, max);
      }
      assert View() == DoReacquire(s);
    }

    /** `sdc_shrb_reacquire`; gives up when `turns` runs out before the lock is free.  `gaps` is what
        happens while the owner holds it. */
    method Reacquire(turns: seq<seq<Action>>, gaps: seq<seq<Action>>) returns (done: bool)
      requires Valid() && world.pc.Idle?
      modifies this
      ensures Valid() && world.pc.Idle? && done == LockLoop(old(View()), TheOwner, turns).1
      ensures (done <==> EverFree(old(View()), TheOwner, turns)) && (old(!lock) && turns != [] ==> done)
      ensures var seen := Found(old(View()), TheOwner, turns, Turn(gaps, 0));
              if done then && Inv(seen) && Shape(seen) && seen.nlocal == old(nlocal) && seen.pc.Locked?
                           && View() == Reacquired(seen, Turn(gaps, 1))
              else View() == LockLoop(old(View()), TheOwner, turns).0 && nlocal == old(nlocal)
      ensures var seen := Found(old(View()), TheOwner, turns, Turn(gaps, 0));
              done ==> TakesBack(old(nlocal), nlocal, |Abs(seen).deque|)
    {
      hide Inv, DoReacquire, Others, LockLoop, LockEnds, EverFree, TakesBack, Abs;
      var rest;
      done, rest := AcquireLock(turns);
      if done {
        Wait(Turn(gaps, 0));
        ghost var seen := View();
        assert Shape(seen) by { InvParts(seen); }
        ReacquireTakes(seen);
        TakeBack();
        LeavesAfterReacquire(seen);
        Wait(Turn(gaps, 1));
        ReleaseLock();
      }
    }

    /** `sdc_shrb_pop_head`.  `seen` is the ring as it is found: on entry if there are local tasks,
        under the lock otherwise. */
    method PopHead(turns: seq<seq<Action>>, gaps: seq<seq<Action>>)
      returns (done: bool, x: Option<Task>, ghost seen: State)
      requires Valid() && world.pc.Idle?
      modifies this
      ensures Valid() && world.pc.Idle?
      ensures done <==> (old(nlocal) > 0 || EverFree(old(View()), TheOwner, turns))
      ensures old(!lock) && turns != [] ==> done
      ensures seen == if old(nlocal) > 0 then old(View()) else Found(old(View()), TheOwner, turns, Turn(gaps, 0))
      ensures done ==> Inv(seen) && Shape(seen) && (x.None? <==> Abs(seen).deque == [])
      ensures done && x.Some? ==> Abs(seen).deque == Abs(View()).deque + [x.value]
      ensures var z := if !done then LockLoop(old(View()), TheOwner, turns).0
                       else if old(nlocal) > 0 then old(View()) else Reacquired(seen, Turn(gaps, 1));
              View() == if x.Some? then HeadTaken(z) else z
    {
      done, x, seen := true, None, View();
      assert Shape(seen) by { InvParts(seen); }
      hide Inv, DoReacquire, Abs, Others, LockLoop, Reacquired, EverFree;
      if nlocal == 0 {
        seen := Found(View(), TheOwner, turns, Turn(gaps, 0));
        done := Reacquire(turns, gaps);
        if done {
          PopAfterReacquire(seen, Turn(gaps, 1), View());
        }
      }
      assert Shape(View()) by { InvParts(View()); }
      if done && nlocal > 0 {
        var y := TakeHead();
        x := Some(y);
      }
    }

    method TakeHead() returns (x: Task)
      requires Valid() && world.pc.Idle? && nlocal > 0
      modifies this
      ensures Valid() && View() == HeadTaken(old(View()))
      ensures old(Abs(View())).deque == Abs(View()).deque + [x] && Abs(View()).flight == old(Abs(View())).flight
    {
      ghost var s := View();
      assert Shape(s) by { InvParts(s); }
      PopRefines(s);
      PopKeeps(s);
      hide Inv, Abs;
      x := q[(split + nlocal - 1) % max];
      nlocal := nlocal - 1;
      assert View() == s.(nlocal := s.nlocal - 1);
    }

    /** `sdc_shrb_ensure_space`, as far as `turns` goes. */
    method EnsureSpace(n: nat, turns: seq<seq<Action>>, gaps: seq<seq<Action>>) returns (r: Space)
      requires Valid() && world.pc.Idle?
      modifies this
      ensures Valid() && (View(), r) == EnsureCall(old(View()), n, turns, gaps)
      ensures Shape(old(View())) && EnsureEnds(old(View()), n, turns, gaps, View(), r)
      ensures nlocal == old(nlocal) && split == old(split)
      ensures r.Room? ==> world.pc.Idle? && Shape(View()) && nlocal + PublicSize(View()) + n <= max
      ensures r.TooFull? ==> Shape(View()) && world.pc.Locked? && Size(View()) + n > max
    {
      assert Shape(View()) by { InvParts(View()); }
      EnsureCallEnds(View(), n, turns, gaps);
      hide Inv, Others, LockLoop, WaitLoop, EnsureEnds, LockEnds, EverFree;
      r := Room;
      if max < nlocal + Distance(vtail, split, max) + n {
        var got, rest := AcquireLock(turns);
        if !got {
          return StillWaiting;
        }
        Wait(Turn(gaps, 0));
        assert Shape(View()) by { InvParts(View()); }
        if max < nlocal + Distance(tail, split, max) + n {
          return TooFull;
        }
        r := WaitAndLeave(n, rest, Turn(gaps, 1));
      }
    }

    /** With the lock held: wait, and unlock once there is room. */
    method WaitAndLeave(n: nat, turns: seq<seq<Action>>, gap: seq<Action>) returns (r: Space)
      requires Valid() && Enabled(View(), Ensure(n))
      modifies this
      ensures Valid() && nlocal == old(nlocal) && split == old(split)
      ensures var (z, left) := WaitLoop(old(View()).(pc := Waiting(n)), turns);
              && View() == (if left then Unlocked(Others(z, TheOwner, gap)) else z)
              && r == if left then Room else StillWaiting
      ensures r.Room? ==> world.pc.Idle? && Shape(View()) && nlocal + PublicSize(View()) + n <= max
    {
      hide Inv, Others, WaitLoop, Enabled;
      r := AwaitSpace(n, turns);
      if r.Room? {
        Wait(gap);
        ReleaseLock();
        assert Shape(View()) by { InvParts(View()); }
      }
    }

    /** The busy-wait, with the lock held. */
    method AwaitSpace(n: nat, turns: seq<seq<Action>>) returns (r: Space)
      requires Valid() && Enabled(View(), Ensure(n))
      modifies this
      ensures Valid() && (View(), r.Room?) == WaitLoop(old(View()).(pc := Waiting(n)), turns)
      ensures nlocal == old(nlocal) && split == old(split)
      ensures r.Room? ==> world.pc.Leaving? && Shape(View()) && nlocal + PublicSize(View()) + n <= max
      ensures r.Room? || (r.StillWaiting? && world.pc.Waiting?)
    {
      EnsureKeeps(View(), n);
      hide Inv, Others, Enabled, ReclaimCall;
      ghost var s := View();
      world := world.(pc := Waiting(n));
      assert View() == s.(pc := Waiting(n));
      var rest := turns;
      while rest != []
        invariant Valid() && world.pc == Waiting(n) && nlocal == old(nlocal) && split == old(split)
        invariant WaitLoop(View(), rest) == WaitLoop(s.(pc := Waiting(n)), turns)
        decreases |rest|
      {
        var left := WaitOnce(rest[0]);
        if left {
          return Room;
        }
        Wait(Turn(rest, 1));
        rest := if |rest| > 1 then rest[2..] else [];
      }
      r := StillWaiting;
    }

    /** One round of the busy-wait. */
    method WaitOnce(turn: seq<Action>) returns (left: bool)
      requires Valid() && world.pc.Waiting?
      modifies this
      ensures Valid() && View() == ReclaimCall(old(View()), turn) && nlocal == old(nlocal) && split == old(split)
      ensures if left then world.pc.Leaving? && Shape(View()) && nlocal + PublicSize(View()) + old(world.pc.n) <= max
              else world.pc == old(world.pc)
      ensures left <==> vtail != old(vtail)
    {
      ghost var s := View();
      assert Shape(s) by { InvParts(s); }
      ReadItailKeeps(s);
      OthersKeep(DoReadItail(s), TheOwner, turn);
      OthersLeaveOwnersPart(DoReadItail(s), turn);
      ghost var s1 := Others(DoReadItail(s), TheOwner, turn);
      ReclaimedSlots(s1);
      if DoReadTail(s1).pc.Leaving? {
        WaitMakesRoom(s1);
      }
      hide Inv, Others;
      var reclaimed := ReclaimSpace(turn);
      left := reclaimed > 0;
    }

    /** `sdc_shrb_push_n_head`, and with a single task `sdc_shrb_push_head`.  `before` is the ring
        once there is space. */
    method PushNHead(es: seq<Task>, turns: seq<seq<Action>>, gaps: seq<seq<Action>>)
      returns (r: Space, ghost before: State)
      requires Valid() && world.pc.Idle? && es != []
      modifies this, q
      ensures Valid() && (before, r) == EnsureCall(old(View()), |es|, turns, gaps) && Inv(before) && Shape(before)
      ensures Shape(old(View())) && EnsureEnds(old(View()), |es|, turns, gaps, before, r)
      ensures View() == if r.Room? then DoPush(before, es) else before
      ensures r.Room? ==> world.pc.Idle? && Abs(View()).deque == Abs(before).deque + es
    {
      hide EnsureCall, EnsureEnds;
      r := EnsureSpace(|es|, turns, gaps);
      before := View();
      assert Shape(before) by { InvParts(before); }
      hide Inv, PublicSize, Abs;
      if r.Room? {
        WriteHead(es);
      }
    }

    method WriteHead(es: seq<Task>)
      requires Valid() && world.pc.Idle? && es != [] && Shape(View()) && nlocal + PublicSize(View()) + |es| <= max
      modifies this, q
      ensures Valid() && Shape(old(View())) && View() == DoPush(old(View()), es)
      ensures Abs(View()).deque == old(Abs(View())).deque + es
    {
      ghost var s := View();
      PushKeeps(s, es);
      PushRefines(s, es);
      hide Inv, Abs;
      PushBlock(q, split, nlocal, es);
      nlocal := nlocal + |es|;
      assert View() == DoPush(s, es);
    }

    // ---------------------------------------------------------------- the thief

    /** Everyone else's turn, seen by thief `me`. */
    method Yield(me: nat, turn: seq<Action>)
      requires Valid()
      modifies this, q
      ensures Valid() && View() == Others(old(View()), TheThief(me), turn)
      ensures MyPart(old(View()), View(), me)
    {
      hide Inv, Others;
      var s := Others(View(), TheThief(me), turn);
      OthersKeep(View(), TheThief(me), turn);
      OthersLeaveMyPart(View(), turn, me);
      assert |s.q| == max by { InvParts(s); }
      tail, itail, vtail, split, nlocal, lock, world := s.tail, s.itail, s.vtail, s.split, s.nlocal, s.lock, s;
      CopyIn(q, 0, s.q);
      assert View() == s;
    }

    /** The swap loop; with a single turn it is `synch_mutex_trylock`. */
    method AcquireAs(me: nat, turns: seq<seq<Action>>) returns (got: bool)
      requires Valid() && me !in world.thieves
      modifies this, q
      ensures Valid() && View() == LockLoop(old(View()), TheThief(me), turns).0
      ensures got == LockLoop(old(View()), TheThief(me), turns).1
      ensures got <==> EverFree(old(View()), TheThief(me), turns)
      ensures old(!lock) && turns != [] ==>
                && got
                && View() == old(View()).(lock := true, thieves := old(world.thieves)[me := Locking], holder := Holding(me))
      ensures got ==> me in world.thieves && world.thieves[me] == Locking
      ensures !got ==> me !in world.thieves
    {
      hide Inv, Others, LockEnds, EverFree;
      LockLoopEnds(View(), TheThief(me), turns);
      got := false;
      var rest := turns;
      while rest != []
        invariant Valid() && me !in world.thieves
        invariant LockLoop(View(), TheThief(me), rest) == LockLoop(old(View()), TheThief(me), turns)
        decreases |rest|
      {
        ghost var s := View();
        assert Shape(s) by { InvParts(s); }
        var was := lock;
        lock := true;
        if !was {
          ThiefSwapKeeps(s, me);
          world := world.(thieves := world.thieves[me := Locking], holder := Holding(me));
          assert View() == Apply(s, ThiefSwap(me));
          got := true;
          return;
        }
        assert View() == s;
        Yield(me, rest[0]);
        rest := rest[1..];
      }
    }

    /** With the lock held: copy the metadata and decide how much to take. */
    method LookAt(me: nat, want: nat, volume: Volume) returns (at: nat, n: nat)
      requires Valid() && me in world.thieves && world.thieves[me] == Locking
      modifies this
      ensures Valid() && Shape(old(View())) && View() == DoLook(old(View()), me, want, volume)
      ensures at == old(tail) && n == StealSize(old(SharedSize(View())), want, volume)
    {
      ghost var s := View();
      assert Shape(s) by { InvParts(s); }
      LookKeeps(s, me, want, volume);
      hide Inv, StealSize;
      at := tail;
      n := StealSize(Distance(tail, split, max), want, volume);
      world := DoLook(View(), me, want, volume);
      assert View() == DoLook(s, me, want, volume);
    }

    /** With the lock held: reserve by moving `tail`. */
    method MoveTail(me: nat, newTail: nat)
      requires Valid() && me in world.thieves && world.thieves[me].Seen?
      requires newTail == (world.thieves[me].tail + world.thieves[me].n) % max
      modifies this
      ensures Valid() && Shape(old(View())) && View() == DoReserve(old(View()), me)
    {
      ghost var s := View();
      hide Inv, DoReserve, Shape, Abs;
      ReserveOne(s, me);
      world := DoReserve(View(), me);
      tail := newTail;
      assert View() == DoReserve(s, me);
    }

    method Unlock(me: nat)
      requires Valid() && Enabled(View(), ThiefUnlock(me))
      modifies this
      ensures Valid() && View() == DoThiefUnlock(old(View()), me)
    {
      ghost var s := View();
      ThiefUnlockKeeps(s, me);
      hide Inv;
      world := DoThiefUnlock(View(), me);
      lock := false;
      assert View() == DoThiefUnlock(s, me);
    }

    /** Copies `count` slots from `from` on, the tasks of the block from index `first` on; everyone
        else goes on before each of them.  `s0` is the ring before the first task of the block. */
    method CopySlots(ghost s0: State, me: nat, e: array<Task>, from: nat, first: nat, count: nat,
      gaps: seq<seq<Action>>, gap: nat)
      requires Valid() && Copying(View(), me) && e != q
      requires from + count <= max && first + count <= world.thieves[me].n <= e.Length
      requires forall i :: first <= i < first + count ==> SlotOf(max, world.thieves[me], i) == from + (i - first)
      requires CopiedUpTo(world.thieves[me], first) && e[..first] == world.thieves[me].tasks[..first]
      requires View() == CopyCall(s0, me, first, gaps, gap)
      modifies this, q, e
      ensures Valid() && Copying(View(), me) && SameBlock(old(world.thieves[me]), world.thieves[me])
      ensures CopiedUpTo(world.thieves[me], first + count)
              && e[..first + count] == world.thieves[me].tasks[..first + count]
      ensures e[first + count..] == old(e[first + count..])
      ensures View() == CopyCall(s0, me, first + count, gaps, gap)
    {
      hide Inv, Others, StealSlot, CopyCall;
      var i := 0;
      ghost var d0 := world.thieves[me];
      while i < count
        invariant i <= count && Valid() && Copying(View(), me) && SameBlock(d0, world.thieves[me])
        invariant CopiedUpTo(world.thieves[me], first + i) && e[..first + i] == world.thieves[me].tasks[..first + i]
        invariant e[first + i..] == old(e[first + i..])
        invariant View() == CopyCall(s0, me, first + i, gaps, gap)
      {
        Yield(me, Turn(gaps, gap + first + i));
        ghost var z := View();
        assert Shape(z) by { InvParts(z); }
        assert SlotOf(max, d0, first + i) == from + i;
        CopyCallStep(s0, z, me, first + i, gaps, gap);
        CopySlot(me, e, from + i, first + i);
        i := i + 1;
      }
    }

    method CopySlot(me: nat, e: array<Task>, slot: nat, i: nat)
      requires Valid() && Copying(View(), me) && e != q
      requires slot < max && i < world.thieves[me].n <= e.Length
      requires SlotOf(max, world.thieves[me], i) == slot
      requires CopiedUpTo(world.thieves[me], i) && e[..i] == world.thieves[me].tasks[..i]
      modifies this, e
      ensures Valid() && View() == DoCopy(old(View()), me, i)
      ensures Copying(View(), me) && SameBlock(old(world.thieves[me]), world.thieves[me])
      ensures CopiedUpTo(world.thieves[me], i + 1) && e[..i + 1] == world.thieves[me].tasks[..i + 1]
      ensures e[i + 1..] == old(e[i + 1..])
    {
      ghost var s := View();
      hide Inv, DoCopy, SlotOf, Shape;
      CopyOne(s, me, i);
      e[i] := q[slot];
      world := DoCopy(View(), me, i);
      assert View() == DoCopy(s, me, i);
    }

    /** The copy of a reserved block, in one piece or two. */
    method CopyBlock(me: nat, e: array<Task>, gaps: seq<seq<Action>>, gap: nat)
      requires Valid() && Copying(View(), me) && e != q
      requires 0 < world.thieves[me].n <= e.Length && world.thieves[me].got == map[]
      modifies this, q, e
      ensures Valid() && View() == CopyCall(old(View()), me, old(world.thieves[me]).n, gaps, gap)
      ensures Copying(View(), me) && SameBlock(old(world.thieves[me]), world.thieves[me])
      ensures CopiedUpTo(world.thieves[me], world.thieves[me].n) && e[..world.thieves[me].n] == world.thieves[me].tasks
      ensures e[world.thieves[me].n..] == old(e[world.thieves[me].n..])
    {
      hide Inv, SlotOf, CopiedUpTo, SameBlock, CopyCall;
      ghost var s0 := View();
      CopyCallStarts(s0, me, gaps, gap);
      ghost var d := world.thieves[me];
      NothingCopied(d);
      BlockFits(View(), me);
      SlotsOfBlock(max, d);
      var at, n := world.thieves[me].tail, world.thieves[me].n;
      if at + (n - 1) < max {
        CopySlots(s0, me, e, at, 0, n, gaps, gap);
      } else {
        var part := max - at;
        CopySlots(s0, me, e, at, 0, part, gaps, gap);
        ghost var d1 := world.thieves[me];
        BlockStays(d, d1);
        SlotsOfBlock(max, d1);
        CopySlots(s0, me, e, 0, part, n - part, gaps, gap);
        BlockStays(d1, world.thieves[me]);
        SameBlockChains(d, d1, world.thieves[me]);
      }
      BlockStays(d, world.thieves[me]);
      assert d.tasks[..d.n] == d.tasks;
    }

    /** The fetch-add that reports a finished steal. */
    method AddToItail(me: nat, newTail: nat)
      requires Valid() && Copying(View(), me) && CopiedUpTo(world.thieves[me], world.thieves[me].n)
      requires newTail == (world.thieves[me].tail + world.thieves[me].n) % max
      modifies this
      ensures Valid() && me !in world.thieves
      ensures old(Enabled(View(), Finish(me))) && View() == DoFinish(old(View()), me)
    {
      ghost var s := View();
      hide Inv, DoFinish, Enabled, Shape;
      FinishOne(s, me);
      var at, n := world.thieves[me].tail, world.thieves[me].n;
      world := DoFinish(View(), me);
      itail := itail + if newTail > at then n else n - max;
      assert View() == DoFinish(s, me);
    }

    /** `sdc_shrb_pop_n_tail` and, with a single turn, `sdc_shrb_try_pop_n_tail`: -1 when the lock was
        not obtained, otherwise how many tasks the volume rule gives for the ring as it was `looked`
        at; they are the front of the queue as it was `seen` after that, and are now in `e`.
        `turns` are for the swap loop, `gaps` for what follows it.  The buffer has to hold the most
        that such a steal ever reserves. */
    method PopNTail(me: nat, want: nat, volume: Volume, e: array<Task>, turns: seq<seq<Action>>, gaps: seq<seq<Action>>)
      returns (n: int)
      requires Valid() && me !in world.thieves && e != q && MostStolen(max, want, volume) <= e.Length
      modifies this, q, e
      ensures Valid() && me !in world.thieves
      ensures View() == StealCall(old(View()), me, want, volume, turns, gaps)
      ensures (n >= 0 <==> EverFree(old(View()), TheThief(me), turns)) && (old(!lock) && turns != [] ==> n >= 0)
      ensures n < 0 ==> n == -1
      ensures n >= 0 ==> var looked := Found(old(View()), TheThief(me), turns, Turn(gaps, 0));
                && Inv(looked) && Shape(looked) && looked.nlocal <= |Abs(looked).deque|
                && Takes(n, |Abs(looked).deque| - looked.nlocal, want, volume)
                && (volume.StealHalf? && want >= |Abs(looked).deque| ==>
                      |Abs(looked).deque| - looked.nlocal - n == (|Abs(looked).deque| - looked.nlocal) / 2)
      ensures n > 0 ==> var seen := LookCall(old(View()), me, want, volume, turns, gaps);
                && Inv(seen) && Shape(seen) && n <= |Abs(seen).deque| && n <= e.Length && e[..n] == Abs(seen).deque[..n]
      ensures var taken := if n > 0 then n else 0; taken <= e.Length && e[taken..] == old(e[taken..])
    {
      hide Inv, Others, Abs, StealSize, MostStolen, LockLoop, TakeCall, Found, LookCall, StealCall, SharedSize,
        Enabled, DoThiefUnlock, EverFree, Takes;
      ghost var s0 := View();
      var got := AcquireAs(me, turns);
      if !got {
        StealCallFails(s0, me, want, volume, turns, gaps);
        return -1;
      }
      var at, m := Choose(s0, me, want, volume, turns, gaps);
      n := m;
      StealTakes(Found(s0, TheThief(me), turns, Turn(gaps, 0)), want, volume);
      HalfStays(n, |Abs(Found(s0, TheThief(me), turns, Turn(gaps, 0))).deque| - Found(s0, TheThief(me), turns, Turn(gaps, 0)).nlocal, want);
      ghost var seen := View();
      StealCallGoesOn(s0, me, want, volume, turns, gaps);
      if m > 0 {
        TakeBlock(me, e, at, m, gaps);
      } else {
        LetGo(me);
      }
    }

    /** With the lock just taken: look, and decide. */
    method Choose(ghost s0: State, me: nat, want: nat, volume: Volume, ghost turns: seq<seq<Action>>, gaps: seq<seq<Action>>)
      returns (at: nat, n: nat)
      requires Valid() && me in world.thieves && world.thieves[me] == Locking
      requires View() == LockLoop(s0, TheThief(me), turns).0
      modifies this, q
      ensures Valid() && View() == LookCall(s0, me, want, volume, turns, gaps)
      ensures me in world.thieves && world.thieves[me] == if n > 0 then Seen(at, n) else Empty
      ensures var looked := Found(s0, TheThief(me), turns, Turn(gaps, 0));
              Inv(looked) && Shape(looked) && n == StealSize(SharedSize(looked), want, volume) <= MostStolen(max, want, volume)
    {
      hide Inv, Others, StealSize, DoLook, MostStolen, LockLoop, SharedSize;
      Yield(me, Turn(gaps, 0));
      ghost var looked := View();
      at, n := LookAt(me, want, volume);
      LookLeaves(looked, me, want, volume);
      LookFits(looked, want, volume);
      Yield(me, Turn(gaps, 1));
    }

    /** Nothing to take. */
    method LetGo(me: nat)
      requires Valid() && me in world.thieves && world.thieves[me] == Empty
      modifies this
      ensures Valid() && View() == Step(old(View()), ThiefUnlock(me)) && me !in world.thieves
    {
      hide Inv, DoThiefUnlock;
      assert Shape(View()) by { InvParts(View()); }
      UnlockLeaves(View(), me);
      Unlock(me);
    }

    /** The rest of a steal, with the lock held and `n` tasks at `at` chosen: reserve, unlock, copy,
        report. */
    method TakeBlock(me: nat, e: array<Task>, at: nat, n: nat, gaps: seq<seq<Action>>)
      requires Valid() && me in world.thieves && world.thieves[me] == Seen(at, n) && 0 < n <= e.Length && e != q
      modifies this, q, e
      ensures Valid() && me !in world.thieves && View() == TakeCall(old(View()), me, n, gaps)
      ensures Shape(old(View())) && n <= |old(Abs(View())).deque| && e[..n] == old(Abs(View())).deque[..n]
      ensures e[n..] == old(e[n..])
    {
      hide Inv, Others, Abs, DoReserve, DoFinish, CopyCall, ReserveCall, TakeCall, Enabled;
      ghost var seen := View();
      assert max > 0 by { InvParts(seen); }
      var newTail := (at + n) % max;
      ReserveBlock(me, newTail, Turn(gaps, 2));
      ghost var s1 := View();
      CopyBlock(me, e, gaps, 3);
      Yield(me, Turn(gaps, 3 + n));
      ghost var z := View();
      assert Copying(z, me) by { InvParts(z); }
      AddToItail(me, newTail);
      TakeCallEnds(seen, z, me, n, gaps);
    }

    /** With the lock held: reserve and unlock. */
    method ReserveBlock(me: nat, newTail: nat, gap: seq<Action>)
      requires Valid() && me in world.thieves && world.thieves[me].Seen?
      requires newTail == (world.thieves[me].tail + world.thieves[me].n) % max
      modifies this, q
      ensures Valid() && Copying(View(), me) && Shape(old(View())) && View() == ReserveCall(old(View()), me, gap)
      ensures var d, d' := old(world.thieves[me]), world.thieves[me];
              && d'.tail == d.tail && d'.n == d.n && d'.got == map[] && d.n <= |old(Abs(View())).deque|
              && d'.tasks == old(Abs(View())).deque[..d.n]
    {
      hide Inv, Others, Abs, DoReserve, DoThiefUnlock;
      ghost var seen := View();
      ReserveOne(seen, me);
      MoveTail(me, newTail);
      Yield(me, gap);
      ghost var reserved := View();
      assert Shape(reserved) by { InvParts(reserved); }
      Unlock(me);
      UnlockLeaves(reserved, me);
      assert Shape(View()) by { InvParts(View()); }
    }
  }

  lemma StealCallFails(s: State, me: nat, want: nat, volume: Volume, turns: seq<seq<Action>>, gaps: seq<seq<Action>>)
    requires !LockLoop(s, TheThief(me), turns).1
    ensures StealCall(s, me, want, volume, turns, gaps) == LockLoop(s, TheThief(me), turns).0
  {
    hide LockLoop, LookCall, TakeCall;
  }

  lemma StealCallGoesOn(s: State, me: nat, want: nat, volume: Volume, turns: seq<seq<Action>>, gaps: seq<seq<Action>>)
    requires LockLoop(s, TheThief(me), turns).1
    ensures var seen := LookCall(s, me, want, volume, turns, gaps);
            StealCall(s, me, want, volume, turns, gaps) ==
              if me in seen.thieves && seen.thieves[me].Seen? then TakeCall(seen, me, seen.thieves[me].n, gaps)
              else Step(seen, ThiefUnlock(me))
  {
    hide LockLoop, LookCall, TakeCall, Step;
  }

  lemma TakeCallEnds(s: State, z: State, me: nat, n: nat, gaps: seq<seq<Action>>)
    requires z == Others(CopyCall(ReserveCall(s, me, Turn(gaps, 2)), me, n, gaps, 3), TheThief(me), Turn(gaps, 3 + n))
    requires Enabled(z, Finish(me))
    ensures TakeCall(s, me, n, gaps) == DoFinish(z, me)
  {
    hide Others, CopyCall, ReserveCall, Enabled, DoFinish;
  }

  lemma CopyCallStarts(s: State, me: nat, gaps: seq<seq<Action>>, gap: nat)
    ensures CopyCall(s, me, 0, gaps, gap) == s
  {
  }

  lemma CopyCallStep(s: State, z: State, me: nat, i: nat, gaps: seq<seq<Action>>, gap: nat)
    requires z == Others(CopyCall(s, me, i, gaps, gap), TheThief(me), Turn(gaps, gap + i))
    requires Copying(z, me) && i < z.thieves[me].n
    ensures CopyCall(s, me, i + 1, gaps, gap) == DoCopy(z, me, i)
  {
    hide Others, DoCopy;
  }

  lemma LookFits(s: State, want: nat, volume: Volume)
    requires Inv(s)
    ensures Shape(s) && StealSize(SharedSize(s), want, volume) <= MostStolen(s.max, want, volume)
  {
    hide Inv, StealSize, MostStolen, SharedSize, Geometry;
    InvParts(s);
    StealFits(s, want, volume);
  }

  lemma LookLeaves(s: State, me: nat, want: nat, volume: Volume)
    requires Shape(s) && me in s.thieves
    ensures var n := StealSize(SharedSize(s), want, volume);
            n <= want && DoLook(s, me, want, volume) == s.(thieves := s.thieves[me := if n > 0 then Seen(s.tail, n) else Empty])
  {
    hide SharedSize;
  }

  lemma UnlockLeaves(s: State, me: nat)
    requires me in s.thieves
    ensures DoThiefUnlock(s, me).thieves
         == if s.thieves[me].Reserved? then s.thieves[me := s.thieves[me].(locked := false)] else s.thieves - {me}
  {
  }

  lemma FinishFields(s: State, me: nat)
    requires Copying(s, me) && CopiedUpTo(s.thieves[me], s.thieves[me].n)
    ensures Enabled(s, Finish(me))
    ensures var s', d := DoFinish(s, me), s.thieves[me];
            && s' == s.(itail := s'.itail, thieves := s.thieves - {me}, log := s'.log)
            && s'.itail == s.itail + if (d.tail + d.n) % s.max > d.tail then d.n else d.n - s.max
  {
  }

  lemma FinishOne(s: State, me: nat)
    requires Inv(s) && Copying(s, me) && CopiedUpTo(s.thieves[me], s.thieves[me].n)
    ensures Enabled(s, Finish(me))
    ensures var s', d := DoFinish(s, me), s.thieves[me];
            && Inv(s') && s' == s.(itail := s'.itail, thieves := s.thieves - {me}, log := s'.log)
            && s'.itail == s.itail + if (d.tail + d.n) % s.max > d.tail then d.n else d.n - s.max
  {
    hide Inv, DoFinish, Enabled, CopiedUpTo;
    FinishFields(s, me);
    FinishKeeps(s, me);
  }

  /** The slots of a block that fits before the end of the ring, and of the two parts of one that
      does not. */
  lemma SlotsOfBlock(max: nat, d: Thief)
    requires d.Reserved? && 0 < d.n <= max && d.tail < max
    ensures d.tail + (d.n - 1) < max ==> forall i :: 0 <= i < d.n ==> SlotOf(max, d, i) == d.tail + i
    ensures d.tail + (d.n - 1) >= max ==> forall i :: 0 <= i < max - d.tail ==> SlotOf(max, d, i) == d.tail + i
    ensures d.tail + (d.n - 1) >= max ==> forall i :: max - d.tail <= i < d.n ==>
            SlotOf(max, d, i) == i - (max - d.tail)
  {
  }

  lemma BlockFits(s: State, me: nat)
    requires Inv(s) && Copying(s, me)
    ensures s.thieves[me].n == |s.thieves[me].tasks| <= s.max && s.thieves[me].tail < s.max
  {
    ThiefFacts(s, me);
    hide Inv;
  }

  predicate Copying(s: State, me: nat) {
    Shape(s) && me in s.thieves && s.thieves[me].Reserved? && !s.thieves[me].locked
  }

  ghost predicate CopiedUpTo(d: Thief, n: nat) {
    d.Reserved? && n <= |d.tasks| && forall i :: i in d.got <==> 0 <= i < n
  }

  predicate SameBlock(d: Thief, d': Thief) {
    d.Reserved? && d' == d.(got := if d'.Reserved? then d'.got else d.got)
  }

  lemma NothingCopied(d: Thief)
    requires d.Reserved? && d.got == map[]
    ensures CopiedUpTo(d, 0)
  {
  }

  lemma BlockStays(d: Thief, d': Thief)
    requires SameBlock(d, d') && d'.Reserved?
    ensures d.Reserved? && d'.n == d.n && d'.tail == d.tail && d'.tasks == d.tasks && d'.k == d.k
  {
  }

  lemma SameBlockChains(d: Thief, d': Thief, d'': Thief)
    requires SameBlock(d, d') && SameBlock(d', d'') && d''.Reserved?
    ensures SameBlock(d, d'')
  {
  }

  /** The slot thief `d` copies its `i`-th task from. */
  function SlotOf(max: nat, d: Thief, i: nat): int
    requires d.Reserved?
  {
    if i < d.n <= max && d.tail < max then StealSlot(max, d.tail, d.n, i) else -1
  }

  lemma CopyOne(s: State, me: nat, i: nat)
    requires Inv(s) && Copying(s, me) && i < s.thieves[me].n && CopiedUpTo(s.thieves[me], i)
    ensures var s' := DoCopy(s, me, i);
            && Inv(s') && s' == s.(thieves := s'.thieves) && Copying(s', me) && s'.max == |s'.q| > 0
            && SameBlock(s.thieves[me], s'.thieves[me]) && CopiedUpTo(s'.thieves[me], i + 1)
    ensures var slot := SlotOf(s.max, s.thieves[me], i);
            0 <= slot < |s.q| && i < |s.thieves[me].tasks| && s.q[slot] == s.thieves[me].tasks[i]
  {
    hide Inv, Slots, StealSlot;
    CopyKeeps(s, me, i);
    ThiefFacts(s, me);
    CopyReads(s, me, i);
  }

  lemma ReserveOne(s: State, me: nat)
    requires Inv(s) && me in s.thieves && s.thieves[me].Seen?
    ensures Shape(s)
    ensures var s', d := DoReserve(s, me), s.thieves[me];
            && Inv(s') && s' == s.(tail := s'.tail, thieves := s'.thieves, aTail := s'.aTail, log := s'.log)
            && s'.tail == (d.tail + d.n) % s.max && d.tail == s.tail
            && d.n <= |Abs(s).deque|
            && s'.thieves == s.thieves[me := Reserved(d.tail, d.n, true, map[], |s.log|, Abs(s).deque[..d.n])]
  {
    hide Inv, Slots;
    ThiefFacts(s, me);
    ReserveKeeps(s, me);
    SlotsSplit(s.q, s.aTail, s.thieves[me].n, s.aSplit + s.nlocal - s.aTail - s.thieves[me].n);
  }

  lemma ReacquireChanges(s: State)
    requires Shape(s)
    ensures var diff, s' := SharedSize(s) - s.nlocal, DoReacquire(s);
            s' == s.(nlocal := if diff > 0 then s.nlocal + (diff / 2 + diff % 2) else s.nlocal,
                     split := if diff > 0 then Retreat(s.split, diff / 2 + diff % 2, s.max) else s.split,
                     pc := Leaving, aSplit := s'.aSplit)
  {
    hide SharedSize, Retreat;
  }

  lemma LeavesAfterReacquire(s: State)
    requires Shape(s)
    ensures DoReacquire(s).pc.Leaving? && DoReacquire(s).lock == s.lock
  {
  }

  /** After a reacquire the unclaimed tasks are those found under the lock, whatever thieves finished
      meanwhile. */
  lemma PopAfterReacquire(seen: State, gap: seq<Action>, s: State)
    requires Inv(seen) && Shape(seen) && seen.pc.Locked? && seen.nlocal == 0 && Inv(s)
    requires s == Reacquired(seen, gap)
    ensures Shape(s) && Abs(s).deque == Abs(seen).deque && (s.nlocal == 0 <==> Abs(seen).deque == [])
  {
    hide Inv, Others, DoReacquire;
    var r := DoReacquire(seen);
    ReacquireKeeps(seen);
    LeavesAfterReacquire(seen);
    OthersLeaveOwnersPart(r, gap);
    InvParts(s);
    InvParts(r);
    PopGivesUpOnlyWhenEmpty(seen);
    ReacquireRefines(seen);
    assert Abs(s).deque == Abs(r).deque;
    hide Abs;
  }

  /** What a reclaim frees is the distance the virtual tail moves. */
  lemma ReclaimedSlots(s: State)
    requires Inv(s) && (s.pc.Reclaiming? || s.pc.WaitingRead?)
    ensures DoReadTail(s).aVtail - s.aVtail == if s.vtail != s.tail && s.pc.c.itail == s.tail then s.aTail - s.aVtail else 0
    ensures s.vtail != s.tail ==> s.aTail - s.aVtail == if s.tail > s.vtail then s.tail - s.vtail else s.max - s.vtail + s.tail
    ensures s.aTail >= s.aVtail && (s.vtail != s.tail ==> s.aTail > s.aVtail)
  {
    InvParts(s);
    hide Inv, Thieves, PcOk, LockOk, Tiled, Lags;
    SlotDistance(s.aVtail, s.aTail, s.max);
  }
}
