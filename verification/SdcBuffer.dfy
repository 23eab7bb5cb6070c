/** Which steal buffers are large enough for a split deferred-copy ring, given how much a thief asks
    for and by which rule, on every run, overfilling releases included. */
module SdcBuffer {
  import opened RingArith
  import opened RingSlots
  import opened TaskQueue
  import opened SdcModel
  import opened SdcInvariant
  import opened SdcSteps
  import opened SdcTheorems
  import opened SdcAnyRun

  /** On every run of a ring of `max` slots, guarded or not, what a thief decides to take fits `room` tasks. */
  ghost predicate Suffices(room: nat, max: nat, want: nat, volume: Volume) {
    forall ss: seq<State>, acts: seq<Action>, t: nat ::
      IsAnyRun(ss, acts) && ss[0].max == max && Enabled(ss[|acts|], Look(t, want, volume)) ==>
        StealSize(SharedSize(ss[|acts|]), want, volume) <= room
  }

  lemma BoundedFits(s: State, want: nat, volume: Volume)
    requires Bounded(s)
    ensures StealSize(SharedSize(s), want, volume) <= MostStolen(s.max, want, volume)
  {
    hide LockOk, LookedWell;
  }

  lemma LargeEnough(room: nat, max: nat, want: nat, volume: Volume)
    requires room >= MostStolen(max, want, volume)
    ensures Suffices(room, max, want, volume)
  {
    hide Apply, Init, Bounded, SharedSize, PublicSize, StealSize, MostStolen;
    forall ss: seq<State>, acts: seq<Action>, t: nat |
        IsAnyRun(ss, acts) && ss[0].max == max && Enabled(ss[|acts|], Look(t, want, volume))
      ensures StealSize(SharedSize(ss[|acts|]), want, volume) <= room
    {
      AnyRunBounded(ss, acts);
      BoundedFits(ss[|acts|], want, volume);
    }
  }

  // ---------------------------------------------------------------- a run that shares half the ring

  function Fresh(max: nat, blank: Task): State {
    State(max, seq(max, i => blank), 0, 0, 0, 0, 0, false, Idle, map[], 0, 0, 0, [], Nobody)
  }

  function WholeRing(max: nat, x: Task): (es: seq<Task>)
    ensures |es| == max
  {
    seq(max, i => x)
  }

  /** The ring is filled, half of it is released, and thief 0 takes the lock. */
  lemma HalfShared(max: nat) returns (ss: seq<State>, acts: seq<Action>)
    requires max >= 2
    ensures IsRun(ss, acts) && ss[0].max == max
    ensures var s := ss[|acts|]; Shape(s) && SharedSize(s) == HalfUp(max) && 0 in s.thieves && s.thieves[0].Locking?
  {
    var x := Task(0);
    var s0 := Fresh(max, x);
    var es := WholeRing(max, x);
    FillRing(s0, es);
    var s1 := DoPush(s0, es);
    ReleaseHalf(s1);
    var s2 := DoRelease(s1);
    TakeLock(s2);
    ss, acts := [s0, s1, s2, Apply(s2, ThiefSwap(0))], [Push(es), Release, ThiefSwap(0)];
    hide Enabled, DoPush, DoRelease, Overfills;
  }

  lemma FillRing(s: State, es: seq<Task>)
    requires Init(s) && |es| == s.max
    ensures Enabled(s, Push(es)) && Shape(DoPush(s, es)) && DoPush(s, es) == s.(q := DoPush(s, es).q, nlocal := s.max)
  {
    hide Written;
  }

  lemma ReleaseHalf(s: State)
    requires Shape(s) && s.pc.Idle? && s.nlocal == s.max >= 2 && s.tail == s.split == 0
    ensures Enabled(s, Release) && !Overfills(s) && Shape(DoRelease(s)) && SharedSize(DoRelease(s)) == HalfUp(s.max)
    ensures DoRelease(s) == s.(split := DoRelease(s).split, nlocal := DoRelease(s).nlocal, aSplit := DoRelease(s).aSplit)
  {
    hide PublicSize;
    SmallMod(HalfUp(s.max), s.max);
  }

  lemma TakeLock(s: State)
    requires Shape(s) && !s.lock && s.thieves == map[]
    ensures Enabled(s, ThiefSwap(0)) && Shape(Apply(s, ThiefSwap(0)))
    ensures Apply(s, ThiefSwap(0)) == s.(lock := true, thieves := map[0 := Locking], holder := Holding(0))
  {
  }

  // ---------------------------------------------------------------- exactly when

  /** A buffer is large enough on every run if and only if it holds `MostStolen` tasks. */
  lemma SufficesIff(room: nat, max: nat, want: nat, volume: Volume)
    requires max > 0
    ensures Suffices(room, max, want, volume) <==> room >= MostStolen(max, want, volume)
  {
    hide Apply, Init, Guarded, SharedSize, PublicSize;
    if room >= MostStolen(max, want, volume) {
      LargeEnough(room, max, want, volume);
    } else {
      var ss, acts := HalfShared(max);
      RunIsAnyRun(ss, acts);
      assert Enabled(ss[|acts|], Look(0, want, volume));
    }
  }

  /** The buffer of `max / 2` tasks is enough for stealing half, whatever the thief asks for; for
      stealing all it is exactly if the ring has an even number of slots, or a single one, or the
      thief asks for no more than that. */
  lemma HalfRingSufficesIff(max: nat, want: nat)
    requires max > 0
    ensures Suffices(max / 2, max, want, StealHalf)
    ensures Suffices(max / 2, max, want, StealAll) <==> max % 2 == 0 || max == 1 || want <= max / 2
  {
    hide Suffices;
    SufficesIff(max / 2, max, want, StealHalf);
    SufficesIff(max / 2, max, want, StealAll);
  }

  /** A buffer of as many tasks as are asked for is enough for a chunk. */
  lemma ChunkSuffices(max: nat, chunk: nat)
    requires max > 0
    ensures Suffices(chunk, max, chunk, StealChunk)
  {
    hide Suffices;
    SufficesIff(chunk, max, chunk, StealChunk);
  }
}
