/** Which steal buffers are large enough for a SAWS ring.  `pop_n_tail` ignores how much its caller
    asks for: the block is what the word says, so the buffer has to hold the largest one. */
module SawsBuffer {
  import opened StealSeries
  import opened RingArith
  import opened RingSlots
  import opened TaskQueue
  import opened SawsModel
  import opened SawsInvariant
  import opened SawsOwner
  import opened SawsThief
  import opened SawsTheorems
  import opened SawsSteal

  /** On every run of a ring of `max` slots, every block a thief claims fits `room` tasks. */
  ghost predicate Suffices(room: nat, max: nat, npes: nat) {
    forall ss: seq<State>, acts: seq<Action>, t: nat ::
      IsRun(ss, acts) && ss[0].max == max && ss[0].npes == npes && t in ss[|acts|].claims ==>
        ClaimSize(ss[|acts|].claims[t]) <= room
  }

  // ---------------------------------------------------------------- a run with the largest block

  function Fresh(max: nat, npes: nat, blank: Task): State {
    State(max, npes, seq(max, i => blank), 0, 0, 0, 0, 1, [NoRecord(), NoRecord().(done := true)], Word(0, 3, 0, 0),
          Idle, seq(npes, i => true), map[], 0, 0, [Instance(0, 0, 0), Instance(0, 0, 0)], 0, {})
  }

  function WholeRing(max: nat, x: Task): (es: seq<Task>)
    ensures |es| == max
  {
    seq(max, i => x)
  }

  /** The ring is filled, half of it is released and published, and thief 0 makes the first claim. */
  lemma LargestClaim(max: nat, npes: nat) returns (ss: seq<State>, acts: seq<Action>)
    requires 2 <= max <= RING_LIMIT && 0 < npes && npes + STATUS_SLOTS < ATTEMPT_LIMIT
    ensures IsRun(ss, acts) && ss[0].max == max && ss[0].npes == npes
    ensures 0 in ss[|acts|].claims && ClaimSize(ss[|acts|].claims[0]) == LargestBlock(max)
  {
    var x := Task(0);
    var s0 := Fresh(max, npes, x);
    var es := WholeRing(max, x);
    FillRing(s0, es);
    var s1 := DoPush(s0, es);
    ReleaseHalf(s1);
    var s2 := DoRelease(s1);
    PublishHalf(s2);
    var s3 := DoPublish(s2);
    FirstClaim(s3, max);
    var s4 := DoProbe(s3, 0);
    ss, acts := [s0, s1, s2, s3, s4], [Push(es), Release, Publish, Probe(0)];
    hide DoPush, DoRelease, DoPublish, DoProbe, SharedSize, MaxSteals, Left, Shape, LargestBlock, ClaimSize;
    FiveStates(ss, acts);
  }

  lemma FillRing(s: State, es: seq<Task>)
    requires Init(s) && |es| == s.max
    ensures Enabled(s, Push(es)) && Shape(DoPush(s, es))
    ensures DoPush(s, es) == s.(q := DoPush(s, es).q, nlocal := s.max)
  {
    hide Written;
  }

  lemma PublishHalf(s: State)
    requires Shape(s) && s.pc.Publishing? && s.cur == 0
    ensures Enabled(s, Publish) && Shape(DoPublish(s))
    ensures DoPublish(s) == s.(word := Word(0, 0, s.rec[0].itasks, s.tail), failed := {}, pc := Idle)
  {
  }

  lemma FiveStates(ss: seq<State>, acts: seq<Action>)
    requires |ss| == 5 && |acts| == 4 && Init(ss[0])
    requires Enabled(ss[0], acts[0]) && ss[1] == Apply(ss[0], acts[0])
    requires Enabled(ss[1], acts[1]) && ss[2] == Apply(ss[1], acts[1])
    requires Enabled(ss[2], acts[2]) && ss[3] == Apply(ss[2], acts[2])
    requires Enabled(ss[3], acts[3]) && ss[4] == Apply(ss[3], acts[3])
    ensures IsRun(ss, acts)
  {
    hide Enabled, Apply, Init;
  }

  lemma ReleaseHalf(s: State)
    requires Shape(s) && s.pc.Idle? && s.nlocal == s.max && s.tail == s.split == 0 && s.cur == 0
    ensures Enabled(s, Release) && Shape(DoRelease(s))
    ensures var s' := DoRelease(s);
            && s'.pc.Publishing? && s'.rec[0].itasks == HalfUp(s.max) && s'.cur == 0
            && s'.full == s.full && s'.claims == s.claims && s'.max == s.max && s'.npes == s.npes
  {
    hide MaxSteals;
    MaxStealsFits(HalfUp(s.max));
    assert ReleaseAmount(s) == HalfUp(s.max);
  }

  lemma FirstClaim(s: State, max: nat)
    requires Shape(s) && max >= 2 && s.word.valid == 0 && s.word.attempts == 0 && s.word.itasks == HalfUp(max)
    requires 0 < s.npes && 0 !in s.claims && s.full[0]
    ensures Enabled(s, Probe(0)) && 0 in DoProbe(s, 0).claims
    ensures ClaimSize(DoProbe(s, 0).claims[0]) == LargestBlock(max)
  {
    hide MaxSteals, Slots;
    LeftPositive(HalfUp(max), 0);
  }

  // ---------------------------------------------------------------- exactly when

  lemma LargeEnough(room: nat, max: nat, npes: nat)
    requires room >= LargestBlock(max)
    ensures Suffices(room, max, npes)
  {
    hide Enabled, Apply, Init, LargestBlock, ClaimSize;
    forall ss: seq<State>, acts: seq<Action>, t: nat |
        IsRun(ss, acts) && ss[0].max == max && ss[0].npes == npes && t in ss[|acts|].claims
      ensures ClaimSize(ss[|acts|].claims[t]) <= room
    {
      RunKeeps(ss, acts, |acts|);
      ClaimFitsBuffer(ss[|acts|], t);
    }
  }

  /** A buffer is large enough on every run if and only if it holds `LargestBlock(max)` tasks.  So
      `chunk_size` tasks, as for a chunk steal, are enough exactly if that is no less. */
  lemma SufficesIff(room: nat, max: nat, npes: nat)
    requires 2 <= max <= RING_LIMIT && 0 < npes && npes + STATUS_SLOTS < ATTEMPT_LIMIT
    ensures Suffices(room, max, npes) <==> room >= LargestBlock(max)
  {
    hide LargestBlock, IsRun, ClaimSize;
    if room >= LargestBlock(max) {
      LargeEnough(room, max, npes);
    } else {
      var ss, acts := LargestClaim(max, npes);
    }
  }

  /** Half the ring, as for the other steal methods, is always enough. */
  lemma HalfRingSuffices(max: nat, npes: nat)
    requires max >= 2
    ensures Suffices(max / 2, max, npes)
  {
    hide LargestBlock, Suffices;
    LargestBlockFitsHalf(max);
    LargeEnough(max / 2, max, npes);
  }
}
