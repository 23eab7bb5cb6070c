/** The wait of a reacquire ends: once every steal of the previous epoch is reported, the round of
    status reads that begins then is the last, whatever thieves do meanwhile; and until then some
    thief that owes a report can go on. */
module SawsWaiting {
  import opened Turns
  import opened StealSeries
  import opened RingSlots
  import opened TaskQueue
  import opened SawsModel
  import opened SawsInvariant
  import opened SawsThief
  import opened SawsOwner
  import opened SawsTheorems
  import opened SawsRing

  /** What thieves leave alone while steals are disabled: they claim nothing, and what is reported
      stays so. */
  predicate StaysReported(s: State, s': State) {
    && s'.inst == s.inst && s'.word.valid == s.word.valid && |s'.rec| == |s.rec|
    && forall e, j :: 0 <= e < |s.rec| && 0 <= j < |s.rec[e].status| && s.rec[e].status[j] != 0 ==>
         j < |s'.rec[e].status| && s'.rec[e].status[j] != 0
  }

  lemma ThiefReports(s: State, a: Action)
    requires Enabled(s, a) && Actor(a) != TheOwner && s.word.valid >= MAX_EPOCHS
    ensures StaysReported(s, Apply(s, a))
  {
    hide MaxSteals, Left, SharedSize, Slots, CopySlot, ClaimSize;
  }

  lemma {:induction false} OthersReport(s: State, steps: seq<Action>)
    requires s.word.valid >= MAX_EPOCHS
    ensures StaysReported(s, Others(s, TheOwner, steps))
    decreases |steps|
  {
    hide Enabled, Apply;
    if steps != [] {
      var a := steps[0];
      if Enabled(s, a) && Actor(a) != TheOwner {
        ThiefReports(s, a);
        OthersReport(Apply(s, a), steps[1..]);
      } else {
        OthersReport(s, steps[1..]);
      }
    }
  }

  /** In the middle of a round that began when every steal of the previous epoch was reported. */
  ghost predicate InLastRound(s: State, att: nat, n: nat) {
    && Inv(s) && Shape(s)
    && s.pc == Waiting(att, n, Offset(s.inst[s.last].published, n))
    && AllComplete(s, s.last)
  }

  lemma WaitFacts(s: State)
    requires Inv(s) && s.pc.Waiting?
    ensures Shape(s) && s.word.valid >= MAX_EPOCHS && Statuses(s, s.last)
    ensures var l, r := s.inst[s.last], s.rec[s.last];
            && r.maxsteals == l.claims <= MaxSteals(l.published) && l.claims <= STATUS_SLOTS
            && r.itasks == Offset(l.published, l.claims)
  {
    hide Inv, Geometry, TailPosition, Claims, DoneFlags, PcOk, MaxSteals, Left, Statuses, Offset;
    InvShape(s);
    InvAll(s);
    StealsFit(s, s.last);
    WaitRecord(s);
  }

  lemma WaitRecord(s: State)
    requires Shape(s) && s.pc.Waiting? && Statuses(s, s.last) && RecordFields(s) && WordOk(s)
    ensures s.word.valid >= MAX_EPOCHS
    ensures var l, r := s.inst[s.last], s.rec[s.last];
            r.maxsteals == l.claims <= MaxSteals(l.published) && r.itasks == Offset(l.published, l.claims)
  {
    hide MaxSteals, Left;
  }

  lemma ThievesGoOn(s: State, att: nat, n: nat, turn: seq<Action>)
    requires InLastRound(s, att, n)
    ensures var y := Others(s, TheOwner, turn);
            && InLastRound(y, att, n) && y.last == s.last && y.inst == s.inst
            && |y.rec| == |s.rec| && SameButStatus(y.rec[y.last], s.rec[y.last])
  {
    hide Inv, Others, Offset;
    WaitFacts(s);
    OthersKeep(s, TheOwner, turn);
    OthersLeaveOwnersPart(s, turn);
    OthersReport(s, turn);
    InvShape(Others(s, TheOwner, turn));
    StillComplete(s, Others(s, TheOwner, turn));
  }

  lemma StillComplete(s: State, y: State)
    requires Shape(s) && Shape(y) && StaysReported(s, y) && y.last == s.last && AllComplete(s, s.last)
    ensures AllComplete(y, y.last)
  {
  }

  lemma OneRead(s: State, att: nat, n: nat)
    requires InLastRound(s, att, n) && n < s.rec[s.last].maxsteals
    ensures InLastRound(OwnerStep(s), att, n + 1)
    ensures OwnerStep(s) == s.(pc := OwnerStep(s).pc)
  {
    hide Inv, OwnerStep, Offset, BlockSize, MaxSteals;
    WaitFacts(s);
    WaitSteps(s);
    ReadsBlock(s, n);
    OffsetStep(s.inst[s.last].published, n);
    InvShape(OwnerStep(s));
  }

  lemma ReadsBlock(s: State, n: nat)
    requires Shape(s) && Statuses(s, s.last) && AllComplete(s, s.last) && n < s.inst[s.last].claims <= STATUS_SLOTS
    ensures s.rec[s.last].status[n] == BlockSize(s.inst[s.last].published, n)
  {
    hide MaxSteals, BlockSize;
  }

  lemma {:induction false} LastRound(s: State, att: nat, turns: seq<seq<Action>>, n: nat)
    requires InLastRound(s, att, 0) && n <= s.rec[s.last].maxsteals
    ensures var z := Drive(s, turns, n);
            && InLastRound(z, att, n) && z.last == s.last && z.inst == s.inst
            && |z.rec| == |s.rec| && SameButStatus(z.rec[z.last], s.rec[z.last])
  {
    hide InLastRound, OwnerStep, Others;
    if n == 0 {
      assert Drive(s, turns, 0) == s;
    } else {
      LastRound(s, att, turns, n - 1);
      var z := Drive(s, turns, n - 1);
      ThievesGoOn(z, att, n - 1, Turn(turns, n - 1));
      var y := Others(z, TheOwner, Turn(turns, n - 1));
      OneRead(y, att, n - 1);
    }
  }

  lemma RoundStarts(s: State)
    requires Inv(s) && Shape(s) && s.pc.Waiting? && s.pc.i == 0 && s.pc.sum == 0 && AllComplete(s, s.last)
    ensures InLastRound(s, s.pc.att, 0)
  {
    hide Inv, Offset, AllComplete;
    OffsetZero(s.inst[s.last].published);
  }

  /** A round that begins when every steal of the previous epoch is reported ends the wait. */
  lemma WaitEnds(s: State, turns: seq<seq<Action>>)
    requires Inv(s) && Shape(s) && s.pc.Waiting? && s.pc.i == 0 && s.pc.sum == 0 && AllComplete(s, s.last)
    ensures Drive(s, turns, s.rec[s.last].maxsteals + 1).pc == Deciding(s.pc.att)
  {
    hide Inv, OwnerStep, Others, AllComplete, Offset, InLastRound;
    var att, m := s.pc.att, s.rec[s.last].maxsteals;
    RoundStarts(s);
    LastRound(s, att, turns, m);
    var z := Drive(s, turns, m);
    ThievesGoOn(z, att, m, Turn(turns, m));
    var y := Others(z, TheOwner, Turn(turns, m));
    RoundEnds(y, att, m);
    assert Drive(s, turns, m + 1) == OwnerStep(y);
  }

  lemma RoundEnds(y: State, att: nat, m: nat)
    requires InLastRound(y, att, m) && m == y.rec[y.last].maxsteals
    ensures OwnerStep(y).pc == Deciding(att)
  {
    hide Inv, OwnerStep, Offset, AllComplete, MaxSteals;
    WaitFacts(y);
    WaitSteps(y);
  }

  /** Until then a thief owes a report, and it can go on whatever the owner does: copy a task it has
      not copied, or complete. */
  lemma OpenStealCanMove(s: State) returns (t: nat)
    requires Inv(s) && Shape(s) && s.pc.Waiting? && !AllComplete(s, s.last)
    ensures t in s.claims && s.claims[t].epoch == s.last
    ensures Enabled(s, Complete(t)) || exists i :: Enabled(s, Copy(t, i)) && i !in s.claims[t].got
  {
    hide Inv, MaxSteals, Left, Statuses, Enabled, ClaimSize, AllComplete;
    InvAll(s);
    t := OpenSteal(s);
    ClaimGoesOn(s, t);
  }

  lemma OpenSteal(s: State) returns (t: nat)
    requires Shape(s) && Statuses(s, s.last) && !AllComplete(s, s.last)
    ensures t in s.claims && s.claims[t].epoch == s.last
  {
    hide MaxSteals, BlockSize;
    var j: nat :| j < s.inst[s.last].claims && j < STATUS_SLOTS && s.rec[s.last].status[j] == 0;
    assert Outstanding(s.claims, s.last, j);
    t :| t in s.claims && s.claims[t].epoch == s.last && s.claims[t].index == j;
  }

  lemma ClaimGoesOn(s: State, t: nat)
    requires Shape(s) && t in s.claims
    ensures Enabled(s, Complete(t)) || exists i :: Enabled(s, Copy(t, i)) && i !in s.claims[t].got
  {
    hide ClaimSize;
    if !Enabled(s, Complete(t)) {
      var i: nat :| i < ClaimSize(s.claims[t]) && i !in s.claims[t].got;
      assert Enabled(s, Copy(t, i));
    }
  }
}
