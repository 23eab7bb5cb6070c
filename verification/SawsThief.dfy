/** The steps of the thieves keep the invariant of the SAWS ring, whatever the owner is doing. */
module SawsThief {
  import opened StealSeries
  import opened RingArith
  import opened RingSlots
  import opened TaskQueue
  import opened SawsModel
  import opened SawsInvariant

  lemma StealsFit(s: State, e: nat)
    requires Shape(s) && e < MAX_EPOCHS && Statuses(s, e)
    ensures MaxSteals(s.inst[e].published) <= 20
  {
    MaxStealsFits(s.inst[e].published);
  }

  lemma {:induction false} SubsetOfRange(f: set<nat>, n: nat)
    requires forall t :: t in f ==> t < n
    ensures |f| <= n
    decreases n
  {
    if n == 0 {
      assert f == {};
    } else {
      SubsetOfRange(f - {n - 1}, n - 1);
      if n - 1 in f {
        assert |f - {n - 1}| == |f| - 1;
      } else {
        assert f - {n - 1} == f;
      }
    }
  }

  /** On an enabled word the 24-bit attempt counter never wraps. */
  lemma AttemptsFit(s: State)
    requires Shape(s) && WordOk(s) && s.word.valid < MAX_EPOCHS
    ensures s.word.attempts + 1 < ATTEMPT_LIMIT
  {
    SubsetOfRange(s.failed, s.npes);
    MaxStealsFits(s.word.itasks);
  }

  // ---------------------------------------------------------------- peek and failed probe

  lemma WordFrame(s: State, w: Word, full: seq<bool>, failed: set<nat>)
    requires Shape(s) && Core(s) && |full| == s.npes
    ensures Core(s.(word := w, full := full, failed := failed))
  {
    var s' := s.(word := w, full := full, failed := failed);
    assert Geometry(s');
    assert Claims(s');
  }

  lemma PeekWord(s: State, t: nat)
    requires Shape(s) && WordOk(s) && t < s.npes
    ensures WordOk(DoPeek(s, t))
  {
  }

  lemma PeekKeeps(s: State, t: nat)
    requires Shape(s) && t < s.npes
    requires Inv(s)
    ensures Inv(DoPeek(s, t))
  {
    var s' := DoPeek(s, t);
    WordFrame(s, s'.word, s'.full, s'.failed);
    PeekWord(s, t);
    hide Core, WordOk;
  }

  lemma FailedProbeWord(s: State, t: nat)
    requires Shape(s) && WordOk(s) && t < s.npes && s.full[t]
    requires s.word.valid >= MAX_EPOCHS || s.word.attempts >= MaxSteals(s.word.itasks)
    ensures WordOk(DoProbe(s, t))
  {
    var s' := DoProbe(s, t);
    if s.word.valid < MAX_EPOCHS {
      AttemptsFit(s);
      assert s'.word.attempts == s.word.attempts + 1;
      assert t !in s.failed;
      assert |s'.failed| == |s.failed| + 1;
      assert Attempts(s');
    } else {
      assert Attempts(s');
    }
  }

  lemma FailedProbeKeeps(s: State, t: nat)
    requires Shape(s) && t < s.npes && s.full[t]
    requires Inv(s)
    requires s.word.valid >= MAX_EPOCHS || s.word.attempts >= MaxSteals(s.word.itasks)
    ensures Inv(DoProbe(s, t))
  {
    var s' := DoProbe(s, t);
    WordFrame(s, s'.word, s'.full, s'.failed);
    FailedProbeWord(s, t);
    hide Core, WordOk, MaxSteals;
  }

  // ---------------------------------------------------------------- claim

  ghost predicate Claiming(s: State, t: nat)
    requires Shape(s)
  {
    && t < s.npes && t !in s.claims
    && s.word.valid < MAX_EPOCHS && s.word.attempts < MaxSteals(s.word.itasks)
  }

  /** A word that still has blocks names the next unclaimed one of the current epoch. */
  lemma ClaimFacts(s: State, t: nat)
    requires Shape(s) && WordOk(s) && Claiming(s, t)
    ensures s.pc.Idle? || s.pc.ReclaimLast? || s.pc.ReclaimCur?
    ensures s.word.valid == s.cur
    ensures s.word.itasks == s.inst[s.cur].published
    ensures s.word.tail == s.inst[s.cur].start % s.max
    ensures s.inst[s.cur].claims == s.word.attempts < MaxSteals(s.inst[s.cur].published) <= 20
    ensures s.word.attempts + 1 < ATTEMPT_LIMIT
  {
    hide MaxSteals, Left;
    AttemptsFit(s);
    MaxStealsFits(s.word.itasks);
    NoSteals();
  }

  lemma ClaimShape(s: State, t: nat)
    requires Shape(s) && WordOk(s) && Claiming(s, t)
    ensures Shape(DoProbe(s, t))
  {
    ClaimFacts(s, t);
    hide WordOk, MaxSteals;
  }

  /** The next state of a claim, with what the claim has learnt. */
  ghost predicate NewClaim(s: State, t: nat, s': State)
    requires Shape(s) && t < s.npes
  {
    && t !in s.claims
    && s.word.valid == s.cur && s.word.itasks == s.inst[s.cur].published
    && s.word.tail == s.inst[s.cur].start % s.max
    && s.inst[s.cur].claims == s.word.attempts < MaxSteals(s.inst[s.cur].published) <= 20
    && s' == DoProbe(s, t)
  }

  lemma ClaimGeometry(s: State, t: nat, s': State)
    requires Shape(s) && t < s.npes && Shape(s')
    requires NewClaim(s, t, s')
    requires Geometry(s) && TailPosition(s) && !Switched(s)
    ensures First(s') == First(s) + BlockSize(s.word.itasks, s.word.attempts)
    ensures Geometry(s') && TailPosition(s')
  {
    BlockInside(s.word.itasks, s.word.attempts);
    hide MaxSteals;
  }

  lemma OutstandingAdded(m: map<nat, Claim>, t: nat, c: Claim, e: nat, j: nat)
    requires t !in m
    requires c.epoch != e || c.index != j
    ensures Outstanding(m[t := c], e, j) <==> Outstanding(m, e, j)
  {
    var m' := m[t := c];
    if Outstanding(m, e, j) {
      var u :| u in m && m[u].epoch == e && m[u].index == j;
      assert u in m' && m'[u] == m[u];
    }
  }

  lemma ClaimStatuses(s: State, t: nat, s': State, e: nat)
    requires Shape(s) && t < s.npes && Shape(s') && e < MAX_EPOCHS
    requires NewClaim(s, t, s')
    requires Statuses(s, e)
    ensures Statuses(s', e)
  {
    hide MaxSteals;
    var c := s'.claims[t];
    forall j | 0 <= j < s'.inst[e].claims && j < STATUS_SLOTS
      ensures s'.rec[e].status[j] == 0 <==> Outstanding(s'.claims, e, j)
    {
      if c.epoch == e && c.index == j {
        assert Outstanding(s'.claims, e, j);
      } else {
        assert j < s.inst[e].claims;
        OutstandingAdded(s.claims, t, c, e, j);
      }
    }
  }

  lemma ClaimClaims(s: State, t: nat, s': State)
    requires Shape(s) && t < s.npes && Shape(s')
    requires NewClaim(s, t, s')
    requires Geometry(s) && Geometry(s') && Claims(s)
    requires First(s') == First(s) + BlockSize(s.word.itasks, s.word.attempts)
    ensures Claims(s')
  {
    hide MaxSteals;
    assert ClaimOk(s', s'.claims[t]);
    forall u | u in s.claims
      ensures ClaimOk(s', s.claims[u])
    {
      OldClaimOk(s, t, s', s.claims[u]);
    }
    hide ClaimOk, Geometry, First;
  }

  lemma OldClaimOk(s: State, t: nat, s': State, c: Claim)
    requires Shape(s) && t < s.npes && Shape(s')
    requires NewClaim(s, t, s')
    requires ClaimOk(s, c) && First(s) <= First(s')
    ensures ClaimOk(s', c)
  {
    hide MaxSteals, Left, First;
  }

  lemma ClaimRest(s: State, t: nat, s': State)
    requires Shape(s) && t < s.npes && Shape(s')
    requires NewClaim(s, t, s') && !Switched(s)
    requires RecordFields(s) && DoneFlags(s) && PcOk(s)
    ensures RecordFields(s') && DoneFlags(s') && PcOk(s')
  {
    hide MaxSteals, Left;
  }

  lemma ClaimWord(s: State, t: nat, s': State)
    requires Shape(s) && t < s.npes && Shape(s')
    requires NewClaim(s, t, s')
    requires WordOk(s) && (s.pc.Idle? || s.pc.ReclaimLast? || s.pc.ReclaimCur?)
    ensures WordOk(s')
  {
    hide MaxSteals, Left;
    assert s'.word.attempts == s.word.attempts + 1 && s.failed == {};
  }

  lemma ClaimKeeps(s: State, t: nat)
    requires Shape(s) && Claiming(s, t)
    requires Inv(s)
    ensures Inv(DoProbe(s, t))
  {
    var s' := DoProbe(s, t);
    ClaimFacts(s, t);
    ClaimShape(s, t);
    hide Geometry, TailPosition, Statuses, Claims, RecordFields, DoneFlags, PcOk, WordOk, MaxSteals, DoProbe, ClaimOk;
    assert NewClaim(s, t, s');
    ClaimGeometry(s, t, s');
    ClaimStatuses(s, t, s', 0);
    ClaimStatuses(s, t, s', 1);
    ClaimClaims(s, t, s');
    ClaimRest(s, t, s');
    ClaimWord(s, t, s');
  }

  // ---------------------------------------------------------------- progress of a claim

  /** Two states that differ only in completions that have arrived since. */
  ghost predicate Progressed(s: State, s': State)
    requires Shape(s) && Shape(s')
  {
    && s' == s.(rec := s'.rec, claims := s'.claims)
    && (forall e :: 0 <= e < MAX_EPOCHS ==>
          && s'.rec[e] == s.rec[e].(status := s'.rec[e].status)
          && (forall j :: 0 <= j < STATUS_SLOTS && s.rec[e].status[j] != 0 ==> s'.rec[e].status[j] != 0))
  }

  lemma ProgressedFields(s: State, s': State)
    requires Shape(s) && Shape(s') && Progressed(s, s')
    requires Geometry(s) && TailPosition(s) && DoneFlags(s)
    ensures Geometry(s') && TailPosition(s') && DoneFlags(s')
  {
    hide MaxSteals, Left;
    assert forall e :: 0 <= e < MAX_EPOCHS && AllComplete(s, e) ==> AllComplete(s', e);
  }

  lemma ProgressedPc(s: State, s': State)
    requires Shape(s) && Shape(s') && Progressed(s, s')
    requires PcOk(s)
    ensures PcOk(s')
  {
    hide MaxSteals, Left;
  }

  lemma ProgressedWord(s: State, s': State)
    requires Shape(s) && Shape(s') && Progressed(s, s')
    requires WordOk(s) && !s.pc.Publishing?
    ensures WordOk(s')
  {
    hide MaxSteals, Left;
  }

  lemma ProgressedRecords(s: State, s': State)
    requires Shape(s) && Shape(s') && Progressed(s, s')
    requires RecordFields(s) && Statuses(s', s.cur)
    ensures RecordFields(s')
  {
    hide MaxSteals, Left;
    if Switched(s) {
      assert s'.rec[s.cur].status == NoStatus();
    }
  }

  // ---------------------------------------------------------------- copy

  /** Every task is copied from the slot it was published in, wherever the block wraps. */
  lemma CopyReads(s: State, t: nat, i: nat)
    requires Shape(s) && t in s.claims && i < ClaimSize(s.claims[t])
    requires ClaimOk(s, s.claims[t]) && s.claims[t].itasks <= s.max / 2 + s.max % 2
    requires s.claims[t].index < MaxSteals(s.claims[t].itasks)
    ensures ClaimSize(s.claims[t]) <= s.max && ClaimStart(s.claims[t]) + ClaimSize(s.claims[t]) <= 2 * s.max
    ensures s.q[CopySlot(s.max, ClaimStart(s.claims[t]), ClaimSize(s.claims[t]), i)] == s.claims[t].tasks[i]
  {
    var c := s.claims[t];
    var o := Offset(c.itasks, c.index);
    BlockInside(c.itasks, c.index);
    hide MaxSteals, Left, First;
    assert c.rtail < s.max;
    CopySlotIsWrapped(s.max, ClaimStart(c), ClaimSize(c), i);
    AddWrapped(s.inst[c.epoch].start, o + i, s.max);
    assert c.tasks[i] == s.q[(c.base + i) % s.max];
  }

  lemma GotFrame(s: State, t: nat, c: Claim)
    requires Shape(s) && t in s.claims && Claims(s)
    requires c == s.claims[t].(got := c.got)
    requires forall i :: i in c.got ==> i < |c.tasks| && c.got[i] == c.tasks[i]
    ensures Shape(s.(claims := s.claims[t := c])) && Claims(s.(claims := s.claims[t := c]))
  {
    hide MaxSteals, Left, Slots, BlockSize, ClaimOk;
    var s' := s.(claims := s.claims[t := c]);
    assert First(s') == First(s);
    hide First, Offset;
    forall u | u in s'.claims
      ensures ClaimOk(s', s'.claims[u])
    {
      GotOk(s, s', s.claims[u], s'.claims[u]);
    }
  }

  lemma GotOk(s: State, s': State, c: Claim, c': Claim)
    requires Shape(s) && Shape(s') && s' == s.(claims := s'.claims) && First(s') == First(s)
    requires ClaimOk(s, c) && c' == c.(got := c'.got)
    requires c'.got == c.got || forall i :: i in c'.got ==> i < |c'.tasks| && c'.got[i] == c'.tasks[i]
    ensures ClaimOk(s', c')
  {
    hide First, Left, MaxSteals, Slots, BlockSize;
  }

  lemma GotStatuses(s: State, t: nat, c: Claim, e: nat)
    requires Shape(s) && t in s.claims && e < MAX_EPOCHS && Statuses(s, e)
    requires c == s.claims[t].(got := c.got)
    ensures Shape(s.(claims := s.claims[t := c])) && Statuses(s.(claims := s.claims[t := c]), e)
  {
    hide MaxSteals, Left;
    var s' := s.(claims := s.claims[t := c]);
    forall j | 0 <= j < s.inst[e].claims && j < STATUS_SLOTS
      ensures Outstanding(s.claims, e, j) <==> Outstanding(s'.claims, e, j)
    {
      if Outstanding(s.claims, e, j) {
        var u :| u in s.claims && s.claims[u].epoch == e && s.claims[u].index == j;
        assert u in s'.claims;
      }
      if Outstanding(s'.claims, e, j) {
        var u :| u in s'.claims && s'.claims[u].epoch == e && s'.claims[u].index == j;
        assert u in s.claims;
      }
    }
  }

  lemma ClaimBounds(s: State, c: Claim)
    requires Shape(s) && Statuses(s, 0) && Statuses(s, 1) && ClaimOk(s, c)
    ensures c.itasks <= s.max / 2 + s.max % 2
    ensures c.index < MaxSteals(c.itasks) <= 20
  {
    StealsFit(s, c.epoch);
    hide MaxSteals, Left, First;
    assert Statuses(s, c.epoch);
  }

  /** What a copy reads is what was published, so the claim stays good. */
  lemma CopiedClaim(s: State, t: nat, i: nat)
    requires Shape(s) && t in s.claims && i < ClaimSize(s.claims[t])
    requires Claims(s) && Statuses(s, 0) && Statuses(s, 1)
    ensures var c, s' := s.claims[t], DoCopy(s, t, i);
            && t in s'.claims && s'.claims == s.claims[t := s'.claims[t]]
            && s'.claims[t] == c.(got := s'.claims[t].got)
            && (forall j :: j in s'.claims[t].got ==> j < |c.tasks| && s'.claims[t].got[j] == c.tasks[j])
  {
    hide MaxSteals, Left, First, Statuses;
    var c := s.claims[t];
    assert ClaimOk(s, c);
    ClaimBounds(s, c);
    CopyReads(s, t, i);
  }

  lemma NotPublishing(s: State)
    requires Shape(s) && WordOk(s) && s.claims != map[]
    ensures !s.pc.Publishing?
  {
    hide MaxSteals, Left;
  }

  /** Assembling the invariant after a thief's copy or completion. */
  lemma ProgressKeeps(s: State, s': State)
    requires Shape(s) && Shape(s') && Progressed(s, s')
    requires Inv(s) && s.claims != map[]
    requires Statuses(s', 0) && Statuses(s', 1) && Claims(s')
    ensures Inv(s')
  {
    hide MaxSteals, Left, Geometry, TailPosition, Statuses, Claims, RecordFields, DoneFlags, PcOk, WordOk, Progressed;
    NotPublishing(s);
    ProgressedFields(s, s');
    ProgressedPc(s, s');
    ProgressedWord(s, s');
    assert Statuses(s', s.cur);
    ProgressedRecords(s, s');
  }

  lemma CopyKeeps(s: State, t: nat, i: nat)
    requires Shape(s) && t in s.claims && i < ClaimSize(s.claims[t])
    requires Inv(s)
    ensures Inv(DoCopy(s, t, i))
  {
    var s' := DoCopy(s, t, i);
    hide MaxSteals, Left, Geometry, TailPosition, Statuses, Claims, RecordFields, DoneFlags, PcOk, ClaimSize;
    CopiedClaim(s, t, i);
    var c' := s'.claims[t];
    assert s' == s.(claims := s.claims[t := c']);
    hide DoCopy;
    GotFrame(s, t, c');
    GotStatuses(s, t, c', 0);
    GotStatuses(s, t, c', 1);
    assert Progressed(s, s') by {
      hide Outstanding, Core;
    }
    ProgressKeeps(s, s');
    hide Inv, Progressed, Shape;
  }

  // ---------------------------------------------------------------- complete

  /** Completing one block settles that block of that record, and no other. */
  lemma CompleteOutstanding(s: State, t: nat, s': State, e: nat, j: nat)
    requires Shape(s) && t in s.claims && s'.claims == s.claims - {t}
    requires Claims(s)
    ensures Outstanding(s'.claims, e, j) <==>
              Outstanding(s.claims, e, j) && !(s.claims[t].epoch == e && s.claims[t].index == j)
  {
    hide ClaimOk;
    if Outstanding(s.claims, e, j) && !(s.claims[t].epoch == e && s.claims[t].index == j) {
      var u :| u in s.claims && s.claims[u].epoch == e && s.claims[u].index == j;
      assert u in s'.claims;
    }
    if Outstanding(s'.claims, e, j) {
      var u :| u in s'.claims && s'.claims[u].epoch == e && s'.claims[u].index == j;
      assert u in s.claims;
    }
  }

  /** The status a completion writes: it was zero, and becomes the size of the block. */
  lemma CompleteWrites(s: State, t: nat, s': State)
    requires Shape(s) && t in s.claims && Shape(s') && s' == DoComplete(s, t)
    requires Claims(s) && Statuses(s, s.claims[t].epoch)
    ensures var c := s.claims[t]; var n := s.inst[c.epoch].published;
            && c.index < s.inst[c.epoch].claims
            && s.rec[c.epoch].status[c.index] == 0
            && s'.rec[c.epoch].status[c.index] == BlockSize(n, c.index) > 0
  {
    hide MaxSteals, Left, First, BlockSize, Offset, Outstanding, Slots;
    var c := s.claims[t];
    assert ClaimOk(s, c);
    assert Outstanding(s.claims, c.epoch, c.index) by { OwnBlock(s, t); }
    BlockInside(c.itasks, c.index);
  }

  lemma OwnBlock(s: State, t: nat)
    requires t in s.claims
    ensures Outstanding(s.claims, s.claims[t].epoch, s.claims[t].index)
  {
  }

  lemma CompleteStatuses(s: State, t: nat, s': State, e: nat)
    requires Shape(s) && t in s.claims && Shape(s') && e < MAX_EPOCHS
    requires s' == DoComplete(s, t)
    requires Statuses(s, e) && Claims(s)
    ensures Statuses(s', e)
    ensures forall j :: 0 <= j < STATUS_SLOTS && s.rec[e].status[j] != 0 ==> s'.rec[e].status[j] != 0
  {
    hide MaxSteals, BlockSize, Outstanding, Claims, ClaimSize;
    if s.claims[t].epoch == e {
      CompleteWrites(s, t, s');
    }
    forall j | 0 <= j < s'.inst[e].claims && j < STATUS_SLOTS
      ensures s'.rec[e].status[j] == 0 <==> Outstanding(s'.claims, e, j)
    {
      CompleteOutstanding(s, t, s', e, j);
    }
  }

  lemma CompleteShape(s: State, t: nat)
    requires Shape(s) && t in s.claims
    ensures Shape(DoComplete(s, t))
  {
    hide MaxSteals, Left;
  }

  lemma CompleteClaims(s: State, t: nat, s': State)
    requires Shape(s) && t in s.claims && Shape(s')
    requires s' == DoComplete(s, t) && Claims(s)
    ensures Claims(s')
  {
    hide MaxSteals, Left;
    forall u | u in s'.claims
      ensures ClaimOk(s', s'.claims[u])
    {
      assert ClaimOk(s, s.claims[u]);
    }
  }

  lemma CompleteProgress(s: State, t: nat, s': State)
    requires Shape(s) && t in s.claims && Shape(s') && s' == DoComplete(s, t)
    requires forall e, j :: 0 <= e < MAX_EPOCHS && 0 <= j < STATUS_SLOTS && s.rec[e].status[j] != 0 ==>
             s'.rec[e].status[j] != 0
    ensures Progressed(s, s')
  {
    hide MaxSteals, Left;
  }

  lemma CompleteKeeps(s: State, t: nat)
    requires Shape(s) && t in s.claims
    requires Inv(s)
    ensures Inv(DoComplete(s, t))
    ensures Shape(DoComplete(s, t)) && Progressed(s, DoComplete(s, t))
  {
    var s' := DoComplete(s, t);
    CompleteShape(s, t);
    hide MaxSteals, Left, Geometry, TailPosition, Statuses, Claims, RecordFields, DoneFlags, PcOk;
    CompleteStatuses(s, t, s', 0);
    CompleteStatuses(s, t, s', 1);
    CompleteClaims(s, t, s');
    CompleteProgress(s, t, s');
    ProgressKeeps(s, s');
    hide DoComplete, Inv, Progressed, Shape;
  }
}
