/** The steps of the owner keep the invariant of the SAWS ring, whatever the thieves are doing. */
module SawsOwner {
  import opened StealSeries
  import opened RingArith
  import opened RingSlots
  import opened TaskQueue
  import opened SawsModel
  import opened SawsInvariant
  import opened SawsThief

  /** The size computed from the wrapped indices is the distance of the unwrapped ones. */
  lemma SharedSizeIs(s: State)
    requires Shape(s) && Geometry(s)
    ensures SharedSize(s) == s.aSplit - s.aTail
  {
    hide First;
    SlotDistance(s.aTail, s.aSplit, s.max);
  }

  lemma NowCore(s: State)
    requires Shape(s)
    requires Geometry(s) && TailPosition(s) && Statuses(s, 0) && Statuses(s, 1)
    requires RecordFields(s) && DoneFlags(s) && Claims(s) && PcOk(s)
    ensures Core(s)
  {
    hide MaxSteals, Left, Geometry, TailPosition, Statuses, Claims, RecordFields, DoneFlags, PcOk;
  }

  lemma NowInv(s: State)
    requires Shape(s) && Core(s) && WordOk(s)
    ensures Inv(s)
  {
    hide Core, WordOk;
  }

  lemma IdlePc(s: State)
    requires Shape(s) && s.pc.Idle?
    ensures PcOk(s)
  {
  }

  // ---------------------------------------------------------------- push and pop

  lemma PushPosition(s: State)
    requires Shape(s) && Geometry(s)
    ensures (s.split + s.nlocal) % s.max == Top(s) % s.max
  {
    hide First;
    AddWrapped(s.aSplit, s.nlocal, s.max);
  }

  lemma PushGeometry(s: State, es: seq<Task>)
    requires Shape(s) && s.pc.Idle? && s.nlocal + SharedSize(s) + |es| <= s.max
    requires Geometry(s)
    ensures Geometry(DoPush(s, es))
    ensures Top(s) + |es| <= s.aTail + s.max
  {
    SharedSizeIs(s);
    hide Left, MaxSteals, SharedSize;
  }

  lemma PushClaims(s: State, es: seq<Task>)
    requires Shape(s) && Geometry(s) && Claims(s)
    requires Top(s) + |es| <= s.aTail + s.max
    ensures Claims(DoPush(s, es))
  {
    hide Left, MaxSteals;
    var s' := DoPush(s, es);
    PushPosition(s);
    forall t | t in s'.claims
      ensures ClaimOk(s', s'.claims[t])
    {
      var c := s.claims[t];
      assert ClaimOk(s, c);
      WrittenKeeps(s.q, s.split + s.nlocal, Top(s), es, c.base, |c.tasks|);
    }
  }

  lemma PushKeeps(s: State, es: seq<Task>)
    requires Shape(s) && s.pc.Idle? && s.nlocal + SharedSize(s) + |es| <= s.max
    requires Inv(s)
    ensures Inv(DoPush(s, es))
  {
    var s' := DoPush(s, es);
    hide Left, MaxSteals, SharedSize, Geometry, Claims, Written;
    PushGeometry(s, es);
    PushClaims(s, es);
    LocalFrame(s, s');
    hide DoPush, TailPosition, Statuses, RecordFields, DoneFlags, WordOk, PcOk;
  }

  /** Everything but positions and claims ignores the local part. */
  lemma LocalFrame(s: State, s': State)
    requires Shape(s) && s.pc.Idle? && Shape(s') && s' == s.(q := s'.q, nlocal := s'.nlocal)
    requires Core(s) && WordOk(s)
    ensures TailPosition(s') && Statuses(s', 0) && Statuses(s', 1) && RecordFields(s') && DoneFlags(s') && PcOk(s')
    ensures WordOk(s')
  {
    hide Left, MaxSteals, Geometry, Claims;
  }

  lemma PopKeeps(s: State)
    requires Shape(s) && s.pc.Idle? && s.nlocal > 0
    requires Inv(s)
    ensures Inv(s.(nlocal := s.nlocal - 1))
  {
    var s' := s.(nlocal := s.nlocal - 1);
    LocalFrame(s, s');
    hide Left, MaxSteals, TailPosition, Statuses, RecordFields, DoneFlags, WordOk, PcOk;
    assert Geometry(s');
    assert Claims(s');
  }

  // ---------------------------------------------------------------- release

  /** An empty shared part, with the tail caught up, leaves no claim of either epoch open. */
  lemma NothingOpen(s: State)
    requires Shape(s) && Geometry(s) && TailPosition(s) && Claims(s) && !Switched(s)
    requires Statuses(s, 0) && Statuses(s, 1)
    requires s.aTail == s.aSplit
    ensures s.claims == map[]
    ensures First(s) == s.aSplit == s.aTail
    ensures !s.rec[s.last].done ==> s.inst[s.cur].start == s.aSplit
  {
    if s.claims != map[] {
      var t :| t in s.claims;
      var c := s.claims[t];
      assert ClaimOk(s, c);
      ClaimBounds(s, c);
      BlockInside(c.itasks, c.index);
      assert false;
    }
    hide MaxSteals;
  }

  lemma ReleaseShape(s: State)
    requires Shape(s) && Geometry(s) && s.nlocal > 0 && s.aTail == s.aSplit
    ensures Shape(DoRelease(s))
    ensures ReleaseAmount(s) > 0 && ReleaseAmount(s) <= s.nlocal && ReleaseAmount(s) < s.max
    ensures ReleaseAmount(s) <= s.max / 2 + s.max % 2
  {
    hide Left, MaxSteals;
    MaxStealsFits(ReleaseAmount(s));
  }

  lemma ReleaseGeometry(s: State)
    requires Shape(s) && Geometry(s) && TailPosition(s) && !Switched(s) && s.nlocal > 0
    requires First(s) == s.aSplit == s.aTail
    requires !s.rec[s.last].done ==> s.inst[s.cur].start == s.aSplit
    ensures Shape(DoRelease(s)) && Geometry(DoRelease(s)) && TailPosition(DoRelease(s))
  {
    hide Left, MaxSteals, ReleaseAmount, Offset;
    ReleaseShape(s);
    AddWrapped(s.aSplit, ReleaseAmount(s), s.max);
    OffsetZero(ReleaseAmount(s));
    hide Switched;
  }

  lemma ReleaseRecords(s: State)
    requires Shape(s) && Shape(DoRelease(s)) && !Switched(s)
    requires Statuses(s, 0) && Statuses(s, 1) && RecordFields(s) && DoneFlags(s) && Geometry(s)
    requires ReleaseAmount(s) <= s.max / 2 + s.max % 2
    ensures var s' := DoRelease(s); Statuses(s', 0) && Statuses(s', 1) && RecordFields(s') && DoneFlags(s')
  {
    hide Left, MaxSteals, ReleaseAmount, First;
  }

  /** Only an exhausted word is ever replaced by a release. */
  lemma ReleaseExhausted(s: State)
    requires Shape(s) && s.pc.Idle? && WordOk(s)
    requires First(s) == s.aSplit && Geometry(s)
    ensures s.word.valid < MAX_EPOCHS ==> s.word.attempts >= MaxSteals(s.word.itasks)
  {
    hide Left, MaxSteals, Attempts;
    LeftPositive(s.inst[s.cur].published, s.inst[s.cur].claims);
    NoSteals();
  }

  lemma ReleaseWord(s: State)
    requires Shape(s) && s.pc.Idle? && Shape(DoRelease(s)) && WordOk(s)
    requires s.claims == map[] && First(s) == s.aSplit && Geometry(s)
    ensures WordOk(DoRelease(s))
  {
    hide Left, MaxSteals, ReleaseAmount, First, Geometry, WordMatches;
    ReleaseExhausted(s);
  }

  lemma ReleaseKeeps(s: State)
    requires Shape(s) && s.pc.Idle? && s.nlocal > 0 && SharedSize(s) == 0
    requires Inv(s)
    ensures Inv(DoRelease(s))
  {
    var s' := DoRelease(s);
    hide Left, MaxSteals, SharedSize, Geometry, TailPosition, Statuses, RecordFields, DoneFlags, WordOk, First;
    SharedSizeIs(s);
    NothingOpen(s);
    ReleaseShape(s);
    ReleaseGeometry(s);
    ReleaseRecords(s);
    ReleaseWord(s);
    assert Claims(s') && PcOk(s');
    hide DoRelease, Claims, PcOk;
  }

  lemma PublishKeeps(s: State)
    requires Shape(s) && s.pc.Publishing?
    requires Inv(s)
    ensures Inv(DoPublish(s))
  {
    var s' := DoPublish(s);
    assert s'.pc.Idle?;
    WordPcFrame(s, s'.word, s.full, {}, Idle);
    PublishWord(s);
    hide Left, MaxSteals, Geometry, TailPosition, Statuses, Claims, RecordFields, DoneFlags, WordOk, PcOk;
  }

  lemma PublishWord(s: State)
    requires Shape(s) && s.pc.Publishing?
    requires WordOk(s) && Geometry(s) && RecordFields(s) && Statuses(s, s.cur)
    ensures WordOk(DoPublish(s))
  {
    hide Left, First, MaxSteals;
    NoSteals();
  }

  /** Moving between steps that do not switch epochs touches neither positions nor records. */
  lemma WordPcFrame(s: State, w: Word, full: seq<bool>, failed: set<nat>, pc: Pc)
    requires Shape(s) && Core(s) && |full| == s.npes
    requires !Switched(s) && !pc.Scanning? && !pc.Republishing?
    ensures var s' := s.(word := w, full := full, failed := failed, pc := pc);
            && Geometry(s') && TailPosition(s') && Statuses(s', 0) && Statuses(s', 1)
            && RecordFields(s') && DoneFlags(s') && Claims(s')
  {
    WordFrame(s, w, full, failed);
    var t := s.(word := w, full := full, failed := failed);
    PcFrame(t, pc);
    hide Core;
  }

  lemma PcFrame(s: State, pc: Pc)
    requires Shape(s) && Core(s)
    requires !Switched(s) && !pc.Scanning? && !pc.Republishing?
    ensures var s' := s.(pc := pc);
            && Geometry(s') && TailPosition(s') && Statuses(s', 0) && Statuses(s', 1)
            && RecordFields(s') && DoneFlags(s') && Claims(s')
  {
    hide Left, MaxSteals;
    var s' := s.(pc := pc);
    assert Geometry(s');
    assert Claims(s');
  }

  // ---------------------------------------------------------------- reclaim

  lemma ReclaimPcWord(s: State, pc: Pc)
    requires Shape(s) && WordOk(s) && (s.pc.Idle? || s.pc.ReclaimLast? || s.pc.ReclaimCur?)
    requires pc.Idle? || pc.ReclaimLast? || pc.ReclaimCur?
    ensures WordOk(s.(pc := pc))
  {
    hide Left, MaxSteals;
  }

  /** A reclaim step that only moves the owner's loop. */
  lemma ReclaimPcKeeps(s: State, pc: Pc)
    requires Shape(s) && (s.pc.Idle? || s.pc.ReclaimLast? || s.pc.ReclaimCur?)
    requires pc.Idle? || pc.ReclaimLast? || pc.ReclaimCur?
    requires Inv(s) && PcOk(s.(pc := pc))
    ensures Inv(s.(pc := pc))
  {
    hide Left, MaxSteals, Geometry, TailPosition, Statuses, Claims, RecordFields, DoneFlags, WordOk, PcOk, Core;
    ReclaimPcWord(s, pc);
    PcFrame(s, pc);
    NowCore(s.(pc := pc));
  }

  lemma StartReclaimKeeps(s: State)
    requires Shape(s) && s.pc.Idle?
    requires Inv(s)
    ensures Inv(s.(pc := if s.rec[s.last].done then ReclaimCur(0, 0) else ReclaimLast(0, 0)))
  {
    hide Inv, PcOk;
    var pc := if s.rec[s.last].done then ReclaimCur(0, 0) else ReclaimLast(0, 0);
    ReclaimStartPc(s, pc);
    ReclaimPcKeeps(s, pc);
  }

  lemma ReclaimStartPc(s: State, pc: Pc)
    requires Shape(s) && pc == if s.rec[s.last].done then ReclaimCur(0, 0) else ReclaimLast(0, 0)
    ensures PcOk(s.(pc := pc))
  {
    hide MaxSteals, Left, Offset;
    OffsetZero(s.inst[s.last].published);
    OffsetZero(s.inst[s.cur].published);
  }

  /** The sum of the statuses read so far is the offset of the next block. */
  lemma StatusSum(s: State, e: nat, i: nat)
    requires Shape(s) && e < MAX_EPOCHS && Statuses(s, e)
    requires i < STATUS_SLOTS && s.rec[e].status[i] != 0
    ensures i < s.inst[e].claims
    ensures Offset(s.inst[e].published, i) + s.rec[e].status[i] == Offset(s.inst[e].published, i + 1)
  {
    hide MaxSteals;
  }

  /** A scanned prefix lies within the claimed blocks. */
  lemma ScannedClaimed(s: State, e: nat, i: nat)
    requires Shape(s) && e < MAX_EPOCHS && Statuses(s, e) && Scanned(s, e, i)
    ensures i <= s.inst[e].claims
  {
    hide MaxSteals, Left;
    if i > 0 {
      assert s.rec[e].status[i - 1] != 0;
    }
  }

  /** Complete records have no open claim, and open claims lie past a scanned prefix. */
  lemma ScannedBelow(s: State, e: nat, i: nat, c: Claim, t: nat)
    requires Shape(s) && e < MAX_EPOCHS && Statuses(s, e) && Scanned(s, e, i)
    requires t in s.claims && s.claims[t] == c && c.epoch == e && ClaimOk(s, c)
    ensures i <= c.index
  {
    hide MaxSteals, Left, First;
    if c.index < i {
      assert Outstanding(s.claims, e, c.index);
      StealsFit(s, e);
    }
  }

  lemma ReclaimLastPc(s: State)
    requires Shape(s) && s.pc.ReclaimLast? && s.pc.i < s.rec[s.last].maxsteals && s.rec[s.last].status[s.pc.i] != 0
    requires PcOk(s) && Statuses(s, s.last)
    ensures PcOk(s.(pc := ReclaimLast(s.pc.i + 1, s.pc.sum + s.rec[s.last].status[s.pc.i])))
  {
    StatusSum(s, s.last, s.pc.i);
    hide Left, MaxSteals, Statuses;
  }

  lemma ReclaimCurPc(s: State)
    requires Shape(s) && s.pc.ReclaimCur? && s.pc.i < s.rec[s.cur].maxsteals && s.rec[s.cur].status[s.pc.i] != 0
    requires PcOk(s) && Statuses(s, s.cur)
    ensures PcOk(s.(pc := ReclaimCur(s.pc.i + 1, s.pc.sum + s.rec[s.cur].status[s.pc.i])))
  {
    StatusSum(s, s.cur, s.pc.i);
    hide Left, MaxSteals, Statuses;
  }

  /** The whole of the previous epoch is in: its space is free up to the current epoch. */
  lemma ReclaimLastEnd(s: State)
    requires Shape(s) && s.pc.ReclaimLast? && s.pc.i == s.rec[s.last].maxsteals
    requires Inv(s)
    ensures s.pc.sum == s.rec[s.last].itasks && AllComplete(s, s.last)
    ensures s.aTail <= s.inst[s.cur].start <= First(s)
    ensures s.rec[s.cur].vtail == s.inst[s.cur].start % s.max
    ensures forall t :: t in s.claims ==> s.claims[t].epoch == s.cur && s.inst[s.cur].start <= s.claims[t].base
  {
    hide MaxSteals, Left, Geometry, WordOk;
    forall t | t in s.claims
      ensures s.claims[t].epoch == s.cur && s.inst[s.cur].start <= s.claims[t].base
    {
      assert ClaimOk(s, s.claims[t]);
      if s.claims[t].epoch == s.last {
        ScannedBelow(s, s.last, s.pc.i, s.claims[t], t);
      }
    }
  }

  lemma ReclaimLastGeometry(s: State)
    requires Shape(s) && s.pc.ReclaimLast? && s.pc.i == s.rec[s.last].maxsteals && s.pc.sum == s.rec[s.last].itasks
    requires s.aTail <= s.inst[s.cur].start <= First(s)
    requires s.rec[s.cur].vtail == s.inst[s.cur].start % s.max
    requires Geometry(s)
    ensures var s' := DoReclaimLast(s); Shape(s') && Geometry(s') && TailPosition(s')
  {
    hide MaxSteals, Left;
    OffsetZero(s.inst[s.cur].published);
  }

  lemma ReclaimLastRest(s: State)
    requires Shape(s) && s.pc.ReclaimLast? && s.pc.i == s.rec[s.last].maxsteals && s.pc.sum == s.rec[s.last].itasks
    requires Shape(DoReclaimLast(s)) && AllComplete(s, s.last)
    requires RecordFields(s) && DoneFlags(s)
    ensures var s' := DoReclaimLast(s); RecordFields(s') && DoneFlags(s') && PcOk(s')
  {
    hide MaxSteals, Left, First;
    OffsetZero(s.inst[s.cur].published);
  }

  /** Statuses and the word do not see the done flags or the tail. */
  lemma FlagFrame(s: State, s': State)
    requires Shape(s) && Shape(s') && Statuses(s, 0) && Statuses(s, 1) && WordOk(s)
    requires s' == s.(tail := s'.tail, rec := s'.rec, pc := s'.pc, aTail := s'.aTail, counted := s'.counted)
    requires forall e :: 0 <= e < MAX_EPOCHS ==> s'.rec[e].status == s.rec[e].status
    requires s.pc.Idle? || s.pc.ReclaimLast? || s.pc.ReclaimCur?
    requires s'.pc.Idle? || s'.pc.ReclaimLast? || s'.pc.ReclaimCur?
    ensures Statuses(s', 0) && Statuses(s', 1) && WordOk(s')
  {
    hide MaxSteals, Left;
  }

  /** Moving the tail forward is harmless to claims that start past it. */
  lemma TailClaims(s: State, s': State)
    requires Shape(s) && Shape(s') && Claims(s)
    requires s' == s.(tail := s'.tail, rec := s'.rec, pc := s'.pc, aTail := s'.aTail, counted := s'.counted,
             word := s'.word, failed := s'.failed)
    requires forall t :: t in s.claims ==> s'.aTail <= s.claims[t].base
    ensures Claims(s')
  {
    hide MaxSteals, Left;
    forall t | t in s'.claims
      ensures ClaimOk(s', s'.claims[t])
    {
      assert ClaimOk(s, s.claims[t]);
    }
  }

  lemma ReclaimLastFinish(s: State)
    requires Shape(s) && s.pc.ReclaimLast? && s.pc.i == s.rec[s.last].maxsteals
    requires Inv(s)
    ensures Inv(DoReclaimLast(s))
  {
    var s' := DoReclaimLast(s);
    hide Left, MaxSteals, Geometry, TailPosition, Statuses, Claims, RecordFields, DoneFlags, WordOk, First, PcOk, Inv,
      Core, DoReclaimLast, AllComplete;
    InvAll(s);
    ReclaimLastEnd(s);
    ReclaimLastGeometry(s);
    ReclaimLastRest(s);
    ReclaimLastFrame(s, s');
    FlagFrame(s, s');
    TailClaims(s, s');
    NowCore(s');
    NowInv(s');
  }

  lemma ReclaimLastFrame(s: State, s': State)
    requires Shape(s) && s.pc.ReclaimLast? && s.pc.i == s.rec[s.last].maxsteals && s.pc.sum == s.rec[s.last].itasks
    requires s' == DoReclaimLast(s)
    ensures s' == s.(tail := s'.tail, rec := s'.rec, pc := s'.pc, aTail := s'.aTail, counted := s'.counted)
    ensures |s'.rec| == MAX_EPOCHS && forall e :: 0 <= e < MAX_EPOCHS ==> s'.rec[e].status == s.rec[e].status
    ensures s'.aTail == s.inst[s.cur].start && s'.pc.ReclaimCur?
  {
  }

  lemma ReclaimLastMoves(s: State, pc: Pc)
    requires Shape(s) && s.pc.ReclaimLast? && s.pc.i < s.rec[s.last].maxsteals
    requires pc == if s.rec[s.last].status[s.pc.i] == 0 then Idle
                   else ReclaimLast(s.pc.i + 1, s.pc.sum + s.rec[s.last].status[s.pc.i])
    requires PcOk(s) && Statuses(s, s.last)
    ensures PcOk(s.(pc := pc)) && DoReclaimLast(s) == s.(pc := pc)
  {
    if !pc.Idle? {
      ReclaimLastPc(s);
    }
    hide Statuses, MaxSteals, Left;
  }

  lemma ReclaimLastKeeps(s: State)
    requires Shape(s) && s.pc.ReclaimLast?
    requires Inv(s)
    ensures Inv(DoReclaimLast(s))
  {
    hide Geometry, TailPosition, Statuses, Claims, RecordFields, DoneFlags, WordOk, PcOk, DoReclaimLast, Core, Inv;
    var r := s.rec[s.last];
    InvAll(s);
    ReclaimLastBound(s);
    if s.pc.i < r.maxsteals {
      var pc := if r.status[s.pc.i] == 0 then Idle else ReclaimLast(s.pc.i + 1, s.pc.sum + r.status[s.pc.i]);
      ReclaimLastMoves(s, pc);
      ReclaimPcKeeps(s, pc);
    } else {
      ReclaimLastFinish(s);
    }
  }

  lemma ReclaimLastBound(s: State)
    requires Shape(s) && s.pc.ReclaimLast? && PcOk(s)
    ensures s.pc.i <= s.rec[s.last].maxsteals
  {
  }

  /** A scan over the statuses of record `e` that has come to its end at `i`. */
  ghost predicate ScanEnds(s: State, e: nat, i: nat)
    requires Shape(s) && e < MAX_EPOCHS
  {
    Scanned(s, e, i) && (i < s.rec[e].maxsteals ==> s.rec[e].status[i] == 0)
  }

  /** A scan that stopped covers every block the tail already accounts for. */
  lemma ScanCovers(s: State, e: nat, i: nat, counted: nat)
    requires Shape(s) && e < MAX_EPOCHS && Statuses(s, e) && ScanEnds(s, e, i)
    requires s.rec[e].maxsteals == MaxSteals(s.inst[e].published)
    requires counted <= s.inst[e].claims
    requires forall j :: 0 <= j < counted && j < STATUS_SLOTS ==> s.rec[e].status[j] != 0
    ensures counted <= i <= s.inst[e].claims
    ensures Offset(s.inst[e].published, counted) <= Offset(s.inst[e].published, i)
    ensures Offset(s.inst[e].published, i) <= Offset(s.inst[e].published, s.inst[e].claims)
  {
    StealsFit(s, e);
    ScannedClaimed(s, e, i);
    hide MaxSteals, Left;
    OffsetMonotone(s.inst[e].published, counted, i);
    OffsetMonotone(s.inst[e].published, i, s.inst[e].claims);
  }

  /** A scan whose sum is everything published has seen every block complete. */
  lemma ScanTotal(s: State, e: nat, i: nat)
    requires Shape(s) && e < MAX_EPOCHS && Statuses(s, e) && Scanned(s, e, i)
    requires Offset(s.inst[e].published, i) == s.inst[e].published
    ensures s.inst[e].claims == MaxSteals(s.inst[e].published) && AllComplete(s, e)
  {
    LeftPositive(s.inst[e].published, i);
    ScannedClaimed(s, e, i);
    hide MaxSteals, Left;
  }

  lemma SumPositive(n: nat, i: nat)
    requires 0 < i <= MaxSteals(n)
    ensures Offset(n, i) > 0
  {
    LeftPositive(n, 0);
    OffsetMonotone(n, 1, i);
    assert Offset(n, 1) == Volume(n);
  }

  /** What the end of the second loop has established about positions. */
  lemma ReclaimCurEnd(s: State)
    requires Shape(s) && s.pc.ReclaimCur? && ScanEnds(s, s.cur, s.pc.i)
    requires TailPosition(s) && Statuses(s, s.cur) && RecordFields(s) && PcOk(s)
    ensures s.pc.i <= s.inst[s.cur].claims
    ensures s.pc.sum == Offset(s.inst[s.cur].published, s.pc.i)
    ensures s.rec[s.last].done ==> s.aTail <= s.inst[s.cur].start + s.pc.sum <= First(s)
    ensures s.rec[s.last].done && s.pc.sum == 0 ==> s.counted == 0
  {
    var c := s.inst[s.cur];
    ScannedClaimed(s, s.cur, s.pc.i);
    if s.rec[s.last].done {
      hide MaxSteals, Left, Statuses;
      ScanCovers(s, s.cur, s.pc.i, s.counted);
      if s.pc.i > 0 {
        SumPositive(c.published, s.pc.i);
      }
    }
  }

  /** A record whose blocks are all reported has no open claim. */
  lemma CompleteIsClosed(s: State, e: nat, t: nat)
    requires Shape(s) && e < MAX_EPOCHS && t in s.claims
    requires ClaimOk(s, s.claims[t]) && Statuses(s, e) && AllComplete(s, e)
    ensures s.claims[t].epoch != e
  {
    StealsFit(s, e);
    hide MaxSteals, Left, First;
    assert s.claims[t].epoch == e ==> Outstanding(s.claims, e, s.claims[t].index);
  }

  lemma ReclaimCurClaim(s: State, t: nat)
    requires Shape(s) && s.pc.ReclaimCur? && s.rec[s.last].done && t in s.claims
    requires Claims(s) && Statuses(s, 0) && Statuses(s, 1) && DoneFlags(s) && PcOk(s)
    ensures s.inst[s.cur].start + s.pc.sum <= s.claims[t].base
  {
    hide MaxSteals, Left;
    var c := s.claims[t];
    assert ClaimOk(s, c);
    CompleteIsClosed(s, s.last, t);
    ScannedBelow(s, s.cur, s.pc.i, c, t);
    OffsetMonotone(s.inst[s.cur].published, s.pc.i, c.index);
  }

  lemma ReclaimCurGeometry(s: State)
    requires Shape(s) && s.pc.ReclaimCur?
    requires ScanEnds(s, s.cur, s.pc.i) && s.pc.i <= s.inst[s.cur].claims
    requires s.pc.sum == Offset(s.inst[s.cur].published, s.pc.i)
    requires s.rec[s.last].done ==> s.aTail <= s.inst[s.cur].start + s.pc.sum <= First(s)
    requires s.rec[s.cur].vtail == s.inst[s.cur].start % s.max
    requires Geometry(s) && TailPosition(s)
    ensures var s' := DoReclaimCur(s); Shape(s') && Geometry(s') && TailPosition(s')
  {
    AddWrapped(s.inst[s.cur].start, s.pc.sum, s.max);
    hide MaxSteals, Left;
  }

  lemma ReclaimCurRest(s: State)
    requires Shape(s) && s.pc.ReclaimCur? && Shape(DoReclaimCur(s))
    requires ScanEnds(s, s.cur, s.pc.i)
    requires s.pc.sum == s.rec[s.cur].itasks ==>
             s.inst[s.cur].claims == MaxSteals(s.inst[s.cur].published) && AllComplete(s, s.cur)
    requires RecordFields(s) && DoneFlags(s)
    ensures var s' := DoReclaimCur(s); RecordFields(s') && DoneFlags(s') && PcOk(s')
  {
    hide MaxSteals, Left, First;
  }

  lemma ReclaimCurStops(s: State)
    requires Shape(s) && s.pc.ReclaimCur? && ScanEnds(s, s.cur, s.pc.i)
    requires Inv(s)
    ensures Inv(DoReclaimCur(s))
  {
    var s' := DoReclaimCur(s);
    hide Left, MaxSteals, Geometry, TailPosition, Statuses, Claims, DoneFlags, WordOk, First, PcOk, ScanEnds;
    ReclaimCurEnd(s);
    assert s.rec[s.cur].vtail == s.inst[s.cur].start % s.max && s.rec[s.cur].itasks == s.inst[s.cur].published;
    ReclaimCurGeometry(s);
    if s.pc.sum == s.rec[s.cur].itasks {
      assert Scanned(s, s.cur, s.pc.i) by { ScanEndsScanned(s); }
      ScanTotal(s, s.cur, s.pc.i);
    }
    hide RecordFields, Scanned, AllComplete;
    ReclaimCurRest(s);
    ReclaimCurFrame(s, s');
    FlagFrame(s, s');
    if s.rec[s.last].done {
      forall t | t in s.claims
        ensures s.inst[s.cur].start + s.pc.sum <= s.claims[t].base
      {
        ReclaimCurClaim(s, t);
      }
    }
    ClaimsPastTail(s);
    hide DoReclaimCur;
    TailClaims(s, s');
    NowCore(s');
    hide Core;
  }

  lemma ReclaimCurFrame(s: State, s': State)
    requires Shape(s) && s.pc.ReclaimCur? && ScanEnds(s, s.cur, s.pc.i) && s' == DoReclaimCur(s)
    ensures s' == s.(tail := s'.tail, rec := s'.rec, pc := s'.pc, aTail := s'.aTail, counted := s'.counted)
    ensures s'.aTail == s.aTail || (s.rec[s.last].done && s'.aTail == s.inst[s.cur].start + s.pc.sum)
    ensures |s'.rec| == MAX_EPOCHS && forall e :: 0 <= e < MAX_EPOCHS ==> s'.rec[e].status == s.rec[e].status
    ensures s'.pc.Idle?
  {
  }

  lemma ScanEndsScanned(s: State)
    requires Shape(s) && s.pc.ReclaimCur? && ScanEnds(s, s.cur, s.pc.i)
    ensures Scanned(s, s.cur, s.pc.i)
  {
    hide Scanned;
  }

  lemma ClaimsPastTail(s: State)
    requires Shape(s) && Claims(s)
    ensures forall t :: t in s.claims ==> s.aTail <= s.claims[t].base
  {
    hide Left, MaxSteals, First;
    forall t | t in s.claims
      ensures s.aTail <= s.claims[t].base
    {
      assert ClaimOk(s, s.claims[t]);
    }
  }

  lemma ReclaimCurKeeps(s: State)
    requires Shape(s) && s.pc.ReclaimCur?
    requires Inv(s)
    ensures Inv(DoReclaimCur(s))
  {
    hide Geometry, TailPosition, Statuses, Claims, RecordFields, DoneFlags, WordOk, PcOk, Inv, Core, DoReclaimCur,
      ScanEnds;
    InvAll(s);
    if s.pc.i < s.rec[s.cur].maxsteals && s.rec[s.cur].status[s.pc.i] != 0 {
      var pc := ReclaimCur(s.pc.i + 1, s.pc.sum + s.rec[s.cur].status[s.pc.i]);
      ReclaimCurPc(s);
      ReclaimPcKeeps(s, pc);
      ReclaimCurMoves(s, pc);
    } else {
      ReclaimCurScanEnds(s);
      ReclaimCurStops(s);
    }
  }

  lemma ReclaimCurMoves(s: State, pc: Pc)
    requires Shape(s) && s.pc.ReclaimCur? && s.pc.i < s.rec[s.cur].maxsteals && s.rec[s.cur].status[s.pc.i] != 0
    requires pc == ReclaimCur(s.pc.i + 1, s.pc.sum + s.rec[s.cur].status[s.pc.i])
    ensures DoReclaimCur(s) == s.(pc := pc)
  {
  }

  lemma ReclaimCurScanEnds(s: State)
    requires Shape(s) && s.pc.ReclaimCur? && PcOk(s)
    requires !(s.pc.i < s.rec[s.cur].maxsteals && s.rec[s.cur].status[s.pc.i] != 0)
    ensures ScanEnds(s, s.cur, s.pc.i)
  {
    hide Scanned;
  }

  // ---------------------------------------------------------------- reacquire: disable and wait

  lemma DisableWord(s: State)
    requires Shape(s) && s.pc.Idle?
    requires WordOk(s) && DoneFlags(s)
    ensures WordOk(DoDisable(s))
  {
    hide MaxSteals, Left;
    NoSteals();
  }

  lemma DisablePc(s: State)
    requires Shape(s) && s.pc.Idle? && s.nlocal == 0
    requires DoneFlags(s)
    ensures PcOk(DoDisable(s))
  {
    hide MaxSteals, Left;
    OffsetZero(s.inst[s.last].published);
  }

  lemma DisableKeeps(s: State)
    requires Shape(s) && s.pc.Idle? && s.nlocal == 0
    requires Inv(s)
    ensures Inv(DoDisable(s))
  {
    var s' := DoDisable(s);
    DisableWord(s);
    DisablePc(s);
    WordPcFrame(s, s'.word, s.full, s.failed, s'.pc);
    hide MaxSteals, Left, Geometry, TailPosition, Statuses, Claims, RecordFields, DoneFlags, WordOk, PcOk;
  }

  lemma WaitWord(s: State)
    requires Shape(s) && s.pc.Waiting? && WordOk(s)
    ensures WordOk(s.(pc := NextWait(s)))
  {
    hide MaxSteals, Left;
  }

  /** A round of the retry loop adds up to the stolen total only if every status was in. */
  lemma WaitPc(s: State)
    requires Shape(s) && s.pc.Waiting? && PcOk(s) && Statuses(s, s.last) && RecordFields(s)
    ensures PcOk(s.(pc := NextWait(s)))
  {
    hide MaxSteals, Offset, BlockSize;
    var n, i := s.inst[s.last].published, s.pc.i;
    OffsetZero(n);
    if i < s.rec[s.last].maxsteals {
      OffsetStep(n, i);
      BlockInside(n, i);
    }
  }

  lemma WaitKeeps(s: State)
    requires Shape(s) && s.pc.Waiting?
    requires Inv(s)
    ensures Inv(s.(pc := NextWait(s)))
  {
    hide MaxSteals, Left, Geometry, TailPosition, Statuses, Claims, RecordFields, DoneFlags, WordOk, PcOk;
    WaitWord(s);
    assert Statuses(s, s.last);
    WaitPc(s);
    var pc := NextWait(s);
    assert !pc.Scanning? && !pc.Republishing? && !Switched(s);
    hide NextWait, Switched;
    PcFrame(s, pc);
    NowCore(s.(pc := pc));
    hide Core;
  }

  // ---------------------------------------------------------------- reacquire: decide

  /** What the attempts read by the fetch-or say about the shared part. */
  lemma DecideFacts(s: State)
    requires Shape(s) && s.pc.Deciding?
    requires WordOk(s) && Geometry(s)
    ensures var left := Left(s.word.itasks, s.pc.att);
            && First(s) + left == s.aSplit
            && (left == 0 ==> s.inst[s.cur].claims == MaxSteals(s.inst[s.cur].published))
            && (left > 0 ==>
                  && s.word.itasks == s.inst[s.cur].published
                  && s.inst[s.cur].claims == s.pc.att < MaxSteals(s.word.itasks) <= 20)
  {
    hide MaxSteals, Left;
    var n := s.inst[s.cur].published;
    LeftPositive(n, s.pc.att);
    LeftPositive(n, MaxSteals(n));
    LeftPositive(s.word.itasks, s.pc.att);
    MaxStealsFits(s.word.itasks);
    NoSteals();
    if s.word.itasks != 0 && s.pc.att >= MaxSteals(n) {
      LeftMonotone(n, MaxSteals(n), s.pc.att);
    }
  }

  lemma NothingWord(s: State)
    requires Shape(s) && s.pc.Deciding? && WordOk(s)
    requires s.inst[s.cur].claims == MaxSteals(s.inst[s.cur].published)
    ensures WordOk(s.(word := Word(0, s.cur, 0, s.tail), failed := {}, pc := Idle))
  {
    hide MaxSteals, Left;
    NoSteals();
  }

  lemma DecideNothing(s: State)
    requires Shape(s) && s.pc.Deciding? && Left(s.word.itasks, s.pc.att) == 0
    requires Inv(s)
    ensures Inv(s.(word := Word(0, s.cur, 0, s.tail), failed := {}, pc := Idle))
  {
    hide MaxSteals, Left, Geometry, TailPosition, Statuses, Claims, RecordFields, DoneFlags, WordOk, PcOk;
    DecideFacts(s);
    NothingWord(s);
    WordPcFrame(s, Word(0, s.cur, 0, s.tail), s.full, {}, Idle);
    var s' := s.(word := Word(0, s.cur, 0, s.tail), failed := {}, pc := Idle);
    IdlePc(s');
    NowCore(s');
  }

  /** A reacquire that takes tasks back. */
  ghost predicate Taking(s: State, s': State, amount: nat)
    requires Shape(s)
  {
    && s.pc.Deciding?
    && var left := Left(s.word.itasks, s.pc.att);
    && First(s) + left == s.aSplit
    && s.word.itasks == s.inst[s.cur].published
    && s.inst[s.cur].claims == s.pc.att < MaxSteals(s.word.itasks) <= 20
    && 0 < amount <= left
    && s' == s.(nlocal := s.nlocal + amount,
                split := Retreat(s.split, amount, s.max),
                cur := s.last, last := s.cur,
                rec := s.rec[s.last := NoRecord()],
                pc := Scanning(s.pc.att, left - amount, 0, s.rec[s.cur].vtail),
                aSplit := s.aSplit - amount,
                inst := s.inst[s.last := Instance(First(s), left - amount, 0)])
  }

  lemma TakingHolds(s: State)
    requires Shape(s) && s.pc.Deciding? && Left(s.word.itasks, s.pc.att) > 0
    requires WordOk(s) && Geometry(s)
    ensures Taking(s, DoDecide(s), ReacquireAmount(Left(s.word.itasks, s.pc.att)))
    ensures Shape(DoDecide(s))
  {
    DecideFacts(s);
    hide MaxSteals, Left, WordOk, Retreat;
  }

  lemma RetreatIs(aSplit: int, split: nat, amount: nat, max: nat)
    requires max > 0 && split == aSplit % max && amount <= max
    ensures Retreat(split, amount, max) == (aSplit - amount) % max
  {
    var back: int := -(amount as int);
    AddWrapped(aSplit, back, max);
    SmallMod(split - amount, max);
  }

  lemma TakingFirst(s: State, s': State, amount: nat)
    requires Shape(s) && Shape(s') && Taking(s, s', amount)
    ensures First(s') == First(s) <= s'.aSplit
    ensures s'.inst[s'.cur].start + s'.inst[s'.cur].published == s'.aSplit
  {
    hide MaxSteals, Left, Retreat;
    OffsetZero(s'.inst[s'.cur].published);
  }

  lemma TakingFields(s: State, s': State, amount: nat)
    requires Shape(s) && Taking(s, s', amount) && s.nlocal == 0
    ensures s'.max == s.max && s'.tail == s.tail && s'.aTail == s.aTail
    ensures s'.split == Retreat(s.split, amount, s.max) && s'.aSplit == s.aSplit - amount
    ensures Top(s') == s.aSplit && First(s) + amount <= s.aSplit
  {
    hide MaxSteals, Left, First, Retreat;
  }

  lemma TakingGeometry(s: State, s': State, amount: nat)
    requires Shape(s) && Shape(s') && Taking(s, s', amount) && s.nlocal == 0
    requires Geometry(s)
    ensures First(s') == First(s) && Geometry(s')
  {
    hide MaxSteals, Left, First, Retreat, Taking;
    TakingFirst(s, s', amount);
    TakingFields(s, s', amount);
    RetreatIs(s.aSplit, s.split, amount, s.max);
  }

  lemma TakingTail(s: State, s': State, amount: nat)
    requires Shape(s) && Shape(s') && Taking(s, s', amount)
    requires TailPosition(s) && DoneFlags(s)
    ensures TailPosition(s')
  {
    hide MaxSteals, Left;
    OffsetZero(s.inst[s.cur].published);
  }

  lemma TakingClaims(s: State, s': State, amount: nat)
    requires Shape(s) && Shape(s') && Taking(s, s', amount)
    requires Claims(s) && Statuses(s, s.last) && AllComplete(s, s.last) && First(s') == First(s)
    ensures Claims(s')
    ensures forall t :: t in s.claims ==> s.claims[t].epoch == s.cur
  {
    hide MaxSteals, Left;
    forall t | t in s'.claims
      ensures ClaimOk(s', s'.claims[t]) && s.claims[t].epoch == s.cur
    {
      assert ClaimOk(s, s.claims[t]);
      CompleteIsClosed(s, s.last, t);
    }
  }

  lemma TakingRecords(s: State, s': State, amount: nat)
    requires Shape(s) && Shape(s') && Taking(s, s', amount)
    requires Statuses(s, s.cur) && RecordFields(s) && DoneFlags(s)
    ensures Statuses(s', 0) && Statuses(s', 1) && RecordFields(s') && DoneFlags(s')
  {
    hide MaxSteals, Left, First;
  }

  lemma TakingWord(s: State, s': State, amount: nat)
    requires Shape(s) && Shape(s') && Taking(s, s', amount)
    requires WordOk(s)
    ensures WordOk(s') && PcOk(s')
  {
    hide MaxSteals, Left, First;
    OffsetZero(s.inst[s.cur].published);
  }

  lemma DecideKeeps(s: State)
    requires Shape(s) && s.pc.Deciding?
    requires Inv(s)
    ensures Inv(DoDecide(s))
  {
    if Left(s.word.itasks, s.pc.att) == 0 {
      DecideNothing(s);
      hide Core, WordOk;
      assert DoDecide(s) == s.(word := Word(0, s.cur, 0, s.tail), failed := {}, pc := Idle);
    } else {
      var s' := DoDecide(s);
      var amount := ReacquireAmount(Left(s.word.itasks, s.pc.att));
      assert s.nlocal == 0 && AllComplete(s, s.last) by { hide MaxSteals, Left, Geometry, TailPosition, Statuses,
        Claims, RecordFields, DoneFlags, WordOk; }
      hide MaxSteals, Left, Geometry, TailPosition, Statuses, Claims, RecordFields, DoneFlags, WordOk, PcOk, Taking;
      TakingHolds(s);
      TakingGeometry(s, s', amount);
      TakingTail(s, s', amount);
      TakingClaims(s, s', amount);
      TakingRecords(s, s', amount);
      TakingWord(s, s', amount);
      hide DoDecide;
    }
  }

  // ---------------------------------------------------------------- reacquire: scan and republish

  lemma ScanWord(s: State)
    requires Shape(s) && s.pc.Scanning? && WordOk(s)
    ensures WordOk(s.(pc := NextScan(s)))
  {
    hide MaxSteals, Left;
  }

  lemma ScanPc(s: State)
    requires Shape(s) && s.pc.Scanning? && PcOk(s) && Statuses(s, s.last) && TailPosition(s) && RecordFields(s)
    ensures PcOk(s.(pc := NextScan(s)))
  {
    var i := s.pc.i;
    if i < s.rec[s.last].maxsteals && s.rec[s.last].status[i] != 0 {
      StatusSum(s, s.last, i);
    } else {
      ScanCovers(s, s.last, i, s.counted) by { hide MaxSteals, Left; }
    }
    hide MaxSteals, Left, Statuses, RecordFields;
  }

  lemma ScanFrame(s: State, pc: Pc)
    requires Shape(s) && Core(s)
    requires s.pc.Scanning? && (pc.Scanning? || pc.Republishing?)
    ensures var s' := s.(pc := pc);
            && Geometry(s') && TailPosition(s') && Statuses(s', 0) && Statuses(s', 1)
            && RecordFields(s') && DoneFlags(s') && Claims(s')
  {
    hide Left, MaxSteals;
    var s' := s.(pc := pc);
    assert Geometry(s');
    assert Claims(s');
  }

  lemma ScanKeeps(s: State)
    requires Shape(s) && s.pc.Scanning?
    requires Inv(s)
    ensures Inv(s.(pc := NextScan(s)))
  {
    var s' := s.(pc := NextScan(s));
    ScanWord(s);
    ScanFrame(s, s'.pc);
    hide MaxSteals, Left, Geometry, TailPosition, Statuses, Claims, RecordFields, DoneFlags, WordOk, PcOk;
    assert Statuses(s, s.last);
    ScanPc(s);
  }

  /** The tail moves past the completed prefix only, never backwards. */
  lemma RepublishPositions(s: State)
    requires Shape(s) && s.pc.Republishing?
    requires Geometry(s) && TailPosition(s) && PcOk(s) && Statuses(s, s.last) && RecordFields(s) && WordOk(s)
    ensures var l, c := s.inst[s.last], s.inst[s.cur];
            && s.pc.i <= l.claims == s.pc.att < MaxSteals(l.published) <= 20
            && s.word.itasks == l.published && c.published == s.pc.left && c.claims == 0
            && l.start + Offset(l.published, s.pc.att) == c.start == First(s)
            && s.aTail <= l.start + Offset(l.published, s.pc.i) <= c.start
            && s.rec[s.last].vtail == l.start % s.max
            && s.pc.index == s.rec[s.last].vtail + Offset(l.published, s.pc.i)
  {
    var l := s.inst[s.last];
    StealsFit(s, s.last);
    ScannedClaimed(s, s.last, s.pc.i);
    OffsetMonotone(l.published, s.counted, s.pc.i);
    OffsetMonotone(l.published, s.pc.i, l.claims);
    hide MaxSteals, Left, Statuses;
    OffsetZero(s.inst[s.cur].published);
  }

  ghost predicate Republished(s: State, s': State)
    requires Shape(s)
  {
    && s.pc.Republishing?
    && var l, c := s.inst[s.last], s.inst[s.cur];
    && s.pc.i <= l.claims == s.pc.att < MaxSteals(l.published) <= 20
    && s.word.itasks == l.published && c.published == s.pc.left && c.claims == 0
    && l.start + Offset(l.published, s.pc.att) == c.start
    && s.aTail <= l.start + Offset(l.published, s.pc.i) <= c.start
    && s.rec[s.last].vtail == l.start % s.max
    && var v := c.start % s.max;
    && var o := s.rec[s.last];
    && var advance := s.pc.index > s.tail;
    && s' == s.(tail := if advance then (l.start + Offset(l.published, s.pc.i)) % s.max else s.tail,
                rec := s.rec[s.last := o.(itasks := Offset(l.published, s.pc.att), maxsteals := s.pc.att)]
                            [s.cur := Record(c.published, v, false, MaxSteals(c.published), s.rec[s.cur].status)],
                word := Word(0, s.cur, c.published, v), failed := {}, pc := Idle,
                aTail := if advance then l.start + Offset(l.published, s.pc.i) else s.aTail,
                counted := 0)
  }

  lemma RepublishedFields(s: State)
    requires Shape(s) && s.pc.Republishing?
    requires var l, c := s.inst[s.last], s.inst[s.cur];
            && s.pc.i <= l.claims == s.pc.att < MaxSteals(l.published) <= 20
            && s.word.itasks == l.published && c.published == s.pc.left && c.claims == 0
            && l.start + Offset(l.published, s.pc.att) == c.start
            && s.aTail <= l.start + Offset(l.published, s.pc.i) <= c.start
            && s.rec[s.last].vtail == l.start % s.max
            && s.pc.index == s.rec[s.last].vtail + Offset(l.published, s.pc.i)
    requires MaxSteals(s.inst[s.cur].published) <= 20
    ensures Republished(s, DoRepublish(s)) && Shape(DoRepublish(s))
  {
    hide MaxSteals, Left;
    AddWrapped(s.inst[s.last].start, Offset(s.inst[s.last].published, s.pc.i), s.max);
    AddWrapped(s.inst[s.last].start, Offset(s.inst[s.last].published, s.pc.att), s.max);
  }

  lemma RepublishedHolds(s: State)
    requires Shape(s) && s.pc.Republishing?
    requires Geometry(s) && TailPosition(s) && PcOk(s) && Statuses(s, s.last) && RecordFields(s) && WordOk(s)
    requires Statuses(s, s.cur)
    ensures Republished(s, DoRepublish(s)) && Shape(DoRepublish(s))
  {
    hide MaxSteals, Left, Geometry, TailPosition, PcOk, Statuses, RecordFields, WordOk, First, Republished, DoRepublish;
    RepublishPositions(s);
    StealsFit(s, s.cur);
    RepublishedFields(s);
  }

  lemma RepublishedGeometry(s: State, s': State)
    requires Shape(s) && Shape(s') && Republished(s, s')
    requires Geometry(s)
    ensures First(s') == First(s) && Geometry(s')
  {
    hide MaxSteals, Left;
    OffsetZero(s.inst[s.cur].published);
    assert s'.aTail >= s.aTail;
  }

  lemma RepublishedTail(s: State, s': State)
    requires Shape(s) && Shape(s') && Republished(s, s')
    requires TailPosition(s)
    ensures TailPosition(s')
  {
    hide MaxSteals, Left;
  }

  lemma RepublishedRecords(s: State, s': State)
    requires Shape(s) && Shape(s') && Republished(s, s')
    requires Statuses(s, 0) && Statuses(s, 1) && RecordFields(s) && DoneFlags(s) && TailPosition(s)
    ensures Statuses(s', 0) && Statuses(s', 1) && RecordFields(s') && DoneFlags(s') && PcOk(s')
  {
    hide MaxSteals, Left, First;
  }

  lemma RepublishedWord(s: State, s': State)
    requires Shape(s) && Shape(s') && Republished(s, s') && Statuses(s, s.cur)
    ensures WordOk(s')
  {
    hide MaxSteals, Left, First;
    NoSteals();
  }

  lemma RepublishedClaim(s: State, s': State, t: nat)
    requires Shape(s) && Shape(s') && Republished(s, s') && t in s.claims
    requires Claims(s) && Statuses(s, s.last) && PcOk(s)
    ensures s'.aTail <= s.claims[t].base
  {
    hide MaxSteals, Left, First;
    var c := s.claims[t];
    assert ClaimOk(s, c);
    ScannedBelow(s, s.last, s.pc.i, c, t);
    OffsetMonotone(s.inst[s.last].published, s.pc.i, c.index);
  }

  lemma RepublishKeeps(s: State)
    requires Shape(s) && s.pc.Republishing?
    requires Inv(s)
    ensures Inv(DoRepublish(s))
  {
    hide MaxSteals, Left, Geometry, TailPosition, Statuses, Claims, RecordFields, DoneFlags, WordOk, PcOk,
      DoRepublish, Republished, Inv, Core, First;
    var s' := DoRepublish(s);
    InvAll(s);
    RepublishedHolds(s);
    RepublishedGeometry(s, s');
    RepublishedTail(s, s');
    RepublishedRecords(s, s');
    RepublishedWord(s, s');
    forall t | t in s.claims
      ensures s'.aTail <= s.claims[t].base
    {
      RepublishedClaim(s, s', t);
    }
    RepublishedFrame(s, s');
    TailClaims(s, s');
    NowCore(s');
    NowInv(s');
  }

  lemma RepublishedFrame(s: State, s': State)
    requires Shape(s) && Shape(s') && Republished(s, s')
    ensures s' == s.(tail := s'.tail, rec := s'.rec, pc := s'.pc, aTail := s'.aTail, counted := s'.counted,
            word := s'.word, failed := s'.failed)
  {
    hide MaxSteals, Left, First;
  }
}
