/** What the SAWS ring guarantees on every run: it implements the abstract queue of TaskQueue,
    thieves receive exactly what was published, and epoch records are never mixed up. */
module SawsTheorems {
  import opened StealSeries
  import opened RingArith
  import opened RingSlots
  import opened TaskQueue
  import opened SawsModel
  import opened SawsInvariant
  import opened SawsThief
  import opened SawsOwner

  // ---------------------------------------------------------------- the invariant over runs

  lemma InitInv(s: State)
    requires Init(s)
    ensures Inv(s)
    ensures Abs(s) == Queue([], map[])
  {
    assert Offset(0, 0) == 0 && MaxSteals(0) == 0;
  }

  /** Every step of the owner and of every thief keeps the invariant. */
  lemma StepKeeps(s: State, a: Action)
    requires Inv(s) && Enabled(s, a)
    ensures Inv(Apply(s, a))
  {
    hide Inv, DoPush, DoRelease, DoPublish, DoReclaimLast, DoReclaimCur, DoDisable, DoDecide, DoRepublish, DoProbe,
      DoPeek, DoCopy, DoComplete, NextWait, NextScan, SharedSize, MaxSteals, Left;
    match a
    case Push(es) => PushKeeps(s, es);
    case Pop => PopKeeps(s);
    case Release => ReleaseKeeps(s);
    case Publish => PublishKeeps(s);
    case StartReclaim => StartReclaimKeeps(s);
    case ReclaimRead => if s.pc.ReclaimLast? { ReclaimLastKeeps(s); } else { ReclaimCurKeeps(s); }
    case Disable => DisableKeeps(s);
    case WaitRead => WaitKeeps(s);
    case Decide => DecideKeeps(s);
    case ScanRead => ScanKeeps(s);
    case Republish => RepublishKeeps(s);
    case Probe(t) => ProbeKeeps(s, t);
    case Peek(t) => PeekKeeps(s, t);
    case Copy(t, i) => CopyKeeps(s, t, i);
    case Complete(t) => CompleteKeeps(s, t);
  }

  lemma ProbeKeeps(s: State, t: nat)
    requires Shape(s) && t < s.npes && t !in s.claims && s.full[t]
    requires Inv(s)
    ensures Inv(DoProbe(s, t))
  {
    hide Inv, MaxSteals, DoProbe;
    if s.word.valid >= MAX_EPOCHS || s.word.attempts >= MaxSteals(s.word.itasks) {
      FailedProbeKeeps(s, t);
    } else {
      ClaimKeeps(s, t);
    }
  }

  // ---------------------------------------------------------------- refinement

  /** Steps that move neither the first unclaimed position nor the top, and write no task. */
  ghost predicate Quiet(s: State, s': State)
    requires Shape(s)
  {
    Shape(s') && s'.q == s.q && s'.max == s.max && First(s') == First(s) && Top(s') == Top(s)
  }

  lemma QuietAbs(s: State, s': State)
    requires Shape(s) && Quiet(s, s') && s'.claims == s.claims
    ensures Abs(s') == Abs(s)
  {
  }

  lemma PushRefines(s: State, es: seq<Task>)
    requires Shape(s) && s.pc.Idle? && s.nlocal + SharedSize(s) + |es| <= s.max
    requires Geometry(s)
    ensures Shape(DoPush(s, es)) && QueueStep(Abs(s), Pushed(es), Abs(DoPush(s, es)))
  {
    hide SharedSize, Written, Slots, MaxSteals, Left, Offset;
    var s' := DoPush(s, es);
    PushGeometry(s, es);
    PushPosition(s);
    assert s.aTail <= First(s) <= Top(s) && First(s') == First(s);
    hide First, Geometry;
    PushSlots(s.q, s.split + s.nlocal, First(s), Top(s), es);
  }

  lemma PopRefines(s: State)
    requires Shape(s) && s.nlocal > 0 && Geometry(s)
    ensures QueueStep(Abs(s), Popped(s.q[(s.split + s.nlocal - 1) % s.max]), Abs(s.(nlocal := s.nlocal - 1)))
  {
    var s' := s.(nlocal := s.nlocal - 1);
    assert First(s') == First(s);
    AddWrapped(s.aSplit, s.nlocal - 1, s.max);
    var f, t := First(s), Top(s);
    hide First;
    SlotsSplit(s.q, f, t - 1 - f, 1);
    assert Slots(s.q, t - 1, 1) == [s.q[(t - 1) % s.max]];
    hide Slots;
  }

  /** Taking the prefix `tasks` off the unclaimed part. */
  lemma PrefixRefines(s: State, t: nat, s': State, tasks: seq<Task>)
    requires Shape(s) && Shape(s') && t !in s.claims && t in s'.claims && |tasks| > 0
    requires s'.q == s.q && s'.max == s.max && Top(s') == Top(s)
    requires s'.claims == s.claims[t := s'.claims[t]] && s'.claims[t].tasks == tasks
    requires tasks == Slots(s.q, First(s), |tasks|)
    requires First(s') == First(s) + |tasks| <= Top(s')
    ensures QueueStep(Abs(s), Claimed(t, tasks), Abs(s'))
  {
    hide First, Slots;
    SlotsSplit(s.q, First(s), |tasks|, Top(s') - First(s'));
    assert Flight(s') == Flight(s)[t := tasks];
  }

  lemma ClaimRefines(s: State, t: nat)
    requires Shape(s) && Claiming(s, t)
    requires Geometry(s) && WordOk(s)
    ensures Shape(DoProbe(s, t)) && t in DoProbe(s, t).claims
    ensures QueueStep(Abs(s), Claimed(t, DoProbe(s, t).claims[t].tasks), Abs(DoProbe(s, t)))
  {
    var s' := DoProbe(s, t);
    ClaimShape(s, t);
    hide Geometry, WordOk, First, MaxSteals, Left, QueueStep, Slots;
    ClaimPositions(s, t, s');
    PrefixRefines(s, t, s', s'.claims[t].tasks);
  }

  lemma ClaimPositions(s: State, t: nat, s': State)
    requires Shape(s) && t < s.npes && Shape(s') && s' == DoProbe(s, t) && Claiming(s, t)
    requires Geometry(s) && WordOk(s)
    ensures NewClaim(s, t, s')
    ensures First(s') == First(s) + BlockSize(s.word.itasks, s.word.attempts) <= Top(s')
    ensures s'.claims[t].base == First(s)
    ensures BlockSize(s.word.itasks, s.word.attempts) > 0
  {
    ClaimFacts(s, t);
    BlockInside(s.word.itasks, s.word.attempts);
    hide MaxSteals, WordOk;
  }

  lemma CompleteRefines(s: State, t: nat)
    requires Shape(s) && t in s.claims && Claims(s)
    requires forall i :: 0 <= i < ClaimSize(s.claims[t]) ==> i in s.claims[t].got
    ensures Shape(DoComplete(s, t))
    ensures QueueStep(Abs(s), Delivered(t, Received(s.claims[t])), Abs(DoComplete(s, t)))
  {
    var s' := DoComplete(s, t);
    CompleteShape(s, t);
    hide MaxSteals, Left;
    assert ClaimOk(s, s.claims[t]);
    assert Received(s.claims[t]) == s.claims[t].tasks;
    assert Flight(s') == Flight(s) - {t};
    assert First(s') == First(s);
  }

  lemma CopyRefines(s: State, t: nat, i: nat)
    requires Shape(s) && t in s.claims && i < ClaimSize(s.claims[t])
    ensures Shape(DoCopy(s, t, i)) && Abs(DoCopy(s, t, i)) == Abs(s)
  {
    hide MaxSteals, Left, ClaimSize;
    var s' := DoCopy(s, t, i);
    assert Flight(s') == Flight(s);
    assert First(s') == First(s);
  }

  lemma ReleaseRefines(s: State)
    requires Shape(s) && s.pc.Idle? && s.nlocal > 0 && SharedSize(s) == 0
    requires Inv(s)
    ensures Shape(DoRelease(s)) && Abs(DoRelease(s)) == Abs(s)
  {
    hide TailPosition, Statuses, Claims, RecordFields, DoneFlags, PcOk, WordOk, MaxSteals;
    SharedSizeIs(s);
    hide SharedSize;
    NothingOpen(s);
    ReleaseShape(s);
    OffsetZero(ReleaseAmount(s));
    hide Left, ReleaseAmount, Inv;
    assert First(DoRelease(s)) == First(s);
    QuietAbs(s, DoRelease(s));
  }

  lemma DecideRefines(s: State)
    requires Shape(s) && s.pc.Deciding?
    requires Inv(s)
    ensures Shape(DoDecide(s)) && Abs(DoDecide(s)) == Abs(s)
  {
    var s' := DoDecide(s);
    hide TailPosition, Statuses, Claims, RecordFields, DoneFlags, WordOk, MaxSteals, Geometry;
    assert s.nlocal == 0;
    hide PcOk;
    if Left(s.word.itasks, s.pc.att) == 0 {
      hide Inv, Left;
      assert First(s') == First(s);
    } else {
      hide Left;
      TakingHolds(s);
      var amount := ReacquireAmount(Left(s.word.itasks, s.pc.att));
      hide DoDecide, Taking, Inv, First;
      TakingFirst(s, s', amount);
      TakingFields(s, s', amount);
      TakingQueue(s, s', amount);
    }
    QuietAbs(s, s');
  }

  lemma TakingQueue(s: State, s': State, amount: nat)
    requires Shape(s) && Taking(s, s', amount)
    ensures s'.q == s.q && s'.claims == s.claims
  {
    hide Left, MaxSteals, First;
  }

  lemma RepublishQueue(s: State, s': State)
    requires Shape(s) && Shape(s') && Republished(s, s') && Geometry(s)
    ensures Quiet(s, s') && s'.claims == s.claims
  {
    hide MaxSteals, Left, Republished, Geometry, First;
    RepublishedFrame(s, s');
    RepublishedGeometry(s, s');
  }

  lemma RepublishRefines(s: State)
    requires Shape(s) && s.pc.Republishing?
    requires Inv(s)
    ensures Shape(DoRepublish(s)) && Abs(DoRepublish(s)) == Abs(s)
  {
    hide Geometry, TailPosition, Claims, DoneFlags, RecordFields, WordOk, PcOk, Statuses, MaxSteals, Left,
      DoRepublish, Republished, Quiet, Abs, Inv, Core;
    InvAll(s);
    RepublishedHolds(s);
    RepublishQueue(s, DoRepublish(s));
    QuietAbs(s, DoRepublish(s));
  }

  lemma ReclaimIsQuiet(s: State, s': State)
    requires Shape(s) && Shape(s') && (s.pc.ReclaimLast? || s.pc.ReclaimCur?)
    requires s' == if s.pc.ReclaimLast? then DoReclaimLast(s) else DoReclaimCur(s)
    ensures Quiet(s, s') && s'.claims == s.claims
  {
    hide MaxSteals, Left;
  }

  lemma ReclaimRefines(s: State)
    requires Shape(s) && (s.pc.ReclaimLast? || s.pc.ReclaimCur?)
    requires Inv(s)
    ensures var s' := if s.pc.ReclaimLast? then DoReclaimLast(s) else DoReclaimCur(s);
            Shape(s') && Abs(s') == Abs(s)
  {
    hide DoReclaimLast, DoReclaimCur, Inv, Quiet, Abs;
    var s' := if s.pc.ReclaimLast? then DoReclaimLast(s) else DoReclaimCur(s);
    if s.pc.ReclaimLast? { ReclaimLastKeeps(s); } else { ReclaimCurKeeps(s); }
    InvShape(s');
    ReclaimIsQuiet(s, s');
    QuietAbs(s, s');
  }

  /** Steps that touch the word, the records or the owner's position in its loops, and nothing else. */
  lemma PlainStepRefines(s: State, a: Action)
    requires Enabled(s, a)
    requires a.Publish? || a.StartReclaim? || a.Disable? || a.WaitRead? || a.ScanRead? || a.Peek?
    ensures Shape(Apply(s, a)) && LabelOf(s, a) == Silent
    ensures QueueStep(Abs(s), Silent, Abs(Apply(s, a)))
  {
    hide MaxSteals, Left, SharedSize, Abs, QueueStep;
    var s' := Apply(s, a);
    QuietAbs(s, s');
    SilentStep(s, s');
  }

  /** Refinement: each step means to the outside exactly what its label says.  Release, reclaim
      and every step of a reacquire are invisible; a push appends, a pop takes the last task, a
      claim removes a prefix, and the delivery hands over the prefix that was removed. */
  lemma StepRefines(s: State, a: Action)
    requires Inv(s) && Enabled(s, a)
    ensures Shape(Apply(s, a))
    ensures QueueStep(Abs(s), LabelOf(s, a), Abs(Apply(s, a)))
  {
    hide DoPush, DoRelease, DoPublish, DoReclaimLast, DoReclaimCur, DoDisable, DoDecide, DoRepublish, DoProbe, DoPeek,
      DoCopy, DoComplete, NextWait, NextScan, SharedSize, MaxSteals, Left, Core, WordOk, ClaimSize, Received,
      QueueStep, Abs;
    match a
    case Push(es) => InvAll(s); PushRefines(s, es);
    case Pop => InvAll(s); PopRefines(s);
    case Release => ReleaseRefines(s); SilentStep(s, DoRelease(s));
    case Publish => PlainStepRefines(s, a);
    case StartReclaim => PlainStepRefines(s, a);
    case ReclaimRead => ReclaimRefines(s); SilentStep(s, Apply(s, a));
    case Disable => PlainStepRefines(s, a);
    case WaitRead => PlainStepRefines(s, a);
    case Decide => DecideRefines(s); SilentStep(s, DoDecide(s));
    case ScanRead => PlainStepRefines(s, a);
    case Republish => RepublishRefines(s); SilentStep(s, DoRepublish(s));
    case Probe(t) => ProbeRefines(s, t);
    case Peek(t) => PlainStepRefines(s, a);
    case Copy(t, i) => CopyRefines(s, t, i); SilentStep(s, DoCopy(s, t, i));
    case Complete(t) => InvAll(s); CompleteRefines(s, t);
  }

  lemma SilentStep(s: State, s': State)
    requires Shape(s) && Shape(s') && Abs(s') == Abs(s)
    ensures QueueStep(Abs(s), Silent, Abs(s'))
  {
  }

  lemma FailedProbeRefines(s: State, t: nat)
    requires Shape(s) && t < s.npes && t !in s.claims
    requires s.word.valid >= MAX_EPOCHS || s.word.attempts >= MaxSteals(s.word.itasks)
    ensures Shape(DoProbe(s, t)) && DoProbe(s, t).claims == s.claims && Abs(DoProbe(s, t)) == Abs(s)
  {
    var s' := DoProbe(s, t);
    hide MaxSteals, Left;
    assert First(s') == First(s);
    hide First;
  }

  lemma ProbeRefines(s: State, t: nat)
    requires Inv(s) && Enabled(s, Probe(t))
    ensures Shape(Apply(s, Probe(t)))
    ensures QueueStep(Abs(s), LabelOf(s, Probe(t)), Abs(Apply(s, Probe(t))))
  {
    hide Inv, Core, WordOk, MaxSteals, Left, Geometry, Claims, DoProbe, QueueStep, Abs;
    InvAll(s);
    if s.word.valid >= MAX_EPOCHS || s.word.attempts >= MaxSteals(s.word.itasks) {
      FailedProbeRefines(s, t);
      SilentStep(s, DoProbe(s, t));
    } else {
      ClaimRefines(s, t);
    }
  }

  // ---------------------------------------------------------------- runs

  ghost predicate IsRun(ss: seq<State>, acts: seq<Action>) {
    && |ss| == |acts| + 1
    && Init(ss[0])
    && (forall i :: 0 <= i < |acts| ==> Enabled(ss[i], acts[i]) && ss[i + 1] == Apply(ss[i], acts[i]))
  }

  lemma {:induction false} RunKeeps(ss: seq<State>, acts: seq<Action>, i: nat)
    requires IsRun(ss, acts) && i < |ss|
    ensures Inv(ss[i]) && ss[i].npes == ss[0].npes && ss[i].max == ss[0].max
  {
    hide Inv, Apply, Enabled, Init;
    if i == 0 {
      InitInv(ss[0]);
    } else {
      RunKeeps(ss, acts, i - 1);
      assert Enabled(ss[i - 1], acts[i - 1]) && ss[i] == Apply(ss[i - 1], acts[i - 1]);
      StepKeeps(ss[i - 1], acts[i - 1]);
      StepNpes(ss[i - 1], acts[i - 1]);
    }
  }

  lemma StepNpes(s: State, a: Action)
    requires Enabled(s, a)
    ensures Apply(s, a).npes == s.npes && Apply(s, a).max == s.max
  {
    hide MaxSteals, Left, SharedSize, ClaimSize;
  }

  ghost function LabelsOf(ss: seq<State>, acts: seq<Action>): (ls: seq<Label>)
    requires IsRun(ss, acts)
    ensures |ls| == |acts|
  {
    seq(|acts|, i requires 0 <= i < |acts| => LabelOf(ss[i], acts[i]))
  }

  ghost function QueuesOf(ss: seq<State>): (qs: seq<Queue>)
    requires forall i :: 0 <= i < |ss| ==> Shape(ss[i])
    ensures |qs| == |ss|
  {
    seq(|ss|, i requires 0 <= i < |ss| => Abs(ss[i]))
  }

  /** Every run of the ring, in any interleaving, is a run of the abstract queue. */
  lemma RunRefines(ss: seq<State>, acts: seq<Action>)
    requires IsRun(ss, acts)
    ensures forall i :: 0 <= i < |ss| ==> Shape(ss[i])
    ensures IsQueueRun(QueuesOf(ss), LabelsOf(ss, acts))
  {
    hide Inv, Apply, Init, LabelOf, QueueStep, Abs, Shape, Enabled;
    forall i | 0 <= i < |ss|
      ensures Shape(ss[i]) && Inv(ss[i])
    {
      RunKeeps(ss, acts, i);
      InvShape(ss[i]);
    }
    var qs, ls := QueuesOf(ss), LabelsOf(ss, acts);
    InitInv(ss[0]);
    forall i | 0 <= i < |ls|
      ensures QueueStep(qs[i], ls[i], qs[i + 1])
    {
      StepRefines(ss[i], acts[i]);
    }
  }

  lemma InvShape(s: State)
    requires Inv(s)
    ensures Shape(s)
    ensures forall t :: t in Abs(s).flight ==> t < s.npes
  {
    hide Core, WordOk;
  }

  /** Exactly once: at every point of every run, each pushed task has been popped by the owner
      once, or received by one thief once, or is still in the deque or in one claimed block. */
  lemma TasksConserved(ss: seq<State>, acts: seq<Action>)
    requires IsRun(ss, acts)
    ensures Shape(ss[|acts|])
    ensures Given(LabelsOf(ss, acts)) == Taken(LabelsOf(ss, acts)) + Held(Abs(ss[|acts|]), ss[0].npes)
  {
    hide Inv, Apply, Init, LabelOf, Shape, Enabled, IsQueueRun, Abs, Held;
    RunRefines(ss, acts);
    var qs := QueuesOf(ss);
    forall i, t | 0 <= i < |qs| && t in qs[i].flight
      ensures t < ss[0].npes
    {
      RunKeeps(ss, acts, i);
      InvShape(ss[i]);
    }
    hide IsRun;
    QueueConserves(qs, LabelsOf(ss, acts), ss[0].npes);
  }

  // ---------------------------------------------------------------- epoch records

  /** A completion lands in a slot of the record that is still open, for the very instance the
      claim was made from, and reports exactly the size of the claimed block. */
  lemma CompletionLands(s: State, t: nat)
    requires Shape(s) && t in s.claims
    requires Inv(s)
    ensures var c := s.claims[t];
            && c.itasks == s.inst[c.epoch].published
            && c.base == s.inst[c.epoch].start + Offset(c.itasks, c.index)
            && s.rec[c.epoch].status[c.index] == 0
            && DoComplete(s, t).rec[c.epoch].status[c.index] == |c.tasks| > 0
  {
    var c := s.claims[t];
    hide Inv, Core, Geometry, TailPosition, RecordFields, DoneFlags, WordOk, PcOk, MaxSteals, Left, First, Statuses;
    InvAll(s);
    assert ClaimOk(s, c);
    ClaimEpoch(s, c);
    hide Claims;
    OpenStatus(s, t);
    BlockInside(c.itasks, c.index);
  }

  lemma OpenStatus(s: State, t: nat)
    requires Shape(s) && t in s.claims && Statuses(s, s.claims[t].epoch)
    requires s.claims[t].index < s.inst[s.claims[t].epoch].claims
    ensures s.rec[s.claims[t].epoch].status[s.claims[t].index] == 0
  {
    hide MaxSteals, Left;
    assert Outstanding(s.claims, s.claims[t].epoch, s.claims[t].index);
  }

  lemma ClaimEpoch(s: State, c: Claim)
    requires Shape(s) && ClaimOk(s, c) && Statuses(s, s.cur) && Statuses(s, s.last)
    ensures Statuses(s, c.epoch) && c.index < MaxSteals(c.itasks) <= 20
  {
    hide MaxSteals, Left, First;
    assert Statuses(s, c.epoch);
    StealsFit(s, c.epoch);
  }

  /** The instances of all records but the one a release or a switch initialises stay put. */
  lemma InstancesStay(s: State, a: Action, e: nat)
    requires Shape(s) && Enabled(s, a) && e < MAX_EPOCHS
    requires a.Release? ==> e != s.cur
    requires a.Decide? ==> e != s.last
    ensures |Apply(s, a).inst| == MAX_EPOCHS
    ensures Apply(s, a).inst[e].start == s.inst[e].start && Apply(s, a).inst[e].published == s.inst[e].published
  {
    hide MaxSteals, Left, SharedSize, ClaimSize, Written, Slots;
  }

  lemma ClaimsStay(s: State, a: Action, t: nat)
    requires Shape(s) && Enabled(s, a) && t in s.claims && t in Apply(s, a).claims
    ensures Apply(s, a).claims[t] == s.claims[t].(got := Apply(s, a).claims[t].got)
  {
    hide MaxSteals, Left, SharedSize, ClaimSize, Written, Slots;
  }

  /** With only two records, no step of the owner ever re-uses one that a thief still owes a
      completion to: the instance behind every open claim stays what it was. */
  lemma OpenClaimsKeepTheirRecord(s: State, a: Action, t: nat)
    requires Inv(s) && Enabled(s, a) && t in s.claims && t in Apply(s, a).claims
    ensures var c, s' := s.claims[t], Apply(s, a);
            && s'.claims[t] == c.(got := s'.claims[t].got)
            && c.epoch < MAX_EPOCHS == |s'.inst|
            && s'.inst[c.epoch].start == s.inst[c.epoch].start
            && s'.inst[c.epoch].published == s.inst[c.epoch].published
  {
    var c := s.claims[t];
    hide Inv, Apply, MaxSteals, Left, SharedSize, ClaimSize;
    InvAll(s);
    ClaimsStay(s, a, t);
    if a.Decide? {
      DecideIsClosed(s, t);
    } else if a.Release? {
      ReleaseIsClosed(s);
    }
    InstancesStay(s, a, c.epoch);
  }

  /** A claimed block keeps its slots until its completion: no push, and nothing else, writes to
      them, so a copy at any later moment reads what was published. */
  lemma ClaimedSlotsStay(s: State, a: Action, t: nat)
    requires Inv(s) && Enabled(s, a) && t in s.claims && t in Apply(s, a).claims
    ensures var c, s' := s.claims[t], Apply(s, a);
            |s'.q| == |s.q| > 0 && Slots(s'.q, c.base, |c.tasks|) == c.tasks == Slots(s.q, c.base, |c.tasks|)
  {
    hide Inv, Apply, Enabled, Shape, Slots, Statuses, Geometry, TailPosition, RecordFields, DoneFlags, WordOk, PcOk, Claims;
    var s' := Apply(s, a);
    InvShape(s);
    StepKeeps(s, a);
    InvShape(s');
    ClaimsStay(s, a, t);
    InvAll(s);
    InvAll(s');
    StepNpes(s, a);
    ClaimSlots(s, t);
    ClaimSlots(s', t);
  }

  lemma ClaimSlots(s: State, t: nat)
    requires Shape(s) && Claims(s) && t in s.claims
    ensures |s.q| == s.max > 0 && Slots(s.q, s.claims[t].base, |s.claims[t].tasks|) == s.claims[t].tasks
  {
    hide First, Left, MaxSteals, Slots;
    assert ClaimOk(s, s.claims[t]);
  }

  lemma DecideIsClosed(s: State, t: nat)
    requires Shape(s) && s.pc.Deciding? && t in s.claims
    requires Claims(s) && Statuses(s, s.last) && PcOk(s)
    ensures s.claims[t].epoch != s.last
  {
    hide MaxSteals, Left, First;
    assert ClaimOk(s, s.claims[t]);
    CompleteIsClosed(s, s.last, t);
  }

  lemma ReleaseIsClosed(s: State)
    requires Inv(s) && Enabled(s, Release)
    ensures s.claims == map[]
  {
    hide RecordFields, DoneFlags, WordOk, PcOk, Claims, Statuses, TailPosition, Geometry, SharedSize, Inv, First;
    InvAll(s);
    SharedSizeIs(s);
    NothingOpen(s);
  }

  // ---------------------------------------------------------------- the word

  /** The 24-bit attempt counter never wraps on an enabled word: it is bounded by the steals the
      word allows plus one failure for each participant. */
  lemma AttemptsBounded(s: State)
    requires Inv(s) && s.word.valid < MAX_EPOCHS
    ensures s.word.attempts <= MaxSteals(s.word.itasks) + s.npes
    ensures s.word.attempts + 1 < ATTEMPT_LIMIT
  {
    AttemptsFit(s);
    SubsetOfRange(s.failed, s.npes);
    hide Core, MaxSteals, Left;
  }

  /** A disabled word stays disabled, whatever thieves do, until the owner sets it. */
  lemma DisabledStaysDisabled(s: State, a: Action)
    requires Shape(s) && Enabled(s, a) && s.word.valid >= MAX_EPOCHS
    requires !a.Publish? && !a.Decide? && !a.Republish?
    ensures Apply(s, a).word.valid == s.word.valid
    ensures forall t :: t in Apply(s, a).claims ==> t in s.claims
  {
    hide MaxSteals, Left, SharedSize, ClaimSize, Written;
  }

  // ---------------------------------------------------------------- reacquire

  lemma FrozenLabel(s: State, a: Action)
    requires Shape(s) && Enabled(s, a) && (s.pc.Waiting? || s.pc.Deciding?) && s.word.valid >= MAX_EPOCHS
    ensures LabelOf(s, a).Silent? || LabelOf(s, a).Delivered?
  {
    hide MaxSteals, Left, SharedSize, ClaimSize, Received;
  }

  /** While the owner is reacquiring, nobody takes anything: the unclaimed tasks it decides on
      are those that were unclaimed when steals were disabled. */
  lemma ReacquireFreezes(s: State, a: Action)
    requires Inv(s) && Enabled(s, a) && (s.pc.Waiting? || s.pc.Deciding?)
    ensures Shape(Apply(s, a)) && Unclaimed(Apply(s, a)) == Unclaimed(s)
  {
    hide Inv, MaxSteals, Left, Unclaimed, SharedSize, Apply, LabelOf, Flight;
    StepRefines(s, a);
    InvAll(s);
    assert s.word.valid >= MAX_EPOCHS;
    FrozenLabel(s, a);
  }

  /** A reacquire comes back empty-handed exactly when nothing was unclaimed; otherwise it takes
      back the newer half of what was, rounded up, and leaves the rest to thieves. */
  lemma ReacquireTakesHalf(s: State)
    requires Inv(s) && Enabled(s, Decide)
    ensures Shape(Apply(s, Decide))
    ensures Apply(s, Decide).nlocal == |Unclaimed(s)| / 2 + |Unclaimed(s)| % 2
    ensures Unclaimed(s) == [] <==> Apply(s, Decide).pc.Idle?
  {
    hide Inv, Core, Geometry, TailPosition, Statuses, Claims, RecordFields, DoneFlags, WordOk, PcOk, Left, MaxSteals,
      First, Unclaimed, Retreat;
    InvAll(s);
    DecideRefines(s);
    LeftIsUnclaimed(s);
  }

  lemma LeftIsUnclaimed(s: State)
    requires Shape(s) && s.pc.Deciding?
    requires Geometry(s) && WordOk(s) && PcOk(s)
    ensures |Unclaimed(s)| == Left(s.word.itasks, s.pc.att) && s.nlocal == 0
  {
    hide Geometry, WordOk, Left, First;
    DecideFacts(s);
  }

  /** `pop_head` gives up without reacquiring only when nothing is left either. */
  lemma NothingToReacquire(s: State)
    requires Inv(s) && s.pc.Idle? && s.nlocal == 0 && SharedSize(s) == 0
    ensures Unclaimed(s) == []
  {
    hide Core, Inv, TailPosition, Statuses, Claims, RecordFields, DoneFlags, WordOk, MaxSteals, Left, SharedSize;
    InvShape(s);
    InvAll(s);
    SharedSizeIs(s);
  }

  // ---------------------------------------------------------------- the tail

  lemma TailStays(s: State, a: Action)
    requires Shape(s) && Enabled(s, a) && !a.ReclaimRead? && !a.Republish?
    ensures Apply(s, a).aTail == s.aTail
  {
    hide MaxSteals, Left, SharedSize, ClaimSize, Written, Slots;
  }

  lemma ReclaimTail(s: State)
    requires Shape(s) && (s.pc.ReclaimLast? || s.pc.ReclaimCur?)
    requires Inv(s)
    ensures Apply(s, ReclaimRead).aTail >= s.aTail
  {
    hide Inv, Core, WordOk, Claims, DoneFlags, Geometry, TailPosition, Statuses, RecordFields, PcOk;
    InvAll(s);
    if s.pc.ReclaimLast? {
      ReclaimLastBound(s);
      if s.pc.i == s.rec[s.last].maxsteals {
        ReclaimLastEnd(s);
      }
    } else {
      ReclaimCurBound(s);
      if ScanEnds(s, s.cur, s.pc.i) {
        ReclaimCurEnd(s);
      }
    }
  }

  lemma ReclaimCurBound(s: State)
    requires Shape(s) && s.pc.ReclaimCur? && PcOk(s)
    ensures Scanned(s, s.cur, s.pc.i)
  {
    hide MaxSteals, Left;
  }

  /** The tail only ever moves forward, and never past a block that is not reported yet. */
  lemma TailAdvances(s: State, a: Action)
    requires Inv(s) && Enabled(s, a)
    ensures Apply(s, a).aTail >= s.aTail
    ensures forall t :: t in Apply(s, a).claims ==> Apply(s, a).aTail <= Apply(s, a).claims[t].base
  {
    hide Inv, MaxSteals, Left, SharedSize, ClaimSize, Apply, PcOk;
    StepKeeps(s, a);
    InvShape(Apply(s, a));
    InvAll(Apply(s, a));
    ClaimsPastTail(Apply(s, a));
    if a.ReclaimRead? {
      ReclaimTail(s);
    } else if a.Republish? {
      InvAll(s);
      RepublishedTailMoves(s);
    } else {
      TailStays(s, a);
    }
  }

  lemma RepublishedTailMoves(s: State)
    requires Shape(s) && s.pc.Republishing?
    requires Geometry(s) && TailPosition(s) && PcOk(s) && Statuses(s, s.last) && RecordFields(s) && WordOk(s)
    ensures Apply(s, Republish).aTail >= s.aTail
  {
    hide MaxSteals, Left, Geometry, TailPosition, PcOk, Statuses, RecordFields, WordOk, First;
    RepublishPositions(s);
  }

  /** The scan of the epoch that was current goes on to the first block that is not reported, or to the
      last that was claimed. */
  lemma ScanStopsAtOpen(s: State)
    requires Inv(s) && Shape(s) && s.pc.Scanning? && Apply(s, ScanRead).pc.Republishing?
    ensures var i := Apply(s, ScanRead).pc.i;
            || i == s.inst[s.last].claims
            || exists t :: t in s.claims && s.claims[t].epoch == s.last && s.claims[t].index == i
  {
    hide Inv, Core, Claims, DoneFlags, MaxSteals, Left, Geometry, TailPosition, Statuses, PcOk, RecordFields, WordOk, First;
    InvAll(s);
    assert Apply(s, ScanRead) == s.(pc := NextScan(s));
    hide Apply;
    ScanStops(s);
    ScannedClaimed(s, s.last, s.pc.i);
    if s.pc.i < s.inst[s.last].claims {
      StealsFit(s, s.last);
      OpenAt(s, s.last, s.pc.i);
    }
  }

  lemma ScanStops(s: State)
    requires Shape(s) && s.pc.Scanning? && PcOk(s) && RecordFields(s) && Statuses(s, s.last)
    requires NextScan(s).Republishing?
    ensures Scanned(s, s.last, s.pc.i) && NextScan(s).i == s.pc.i
    ensures s.pc.i < s.inst[s.last].claims ==> s.pc.i < STATUS_SLOTS && s.rec[s.last].status[s.pc.i] == 0
  {
    hide MaxSteals, Left;
  }

  lemma OpenAt(s: State, e: nat, i: nat)
    requires Shape(s) && e < MAX_EPOCHS && Statuses(s, e) && i < s.inst[e].claims && i < STATUS_SLOTS && s.rec[e].status[i] == 0
    ensures exists t :: t in s.claims && s.claims[t].epoch == e && s.claims[t].index == i
  {
    hide MaxSteals, Left;
    assert Outstanding(s.claims, e, i);
  }

  /** The end of the prefix of the epoch that was current whose blocks are all reported. */
  function ReportedEnd(s: State): nat
    requires Shape(s) && s.pc.Republishing?
  {
    s.inst[s.last].start + Offset(s.inst[s.last].published, s.pc.i)
  }

  /** The tail fix-up of a reacquire frees the reported prefix, if and only if the end of the ring does
      not lie between the tail and the start of that epoch; otherwise it frees nothing. */
  lemma RepublishFreesIff(s: State)
    requires Inv(s) && Shape(s) && s.pc.Republishing?
    ensures var aTail' := Apply(s, Republish).aTail;
            && (aTail' == ReportedEnd(s) <==> s.inst[s.last].start <= s.aTail || s.tail <= s.rec[s.last].vtail)
            && (aTail' == ReportedEnd(s) || aTail' == s.aTail)
  {
    hide Inv, Core, Claims, DoneFlags, MaxSteals, Left, TailPosition, Statuses, PcOk, RecordFields, WordOk, First, Offset;
    InvAll(s);
    RepublishPositions(s);
    RepublishTail(s);
    EndInside(s);
    Advances(s.inst[s.last].start, s.aTail, ReportedEnd(s), s.max);
  }

  /** An unwrapped index from `start % m` on to `end`, compared with a wrapped `tail`. */
  lemma Advances(start: nat, tail: nat, end: nat, m: nat)
    requires m > 0 && start <= end < start + m && tail <= end < tail + m
    ensures start <= tail || tail % m <= start % m ==> start % m + (end - start) > tail % m || end == tail
    ensures !(start <= tail || tail % m <= start % m) ==> start % m + (end - start) <= tail % m && end != tail
  {
    if start <= tail {
      SlotDistance(start, tail, m);
    } else {
      SlotDistance(tail, start, m);
    }
  }

  lemma EndInside(s: State)
    requires Shape(s) && s.pc.Republishing? && Geometry(s) && Statuses(s, s.last)
    requires ReportedEnd(s) <= s.inst[s.cur].start
    ensures ReportedEnd(s) < s.aTail + s.max && s.tail == s.aTail % s.max
    ensures ReportedEnd(s) < s.inst[s.last].start + s.max
  {
    hide First, MaxSteals, Left;
  }

  lemma RepublishTail(s: State)
    requires Shape(s) && s.pc.Republishing?
    ensures Apply(s, Republish).aTail == if s.pc.index > s.tail then ReportedEnd(s) else s.aTail
  {
    hide MaxSteals, Left, Offset;
  }

  /** Once no block is outstanding, a reclaim that runs to its end leaves the tail exactly at the
      first unclaimed task, so the size the code computes is the number of unclaimed shared tasks. */
  lemma QuietReclaimIsExact(s: State)
    requires Inv(s) && s.claims == map[] && s.pc.ReclaimCur? && ScanEnds(s, s.cur, s.pc.i)
    ensures var s' := Apply(s, ReclaimRead);
            && Shape(s') && s'.pc.Idle? && s'.aTail == First(s')
            && SharedSize(s') + s'.nlocal == |Unclaimed(s')|
  {
    hide Inv, Core, Claims, DoneFlags, WordOk, MaxSteals, Left, Geometry, SharedSize, DoReclaimCur, Statuses, PcOk,
      TailPosition, ScanEnds, RecordFields;
    InvShape(s);
    var s' := DoReclaimCur(s);
    ReclaimCurKeeps(s);
    InvShape(s');
    InvAll(s);
    InvAll(s');
    SharedSizeIs(s');
    ReclaimCurEnd(s);
    QuietScan(s);
    QuietTail(s, s');
    TopAbove(s');
  }

  /** A reclaim frees as much as it can: it stops at the previous epoch only if a steal of that is open,
      and at its end the tail is at the first block of the current epoch that is not reported, or at
      the first unclaimed task. */
  lemma ReclaimStopsAtOpen(s: State)
    requires Inv(s) && Shape(s) && (s.pc.ReclaimLast? || s.pc.ReclaimCur?)
    ensures var s' := Apply(s, ReclaimRead);
            s'.pc.Idle? ==>
              && Shape(s')
              && if s.pc.ReclaimLast? then exists t :: t in s.claims && s.claims[t].epoch == s.last
                 else s'.aTail == First(s') || exists t :: t in s.claims && s.claims[t].epoch == s.cur && s.claims[t].base == s'.aTail
  {
    hide Inv, Core, Claims, DoneFlags, WordOk, MaxSteals, Left, Geometry, DoReclaimCur, DoReclaimLast, Statuses, PcOk,
      TailPosition, ScanEnds, RecordFields;
    InvAll(s);
    if s.pc.ReclaimLast? {
      ReclaimLastKeeps(s);
      InvShape(DoReclaimLast(s));
      LastStopsAtOpen(s);
    } else {
      ReclaimCurKeeps(s);
      InvShape(DoReclaimCur(s));
      if DoReclaimCur(s).pc.Idle? {
        ScanEnded(s);
        ReclaimCurEnd(s);
        ReclaimedTail(s, DoReclaimCur(s));
        if s.pc.i < s.inst[s.cur].claims {
          OpenAtStop(s);
        }
      }
    }
  }

  lemma LastStopsAtOpen(s: State)
    requires Shape(s) && s.pc.ReclaimLast? && Statuses(s, s.last) && RecordFields(s) && PcOk(s)
    ensures DoReclaimLast(s).pc.Idle? ==> exists t :: t in s.claims && s.claims[t].epoch == s.last
  {
    StealsFit(s, s.last);
    hide MaxSteals, Left;
    if DoReclaimLast(s).pc.Idle? {
      assert Outstanding(s.claims, s.last, s.pc.i);
    }
  }

  lemma ScanEnded(s: State)
    requires Shape(s) && s.pc.ReclaimCur? && PcOk(s) && DoReclaimCur(s).pc.Idle?
    ensures ScanEnds(s, s.cur, s.pc.i) && s.rec[s.last].done
  {
    hide MaxSteals, Left;
  }

  lemma ReclaimedTail(s: State, s': State)
    requires Shape(s) && Shape(s') && s.pc.ReclaimCur? && ScanEnds(s, s.cur, s.pc.i) && s' == DoReclaimCur(s)
    requires TailPosition(s) && s.rec[s.last].done
    requires s.pc.sum == Offset(s.inst[s.cur].published, s.pc.i)
    requires s.pc.sum == 0 ==> s.counted == 0
    ensures s'.aTail == s.inst[s.cur].start + Offset(s.inst[s.cur].published, s.pc.i)
    ensures s'.inst == s.inst && s'.cur == s.cur
  {
    hide MaxSteals, Left;
    OffsetZero(s.inst[s.cur].published);
  }

  lemma OpenAtStop(s: State)
    requires Shape(s) && s.pc.ReclaimCur? && ScanEnds(s, s.cur, s.pc.i) && s.pc.i < s.inst[s.cur].claims
    requires Statuses(s, s.cur) && RecordFields(s) && Claims(s)
    ensures exists t :: t in s.claims && s.claims[t].epoch == s.cur
                        && s.claims[t].base == s.inst[s.cur].start + Offset(s.inst[s.cur].published, s.pc.i)
  {
    StealsFit(s, s.cur);
    hide MaxSteals, Left;
    assert Outstanding(s.claims, s.cur, s.pc.i);
    var t :| t in s.claims && s.claims[t].epoch == s.cur && s.claims[t].index == s.pc.i;
    assert ClaimOk(s, s.claims[t]);
  }

  lemma QuietTail(s: State, s': State)
    requires Shape(s) && Shape(s') && s.pc.ReclaimCur? && ScanEnds(s, s.cur, s.pc.i) && s' == DoReclaimCur(s)
    requires TailPosition(s) && s.rec[s.last].done && s.pc.i == s.inst[s.cur].claims
    requires s.pc.sum == Offset(s.inst[s.cur].published, s.pc.i)
    requires s.pc.sum == 0 ==> s.counted == 0
    ensures s'.pc.Idle? && s'.aTail == First(s')
  {
    hide MaxSteals, Left;
    OffsetZero(s.inst[s.cur].published);
  }

  lemma TopAbove(s: State)
    requires Shape(s) && Geometry(s)
    ensures First(s) <= s.aSplit
  {
    hide First;
  }

  lemma QuietScan(s: State)
    requires Shape(s) && s.pc.ReclaimCur? && ScanEnds(s, s.cur, s.pc.i) && s.claims == map[]
    requires Statuses(s, s.cur) && RecordFields(s) && PcOk(s)
    ensures s.pc.i == s.inst[s.cur].claims && s.rec[s.last].done
  {
    StealsFit(s, s.cur);
    ScannedClaimed(s, s.cur, s.pc.i);
    hide MaxSteals, Left;
    assert !Outstanding(s.claims, s.cur, s.pc.i);
  }
}
