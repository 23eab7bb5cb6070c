/** Two concrete runs of the split deferred-copy ring: a release into a ring whose other slots are
    all reserved loses a task, and reading `tail` before `itail` would reclaim a block that is
    still being copied. */
module SdcFailures {
  import opened RingArith
  import opened RingSlots
  import opened TaskQueue
  import opened SdcModel
  import opened SdcInvariant
  import opened SdcSteps

  /** A run without the guard on releases. */
  ghost predicate IsPath(ss: seq<State>, acts: seq<Action>) {
    && |ss| == |acts| + 1
    && (forall i :: 0 <= i < |acts| ==> Enabled(ss[i], acts[i]) && ss[i + 1] == Apply(ss[i], acts[i]))
  }

  lemma Join(ss: seq<State>, acts: seq<Action>, zz: seq<State>, more: seq<Action>)
    requires IsPath(ss, acts) && IsPath(zz, more) && ss[|acts|] == zz[0]
    ensures IsPath(ss + zz[1..], acts + more)
  {
    hide Enabled, Apply;
    var all, steps := ss + zz[1..], acts + more;
    forall i | 0 <= i < |steps|
      ensures Enabled(all[i], steps[i]) && all[i + 1] == Apply(all[i], steps[i])
    {
      if i >= |acts| {
        assert all[i] == zz[i - |acts|] && all[i + 1] == zz[i - |acts| + 1] && steps[i] == more[i - |acts|];
      }
    }
  }

  // ---------------------------------------------------------------- a full release

  const BLOCK := Block(0, 1, 0, false)

  function Thief0(x: Task, locked: bool, got: map<nat, Task>): Thief {
    Reserved(0, 1, locked, got, 0, [x])
  }

  function Start(g: Task): State {
    State(2, [g, g], 0, 0, 0, 0, 0, false, Idle, map[], 0, 0, 0, [], Nobody)
  }

  /** One task pushed, released and reserved by thief 0, which has not copied it yet. */
  function FirstReserved(g: Task, x: Task): State {
    State(2, [x, g], 1, 0, 0, 1, 0, false, Idle, map[0 := Thief0(x, false, map[])], 1, 0, 1, [BLOCK], Nobody)
  }

  function SecondPushed(x: Task, y: Task): State {
    State(2, [x, y], 1, 0, 0, 1, 1, false, Idle, map[0 := Thief0(x, false, map[])], 1, 0, 1, [BLOCK], Nobody)
  }

  function SecondReleased(x: Task, y: Task): State {
    SecondPushed(x, y).(split := 0, nlocal := 0, aSplit := 2)
  }

  function ThirdPushed(x: Task, y: Task, z: Task): State {
    SecondReleased(x, y).(q := [z, y], nlocal := 1)
  }

  function ThirdCopied(x: Task, y: Task, z: Task): State {
    ThirdPushed(x, y, z).(thieves := map[0 := Thief0(x, false, map[0 := z])])
  }

  function ThirdDelivered(x: Task, y: Task, z: Task): State {
    ThirdPushed(x, y, z).(itail := 1, thieves := map[], log := [BLOCK.(done := true)])
  }

  function FirstSix(x: Task): seq<Action> {
    [Push([x]), Release, ThiefSwap(0), Look(0, 1, StealHalf), Reserve(0), ThiefUnlock(0)]
  }

  function LastFive(y: Task, z: Task): seq<Action> {
    [Push([y]), Release, Push([z]), Copy(0, 0), Finish(0)]
  }

  function Looking(g: Task, x: Task): State {
    State(2, [x, g], 0, 0, 0, 1, 0, true, Idle, map[0 := Locking], 0, 0, 1, [], Holding(0))
  }

  lemma PublishFirst(g: Task, x: Task) returns (ss: seq<State>)
    ensures IsPath(ss, FirstSix(x)[..3]) && |ss| == 4 && Init(ss[0]) && ss[3] == Looking(g, x)
  {
    var s0 := Start(g);
    var s1 := s0.(q := [x, g], nlocal := 1);
    assert DoPush(s0, [x]) == s1 by {
      assert Written([g, g], 0, [x]) == [x, g];
    }
    var s2 := s1.(nlocal := 0, split := 1, aSplit := 1);
    ss := [s0, s1, s2, Looking(g, x)];
    hide Written, DoPush;
  }

  lemma ReserveFirst(g: Task, x: Task) returns (ss: seq<State>)
    ensures IsPath(ss, FirstSix(x)[3..]) && |ss| == 4 && ss[0] == Looking(g, x) && ss[3] == FirstReserved(g, x)
    ensures Enabled(ss[1], Reserve(0)) && LabelOf(ss[1], Reserve(0)) == Claimed(0, [x])
  {
    var s3 := Looking(g, x);
    var s4 := s3.(thieves := map[0 := Seen(0, 1)]);
    assert DoLook(s3, 0, 1, StealHalf) == s4;
    var s5 := s4.(tail := 1, aTail := 1, log := [BLOCK], thieves := map[0 := Thief0(x, true, map[])]);
    assert Slots([x, g], 0, 1) == [x];
    assert DoReserve(s4, 0) == s5;
    var s6 := FirstReserved(g, x);
    assert DoThiefUnlock(s5, 0) == s6;
    ss := [s3, s4, s5, s6];
    hide Slots, DoLook, DoReserve, DoThiefUnlock;
  }

  lemma ClaimFirst(g: Task, x: Task) returns (ss: seq<State>)
    ensures IsPath(ss, FirstSix(x)) && |ss| == 7 && Init(ss[0]) && ss[6] == FirstReserved(g, x)
    ensures Enabled(ss[4], Reserve(0)) && LabelOf(ss[4], Reserve(0)) == Claimed(0, [x])
  {
    hide Enabled, LabelOf, Init, IsPath;
    var first := PublishFirst(g, x);
    var last := ReserveFirst(g, x);
    Join(first, FirstSix(x)[..3], last, FirstSix(x)[3..]);
    assert FirstSix(x)[..3] + FirstSix(x)[3..] == FirstSix(x);
    ss := first + last[1..];
  }

  lemma PushSecond(g: Task, x: Task, y: Task)
    ensures Enabled(FirstReserved(g, x), Push([y])) && Apply(FirstReserved(g, x), Push([y])) == SecondPushed(x, y)
  {
    assert Written([x, g], 1, [y]) == [x, y];
  }

  lemma ReleaseSecond(x: Task, y: Task)
    ensures Enabled(SecondPushed(x, y), Release) && Apply(SecondPushed(x, y), Release) == SecondReleased(x, y)
    ensures Overfills(SecondPushed(x, y))
  {
  }

  lemma PushThird(x: Task, y: Task, z: Task)
    ensures Enabled(SecondReleased(x, y), Push([z])) && Apply(SecondReleased(x, y), Push([z])) == ThirdPushed(x, y, z)
  {
    assert Written([x, y], 0, [z]) == [z, y];
  }

  lemma CopyThird(x: Task, y: Task, z: Task)
    ensures Enabled(ThirdPushed(x, y, z), Copy(0, 0)) && Apply(ThirdPushed(x, y, z), Copy(0, 0)) == ThirdCopied(x, y, z)
  {
    var s := ThirdPushed(x, y, z);
    var d := Thief0(x, false, map[0 := z]);
    assert s.thieves[0 := d] == map[0 := d];
  }

  lemma FinishThird(x: Task, y: Task, z: Task)
    ensures Enabled(ThirdCopied(x, y, z), Finish(0))
            && Apply(ThirdCopied(x, y, z), Finish(0)) == ThirdDelivered(x, y, z)
    ensures LabelOf(ThirdCopied(x, y, z), Finish(0)) == Delivered(0, [z])
  {
    var s := ThirdCopied(x, y, z);
    assert s.thieves - {0} == map[];
    assert Received(s.thieves[0]) == [z];
  }

  lemma HeldInTheEnd(x: Task, y: Task, z: Task)
    ensures Shape(ThirdDelivered(x, y, z)) && Abs(ThirdDelivered(x, y, z)) == Queue([y, z], map[])
  {
    var s := ThirdDelivered(x, y, z);
    assert Slots([z, y], 1, 2) == [y, z];
    assert Flight(s) == map[];
  }

  lemma LoseFirst(g: Task, x: Task, y: Task, z: Task) returns (ss: seq<State>)
    ensures IsPath(ss, LastFive(y, z))
            && ss == [FirstReserved(g, x), SecondPushed(x, y), SecondReleased(x, y), ThirdPushed(x, y, z),
            ThirdCopied(x, y, z), ThirdDelivered(x, y, z)]
  {
    hide Enabled, Apply, LabelOf, FirstReserved, SecondPushed, SecondReleased, ThirdPushed, ThirdCopied,
      ThirdDelivered, Overfills;
    ss := [FirstReserved(g, x), SecondPushed(x, y), SecondReleased(x, y), ThirdPushed(x, y, z),
      ThirdCopied(x, y, z), ThirdDelivered(x, y, z)];
    PushSecond(g, x, y);
    ReleaseSecond(x, y);
    PushThird(x, y, z);
    CopyThird(x, y, z);
    FinishThird(x, y, z);
  }

  /** Without the guard: in a ring of two slots, thief 0 reserves `x`, the owner pushes and releases
      `y` and then pushes `z` over the slot of `x`; the thief receives `z`, which the owner still
      holds as well, and `x` is gone.  The eighth step is the one release that overfills. */
  lemma FullReleaseLosesATask(g: Task, x: Task, y: Task, z: Task) returns (ss: seq<State>)
    ensures IsPath(ss, FirstSix(x) + LastFive(y, z)) && |ss| == 12 && Init(ss[0])
    ensures Enabled(ss[4], Reserve(0)) && LabelOf(ss[4], Reserve(0)) == Claimed(0, [x])
    ensures Shape(ss[7]) && Overfills(ss[7])
    ensures Enabled(ss[10], Finish(0)) && LabelOf(ss[10], Finish(0)) == Delivered(0, [z])
    ensures Shape(ss[11]) && Abs(ss[11]) == Queue([y, z], map[])
  {
    hide Enabled, Apply, Init, LabelOf, Abs, FirstReserved, SecondPushed, SecondReleased, ThirdPushed, ThirdCopied,
      ThirdDelivered, Overfills, Shape, IsPath;
    var first := ClaimFirst(g, x);
    var last := LoseFirst(g, x, y, z);
    Join(first, FirstSix(x), last, LastFive(y, z));
    ss := first + last[1..];
    ReleaseSecond(x, y);
    FinishThird(x, y, z);
    HeldInTheEnd(x, y, z);
  }

  // ---------------------------------------------------------------- reading in the other order

  function OneCopying(x: Task, y: Task, z: Task): State {
    State(4, [x, y, z, z], 1, 0, 0, 2, 0, false, Idle, map[0 := Thief0(x, false, map[])], 1, 0, 2, [BLOCK], Nobody)
  }

  function OtherFinished(x: Task, y: Task, z: Task): State {
    OneCopying(x, y, z).(tail := 2, itail := 1, aTail := 2, log := [BLOCK, Block(1, 1, 1, true)])
  }

  lemma {:induction false} ShortSums(a: Block, b: Block)
    requires a == BLOCK && b == Block(1, 1, 1, true)
    ensures TotalSize([]) == 0 && TotalSize([a]) == 1 && TotalSize([a, b]) == 2
    ensures PendingIncrements([a], 4) == 1 && PendingIncrements([a, b], 4) == 1
  {
    assert [a, b][..1] == [a];
  }

  lemma BothInvariant(x: Task, y: Task, z: Task)
    ensures Inv(OneCopying(x, y, z)) && Inv(OtherFinished(x, y, z))
  {
    var s, z := OneCopying(x, y, z), OtherFinished(x, y, z);
    assert Slots(s.q, 0, 1) == [x];
    ShortSums(s.log[0], z.log[1]);
    assert ThiefOk(s, 0) && ThiefOk(z, 0);
    assert s.log[..0] == [] && z.log[..0] == [] && z.log[..1] == [BLOCK];
    hide TotalSize, PendingIncrements, Slots;
  }

  function Other(y: Task, locked: bool, got: map<nat, Task>): Thief {
    Reserved(1, 1, locked, got, 1, [y])
  }

  function OtherReserved(x: Task, y: Task, z: Task): State {
    OneCopying(x, y, z).(lock := true, holder := Holding(1), tail := 2, aTail := 2,
      log := [BLOCK, Block(1, 1, 1, false)],
                         thieves := map[0 := Thief0(x, false, map[]), 1 := Other(y, true, map[])])
  }

  function Reserves(): seq<Action> {
    [ThiefSwap(1), Look(1, 1, StealHalf), Reserve(1)]
  }

  function Completes(): seq<Action> {
    [ThiefUnlock(1), Copy(1, 0), Finish(1)]
  }

  lemma OtherReserves(x: Task, y: Task, z: Task) returns (ss: seq<State>)
    ensures IsPath(ss, Reserves()) && |ss| == 4 && ss[0] == OneCopying(x, y, z) && ss[3] == OtherReserved(x, y, z)
  {
    var s0 := OneCopying(x, y, z);
    var d0 := Thief0(x, false, map[]);
    var s1 := s0.(lock := true, thieves := map[0 := d0, 1 := Locking], holder := Holding(1));
    var s2 := s1.(thieves := map[0 := d0, 1 := Seen(1, 1)]);
    assert DoLook(s1, 1, 1, StealHalf) == s2 by {
      assert s1.thieves[1 := Seen(1, 1)] == s2.thieves;
    }
    var s3 := OtherReserved(x, y, z);
    assert DoReserve(s2, 1) == s3 by {
      assert Slots(s2.q, 1, 1) == [y];
      assert s2.thieves[1 := Other(y, true, map[])] == s3.thieves;
    }
    ss := [s0, s1, s2, s3];
    hide DoLook, DoReserve;
  }

  function OtherUnlocked(x: Task, y: Task, z: Task): State {
    OtherReserved(x, y, z).(lock := false, holder := Nobody,
                            thieves := map[0 := Thief0(x, false, map[]), 1 := Other(y, false, map[])])
  }

  function OtherCopied(x: Task, y: Task, z: Task): State {
    OtherUnlocked(x, y, z).(thieves := map[0 := Thief0(x, false, map[]), 1 := Other(y, false, map[0 := y])])
  }

  lemma OtherUnlocks(x: Task, y: Task, z: Task)
    ensures Enabled(OtherReserved(x, y, z), ThiefUnlock(1))
    ensures Apply(OtherReserved(x, y, z), ThiefUnlock(1)) == OtherUnlocked(x, y, z)
  {
    var s := OtherReserved(x, y, z);
    assert s.thieves[1 := Other(y, false, map[])] == OtherUnlocked(x, y, z).thieves;
  }

  lemma OtherCopies(x: Task, y: Task, z: Task)
    ensures Enabled(OtherUnlocked(x, y, z), Copy(1, 0))
    ensures Apply(OtherUnlocked(x, y, z), Copy(1, 0)) == OtherCopied(x, y, z)
  {
    var s := OtherUnlocked(x, y, z);
    assert s.thieves[1 := Other(y, false, map[0 := y])] == OtherCopied(x, y, z).thieves;
  }

  lemma OtherFinishes(x: Task, y: Task, z: Task)
    ensures Enabled(OtherCopied(x, y, z), Finish(1))
    ensures Apply(OtherCopied(x, y, z), Finish(1)) == OtherFinished(x, y, z)
  {
    var s, s' := OtherCopied(x, y, z), OtherFinished(x, y, z);
    assert s.thieves - {1} == s'.thieves;
    assert s.log[1 := s.log[1].(done := true)] == s'.log;
  }

  lemma OtherCompletes(x: Task, y: Task, z: Task) returns (ss: seq<State>)
    ensures IsPath(ss, Completes()) && |ss| == 4 && ss[0] == OtherReserved(x, y, z) && ss[3] == OtherFinished(x, y, z)
  {
    hide Enabled, Apply, OtherReserved, OtherUnlocked, OtherCopied, OtherFinished;
    OtherUnlocks(x, y, z);
    OtherCopies(x, y, z);
    OtherFinishes(x, y, z);
    ss := [OtherReserved(x, y, z), OtherUnlocked(x, y, z), OtherCopied(x, y, z), OtherFinished(x, y, z)];
  }

  /** If `tail` were read first: thief 0 has reserved slot 0 and not copied it when `tail` is read as
      1; thief 1 reserves and finishes slot 1; then `itail` reads 1 as well, as if all were quiet. */
  lemma ReversedReadsDeceive(x: Task, y: Task, z: Task) returns (ss: seq<State>)
    ensures IsPath(ss, Reserves() + Completes()) && |ss| == 7 && Inv(ss[0]) && Inv(ss[6])
    ensures ss[6].itail == ss[0].tail != ss[0].vtail == ss[6].vtail
    ensures 0 in ss[6].thieves && ss[6].thieves[0] == Reserved(0, 1, false, map[], 0, [x])
  {
    hide Inv, IsPath;
    BothInvariant(x, y, z);
    var first := OtherReserves(x, y, z);
    var last := OtherCompletes(x, y, z);
    Join(first, Reserves(), last, Completes());
    ss := first + last[1..];
  }
}
