/** Voting never gets stuck, and once all work is completed the root decides at its third
    evaluation at the latest and the verdict reaches everyone after finitely many steps. */
module TerminationProgress {
  import opened TerminationModel
  import opened TerminationInvariant
  import opened TerminationSteps
  import opened TerminationSafety

  // ---------------------------------------------------------------- some vote is always possible

  /** A step of the voting protocol that is not a fruitless poll. */
  ghost predicate Effective(s: Net, a: Action) {
    && Enabled(s, a)
    && !a.Work?
    && (a.Vote? ==> BranchOf(s, a.i) != Waits)
  }

  predicate AllDetected(s: Net)
    requires Shape(s)
  {
    forall i :: 0 <= i < |s.nodes| ==> Detected(s, i)
  }

  /** No element is in the middle of a broadcast. */
  predicate Quiescent(s: Net)
    requires Shape(s)
  {
    forall i :: 0 <= i < |s.nodes| ==> !s.nodes[i].pending
  }

  /** Before the verdict nobody has detected anything. */
  lemma NobodyDetected(s: Net, i: nat)
    requires Shape(s) && Tree(s) && !Decided(s) && i < |s.nodes|
    ensures !s.nodes[i].token.terminated
  {
    hide Tree, Standing, Edge, TreeSum;
    if i > 0 {
      TreeAt(s, i);
    }
  }

  /** A child whose vote is missing, below an element that has heard the root's last verdict. */
  lemma MissingVote(s: Net, p: nat) returns (c: nat)
    requires Shape(s) && Tree(s) && Quiescent(s) && !Decided(s) && p < |s.nodes| && |s.nodes| > 1
    requires Heard(s, p) == Votes(s, p) == Votes(s, 0)
    requires !HaveVotes(s.nodes[p], Children(p, |s.nodes|))
    ensures p < c < |s.nodes| && Parent(c) == p
    ensures Votes(s, c) == s.nodes[c].parentVoted == Votes(s, 0)
  {
    ParentOf(p);
    if LeftChild(p) < |s.nodes| && s.nodes[p].leftVoted <= s.nodes[p].lastLeft {
      c := LeftChild(p);
    } else {
      c := RightChild(p);
    }
    hide Tree, TreeSum, LeftChild, RightChild, IsLeft;
    TreeAt(s, c);
    HeardBounded(s, c);
  }

  /** Before the verdict: follow missing votes down until an element that can vote. */
  lemma {:induction false} FindVoter(s: Net, p: nat) returns (v: nat)
    requires Shape(s) && Tree(s) && Quiescent(s) && !Decided(s) && p < |s.nodes| && |s.nodes| > 1
    requires s.nodes[0].up
    requires Heard(s, p) == Votes(s, p) == Votes(s, 0)
    requires s.nodes[p].up
    ensures v < |s.nodes| && Effective(s, Vote(v))
    decreases |s.nodes| - p
  {
    hide Tree;
    NobodyDetected(s, p);
    if HaveVotes(s.nodes[p], Children(p, |s.nodes|)) {
      hide HaveVotes, Quiescent;
      v := p;
      assert !s.nodes[p].pending by { assert Quiescent(s); }
    } else {
      v := FindVoterBelow(s, p);
    }
  }

  lemma {:induction false} FindVoterBelow(s: Net, p: nat) returns (v: nat)
    requires Shape(s) && Tree(s) && Quiescent(s) && !Decided(s) && p < |s.nodes| && |s.nodes| > 1
    requires s.nodes[0].up
    requires Heard(s, p) == Votes(s, p) == Votes(s, 0)
    requires !HaveVotes(s.nodes[p], Children(p, |s.nodes|))
    ensures v < |s.nodes| && Effective(s, Vote(v))
    decreases |s.nodes| - p, 0
  {
    hide Tree, HaveVotes, Effective;
    var c := MissingVote(s, p);
    NobodyDetected(s, c);
    HeardAtParent(s, c);
    if s.nodes[c].up {
      StandingHeard(s, c);
      v := FindVoter(s, c);
    } else {
      v := c;
      StandingHeard(s, c);
      DownIsEffective(s, c);
    }
  }

  lemma StandingHeard(s: Net, i: nat)
    requires Shape(s) && Tree(s) && 0 < i < |s.nodes| && !s.nodes[i].token.terminated
    ensures Votes(s, i) == Heard(s, i) + if s.nodes[i].up then 0 else 1
    ensures Heard(s, i) == s.nodes[i].lastParent
  {
    hide Tree, Edge, Verdict;
    TreeAt(s, i);
  }

  /** An element that has news from its parent can act on it. */
  lemma DownIsEffective(s: Net, i: nat)
    requires Shape(s) && Quiescent(s) && 0 < i < |s.nodes| && !s.nodes[i].up && !s.nodes[i].token.terminated
    requires s.nodes[i].parentVoted > s.nodes[i].lastParent
    ensures Effective(s, Vote(i))
  {
  }

  /** After the verdict: the first element that has not detected can be told by its parent. */
  lemma {:induction false} FindListener(s: Net, i: nat) returns (v: nat)
    requires Shape(s) && Tree(s) && Quiescent(s) && Decided(s) && 0 < i < |s.nodes|
    requires !s.nodes[i].token.terminated
    ensures v < |s.nodes| && Effective(s, Vote(v))
    decreases i
  {
    hide Tree, Effective;
    ChildOf(i);
    var p := Parent(i);
    if p > 0 && !s.nodes[p].token.terminated {
      v := FindListener(s, p);
    } else {
      v := i;
      HasNews(s, i);
      HeardBounded(s, i);
      StandingHeard(s, i);
      DownIsEffective(s, i);
    }
  }

  lemma HasNews(s: Net, i: nat)
    requires Shape(s) && Tree(s) && Quiescent(s) && Decided(s) && 0 < i < |s.nodes| && Parent(i) < |s.nodes|
    requires !s.nodes[i].token.terminated
    requires Parent(i) == 0 || s.nodes[Parent(i)].token.terminated
    ensures s.nodes[i].parentVoted == Votes(s, 0) > Heard(s, i)
  {
    hide Tree, TreeSum;
    TreeAt(s, i);
    HeardBounded(s, i);
    if Parent(i) > 0 {
      TreeAt(s, Parent(i));
    }
  }

  /** No deadlock: as long as somebody has not detected termination, some vote or broadcast makes
      progress. */
  lemma NeverStuck(s: Net) returns (a: Action)
    requires Inv(s) && !AllDetected(s)
    ensures Effective(s, a)
  {
    InvParts(s);
    RootIsUp(s);
    hide Inv, Tree, Effective;
    if !Quiescent(s) {
      var i :| 0 <= i < |s.nodes| && s.nodes[i].pending;
      a := SendRight(i);
      PendingIsEffective(s, i);
    } else if |s.nodes| == 1 {
      a := Vote(0);
      AloneIsEffective(s);
    } else if Decided(s) {
      var i :| 0 <= i < |s.nodes| && !Detected(s, i);
      var v := FindListener(s, i);
      a := Vote(v);
    } else {
      var v := FindVoter(s, 0);
      a := Vote(v);
    }
  }

  lemma PendingIsEffective(s: Net, i: nat)
    requires Shape(s) && Tree(s) && Root(s) && i < |s.nodes| && s.nodes[i].pending
    ensures Effective(s, SendRight(i))
  {
    hide Tree, Edge, Verdict, TreeSum;
    if i > 0 {
      TreeAt(s, i);
    }
  }

  lemma AloneIsEffective(s: Net)
    requires Shape(s) && Quiescent(s) && |s.nodes| == 1 && !AllDetected(s)
    ensures Effective(s, Vote(0))
  {
  }

  // ---------------------------------------------------------------- every effective step climbs

  function RankAt(s: Net, i: nat): int
    requires Shape(s) && i < |s.nodes|
  {
    2 * (Votes(s, i) + Heard(s, i)) - if s.nodes[i].pending then 1 else 0
  }

  function Rank(s: Net, n: nat): int
    requires Shape(s) && n <= |s.nodes|
  {
    if n == 0 then 0 else Rank(s, n - 1) + RankAt(s, n - 1)
  }

  ghost predicate Rises(s: Net, s': Net, i: nat)
    requires Shape(s) && i < |s.nodes|
  {
    && Shape(s') && |s'.nodes| == |s.nodes|
    && RankAt(s', i) > RankAt(s, i)
    && forall j :: 0 <= j < |s.nodes| ==> RankAt(s', j) >= RankAt(s, j)
  }

  lemma {:induction false} RankRises(s: Net, s': Net, i: nat, n: nat)
    requires Shape(s) && i < |s.nodes| && Rises(s, s', i) && n <= |s.nodes|
    ensures Rank(s', n) >= Rank(s, n) + if i < n then 1 else 0
  {
    if n > 0 {
      RankRises(s, s', i, n - 1);
      assert RankAt(s', n - 1) >= RankAt(s, n - 1);
      hide RankAt;
    }
  }

  lemma VoteRises(s: Net, i: nat)
    requires Inv(s) && Effective(s, Vote(i))
    ensures Rises(s, Attempt(s, i), i)
  {
    RootIsUp(s);
    var s' := Attempt(s, i);
    hide Inv, HaveVotes, Collected, Decides, VoteUp, VoteAgain, LeafDone, PassVerdict, Evaluate, EvaluateAlone;
    match BranchOf(s, i)
    case Alone => AloneFields(s, s');
    case Climbs => VoteUpFields(s, i);
    case Restarts => VoteAgainFields(s, i);
    case Finishes => LeafDoneRises(s, i);
    case HandsDown => PassVerdictFields(s, i);
    case Judges => EvaluateFields(s);
  }

  lemma LeafDoneRises(s: Net, i: nat)
    requires Shape(s) && 0 < i < |s.nodes| && !s.nodes[i].token.terminated
    ensures Rises(s, LeafDone(s, i), i)
  {
  }

  /** Every effective step brings the votes forward. */
  lemma EffectiveRises(s: Net, a: Action)
    requires Inv(s) && Effective(s, a)
    ensures Shape(Apply(s, a)) && |Apply(s, a).nodes| == |s.nodes|
    ensures Rank(Apply(s, a), |s.nodes|) > Rank(s, |s.nodes|)
  {
    hide Rank, Inv, Attempt;
    match a
    case Vote(i) =>
      VoteRises(s, i);
      RankRises(s, Attempt(s, i), i, |s.nodes|);
    case SendRight(i) =>
      TellRightRises(s, i);
      RankRises(s, TellRight(s, i), i, |s.nodes|);
  }

  lemma TellRightRises(s: Net, i: nat)
    requires Shape(s) && i < |s.nodes| && s.nodes[i].pending && RightChild(i) < |s.nodes|
    ensures Rises(s, TellRight(s, i), i)
  {
    TellRightFields(s, i);
    hide TellRight;
  }

  /** No rank can outrun the root's evaluations. */
  lemma {:induction false} RankBounded(s: Net, n: nat)
    requires Shape(s) && Tree(s) && |s.evals| == Votes(s, 0) && n <= |s.nodes|
    ensures 0 <= Rank(s, n) + n && Rank(s, n) <= n * (4 * |s.evals| + 2)
  {
    hide Tree;
    if n > 0 {
      RankBounded(s, n - 1);
      var i := n - 1;
      HeardBounded(s, i);
      if i > 0 {
        HeardAtParent(s, i);
      }
      assert RankAt(s, i) <= 4 * |s.evals| + 2;
      assert n * (4 * |s.evals| + 2) == (n - 1) * (4 * |s.evals| + 2) + (4 * |s.evals| + 2);
      hide RankAt;
    }
  }

  // ---------------------------------------------------------------- the third evaluation

  /** `e` evaluations had been made when the counters reached their final value `c`. */
  ghost predicate Settled(s: Net, c: seq<Counters>, e: nat) {
    && Inv(s)
    && s.counters == c && Balanced(c) && e <= |s.evals|
    && (forall w :: e <= w < |s.evals| ==> s.evals[w] == c)
    && |s.evals| <= e + 3
    && (|s.evals| == e + 3 ==> Decided(s))
  }

  /** A wave whose predecessor was evaluated on the final counters sums up exactly those. */
  lemma WaveIsFinal(s: Net, c: seq<Counters>, w: nat)
    requires Shape(s) && History(s) && s.counters == c && w + 1 < |s.evals| && s.evals[w] == c
    ensures Wave(s.samples, w + 1) == c
  {
    forall j | 0 <= j < |s.nodes|
      ensures Wave(s.samples, w + 1)[j] == c[j]
    {
      assert Bracketed(s, j, w) && Bracketed(s, j, w + 1);
    }
  }

  lemma {:induction false} FinalSum(s: Net, c: seq<Counters>, w: nat)
    requires Shape(s) && History(s) && s.counters == c && w + 1 < |s.evals| && s.evals[w] == c
    ensures RootSum(s.samples, w + 1) == Total(c)
  {
    hide History, Wave, RootSum;
    WaveIsFinal(s, c, w);
    RootSumCoversAll(s.samples, w + 1);
  }

  /** Wave `w` is balanced and repeats the wave before it, which for the first wave means nothing
      was ever spawned. */
  ghost predicate Repeats(samples: seq<seq<Counters>>, w: nat) {
    var sum := RootSum(samples, w);
    && sum.spawned == sum.completed
    && sum == if w == 0 then Counters(0, 0) else RootSum(samples, w - 1)
  }

  lemma {:induction false} VerdictOf(s: Net, s': Net)
    requires Inv(s) && |s.nodes| > 1 && Judging(s) && s' == Evaluate(s) && Shape(s')
    ensures s'.evals == s.evals + [s.counters]
    ensures Decided(s') <==> Repeats(s'.samples, |s.evals|)
  {
    InvParts(s);
    RootIsUp(s);
    TreeVotes(s);
    hide Inv, Tree, Root, Judging, RootSum, Evaluate, Collected;
    EvaluateFields(s);
    EvaluateSums(s, s');
  }

  lemma {:induction false} AloneRepeats(s: Net, s': Net, k: nat)
    requires Shape(s) && Shape(s') && |s.samples[0]| == k && |s.nodes| == |s'.nodes|
    requires |s.samples| < 2 && s'.samples == s.samples[0 := s.samples[0] + [s.counters[0]]]
    ensures var c := s.counters[0];
            var last := if k == 0 then Counters(0, 0) else RootSum(s.samples, k - 1);
            Repeats(s'.samples, k) <==> c.spawned == c.completed && c == last
  {
    hide RootSum;
    AloneSum(s'.samples, k);
    if k > 0 {
      AloneSum(s'.samples, k - 1);
      AloneSum(s.samples, k - 1);
    }
  }

  lemma {:induction false} LastIsSum(s: Net, k: nat)
    requires Shape(s) && Root(s) && k == |s.evals|
    ensures Counters(s.nodes[0].lastSpawned, s.nodes[0].lastCompleted)
         == if k == 0 then Counters(0, 0) else RootSum(s.samples, k - 1)
    ensures |s.samples[0]| == k
  {
    hide RootSum;
  }

  lemma {:induction false} VerdictOfAlone(s: Net, s': Net)
    requires Shape(s) && Root(s) && |s.nodes| == 1 && !s.nodes[0].token.terminated
    requires s' == EvaluateAlone(s) && Shape(s')
    ensures s'.evals == s.evals + [s.counters]
    ensures Decided(s') <==> Repeats(s'.samples, |s.evals|)
  {
    hide Root, RootSum, Repeats, EvaluateAlone;
    AloneFields(s, s');
    LastIsSum(s, |s.evals|);
    AloneRepeats(s, s', |s.evals|);
  }

  /** Every evaluation decides exactly when its wave is balanced and repeats the one before. */
  lemma VerdictIff(s: Net, i: nat, s': Net)
    requires Inv(s) && Enabled(s, Vote(i)) && s' == Attempt(s, i) && Shape(s')
    requires |s'.evals| > |s.evals|
    ensures i == 0 && s'.evals == s.evals + [s.counters]
    ensures Decided(s') <==> Repeats(s'.samples, |s.evals|)
  {
    hide Inv, Tree, Root, Grounds, History, Repeats, HaveVotes, VoteUp, VoteAgain, LeafDone, PassVerdict, Evaluate,
      EvaluateAlone, Decided, TreeSum;
    RootIsUp(s);
    InvParts(s);
    VoteRecords(s, i);
    if BranchOf(s, i) == Alone {
      VerdictOfAlone(s, s');
    } else {
      VerdictOf(s, s');
    }
  }

  lemma VoteRecords(s: Net, i: nat)
    requires Enabled(s, Vote(i)) && s.nodes[0].up
    ensures |Attempt(s, i).evals| > |s.evals| ==>
              i == 0 && BranchOf(s, i) in {Alone, Judges} && Attempt(s, i).evals == s.evals + [s.counters]
    ensures |Attempt(s, i).evals| <= |s.evals| ==> Attempt(s, i).evals == s.evals
    ensures Attempt(s, i).counters == s.counters
  {
    hide HaveVotes;
  }

  lemma StaysDecided(s: Net, i: nat)
    requires Inv(s) && Enabled(s, Vote(i)) && Decided(s)
    ensures Shape(Attempt(s, i)) && Decided(Attempt(s, i)) && Attempt(s, i).evals == s.evals
  {
    RootIsUp(s);
    hide Inv, HaveVotes;
    if i > 0 {
      ChildOf(i);
    }
  }

  lemma StartsSettled(s: Net)
    requires Inv(s) && Balanced(s.counters)
    ensures Settled(s, s.counters, |s.evals|)
  {
    hide Inv, Balanced;
  }

  lemma {:induction false} FinalRepeats(s: Net, c: seq<Counters>, e: nat)
    requires Shape(s) && History(s) && s.counters == c && Balanced(c)
    requires |s.evals| == e + 3 && s.evals[e] == c && s.evals[e + 1] == c
    ensures Repeats(s.samples, e + 2)
  {
    hide History, RootSum;
    FinalSum(s, c, e);
    FinalSum(s, c, e + 1);
  }

  lemma VoteSettles(s: Net, c: seq<Counters>, e: nat, i: nat, s': Net)
    requires Settled(s, c, e) && Enabled(s, Vote(i)) && !Decided(s) && s.nodes[0].up
    requires s' == Attempt(s, i) && Inv(s')
    ensures Settled(s', c, e)
  {
    hide Inv, Attempt, Decided, Repeats, BranchOf, Balanced, History;
    VoteRecords(s, i);
    assert Shape(s') by { RootIsUp(s'); }
    if |s'.evals| > |s.evals| {
      VerdictIff(s, i, s');
      InvParts(s');
      hide Enabled, Tree, Root, Grounds;
      if |s'.evals| == e + 3 {
        FinalRepeats(s', c, e);
      }
    }
  }

  lemma StepSettles(s: Net, c: seq<Counters>, e: nat, a: Action)
    requires Settled(s, c, e) && Enabled(s, a) && !a.Work?
    ensures Settled(Apply(s, a), c, e)
  {
    RootIsUp(s);
    hide Inv, Balanced, Attempt;
    match a
    case Vote(i) =>
      if Decided(s) {
        StaysDecided(s, i);
        StepKeeps(s, a);
        DecidedSettles(s, c, e, i);
      } else {
        StepKeeps(s, a);
        VoteSettles(s, c, e, i, Attempt(s, i));
      }
    case SendRight(i) =>
      StepKeeps(s, a);
      TellRightRecords(s, i);
  }

  lemma DecidedSettles(s: Net, c: seq<Counters>, e: nat, i: nat)
    requires Settled(s, c, e) && Enabled(s, Vote(i)) && Decided(s) && s.nodes[0].up
    requires Inv(Attempt(s, i)) && Decided(Attempt(s, i)) && Attempt(s, i).evals == s.evals
    ensures Settled(Attempt(s, i), c, e)
  {
    hide Inv, Balanced, Attempt;
    VoteRecords(s, i);
  }

  lemma TellRightRecords(s: Net, i: nat)
    requires Shape(s) && i < |s.nodes| && RightChild(i) < |s.nodes|
    ensures var s' := TellRight(s, i);
            Shape(s') && s'.counters == s.counters && s'.evals == s.evals && (Decided(s) <==> Decided(s'))
  {
  }

  // ---------------------------------------------------------------- whole runs

  /** A run of votes and broadcasts that starts after the last task has completed. */
  ghost predicate IsVoting(ss: seq<Net>, acts: seq<Action>) {
    && |ss| == |acts| + 1
    && Inv(ss[0]) && Balanced(ss[0].counters)
    && (forall i :: 0 <= i < |acts| ==> !acts[i].Work? && Enabled(ss[i], acts[i]) && ss[i + 1] == Apply(ss[i], acts[i]))
  }

  /** How many of the steps were not fruitless polls. */
  ghost function EffectiveSteps(ss: seq<Net>, acts: seq<Action>): nat
    requires |ss| == |acts| + 1
  {
    if acts == [] then 0
    else
      var k := |acts| - 1;
      EffectiveSteps(ss[..k + 1], acts[..k]) + if Effective(ss[k], acts[k]) then 1 else 0
  }

  lemma VotingPrefix(ss: seq<Net>, acts: seq<Action>)
    requires IsVoting(ss, acts) && acts != []
    ensures var k := |acts| - 1;
            IsVoting(ss[..k + 1], acts[..k]) && !acts[k].Work? && Enabled(ss[k], acts[k])
              && ss[k + 1] == Apply(ss[k], acts[k])
  {
    hide Enabled, Apply, Inv, Balanced;
  }

  lemma PollKeepsRank(s: Net, a: Action)
    requires Inv(s) && Enabled(s, a) && !a.Work? && !Effective(s, a)
    ensures Shape(Apply(s, a)) && |Apply(s, a).nodes| == |s.nodes|
    ensures Rank(Apply(s, a), |s.nodes|) == Rank(s, |s.nodes|)
  {
    hide Inv, Rank, BranchOf;
    SameRank(s, Apply(s, a), |s.nodes|);
  }

  lemma {:induction false} SameRank(s: Net, s': Net, n: nat)
    requires Shape(s) && Shape(s') && n <= |s.nodes| == |s'.nodes|
    requires forall j :: 0 <= j < |s.nodes| ==> RankAt(s', j) == RankAt(s, j)
    ensures Rank(s', n) == Rank(s, n)
  {
    if n > 0 {
      SameRank(s, s', n - 1);
      assert RankAt(s', n - 1) == RankAt(s, n - 1);
      hide RankAt;
    }
  }

  lemma {:induction false} VotingSettles(ss: seq<Net>, acts: seq<Action>)
    requires IsVoting(ss, acts)
    ensures Settled(ss[|acts|], ss[0].counters, |ss[0].evals|)
    ensures Shape(ss[0]) && |ss[|acts|].nodes| == |ss[0].nodes|
    ensures Rank(ss[|acts|], |ss[0].nodes|) >= Rank(ss[0], |ss[0].nodes|) + EffectiveSteps(ss, acts)
    decreases |acts|
  {
    assert Shape(ss[0]) by { RootIsUp(ss[0]); }
    hide Inv, Balanced, Enabled, Apply, Effective, Rank;
    if acts == [] {
      StartsSettled(ss[0]);
    } else {
      var k := |acts| - 1;
      VotingPrefix(ss, acts);
      VotingSettles(ss[..k + 1], acts[..k]);
      hide IsVoting;
      StepSettles(ss[k], ss[0].counters, |ss[0].evals|, acts[k]);
      RankOfStep(ss[k], acts[k]);
      hide Settled;
    }
  }

  lemma RankOfStep(s: Net, a: Action)
    requires Inv(s) && Enabled(s, a) && !a.Work?
    ensures Shape(s) && Shape(Apply(s, a)) && |Apply(s, a).nodes| == |s.nodes|
    ensures Rank(Apply(s, a), |s.nodes|) >= Rank(s, |s.nodes|) + if Effective(s, a) then 1 else 0
  {
    hide Inv, Effective, Rank, Apply;
    if Effective(s, a) {
      EffectiveRises(s, a);
    } else {
      PollKeepsRank(s, a);
    }
  }

  /** Liveness: after the last task has completed, the root decides at its third evaluation at the
      latest, only boundedly many steps remain, and as long as some element has not detected
      termination one of those steps can be taken. */
  lemma VotingDetects(ss: seq<Net>, acts: seq<Action>)
    requires IsVoting(ss, acts)
    ensures Shape(ss[0]) && Shape(ss[|acts|])
    ensures |ss[|acts|].evals| <= |ss[0].evals| + 3
    ensures |ss[|acts|].evals| == |ss[0].evals| + 3 ==> Decided(ss[|acts|])
    ensures EffectiveSteps(ss, acts) <= |ss[0].nodes| * (4 * |ss[0].evals| + 15)
    ensures !AllDetected(ss[|acts|]) ==> exists a :: Effective(ss[|acts|], a)
  {
    hide Inv, Balanced, Enabled, Apply, Effective, Rank, EffectiveSteps, Decided, AllDetected, History;
    VotingSettles(ss, acts);
    var z := ss[|acts|];
    RootIsUp(z);
    RankRoom(ss[0], z);
    hide IsVoting, Settled;
    if !AllDetected(z) {
      var a := NeverStuck(z);
    }
  }

  lemma RankRoom(s: Net, z: Net)
    requires Inv(s) && Inv(z) && |z.nodes| == |s.nodes| && |z.evals| <= |s.evals| + 3
    ensures Rank(z, |s.nodes|) - Rank(s, |s.nodes|) <= |s.nodes| * (4 * |s.evals| + 15)
  {
    hide Inv, Tree, Root, Grounds, History, Rank;
    RootIsUp(s);
    RootIsUp(z);
    InvParts(s);
    InvParts(z);
    RankBounded(s, |s.nodes|);
    RankBounded(z, |s.nodes|);
    Bound(|s.nodes|, 4 * |z.evals| + 2, 4 * |s.evals| + 14);
  }

  lemma Bound(n: nat, k: nat, m: nat)
    requires k <= m
    ensures n * k <= n * m && n * m + n == n * (m + 1)
  {
  }
}
