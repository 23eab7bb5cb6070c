/** What a detected termination means: the root's sum covers every element once, waves do not
    overlap, no token is overwritten, and the work was really finished at some earlier instant. */
module TerminationSafety {
  import opened TerminationModel
  import opened TerminationInvariant
  import opened TerminationSteps

  // ---------------------------------------------------------------- the tree covers everyone once

  /** What all elements sampled for wave `w`, in element order. */
  function Wave(samples: seq<seq<Counters>>, w: nat): (v: seq<Counters>)
    ensures |v| == |samples|
  {
    seq(|samples|, j requires 0 <= j => Sample(samples, j, w))
  }

  predicate InSubtree(i: nat, j: nat)
    decreases j
  {
    i == j || (j > i && InSubtree(i, Parent(j)))
  }

  /** Whatever lies strictly below an element lies below exactly one of its children. */
  lemma {:induction false} OneSide(i: nat, j: nat)
    requires i < j
    ensures InSubtree(i, j) <==> InSubtree(LeftChild(i), j) || InSubtree(RightChild(i), j)
    ensures !(InSubtree(LeftChild(i), j) && InSubtree(RightChild(i), j))
    decreases j
  {
    ChildOf(j);
    ParentOf(i);
    if Parent(j) > i {
      OneSide(i, Parent(j));
    }
  }

  lemma {:induction false} RootAboveAll(j: nat)
    ensures InSubtree(0, j)
  {
    if j > 0 {
      ChildOf(j);
      RootAboveAll(Parent(j));
    }
  }

  /** The sample of element `j`, if it lies below `i`. */
  function Share(samples: seq<seq<Counters>>, i: nat, j: nat, w: nat): Counters {
    if InSubtree(i, j) then Sample(samples, j, w) else Counters(0, 0)
  }

  lemma SharesAdd(samples: seq<seq<Counters>>, i: nat, j: nat, w: nat)
    requires i < j
    ensures Share(samples, i, j, w) == Add(Share(samples, LeftChild(i), j, w), Share(samples, RightChild(i), j, w))
  {
    OneSide(i, j);
    hide InSubtree, Sample, LeftChild, RightChild;
  }

  lemma {:induction false} NoShare(samples: seq<seq<Counters>>, i: nat, j: nat, w: nat)
    ensures i > j ==> Share(samples, i, j, w) == Counters(0, 0)
    ensures i == j ==> Share(samples, i, j, w) == Sample(samples, j, w)
  {
  }

  lemma Regroup(x: Counters, l: Counters, r: Counters, dl: Counters, dr: Counters)
    ensures Add(x, Add(Add(l, dl), Add(r, dr))) == Add(Add(x, Add(l, r)), Add(dl, dr))
  {
  }

  /** One more element adds its sample to the subtrees it belongs to, and to no other. */
  lemma {:induction false} SumGrows(samples: seq<seq<Counters>>, n: nat, i: nat, w: nat)
    ensures TreeSum(samples, n + 1, i, w) == Add(TreeSum(samples, n, i, w), Share(samples, i, n, w))
    decreases n + 1 - i
  {
    hide TreeSum, Sample, Share, LeftChild, RightChild;
    ParentOf(i);
    var l, r := LeftChild(i), RightChild(i);
    NoShare(samples, i, n, w);
    if i > n {
      SumOutside(samples, n, i, w);
      SumOutside(samples, n + 1, i, w);
    } else {
      SumUnfolds(samples, n + 1, i, w);
      SumGrows(samples, n, l, w);
      SumGrows(samples, n, r, w);
      Regroup(Sample(samples, i, w), TreeSum(samples, n, l, w), TreeSum(samples, n, r, w),
              Share(samples, l, n, w), Share(samples, r, n, w));
      if i < n {
        SumUnfolds(samples, n, i, w);
        SharesAdd(samples, i, n, w);
      } else {
        LastSum(samples, n, w);
      }
    }
  }

  lemma {:induction false} LastSum(samples: seq<seq<Counters>>, n: nat, w: nat)
    ensures TreeSum(samples, n, n, w) == Counters(0, 0)
    ensures TreeSum(samples, n + 1, n, w) == Sample(samples, n, w)
  {
    ParentOf(n);
    SumUnfolds(samples, n + 1, n, w);
    SumOutside(samples, n, n, w);
    SumOutside(samples, n + 1, LeftChild(n), w);
    SumOutside(samples, n + 1, RightChild(n), w);
    hide TreeSum, Sample, LeftChild, RightChild;
  }

  lemma {:induction false} SumOfFirst(samples: seq<seq<Counters>>, n: nat, w: nat)
    requires n <= |samples|
    ensures TreeSum(samples, n, 0, w) == Total(Wave(samples, w)[..n])
  {
    hide TreeSum, InSubtree, Sample;
    if n > 0 {
      SumOfFirst(samples, n - 1, w);
      SumGrows(samples, n - 1, 0, w);
      RootAboveAll(n - 1);
      var v := Wave(samples, w)[..n];
      assert v[..|v| - 1] == Wave(samples, w)[..n - 1];
    } else {
      SumOutside(samples, n, 0, w);
    }
  }

  /** The root's sum counts the sample of every element exactly once. */
  lemma {:induction false} RootSumCoversAll(samples: seq<seq<Counters>>, w: nat)
    ensures RootSum(samples, w) == Total(Wave(samples, w))
  {
    SumOfFirst(samples, |samples|, w);
    assert Wave(samples, w)[..|samples|] == Wave(samples, w);
  }

  // ---------------------------------------------------------------- edges

  /** On every edge of the tree, votes sent up minus verdicts sent down is 0 or 1. */
  lemma VotesAlternate(s: Net, j: nat)
    requires Inv(s) && 0 < j < |s.nodes|
    ensures s.nodes[j].parentVoted <= VotedAt(s.nodes[Parent(j)], IsLeft(j)) <= s.nodes[j].parentVoted + 1
  {
    InvParts(s);
    hide Inv, Tree, Standing, Verdict, TreeSum;
    TreeAt(s, j);
    HeardAtParent(s, j);
  }

  /** An element votes only when its parent has used its previous token, and hands a verdict down
      only to children that have used the previous one. */
  lemma NoTokenOverwritten(s: Net, i: nat)
    requires Inv(s) && Enabled(s, Vote(i))
    ensures BranchOf(s, i) in {Climbs, Restarts} ==>
              i > 0 && VotedAt(s.nodes[Parent(i)], IsLeft(i)) == LastAt(s.nodes[Parent(i)], IsLeft(i))
    ensures BranchOf(s, i) in {HandsDown, Judges} ==>
              forall j :: j in {LeftChild(i), RightChild(i)} && j < |s.nodes| ==>
                !s.nodes[j].token.terminated && s.nodes[j].parentVoted == s.nodes[j].lastParent
  {
    InvParts(s);
    RootIsUp(s);
    hide Inv, Tree, HaveVotes;
    if BranchOf(s, i) in {Climbs, Restarts} {
      hide Standing, Edge, Verdict;
      TokenUsed(s, i);
    } else if BranchOf(s, i) in {HandsDown, Judges} {
      forall j | j in {LeftChild(i), RightChild(i)} && j < |s.nodes|
        ensures !s.nodes[j].token.terminated && s.nodes[j].parentVoted == s.nodes[j].lastParent
      {
        VerdictUsed(s, i, j);
      }
    }
  }

  lemma TokenUsed(s: Net, i: nat)
    requires Shape(s) && Tree(s) && s.nodes[0].up && i < |s.nodes| && !s.nodes[i].token.terminated
    requires BranchOf(s, i) in {Climbs, Restarts}
    ensures i > 0 && VotedAt(s.nodes[Parent(i)], IsLeft(i)) == LastAt(s.nodes[Parent(i)], IsLeft(i))
  {
    hide Tree, TreeSum, HaveVotes;
    HeardBounded(s, i);
    HeardBounded(s, Parent(i));
    HeardAtParent(s, i);
    TreeAt(s, i);
  }

  lemma VerdictUsed(s: Net, i: nat, j: nat)
    requires Shape(s) && Tree(s) && s.nodes[0].up && i < |s.nodes| && !s.nodes[i].token.terminated
             && !s.nodes[i].pending
    requires BranchOf(s, i) in {HandsDown, Judges}
    requires j in {LeftChild(i), RightChild(i)} && j < |s.nodes|
    ensures !s.nodes[j].token.terminated && s.nodes[j].parentVoted == s.nodes[j].lastParent
  {
    ParentOf(i);
    hide Tree, TreeSum, LeftChild, RightChild, IsLeft;
    TreeAt(s, j);
    HeardBounded(s, j);
    HeardAtParent(s, j);
    if i == 0 {
      assert Judging(s);
      AllVoted(s, j);
    } else {
      TreeAt(s, i);
      HeardAtParent(s, i);
    }
  }

  /** Waves do not overlap: whoever samples for a wave does so after everyone has sampled for the
      wave before, and no one can be two waves ahead. */
  lemma WavesSeparate(s: Net, i: nat, j: nat)
    requires Inv(s) && Enabled(s, Vote(i)) && j < |s.nodes|
    requires |Attempt(s, i).samples[i]| > Votes(s, i)
    ensures Votes(s, i) <= Votes(s, j) <= Votes(s, i) + 1
  {
    InvParts(s);
    RootIsUp(s);
    hide Inv, Tree, HaveVotes, TreeSum;
    HeardBounded(s, i);
    HeardBounded(s, j);
    if i > 0 {
      TreeAt(s, i);
      HeardAtParent(s, i);
      HeardBounded(s, Parent(i));
      ParentVoted(s, i);
      assert BranchOf(s, i) in {Climbs, Restarts};
    }
    if j > 0 {
      HeardAtParent(s, j);
    }
  }

  // ---------------------------------------------------------------- a verdict is true

  lemma {:induction false} TotalGrows(a: seq<Counters>, b: seq<Counters>)
    requires Grows(a, b)
    ensures Covers(Total(a), Total(b))
    ensures Total(a) == Total(b) ==> a == b
    decreases |a|
  {
    if a != [] {
      var k := |a| - 1;
      TotalGrows(a[..k], b[..k]);
      assert Total(b) == Add(Total(b[..k]), b[k]);
      assert Covers(a[k], b[k]);
      if Total(a) == Total(b) {
        assert Total(a[..k]) == Total(b[..k]) && a[k] == b[k];
        assert a == a[..k] + [a[k]] && b == b[..k] + [b[k]];
      }
    }
  }

  /** The instant the verdict speaks of: the evaluation before the deciding one, or, when already
      the first wave found nothing at all, the start. */
  function Witness(s: Net): seq<Counters>
    requires Shape(s)
  {
    if |s.evals| >= 2 then s.evals[|s.evals| - 2] else s.start
  }

  lemma EvalBetweenWaves(s: Net, w: nat)
    requires Shape(s) && History(s) && w + 1 < |s.evals|
    ensures Grows(Wave(s.samples, w), s.evals[w]) && Grows(s.evals[w], Wave(s.samples, w + 1))
  {
    forall j | 0 <= j < |s.nodes|
      ensures Covers(Wave(s.samples, w)[j], s.evals[w][j]) && Covers(s.evals[w][j], Wave(s.samples, w + 1)[j])
    {
      assert Bracketed(s, j, w) && Bracketed(s, j, w + 1);
    }
  }

  lemma StartBeforeWave(s: Net, w: nat)
    requires Shape(s) && History(s) && w < |s.evals|
    ensures Grows(s.start, Wave(s.samples, w))
  {
    forall j | 0 <= j < |s.nodes|
      ensures Covers(s.start[j], Wave(s.samples, w)[j])
    {
      assert Bracketed(s, j, w);
    }
  }

  lemma RootHasDecided(s: Net)
    requires Inv(s) && Decided(s)
    ensures var k := |s.evals|;
            && k > 0
            && var sum := RootSum(s.samples, k - 1);
            && sum.spawned == sum.completed
            && sum == if k == 1 then Counters(0, 0) else RootSum(s.samples, k - 2)
  {
    hide Tree, History, TreeSum, RootSum;
  }

  /** When the root has decided, all spawned work was completed at the witnessed instant, and the
      deciding wave and the one before found exactly the counters of that instant. */
  lemma DecisionIsTrue(s: Net)
    requires Inv(s) && Decided(s)
    ensures |s.evals| > 0 && Balanced(Witness(s))
    ensures Witness(s) == Wave(s.samples, |s.evals| - 1)
    ensures |s.evals| >= 2 ==> Witness(s) == Wave(s.samples, |s.evals| - 2)
  {
    RootHasDecided(s);
    InvParts(s);
    hide Inv, Tree, Root, Grounds, History, RootSum, Wave;
    var k := |s.evals|;
    RootSumCoversAll(s.samples, k - 1);
    if k >= 2 {
      RootSumCoversAll(s.samples, k - 2);
      EvalBetweenWaves(s, k - 2);
      TotalGrows(Wave(s.samples, k - 2), s.evals[k - 2]);
      TotalGrows(s.evals[k - 2], Wave(s.samples, k - 1));
    } else {
      StartBeforeWave(s, 0);
      TotalGrows(s.start, Wave(s.samples, 0));
    }
  }

  /** Whoever detects termination repeats the root's decision. */
  lemma DetectedIsDecided(s: Net, i: nat)
    requires Inv(s) && i < |s.nodes| && Detected(s, i)
    ensures Decided(s)
  {
    InvParts(s);
    hide Inv, Tree, Standing, Edge, TreeSum;
    if i > 0 {
      TreeAt(s, i);
    }
  }

  // ---------------------------------------------------------------- runs

  ghost predicate IsRun(ss: seq<Net>, acts: seq<Action>) {
    && |ss| == |acts| + 1
    && Init(ss[0])
    && (forall i :: 0 <= i < |acts| ==> Enabled(ss[i], acts[i]) && ss[i + 1] == Apply(ss[i], acts[i]))
  }

  /** The counters were exactly `v` at some instant of the run. */
  ghost predicate Occurs(ss: seq<Net>, v: seq<Counters>) {
    exists i :: 0 <= i < |ss| && ss[i].counters == v
  }

  lemma RunPrefix(ss: seq<Net>, acts: seq<Action>)
    requires IsRun(ss, acts) && acts != []
    ensures var k := |acts| - 1;
            IsRun(ss[..k + 1], acts[..k]) && Enabled(ss[k], acts[k]) && ss[k + 1] == Apply(ss[k], acts[k])
  {
    hide Enabled, Apply, Init;
  }

  lemma {:induction false} RunKeeps(ss: seq<Net>, acts: seq<Action>)
    requires IsRun(ss, acts)
    ensures Inv(ss[|acts|])
    decreases |acts|
  {
    hide Inv, Init, Enabled, Apply;
    if acts == [] {
      InitInv(ss[0]);
    } else {
      var k := |acts| - 1;
      RunPrefix(ss, acts);
      RunKeeps(ss[..k + 1], acts[..k]);
      StepKeeps(ss[k], acts[k]);
    }
  }

  lemma StepRecords(s: Net, a: Action)
    requires Enabled(s, a)
    ensures Shape(Apply(s, a)) && Apply(s, a).start == s.start
    ensures Apply(s, a).evals == s.evals || Apply(s, a).evals == s.evals + [s.counters]
  {
    hide HaveVotes;
  }

  /** Every recorded vector of counters is that of a real instant of the run. */
  lemma {:induction false} RecordsOccur(ss: seq<Net>, acts: seq<Action>, v: seq<Counters>)
    requires IsRun(ss, acts)
    requires v == ss[|acts|].start || v in ss[|acts|].evals
    ensures Occurs(ss, v)
    decreases |acts|
  {
    hide Enabled, Apply;
    if acts != [] {
      var k := |acts| - 1;
      RunPrefix(ss, acts);
      StepRecords(ss[k], acts[k]);
      hide IsRun;
      if v == ss[k].counters {
      } else {
        RecordsOccur(ss[..k + 1], acts[..k], v);
        var i :| 0 <= i < |ss[..k + 1]| && ss[..k + 1][i].counters == v;
        assert ss[i].counters == v;
      }
    } else {
      assert ss[0].counters == v;
    }
  }

  /** Safety: if the last vote of any element has returned 1, there was an instant of the run at
      which every spawned task was completed, and at which all counters at once were what the
      deciding wave sampled one after the other. */
  lemma DetectionIsSafe(ss: seq<Net>, acts: seq<Action>, i: nat)
    requires IsRun(ss, acts) && Shape(ss[|acts|]) && i < |ss[|acts|].nodes| && Detected(ss[|acts|], i)
    ensures var s := ss[|acts|];
            && |s.evals| > 0
            && exists k :: 0 <= k < |ss| && ss[k].counters == Wave(s.samples, |s.evals| - 1) && Balanced(ss[k].counters)
  {
    var s := ss[|acts|];
    hide IsRun, Inv, Detected, Decided, Balanced, Wave;
    RunKeeps(ss, acts);
    DetectedIsDecided(s, i);
    DecisionIsTrue(s);
    RecordsOccur(ss, acts, Witness(s));
    var k :| 0 <= k < |ss| && ss[k].counters == Witness(s);
  }
}
