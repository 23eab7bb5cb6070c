/** Every vote keeps the invariant of the counter waves. */
module TerminationSteps {
  import opened TerminationModel
  import opened TerminationInvariant

  // ---------------------------------------------------------------- the tree

  lemma ChildOf(j: nat)
    requires j > 0
    ensures Parent(j) < j
    ensures IsLeft(j) ==> j == LeftChild(Parent(j))
    ensures !IsLeft(j) ==> j == RightChild(Parent(j))
  {
  }

  lemma ParentOf(i: nat)
    ensures Parent(LeftChild(i)) == i && IsLeft(LeftChild(i))
    ensures Parent(RightChild(i)) == i && !IsLeft(RightChild(i))
    ensures i < LeftChild(i) < RightChild(i)
  {
  }

  ghost predicate VotesGrowDown(s: Net)
    requires Shape(s)
  {
    forall j :: 0 < j < |s.nodes| ==> Votes(s, Parent(j)) <= Votes(s, j)
  }

  lemma {:induction false} SumOutside(samples: seq<seq<Counters>>, n: nat, i: nat, w: nat)
    ensures i >= n ==> TreeSum(samples, n, i, w) == Counters(0, 0)
  {
  }

  lemma {:induction false} SumUnfolds(samples: seq<seq<Counters>>, n: nat, i: nat, w: nat)
    requires i < n
    ensures TreeSum(samples, n, i, w)
         == Add(Sample(samples, i, w), Add(TreeSum(samples, n, LeftChild(i), w), TreeSum(samples, n, RightChild(i), w)))
  {
  }

  /** A new sample of element `i` changes no sum of an earlier wave. */
  lemma {:induction false} SumKept(s: Net, i: nat, c: Counters, j: nat, w: nat)
    requires Shape(s) && i < |s.nodes| && VotesGrowDown(s)
    requires j < |s.nodes| ==> w < Votes(s, j)
    ensures TreeSum(s.samples[i := s.samples[i] + [c]], |s.nodes|, j, w) == TreeSum(s.samples, |s.nodes|, j, w)
    decreases |s.nodes| - j
  {
    hide TreeSum, LeftChild, RightChild, Parent;
    var now := s.samples[i := s.samples[i] + [c]];
    if j < |s.nodes| {
      ParentOf(j);
      SumKept(s, i, c, LeftChild(j), w);
      SumKept(s, i, c, RightChild(j), w);
      SumUnfolds(s.samples, |s.nodes|, j, w);
      SumUnfolds(now, |s.nodes|, j, w);
    } else {
      SumOutside(s.samples, |s.nodes|, j, w);
      SumOutside(now, |s.nodes|, j, w);
    }
  }

  lemma {:induction false} RootSumKept(s: Net, i: nat, c: Counters, w: nat)
    requires Shape(s) && i < |s.nodes| && VotesGrowDown(s) && w < Votes(s, 0)
    ensures RootSum(s.samples[i := s.samples[i] + [c]], w) == RootSum(s.samples, w)
  {
    hide TreeSum;
    SumKept(s, i, c, 0, w);
  }

  /** The sum of a subtree does not depend on elements outside it, in particular not on lower ones. */
  lemma {:induction false} SumBelow(samples: seq<seq<Counters>>, n: nat, i: nat, c: Counters, j: nat, w: nat)
    requires i < |samples| && i < j
    ensures TreeSum(samples[i := samples[i] + [c]], n, j, w) == TreeSum(samples, n, j, w)
    decreases n - j
  {
    hide TreeSum, LeftChild, RightChild;
    var now := samples[i := samples[i] + [c]];
    if j < n {
      ParentOf(j);
      SumBelow(samples, n, i, c, LeftChild(j), w);
      SumBelow(samples, n, i, c, RightChild(j), w);
      SumUnfolds(samples, n, j, w);
      SumUnfolds(now, n, j, w);
    } else {
      SumOutside(samples, n, j, w);
      SumOutside(now, n, j, w);
    }
  }

  lemma TreeAt(s: Net, j: nat)
    requires Shape(s) && Tree(s) && 0 < j < |s.nodes|
    ensures Standing(s, j) && Edge(s, j) && Verdict(s, j)
  {
    hide Standing, Edge, Verdict, NoChild;
  }

  lemma TreeVotes(s: Net)
    requires Shape(s) && Tree(s)
    ensures VotesGrowDown(s)
  {
    forall j | 0 < j < |s.nodes|
      ensures Votes(s, Parent(j)) <= Votes(s, j)
    {
      assert Edge(s, j);
    }
  }

  /** No element has heard more verdicts than the root has given. */
  lemma {:induction false} HeardBounded(s: Net, i: nat)
    requires Shape(s) && Tree(s) && i < |s.nodes|
    ensures Heard(s, i) <= Votes(s, 0) <= Votes(s, i)
    decreases i
  {
    if i > 0 {
      ChildOf(i);
      HeardBounded(s, Parent(i));
      assert Edge(s, i);
    }
  }

  // ---------------------------------------------------------------- histories

  /** The sample element `i` takes now belongs to a wave whose predecessor has been evaluated. */
  lemma SampleKeepsHistory(s: Net, i: nat, s': Net)
    requires Shape(s) && i < |s.nodes| && History(s) && Votes(s, i) <= |s.evals|
    requires Shape(s') && s' == s.(nodes := s'.nodes, samples := s.samples[i := s.samples[i] + [s.counters[i]]])
    requires |s'.nodes| == |s.nodes|
    ensures History(s')
  {
    var u := Votes(s, i);
    forall j: nat, w: nat | j < |s.nodes| && w < |s.evals|
      ensures Bracketed(s', j, w)
    {
      assert Bracketed(s, j, w);
    }
    forall j, w | 0 <= j < |s.nodes| && 0 <= w < Votes(s', j)
      ensures Covers(s.start[j], s'.samples[j][w]) && Covers(s'.samples[j][w], s.counters[j])
    {
      if j == i && w == u {
      } else {
        assert s'.samples[j][w] == s.samples[j][w];
      }
    }
  }

  lemma NodesKeepHistory(s: Net, s': Net)
    requires Shape(s) && History(s) && Shape(s') && s' == s.(nodes := s'.nodes) && |s'.nodes| == |s.nodes|
    ensures History(s')
  {
    forall j: nat, w: nat | j < |s.nodes| && w < |s.evals|
      ensures Bracketed(s', j, w)
    {
      assert Bracketed(s, j, w);
    }
  }

  /** Taking note of the counters at an evaluation that all elements have sampled for. */
  lemma EvaluationKeepsHistory(s: Net, s': Net)
    requires Shape(s) && History(s)
    requires Shape(s') && s' == s.(nodes := s'.nodes, evals := s.evals + [s.counters]) && |s'.nodes| == |s.nodes|
    requires forall j :: 0 <= j < |s.nodes| ==> Votes(s, j) == |s.evals| + 1
    ensures History(s')
  {
    var k := |s.evals|;
    forall j: nat, w: nat | j < |s.nodes| && w < |s'.evals|
      ensures Bracketed(s', j, w)
    {
      if w < k {
        assert Bracketed(s, j, w);
      } else {
        assert Covers(s.samples[j][w], s.counters[j]);
      }
    }
  }

  lemma WorkKeeps(s: Net, c: seq<Counters>)
    requires Inv(s) && Grows(s.counters, c)
    ensures Inv(s.(counters := c))
  {
    var s' := s.(counters := c);
    assert History(s') by {
      forall j: nat, w: nat | j < |s.nodes| && w < |s.evals|
        ensures Bracketed(s', j, w)
      {
        assert Bracketed(s, j, w);
      }
      hide Tree, Root, Grounds;
    }
    assert Tree(s') by {
      forall i | 0 < i < |s.nodes|
        ensures Standing(s', i) && Edge(s', i) && Verdict(s', i)
      {
        assert Standing(s, i) && Edge(s, i) && Verdict(s, i);
      }
      forall i | 0 <= i < |s.nodes|
        ensures NoChild(s', i)
      {
        assert NoChild(s, i);
      }
      hide TreeSum, Root, Grounds, History;
    }
    hide Tree, History, TreeSum;
  }

  // ---------------------------------------------------------------- what a vote finds

  /** The vote of child `c` of an element that has not yet used it. */
  lemma ChildVote(s: Net, i: nat, c: nat)
    requires Shape(s) && Tree(s) && 0 < c < |s.nodes| && Parent(c) == i
    requires VotedAt(s.nodes[i], IsLeft(c)) > LastAt(s.nodes[i], IsLeft(c))
    requires Votes(s, i) == Heard(s, i)
    requires !(i == 0 && s.nodes[0].token.terminated)
    ensures Votes(s, c) == Votes(s, i) + 1 == VotedAt(s.nodes[i], IsLeft(c))
    ensures var t := Mailbox(s.nodes[i], IsLeft(c));
            Counters(t.spawned, t.completed) == TreeSum(s.samples, |s.nodes|, c, Votes(s, i))
  {
    assert Standing(s, c) && Edge(s, c);
    hide TreeSum;
  }

  /** With all children's votes in, the tokens hold their subtrees' sums for the coming wave. */
  lemma {:induction false} Collects(s: Net, i: nat)
    requires Shape(s) && Tree(s) && i < |s.nodes|
    requires HaveVotes(s.nodes[i], Children(i, |s.nodes|)) && Votes(s, i) == Heard(s, i)
    requires !(i == 0 && s.nodes[0].token.terminated)
    ensures var d, n, u := s.nodes[i], |s.nodes|, Votes(s, i);
            && Counters(d.upleft.spawned, d.upleft.completed) == TreeSum(s.samples, n, LeftChild(i), u)
            && Counters(d.upright.spawned, d.upright.completed) == TreeSum(s.samples, n, RightChild(i), u)
    ensures LeftChild(i) < |s.nodes| ==> Votes(s, LeftChild(i)) == Votes(s, i) + 1 == s.nodes[i].leftVoted
    ensures RightChild(i) < |s.nodes| ==> Votes(s, RightChild(i)) == Votes(s, i) + 1 == s.nodes[i].rightVoted
  {
    ParentOf(i);
    var l, r := LeftChild(i), RightChild(i);
    assert NoChild(s, i);
    SumOutside(s.samples, |s.nodes|, l, Votes(s, i));
    SumOutside(s.samples, |s.nodes|, r, Votes(s, i));
    hide TreeSum, NoChild, Tree;
    if l < |s.nodes| {
      ChildVote(s, i, l);
    }
    if r < |s.nodes| {
      ChildVote(s, i, r);
    }
  }

  /** The sum an element sends up is that of its whole subtree. */
  lemma {:induction false} CollectedIsSum(s: Net, i: nat)
    requires Shape(s) && Tree(s) && i < |s.nodes|
    requires HaveVotes(s.nodes[i], Children(i, |s.nodes|)) && Votes(s, i) == Heard(s, i)
    requires !(i == 0 && s.nodes[0].token.terminated)
    ensures Collected(s.nodes[i], s.counters[i])
         == TreeSum(s.samples[i := s.samples[i] + [s.counters[i]]], |s.nodes|, i, Votes(s, i))
  {
    hide TreeSum, LeftChild, RightChild, Parent, HaveVotes, Tree;
    Collects(s, i);
    ParentOf(i);
    SumBelow(s.samples, |s.nodes|, i, s.counters[i], LeftChild(i), Votes(s, i));
    SumBelow(s.samples, |s.nodes|, i, s.counters[i], RightChild(i), Votes(s, i));
    SumUnfolds(s.samples[i := s.samples[i] + [s.counters[i]]], |s.nodes|, i, Votes(s, i));
  }

  /** Mailboxes away from the voter keep their meaning. */
  lemma {:induction false} EdgeKept(s: Net, i: nat, s': Net, j: nat)
    requires Shape(s) && Shape(s') && |s'.nodes| == |s.nodes| && i < |s.nodes| && 0 < j < |s.nodes|
    requires VotesGrowDown(s) && Edge(s, j)
    requires s'.samples == s.samples[i := s.samples[i] + [s.counters[i]]]
    requires j != i && Parent(j) != i
    requires s'.nodes[j] == s.nodes[j] || s'.nodes[j]
             == s.nodes[j].(leftVoted := s'.nodes[j].leftVoted, upleft := s'.nodes[j].upleft,
             rightVoted := s'.nodes[j].rightVoted, upright := s'.nodes[j].upright)
    requires var p, p' := s.nodes[Parent(j)], s'.nodes[Parent(j)];
             && VotedAt(p', IsLeft(j)) == VotedAt(p, IsLeft(j)) && Mailbox(p', IsLeft(j)) == Mailbox(p, IsLeft(j))
             && LastAt(p', IsLeft(j)) == LastAt(p, IsLeft(j))
             && p'.token.terminated == p.token.terminated && p'.pending == p.pending && p'.lastParent == p.lastParent
    ensures Edge(s', j)
  {
    hide TreeSum, LeftChild, RightChild, VotesGrowDown;
    ChildOf(j);
    hide Parent, IsLeft;
    if Votes(s, j) == Votes(s, Parent(j)) + 1 {
      SumKept(s, i, s.counters[i], j, Votes(s, Parent(j)));
    }
  }

  lemma {:induction false} RootKept(s: Net, i: nat, s': Net)
    requires Shape(s) && Shape(s') && |s'.nodes| == |s.nodes| && 0 < i < |s.nodes|
    requires VotesGrowDown(s) && Root(s) && Grounds(s)
    requires s'.samples == s.samples[i := s.samples[i] + [s.counters[i]]] && s'.evals == s.evals
    requires s'.nodes[0] == s.nodes[0].(leftVoted := s'.nodes[0].leftVoted, upleft := s'.nodes[0].upleft,
             rightVoted := s'.nodes[0].rightVoted, upright := s'.nodes[0].upright)
    ensures Root(s') && Grounds(s')
  {
    hide RootSum, VotesGrowDown;
    var k := Votes(s, 0);
    if k > 0 {
      RootSumKept(s, i, s.counters[i], k - 1);
    }
    if k > 1 {
      RootSumKept(s, i, s.counters[i], k - 2);
    }
  }

  // ---------------------------------------------------------------- climbing

  ghost predicate Climbing(s: Net, i: nat)
    requires Shape(s)
  {
    && 0 < i < |s.nodes| && !s.nodes[i].pending && !s.nodes[i].token.terminated
    && s.nodes[i].up && HaveVotes(s.nodes[i], Children(i, |s.nodes|))
  }

  lemma VoteUpFields(s: Net, i: nat)
    requires Shape(s) && Climbing(s, i)
    ensures var s', d, p := VoteUp(s, i), s.nodes[i], Parent(i);
            && p < i && Shape(s') && |s'.nodes| == |s.nodes|
            && (forall j :: 0 <= j < |s.nodes| && j != i && j != p ==> s'.nodes[j] == s.nodes[j])
            && s'.nodes[i] == d.(token := s'.nodes[i].token, send := s'.nodes[i].send, up := false,
              lastLeft := d.leftVoted, lastRight := d.rightVoted)
            && !s'.nodes[i].token.terminated
            && s'.nodes[p] == Voted(s.nodes[p], IsLeft(i), s'.nodes[i].send)
            && Counters(s'.nodes[i].send.spawned, s'.nodes[i].send.completed) == Collected(d, s.counters[i])
            && s'.samples == s.samples[i := s.samples[i] + [s.counters[i]]]
            && s' == s.(nodes := s'.nodes, samples := s'.samples)
  {
    ChildOf(i);
  }

  lemma VoteUpOwnEdge(s: Net, i: nat, s': Net)
    requires Shape(s) && Tree(s) && Climbing(s, i) && s' == VoteUp(s, i)
    requires Shape(s') && |s'.nodes| == |s.nodes|
    requires Votes(s, i) == Heard(s, i)
    ensures Edge(s', i)
  {
    VoteUpFields(s, i);
    CollectedIsSum(s, i);
    assert Edge(s, i);
    hide VoteUp, HaveVotes, Tree, TreeSum, Collected;
  }

  lemma VoteUpChildEdge(s: Net, i: nat, s': Net, j: nat)
    requires Shape(s) && Tree(s) && Climbing(s, i) && s' == VoteUp(s, i)
    requires Shape(s') && |s'.nodes| == |s.nodes| && 0 < j < |s.nodes| && Parent(j) == i
    requires Votes(s, i) == Heard(s, i)
    ensures Edge(s', j)
  {
    hide VoteUp, HaveVotes, Tree, TreeSum, LeftChild, RightChild, IsLeft, Collected, Verdict;
    ClimbingFacts(s, i);
    VoteUpFields(s, i);
    Collects(s, i);
    ChildOf(j);
    ParentOf(i);
    TreeAt(s, j);
    hide Parent, Climbing;
  }

  lemma ClimbingFacts(s: Net, i: nat)
    requires Shape(s) && Climbing(s, i)
    ensures 0 < i < |s.nodes| && HaveVotes(s.nodes[i], Children(i, |s.nodes|))
  {
    hide HaveVotes, Children;
  }

  lemma VoteUpEdges(s: Net, i: nat, s': Net, j: nat)
    requires Shape(s) && Tree(s) && VotesGrowDown(s) && Climbing(s, i) && s' == VoteUp(s, i)
    requires Shape(s') && |s'.nodes| == |s.nodes| && 0 < j < |s.nodes|
    requires Votes(s, i) == Heard(s, i)
    ensures Edge(s', j)
  {
    if j == i {
      VoteUpOwnEdge(s, i, s');
    } else if Parent(j) == i {
      VoteUpChildEdge(s, i, s', j);
    } else {
      VoteUpFields(s, i);
      ChildOf(j);
      ChildOf(i);
      assert Edge(s, j);
      hide VoteUp, HaveVotes, Tree, Edge;
      EdgeKept(s, i, s', j);
    }
    hide Edge;
  }

  lemma VoteUpStanding(s: Net, i: nat, s': Net, j: nat)
    requires Shape(s) && Tree(s) && Climbing(s, i) && s' == VoteUp(s, i)
    requires Shape(s') && |s'.nodes| == |s.nodes| && 0 < j < |s.nodes|
    ensures Standing(s', j) && Verdict(s', j)
    ensures Votes(s, i) == Heard(s, i)
  {
    VoteUpFields(s, i);
    assert Standing(s, j) && Verdict(s, j) && Standing(s, i);
    hide VoteUp, HaveVotes, Tree;
  }

  lemma VoteUpKeeps(s: Net, i: nat)
    requires Inv(s) && Climbing(s, i)
    ensures Inv(VoteUp(s, i))
  {
    var s' := VoteUp(s, i);
    VoteUpFields(s, i);
    VoteUpStanding(s, i, s', i);
    TreeVotes(s);
    HeardBounded(s, i);
    assert |s.evals| == Votes(s, 0);
    hide VoteUp, Climbing, Grounds, History, Root, TreeSum;
    forall j | 0 < j < |s.nodes|
      ensures Standing(s', j) && Edge(s', j) && Verdict(s', j)
    {
      VoteUpStanding(s, i, s', j);
      VoteUpEdges(s, i, s', j);
    }
    hide Standing, Edge, Verdict;
    forall j | 0 <= j < |s.nodes|
      ensures NoChild(s', j)
    {
      assert NoChild(s, j);
      ChildOf(i);
    }
    RootKept(s, i, s');
    SampleKeepsHistory(s, i, s');
  }

  // ---------------------------------------------------------------- a leaf starts over

  ghost predicate Restarting(s: Net, i: nat)
    requires Shape(s)
  {
    && 0 < i < |s.nodes| && !s.nodes[i].token.terminated
    && Children(i, |s.nodes|) == 0
    && !s.nodes[i].up && s.nodes[i].parentVoted > s.nodes[i].lastParent && !s.nodes[i].down.terminated
  }

  lemma VoteAgainFields(s: Net, i: nat)
    requires Shape(s) && Restarting(s, i)
    ensures var s', d, p := VoteAgain(s, i), s.nodes[i], Parent(i);
            && p < i && Shape(s') && |s'.nodes| == |s.nodes|
            && (forall j :: 0 <= j < |s.nodes| && j != i && j != p ==> s'.nodes[j] == s.nodes[j])
            && s'.nodes[i] == d.(token := s'.nodes[i].token, send := s'.nodes[i].send, lastParent := d.parentVoted)
            && !s'.nodes[i].token.terminated
            && s'.nodes[p] == Voted(s.nodes[p], IsLeft(i), s'.nodes[i].send)
            && Counters(s'.nodes[i].send.spawned, s'.nodes[i].send.completed) == s.counters[i]
            && s'.samples == s.samples[i := s.samples[i] + [s.counters[i]]]
            && s' == s.(nodes := s'.nodes, samples := s'.samples)
  {
    ChildOf(i);
  }

  /** A leaf's sum is its own sample. */
  lemma {:induction false} LeafSum(samples: seq<seq<Counters>>, n: nat, i: nat, c: Counters)
    requires i < n && i < |samples| && Children(i, n) == 0
    ensures TreeSum(samples[i := samples[i] + [c]], n, i, |samples[i]|) == c
  {
    var t := samples[i := samples[i] + [c]];
    assert LeftChild(i) >= n && RightChild(i) >= n;
    SumOutside(t, n, LeftChild(i), |samples[i]|);
    SumOutside(t, n, RightChild(i), |samples[i]|);
  }

  lemma RestartFacts(s: Net, i: nat)
    requires Shape(s) && Tree(s) && Restarting(s, i)
    ensures Votes(s, i) == Heard(s, i) + 1 == s.nodes[i].parentVoted
    ensures Votes(s, Parent(i)) == Votes(s, i)
  {
    ChildOf(i);
    HeardAtParent(s, i);
    assert Edge(s, i) && Standing(s, i);
    hide TreeSum, Tree, VotedAt, LastAt, Mailbox;
  }

  /** A verdict is passed on only for a wave its sender has voted in. */
  lemma HeardAtParent(s: Net, i: nat)
    requires Shape(s) && Tree(s) && 0 < i < |s.nodes|
    ensures Heard(s, i) <= s.nodes[i].parentVoted <= Votes(s, Parent(i)) <= Votes(s, i) <= Heard(s, i) + 1
  {
    ChildOf(i);
    assert Edge(s, i) && Standing(s, i);
    hide TreeSum, Tree, VotedAt, LastAt, Mailbox;
  }

  lemma RestartedEdge(s: Net, i: nat, s': Net)
    requires Shape(s) && Shape(s') && |s'.nodes| == |s.nodes| && 0 < i < |s.nodes| && Parent(i) < i
    requires Edge(s, i)
    requires Votes(s, Parent(i)) == Votes(s, i) == Heard(s, i) + 1 == s.nodes[i].parentVoted
    requires !s.nodes[i].token.terminated && !s'.nodes[i].token.terminated
    requires s'.nodes[i].lastParent == s'.nodes[i].parentVoted == s.nodes[i].parentVoted
    requires s'.samples == s.samples[i := s.samples[i] + [s.counters[i]]]
    requires s'.nodes[Parent(i)] == Voted(s.nodes[Parent(i)], IsLeft(i), s'.nodes[i].send)
    requires Counters(s'.nodes[i].send.spawned, s'.nodes[i].send.completed)
          == TreeSum(s'.samples, |s.nodes|, i, Votes(s, i))
    ensures Edge(s', i)
  {
    hide TreeSum, LeftChild, RightChild, IsLeft, Children, Parent;
  }

  lemma VoteAgainEdge(s: Net, i: nat, s': Net)
    requires Shape(s) && Tree(s) && Restarting(s, i) && s' == VoteAgain(s, i)
    requires Shape(s') && |s'.nodes| == |s.nodes|
    ensures Edge(s', i)
  {
    hide Tree, Edge, TreeSum, VoteAgain, Restarting, Parent, Votes, Voted;
    RestartFacts(s, i);
    RestartingLeaf(s, i);
    LeafSum(s.samples, |s.nodes|, i, s.counters[i]);
    TreeAt(s, i);
    VoteAgainFields(s, i);
    RestartedEdge(s, i, s');
  }

  lemma RestartingLeaf(s: Net, i: nat)
    requires Shape(s) && Restarting(s, i)
    ensures 0 < i < |s.nodes| && Children(i, |s.nodes|) == 0 && !s.nodes[i].token.terminated
    ensures |s.samples[i]| == Votes(s, i)
  {
  }

  lemma VoteAgainStanding(s: Net, i: nat, s': Net, j: nat)
    requires Shape(s) && Tree(s) && Restarting(s, i) && s' == VoteAgain(s, i)
    requires Shape(s') && |s'.nodes| == |s.nodes| && 0 < j < |s.nodes|
    ensures Standing(s', j) && Verdict(s', j)
  {
    VoteAgainFields(s, i);
    RestartFacts(s, i);
    assert Standing(s, j) && Verdict(s, j) && Verdict(s, i);
    hide VoteAgain, Tree, TreeSum;
  }

  lemma VoteAgainOther(s: Net, i: nat, s': Net, j: nat)
    requires Shape(s) && Tree(s) && VotesGrowDown(s) && Restarting(s, i) && s' == VoteAgain(s, i)
    requires Shape(s') && |s'.nodes| == |s.nodes| && 0 < j < |s.nodes| && j != i
    ensures Edge(s', j)
  {
    VoteAgainFields(s, i);
    ChildOf(j);
    ChildOf(i);
    assert Parent(j) != i;
    assert Edge(s, j);
    hide VoteAgain, Tree, Edge, Restarting;
    EdgeKept(s, i, s', j);
  }

  lemma VoteAgainKeeps(s: Net, i: nat)
    requires Inv(s) && Restarting(s, i)
    ensures Inv(VoteAgain(s, i))
  {
    var s' := VoteAgain(s, i);
    VoteAgainFields(s, i);
    TreeVotes(s);
    ChildOf(i);
    HeardBounded(s, i);
    HeardBounded(s, Parent(i));
    assert Edge(s, i) && |s.evals| == Votes(s, 0);
    hide VoteAgain, Restarting, Grounds, History, Root, TreeSum;
    forall j | 0 < j < |s.nodes|
      ensures Standing(s', j) && Edge(s', j) && Verdict(s', j)
    {
      VoteAgainStanding(s, i, s', j);
      if j == i {
        VoteAgainEdge(s, i, s');
      } else {
        VoteAgainOther(s, i, s', j);
      }
    }
    hide Standing, Verdict;
    forall j | 0 <= j < |s.nodes|
      ensures NoChild(s', j)
    {
      assert NoChild(s, j);
    }
    RootKept(s, i, s');
    SampleKeepsHistory(s, i, s');
    hide Edge;
  }

  // ---------------------------------------------------------------- verdicts travel down

  /** Steps that take no sample keep sums, so only standings and counters are to be checked. */
  lemma RootUnsampled(s: Net, s': Net)
    requires Shape(s) && Shape(s') && |s'.nodes| == |s.nodes| && s' == s.(nodes := s'.nodes)
    requires Root(s) && Grounds(s)
    requires s'.nodes[0] == s.nodes[0].(pending := s'.nodes[0].pending) && (s'.nodes[0].pending ==> s.nodes[0].pending)
    ensures Root(s') && Grounds(s')
  {
    hide TreeSum;
  }

  /** Elements a step does not touch, whose parent keeps what its children look at. */
  lemma Untouched(s: Net, s': Net, j: nat)
    requires Shape(s) && Shape(s') && |s'.nodes| == |s.nodes| && s' == s.(nodes := s'.nodes) && 0 < j < |s.nodes|
    requires Standing(s, j) && Edge(s, j) && Verdict(s, j)
    requires s'.nodes[0].token.terminated == s.nodes[0].token.terminated
    requires s'.nodes[j] == s.nodes[j]
    requires var p := Parent(j);
             s'.nodes[p] == s.nodes[p]
             || s'.nodes[p] == s.nodes[p].(down := s'.nodes[p].down, parentVoted := s'.nodes[p].parentVoted)
             || (IsLeft(j) && s'.nodes[p] == s.nodes[p].(pending := s'.nodes[p].pending))
    ensures Standing(s', j) && Edge(s', j) && Verdict(s', j)
  {
    ChildOf(j);
    hide TreeSum;
  }

  ghost predicate Finishing(s: Net, i: nat)
    requires Shape(s)
  {
    && 0 < i < |s.nodes| && !s.nodes[i].token.terminated
    && Children(i, |s.nodes|) == 0
    && !s.nodes[i].up && s.nodes[i].parentVoted > s.nodes[i].lastParent && s.nodes[i].down.terminated
  }

  lemma LeafDoneOwn(s: Net, i: nat, s': Net)
    requires Shape(s) && Tree(s) && Finishing(s, i) && s' == LeafDone(s, i)
    ensures Shape(s') && Standing(s', i) && Edge(s', i) && Verdict(s', i)
  {
    ChildOf(i);
    assert Standing(s, i) && Edge(s, i) && Verdict(s, i);
    HeardBounded(s, Parent(i));
    hide TreeSum, Tree;
  }

  lemma LeafDoneKeeps(s: Net, i: nat)
    requires Inv(s) && Finishing(s, i)
    ensures Inv(LeafDone(s, i))
  {
    var s' := LeafDone(s, i);
    LeafDoneOwn(s, i, s');
    hide Standing, Edge, Verdict, TreeSum, Root, Grounds, History;
    forall j | 0 < j < |s.nodes| && j != i
      ensures Standing(s', j) && Edge(s', j) && Verdict(s', j)
    {
      ChildOf(j);
      Untouched(s, s', j);
    }
    forall j | 0 <= j < |s.nodes|
      ensures NoChild(s', j)
    {
      assert NoChild(s, j);
    }
    RootUnsampled(s, s');
    NodesKeepHistory(s, s');
  }

  ghost predicate HandingDown(s: Net, i: nat)
    requires Shape(s)
  {
    && 0 < i < |s.nodes| && !s.nodes[i].token.terminated && !s.nodes[i].pending
    && Children(i, |s.nodes|) > 0
    && !s.nodes[i].up && s.nodes[i].parentVoted > s.nodes[i].lastParent
  }

  lemma PassVerdictFields(s: Net, i: nat)
    requires Shape(s) && HandingDown(s, i)
    ensures var s', d, l := PassVerdict(s, i), s.nodes[i], LeftChild(i);
            && i < l < |s.nodes| && Shape(s') && |s'.nodes| == |s.nodes|
            && (forall j :: 0 <= j < |s.nodes| && j != i && j != l ==> s'.nodes[j] == s.nodes[j])
            && s'.nodes[i] == d.(token := s'.nodes[i].token, send := d.down, up := true,
              pending := RightChild(i) < |s.nodes|,
                                 lastParent := if d.down.terminated then d.lastParent else d.parentVoted)
            && s'.nodes[i].token.terminated == d.down.terminated
            && s'.nodes[l] == Told(s.nodes[l], d.down)
            && s' == s.(nodes := s'.nodes)
  {
  }

  lemma PassVerdictOwn(s: Net, i: nat, s': Net)
    requires Shape(s) && Tree(s) && HandingDown(s, i) && s' == PassVerdict(s, i)
    ensures Shape(s') && |s'.nodes| == |s.nodes| && Standing(s', i) && Edge(s', i) && Verdict(s', i)
    ensures Heard(s', i) == Heard(s, i) + 1 == Votes(s, i) == s.nodes[i].parentVoted
    ensures s.nodes[i].down.terminated <==> Decided(s) && Heard(s', i) == Votes(s, 0)
  {
    ChildOf(i);
    PassVerdictFields(s, i);
    assert Standing(s, i) && Edge(s, i) && Verdict(s, i);
    hide TreeSum, Tree, PassVerdict;
  }

  lemma PassVerdictChild(s: Net, i: nat, s': Net, j: nat)
    requires Shape(s) && Tree(s) && HandingDown(s, i) && s' == PassVerdict(s, i)
    requires 0 < j < |s.nodes| && Parent(j) == i
    ensures Shape(s') && |s'.nodes| == |s.nodes| && Standing(s', j) && Edge(s', j) && Verdict(s', j)
  {
    ChildOf(j);
    ParentOf(i);
    PassVerdictFields(s, i);
    PassVerdictOwn(s, i, s');
    assert Standing(s, j) && Edge(s, j) && Verdict(s, j);
    hide TreeSum, Tree, PassVerdict;
  }

  lemma PassVerdictKeeps(s: Net, i: nat)
    requires Inv(s) && HandingDown(s, i)
    ensures Inv(PassVerdict(s, i))
  {
    var s' := PassVerdict(s, i);
    PassVerdictFields(s, i);
    PassVerdictOwn(s, i, s');
    hide Standing, Edge, Verdict, TreeSum, Root, Grounds, History, PassVerdict, HandingDown;
    ParentOf(i);
    forall j | 0 < j < |s.nodes| && j != i
      ensures Standing(s', j) && Edge(s', j) && Verdict(s', j)
    {
      ChildOf(j);
      if Parent(j) == i {
        PassVerdictChild(s, i, s', j);
      } else {
        Untouched(s, s', j);
      }
    }
    forall j | 0 <= j < |s.nodes|
      ensures NoChild(s', j)
    {
      assert NoChild(s, j);
    }
    RootUnsampled(s, s');
    NodesKeepHistory(s, s');
  }

  // ---------------------------------------------------------------- the right child's turn

  lemma TellRightFields(s: Net, i: nat)
    requires Shape(s) && i < |s.nodes| && s.nodes[i].pending && RightChild(i) < |s.nodes|
    ensures var s', r := TellRight(s, i), RightChild(i);
            && i < r && Shape(s') && |s'.nodes| == |s.nodes|
            && (forall j :: 0 <= j < |s.nodes| && j != i && j != r ==> s'.nodes[j] == s.nodes[j])
            && s'.nodes[i] == s.nodes[i].(pending := false)
            && s'.nodes[r] == Told(s.nodes[r], s.nodes[i].send)
            && s' == s.(nodes := s'.nodes)
  {
  }

  lemma TellRightOwn(s: Net, i: nat, s': Net)
    requires Shape(s) && 0 < i < |s.nodes| && s.nodes[i].pending && RightChild(i) < |s.nodes|
    requires Standing(s, i) && Edge(s, i) && Verdict(s, i)
    requires s' == TellRight(s, i) && Shape(s') && |s'.nodes| == |s.nodes|
    ensures Standing(s', i) && Edge(s', i) && Verdict(s', i)
  {
    hide TellRight, TreeSum, LeftChild, RightChild, IsLeft, Children;
    ChildOf(i);
    hide Parent;
    ParentOf(i);
    TellRightFields(s, i);
  }

  lemma TellRightChild(s: Net, i: nat, j: nat, s': Net)
    requires Shape(s) && i < |s.nodes| && s.nodes[i].pending && RightChild(i) < |s.nodes|
    requires j == RightChild(i) && j > 0 && Standing(s, j) && Edge(s, j) && Verdict(s, j)
    requires s' == TellRight(s, i) && Shape(s') && |s'.nodes| == |s.nodes|
    requires s.nodes[i].send.terminated <==> Decided(s) && Heard(s, i) == Votes(s, 0)
    ensures Standing(s', j) && Edge(s', j) && Verdict(s', j)
  {
    hide TellRight, TreeSum, LeftChild, RightChild, IsLeft, Children, Parent;
    ParentOf(i);
    TellRightFields(s, i);
    TellRightChildHeard(s, i, j);
  }

  /** A right child still waiting for its verdict has not heard the one its parent has. */
  lemma TellRightChildHeard(s: Net, i: nat, j: nat)
    requires Shape(s) && i < |s.nodes| && s.nodes[i].pending && RightChild(i) < |s.nodes|
    requires j == RightChild(i) && j > 0 && Standing(s, j) && Edge(s, j)
    ensures s.nodes[j].parentVoted == Heard(s, i) - 1 && Heard(s, j) <= s.nodes[j].parentVoted
  {
    hide TreeSum, LeftChild, RightChild, IsLeft, Children, Parent;
    ParentOf(i);
  }

  lemma SendIsVerdict(s: Net, i: nat)
    requires Shape(s) && Tree(s) && Root(s) && i < |s.nodes| && s.nodes[i].pending
    ensures s.nodes[i].send.terminated <==> Decided(s) && Heard(s, i) == Votes(s, 0)
  {
    if i > 0 {
      assert Verdict(s, i);
    }
    hide TreeSum, Tree;
  }

  lemma TellRightAt(s: Net, i: nat, s': Net, j: nat)
    requires Shape(s) && Tree(s) && i < |s.nodes| && s.nodes[i].pending && RightChild(i) < |s.nodes|
    requires s' == TellRight(s, i) && Shape(s') && |s'.nodes| == |s.nodes| && 0 < j < |s.nodes|
    requires s.nodes[i].send.terminated <==> Decided(s) && Heard(s, i) == Votes(s, 0)
    ensures Standing(s', j) && Edge(s', j) && Verdict(s', j)
  {
    hide Tree, Standing, Edge, Verdict, TreeSum, TellRight, Heard, Decided;
    TreeAt(s, j);
    TellRightFields(s, i);
    if j == i {
      TellRightOwn(s, i, s');
    } else if j == RightChild(i) {
      TellRightChild(s, i, j, s');
    } else {
      ChildOf(j);
      ParentOf(i);
      Untouched(s, s', j);
    }
  }

  lemma TellRightKeeps(s: Net, i: nat)
    requires Inv(s) && i < |s.nodes| && s.nodes[i].pending && RightChild(i) < |s.nodes|
    ensures Inv(TellRight(s, i))
  {
    var s' := TellRight(s, i);
    TellRightFields(s, i);
    SendIsVerdict(s, i);
    hide Standing, Edge, Verdict, TreeSum, Root, Grounds, History, TellRight;
    forall j | 0 < j < |s.nodes|
      ensures Standing(s', j) && Edge(s', j) && Verdict(s', j)
    {
      TellRightAt(s, i, s', j);
    }
    forall j | 0 <= j < |s.nodes|
      ensures NoChild(s', j)
    {
      assert NoChild(s, j);
    }
    RootUnsampled(s, s');
    NodesKeepHistory(s, s');
  }

  // ---------------------------------------------------------------- the root judges

  ghost predicate Judging(s: Net)
    requires Shape(s)
  {
    && |s.nodes| > 1 && !s.nodes[0].pending && !s.nodes[0].token.terminated
    && HaveVotes(s.nodes[0], Children(0, |s.nodes|))
  }

  /** When the root judges a wave, every element has voted in it and in no later one. */
  lemma {:induction false} AllVoted(s: Net, j: nat)
    requires Shape(s) && Tree(s) && Judging(s) && 0 < j < |s.nodes|
    ensures Votes(s, j) == Votes(s, 0) + 1
    ensures Heard(s, j) <= s.nodes[j].parentVoted <= Votes(s, 0)
    decreases j
  {
    hide Tree, Judging;
    ChildOf(j);
    HeardAtParent(s, j);
    HeardBounded(s, Parent(j));
    HeardBounded(s, j);
    if Parent(j) == 0 {
      RootChildren(s, j);
    } else {
      AllVoted(s, Parent(j));
    }
    ParentVoted(s, j);
  }

  lemma ParentVoted(s: Net, j: nat)
    requires Shape(s) && Tree(s) && 0 < j < |s.nodes|
    ensures s.nodes[j].parentVoted <= Heard(s, Parent(j))
  {
    hide Tree, Standing, Verdict, TreeSum;
    TreeAt(s, j);
  }

  lemma RootChildren(s: Net, j: nat)
    requires Shape(s) && Tree(s) && Judging(s) && 0 < j < |s.nodes| && Parent(j) == 0
    ensures Votes(s, j) == Votes(s, 0) + 1 == VotedAt(s.nodes[0], IsLeft(j))
  {
    Collects(s, 0);
    ChildOf(j);
    hide Tree, TreeSum;
  }

  lemma EvaluateFields(s: Net)
    requires Shape(s) && Judging(s)
    ensures var s', d, l := Evaluate(s), s.nodes[0], LeftChild(0);
            var sum := Collected(d, s.counters[0]);
            var done := Decides(d, sum);
            && l == 1 < |s.nodes| && Shape(s') && |s'.nodes| == |s.nodes|
            && (forall j :: 0 <= j < |s.nodes| && j != 0 && j != l ==> s'.nodes[j] == s.nodes[j])
            && s'.nodes[0] == d.(token := s'.nodes[0].token, send := s'.nodes[0].send, up := true,
              pending := RightChild(0) < |s.nodes|,
                                 lastSpawned := sum.spawned, lastCompleted := sum.completed,
                                 lastLeft := if done then d.lastLeft else d.leftVoted,
                                 lastRight := if done then d.lastRight else d.rightVoted)
            && s'.nodes[0].token.terminated == s'.nodes[0].send.terminated == done
            && s'.nodes[l] == Told(s.nodes[l], s'.nodes[0].send)
            && s'.samples == s.samples[0 := s.samples[0] + [s.counters[0]]]
            && s' == s.(nodes := s'.nodes, samples := s'.samples, evals := s.evals + [s.counters])
  {
    hide HaveVotes, Collected, Decides;
  }

  lemma EvaluateChild(s: Net, s': Net, j: nat)
    requires Shape(s) && Tree(s) && Judging(s) && s' == Evaluate(s) && Shape(s') && |s'.nodes| == |s.nodes|
    requires 0 < j < |s.nodes| && Parent(j) == 0
    ensures Edge(s', j) && Standing(s', j) && Verdict(s', j)
  {
    hide Tree, TreeSum, Evaluate, HaveVotes, Collected, Decides, LeftChild, RightChild, Parent, Children, IsLeft;
    assert !s.nodes[0].pending && !s.nodes[0].token.terminated;
    EvaluateFields(s);
    RootChildren(s, j);
    AllVoted(s, j);
    ChildOf(j);
    ParentOf(0);
    TreeAt(s, j);
    hide Judging;
  }

  lemma EvaluateOther(s: Net, s': Net, j: nat)
    requires Shape(s) && Tree(s) && VotesGrowDown(s) && Judging(s) && s' == Evaluate(s) && Shape(s')
             && |s'.nodes| == |s.nodes|
    requires 0 < j < |s.nodes| && Parent(j) != 0
    ensures Edge(s', j) && Standing(s', j) && Verdict(s', j)
  {
    hide Tree, TreeSum, Evaluate, HaveVotes, Collected, Decides, LeftChild, RightChild, Children, IsLeft;
    assert !s.nodes[0].pending && !s.nodes[0].token.terminated;
    EvaluateFields(s);
    AllVoted(s, j);
    assert j != 1;
    ChildOf(j);
    TreeAt(s, j);
    hide Judging, Parent;
    EdgeKept(s, 0, s', j);
    hide Edge;
  }

  lemma {:induction false} EvaluateSums(s: Net, s': Net)
    requires Shape(s) && Tree(s) && VotesGrowDown(s) && Judging(s) && s' == Evaluate(s) && Shape(s')
             && |s'.nodes| == |s.nodes|
    requires Root(s)
    ensures var u := Votes(s, 0);
            && RootSum(s'.samples, u) == Collected(s.nodes[0], s.counters[0])
            && (u > 0 ==> RootSum(s'.samples, u - 1) == Counters(s.nodes[0].lastSpawned, s.nodes[0].lastCompleted))
            && (u == 0 ==> s.nodes[0].lastSpawned == 0 && s.nodes[0].lastCompleted == 0)
  {
    hide Tree, TreeSum, Evaluate, HaveVotes, Collected, Decides;
    EvaluateFields(s);
    JudgingVotes(s);
    CollectedIsSum(s, 0);
    var u := Votes(s, 0);
    if u > 0 {
      RootSumKept(s, 0, s.counters[0], u - 1);
    }
  }

  lemma JudgingVotes(s: Net)
    requires Shape(s) && Judging(s)
    ensures HaveVotes(s.nodes[0], Children(0, |s.nodes|)) && !s.nodes[0].token.terminated && Votes(s, 0) == Heard(s, 0)
  {
    hide HaveVotes, Children;
  }

  lemma EvaluateRoot(s: Net, s': Net)
    requires Shape(s) && Tree(s) && Root(s) && VotesGrowDown(s) && Judging(s) && s' == Evaluate(s) && Shape(s')
             && |s'.nodes| == |s.nodes|
    ensures Root(s') && Grounds(s')
  {
    hide Tree, RootSum, Evaluate, HaveVotes, Collected, Judging, LeftChild, RightChild, Children;
    EvaluateSums(s, s');
    EvaluateFields(s);
  }

  lemma EvaluateKeeps(s: Net)
    requires Inv(s) && Judging(s)
    ensures Inv(Evaluate(s))
  {
    var s' := Evaluate(s);
    EvaluateFields(s);
    TreeVotes(s);
    assert |s.evals| == Votes(s, 0);
    EvaluateRoot(s, s');
    hide Root, Grounds, History, Evaluate, Standing, Edge, Verdict, TreeSum, Collected, Decides;
    forall j | 0 < j < |s.nodes|
      ensures Standing(s', j) && Edge(s', j) && Verdict(s', j)
    {
      if Parent(j) == 0 {
        EvaluateChild(s, s', j);
      } else {
        EvaluateOther(s, s', j);
      }
    }
    forall j | 0 <= j < |s.nodes|
      ensures NoChild(s', j)
    {
      assert NoChild(s, j);
    }
    EvaluateHistory(s, s');
  }

  lemma EvaluateHistory(s: Net, s': Net)
    requires Shape(s) && Tree(s) && History(s) && Judging(s) && |s.evals| == Votes(s, 0)
    requires Shape(s') && |s'.nodes| == |s.nodes|
    requires s'.samples == s.samples[0 := s.samples[0] + [s.counters[0]]]
    requires s' == s.(nodes := s'.nodes, samples := s'.samples, evals := s.evals + [s.counters])
    ensures History(s')
  {
    hide Tree, History, Judging;
    var m := s.(nodes := s'.nodes, samples := s'.samples);
    SampleKeepsHistory(s, 0, m);
    forall j | 0 <= j < |s.nodes|
      ensures Votes(m, j) == |m.evals| + 1
    {
      if j > 0 {
        AllVoted(s, j);
      }
    }
    EvaluationKeepsHistory(m, s');
  }

  // ---------------------------------------------------------------- a single element

  lemma {:induction false} LoneSum(samples: seq<seq<Counters>>, n: nat, i: nat, w: nat)
    requires i < n && LeftChild(i) >= n && RightChild(i) >= n
    ensures TreeSum(samples, n, i, w) == Sample(samples, i, w)
  {
    SumOutside(samples, n, LeftChild(i), w);
    SumOutside(samples, n, RightChild(i), w);
  }

  lemma {:induction false} AloneSum(samples: seq<seq<Counters>>, w: nat)
    requires 0 < |samples| < 2
    ensures RootSum(samples, w) == Sample(samples, 0, w)
  {
    hide TreeSum;
    LoneSum(samples, |samples|, 0, w);
  }

  lemma AloneFields(s: Net, s': Net)
    requires Shape(s) && s' == EvaluateAlone(s) && !s.nodes[0].token.terminated
    ensures var d, c := s.nodes[0], s.counters[0];
            var done := Decides(d, c);
            && Shape(s') && |s'.nodes| == |s.nodes|
            && s'.nodes[0] == d.(token := Token(done, c.spawned, c.completed), lastSpawned := c.spawned,
              lastCompleted := c.completed)
            && s'.samples == s.samples[0 := s.samples[0] + [c]]
            && s' == s.(nodes := s'.nodes, samples := s'.samples, evals := s.evals + [s.counters])
  {
    hide Decides;
  }

  lemma AloneRoot(s: Net, s': Net)
    requires Shape(s) && |s.nodes| == 1 && Root(s) && !s.nodes[0].token.terminated
    requires s' == EvaluateAlone(s) && Shape(s') && |s'.nodes| == 1
    ensures Root(s') && Grounds(s')
  {
    hide RootSum, EvaluateAlone;
    AloneFields(s, s');
    var u := Votes(s, 0);
    AloneSum(s'.samples, u);
    if u > 0 {
      AloneSum(s'.samples, u - 1);
      AloneSum(s.samples, u - 1);
    }
  }

  lemma AloneTree(s: Net, s': Net)
    requires Shape(s) && |s.nodes| == 1 && Tree(s) && Shape(s') && |s'.nodes| == 1
    requires s'.nodes[0].upleft == s.nodes[0].upleft && s'.nodes[0].upright == s.nodes[0].upright
    ensures Tree(s')
  {
    hide Standing, Edge, Verdict, TreeSum;
    assert NoChild(s, 0);
    assert NoChild(s', 0);
  }

  lemma AloneHistory(s: Net, s': Net)
    requires Shape(s) && |s.nodes| == 1 && History(s) && |s.evals| == Votes(s, 0) && !s.nodes[0].token.terminated
    requires s' == EvaluateAlone(s) && Shape(s')
    ensures History(s')
  {
    hide History, EvaluateAlone, Decides;
    AloneFields(s, s');
    var m := s.(nodes := s'.nodes, samples := s'.samples);
    SampleKeepsHistory(s, 0, m);
    EvaluationKeepsHistory(m, s');
  }

  lemma InvParts(s: Net)
    requires Inv(s)
    ensures Shape(s) && Tree(s) && Root(s) && Grounds(s) && History(s)
  {
    hide Tree, Root, Grounds, History;
  }

  lemma InvWhole(s: Net)
    requires Shape(s) && Tree(s) && Root(s) && Grounds(s) && History(s)
    ensures Inv(s)
  {
    hide Tree, Root, Grounds, History;
  }

  lemma AloneKeeps(s: Net)
    requires Inv(s) && |s.nodes| == 1 && !s.nodes[0].token.terminated
    ensures Inv(EvaluateAlone(s))
  {
    hide Inv, Root, Grounds, History, Tree, EvaluateAlone, Decides;
    RootIsUp(s);
    InvParts(s);
    var s' := EvaluateAlone(s);
    AloneFields(s, s');
    AloneRoot(s, s');
    AloneTree(s, s');
    AloneHistory(s, s');
    InvWhole(s');
  }

  // ---------------------------------------------------------------- all steps

  lemma WaitKeeps(s: Net, i: nat)
    requires Inv(s) && i < |s.nodes|
    ensures Inv(s.(nodes := s.nodes[i := s.nodes[i].(token := SetCounters(s.nodes[i].token, s.counters[i]))]))
  {
    var s' := s.(nodes := s.nodes[i := s.nodes[i].(token := SetCounters(s.nodes[i].token, s.counters[i]))]);
    hide TreeSum, History;
    NodesKeepHistory(s, s');
    forall j | 0 < j < |s.nodes|
      ensures Standing(s', j) && Edge(s', j) && Verdict(s', j)
    {
      WaitAt(s, i, s', j);
    }
    forall j | 0 <= j < |s.nodes|
      ensures NoChild(s', j)
    {
      assert NoChild(s, j);
    }
    assert Root(s') && Grounds(s');
    hide Tree;
    assert Tree(s') by { hide Standing, Edge, Verdict, NoChild; }
  }

  lemma WaitAt(s: Net, i: nat, s': Net, j: nat)
    requires Shape(s) && Tree(s) && i < |s.nodes| && 0 < j < |s.nodes|
    requires s' == s.(nodes := s.nodes[i := s.nodes[i].(token := SetCounters(s.nodes[i].token, s.counters[i]))])
    ensures Standing(s', j) && Edge(s', j) && Verdict(s', j)
  {
    hide Tree, TreeSum, LeftChild, RightChild, IsLeft, Children;
    ChildOf(j);
    hide Parent;
    TreeAt(s, j);
  }

  lemma InitInv(s: Net)
    requires Init(s)
    ensures Inv(s)
  {
  }

  lemma VoteKeeps(s: Net, i: nat)
    requires Inv(s) && i < |s.nodes| && !s.nodes[i].pending && !s.nodes[i].token.terminated
    ensures Inv(Attempt(s, i))
  {
    RootIsUp(s);
    hide Inv, VoteUp, VoteAgain, LeafDone, PassVerdict, Evaluate, EvaluateAlone;
    match BranchOf(s, i)
    case Alone => AloneKeeps(s);
    case Waits => WaitKeeps(s, i);
    case Climbs => VoteUpKeeps(s, i);
    case Restarts => VoteAgainKeeps(s, i);
    case Finishes => LeafDoneKeeps(s, i);
    case HandsDown => PassVerdictKeeps(s, i);
    case Judges => EvaluateKeeps(s);
  }

  lemma RootIsUp(s: Net)
    requires Inv(s)
    ensures Shape(s) && s.nodes[0].up && |s.evals| == Votes(s, 0)
  {
    hide Tree, Grounds, History, TreeSum;
  }

  lemma StepKeeps(s: Net, a: Action)
    requires Inv(s) && Enabled(s, a)
    ensures Inv(Apply(s, a))
  {
    hide Inv, Attempt, TellRight;
    match a
    case Work(c) => WorkKeeps(s, c);
    case Vote(i) => VoteKeeps(s, i);
    case SendRight(i) => TellRightKeeps(s, i);
  }
}
