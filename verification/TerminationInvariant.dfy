/** The invariant of the counter waves: where each element stands relative to its parent, what the
    tokens in the mailboxes add up to, and when samples were taken relative to evaluations. */
module TerminationInvariant {
  import opened TerminationModel

  // ---------------------------------------------------------------- wave sums

  /** What element `j` sampled for wave `w`. */
  function Sample(samples: seq<seq<Counters>>, j: nat, w: nat): Counters {
    if j < |samples| && w < |samples[j]| then samples[j][w] else Counters(0, 0)
  }

  /** The samples of wave `w` added up over the subtree below `i`, the way tokens add them up. */
  function TreeSum(samples: seq<seq<Counters>>, n: nat, i: nat, w: nat): Counters
    decreases n - i
  {
    if i >= n then Counters(0, 0)
    else Add(Sample(samples, i, w), Add(TreeSum(samples, n, LeftChild(i), w), TreeSum(samples, n, RightChild(i), w)))
  }

  /** The sum the root arrives at for wave `w`. */
  function RootSum(samples: seq<seq<Counters>>, w: nat): Counters {
    TreeSum(samples, |samples|, 0, w)
  }

  // ---------------------------------------------------------------- where an element stands

  /** Waves element `i` has voted in. */
  function Votes(s: Net, i: nat): nat
    requires Shape(s) && i < |s.nodes|
  {
    |s.samples[i]|
  }

  /** Verdicts element `i` has taken note of; the root takes note of its own at once. */
  function Heard(s: Net, i: nat): nat
    requires Shape(s) && i < |s.nodes|
  {
    if i == 0 then |s.samples[0]|
    else s.nodes[i].lastParent + if s.nodes[i].token.terminated then 1 else 0
  }

  function VotedAt(p: Node, left: bool): nat {
    if left then p.leftVoted else p.rightVoted
  }

  function LastAt(p: Node, left: bool): nat {
    if left then p.lastLeft else p.lastRight
  }

  function Mailbox(p: Node, left: bool): Token {
    if left then p.upleft else p.upright
  }

  /** Verdicts passed on by `p` that have reached the given side. */
  function Passed(s: Net, p: nat, left: bool): int
    requires Shape(s) && p < |s.nodes|
  {
    Heard(s, p) - if s.nodes[p].pending && !left then 1 else 0
  }

  /** The vote counter a parent remembers; the root keeps the old value when it has decided. */
  function Remembered(s: Net, p: nat): int
    requires Shape(s) && p < |s.nodes|
  {
    Votes(s, p) - if p == 0 && s.nodes[0].token.terminated then 1 else 0
  }

  /** An element is either owed a verdict for its last vote, or about to vote. */
  ghost predicate Standing(s: Net, i: nat)
    requires Shape(s) && 0 < i < |s.nodes|
  {
    var d := s.nodes[i];
    && (if d.up || d.token.terminated then Votes(s, i) == Heard(s, i) else Votes(s, i) == Heard(s, i) + 1)
    && (Children(i, |s.nodes|) == 0 && d.up ==> Votes(s, i) == 0 && !d.token.terminated)
    && (Children(i, |s.nodes|) > 0 && d.token.terminated ==> d.up)
    && (d.pending ==> d.up && RightChild(i) < |s.nodes|)
  }

  /** The edge from element `i` to its parent: votes and verdicts alternate, and a vote the
      parent has not used yet sits in its mailbox with the sum of the whole subtree. */
  ghost predicate Edge(s: Net, i: nat)
    requires Shape(s) && 0 < i < |s.nodes|
  {
    var p, left := Parent(i), IsLeft(i);
    var dp := s.nodes[p];
    && VotedAt(dp, left) == Votes(s, i)
    && LastAt(dp, left) == Remembered(s, p)
    && s.nodes[i].parentVoted == Passed(s, p, left)
    && Heard(s, i) <= s.nodes[i].parentVoted
    && Heard(s, p) <= Votes(s, p) <= Votes(s, i)
    && (Votes(s, i) == Votes(s, p) + 1 ==>
          var t := Mailbox(dp, left);
          Counters(t.spawned, t.completed) == TreeSum(s.samples, |s.nodes|, i, Votes(s, p)))
  }

  /** Sides of an element without a child stay silent. */
  ghost predicate NoChild(s: Net, p: nat)
    requires Shape(s) && p < |s.nodes|
  {
    && (LeftChild(p) >= |s.nodes| ==> s.nodes[p].upleft == FRESH_TOKEN)
    && (RightChild(p) >= |s.nodes| ==> s.nodes[p].upright == FRESH_TOKEN)
  }

  ghost predicate Decided(s: Net)
    requires Shape(s)
  {
    s.nodes[0].token.terminated
  }

  /** The verdict travels down unchanged: a terminated token is that of the root's last wave. */
  ghost predicate Verdict(s: Net, i: nat)
    requires Shape(s) && 0 < i < |s.nodes|
  {
    var d, last := s.nodes[i], Votes(s, 0);
    && (d.down.terminated <==> Decided(s) && d.parentVoted == last)
    && (d.token.terminated <==> Decided(s) && Heard(s, i) == last)
    && (d.pending ==> (d.send.terminated <==> Decided(s) && Heard(s, i) == last))
  }

  ghost predicate Root(s: Net)
    requires Shape(s)
  {
    var d, n := s.nodes[0], |s.nodes|;
    && d.up
    && Votes(s, 0) == |s.evals|
    && (d.pending ==> RightChild(0) < n && (d.send.terminated <==> d.token.terminated))
    && (d.token.terminated ==> Votes(s, 0) > 0)
    && (if Votes(s, 0) == 0 then d.lastSpawned == 0 && d.lastCompleted == 0
        else Counters(d.lastSpawned, d.lastCompleted) == RootSum(s.samples, Votes(s, 0) - 1))
  }

  /** Why the root has decided. */
  ghost predicate Grounds(s: Net)
    requires Shape(s)
  {
    Decided(s) ==>
      var k := Votes(s, 0);
      && k > 0
      && var sum := RootSum(s.samples, k - 1);
      && sum.spawned == sum.completed
      && sum == if k == 1 then Counters(0, 0) else RootSum(s.samples, k - 2)
  }

  /** Element `j` samples wave `w` before evaluation `w`, and wave `w + 1` after it. */
  ghost predicate Bracketed(s: Net, j: nat, w: nat)
    requires Shape(s) && j < |s.nodes| && w < |s.evals|
  {
    && |s.evals[w]| == |s.nodes|
    && Covers(s.evals[w][j], s.counters[j])
    && w < Votes(s, j) && Covers(s.samples[j][w], s.evals[w][j])
    && (w + 1 < Votes(s, j) ==> Covers(s.evals[w][j], s.samples[j][w + 1]))
  }

  ghost predicate History(s: Net)
    requires Shape(s)
  {
    && (forall w :: 0 <= w < |s.evals| ==> |s.evals[w]| == |s.nodes|)
    && (forall j :: 0 <= j < |s.nodes| ==> Covers(s.start[j], s.counters[j]))
    && (forall j, w :: 0 <= j < |s.nodes| && 0 <= w < Votes(s, j) ==>
          Covers(s.start[j], s.samples[j][w]) && Covers(s.samples[j][w], s.counters[j]))
    && (forall j: nat, w: nat :: j < |s.nodes| && w < |s.evals| ==> Bracketed(s, j, w))
  }

  ghost predicate Tree(s: Net)
    requires Shape(s)
  {
    && (forall i :: 0 < i < |s.nodes| ==> Standing(s, i) && Edge(s, i) && Verdict(s, i))
    && (forall i :: 0 <= i < |s.nodes| ==> NoChild(s, i))
  }

  ghost predicate Inv(s: Net) {
    && Shape(s)
    && Tree(s)
    && Root(s)
    && Grounds(s)
    && History(s)
  }
}
