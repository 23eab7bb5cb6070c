/** Termination detection (libtc/termination.c): counter waves on a binary tree of processing
    elements laid out like a heap.

    A wave climbs from the leaves to the root, each element adding the counters it samples at its
    own vote; the root compares the sum with that of the previous wave and broadcasts its verdict.
    A put of a token together with the increment of its vote counter is one step; a broadcast to
    two children is two steps. */
module TerminationModel {

  datatype Counters = Counters(spawned: nat, completed: nat)

  datatype Token = Token(terminated: bool, spawned: nat, completed: nat)

  /** `td_t`.  `pending` is set while an element has signalled its left child and not yet its right. */
  datatype Node = Node(
    up: bool, token: Token, down: Token, upleft: Token, upright: Token, send: Token,
    leftVoted: nat, rightVoted: nat, parentVoted: nat,
    lastLeft: nat, lastRight: nat, lastParent: nat,
    lastSpawned: nat, lastCompleted: nat, pending: bool)

  /** All elements, their work counters, and the history of the waves: what each element sampled
      at each of its votes, and what the counters really were at the start and at each of the
      root's evaluations. */
  datatype Net = Net(
    nodes: seq<Node>, counters: seq<Counters>,
    samples: seq<seq<Counters>>, evals: seq<seq<Counters>>, start: seq<Counters>)

  datatype Action =
    | Work(counters: seq<Counters>)
    | Vote(i: nat)
    | SendRight(i: nat)

  // ---------------------------------------------------------------- the tree

  function Parent(i: nat): nat
    requires i > 0
  {
    (i + 1) / 2 - 1
  }

  function LeftChild(i: nat): nat {
    2 * (i + 1) - 1
  }

  function RightChild(i: nat): nat {
    LeftChild(i) + 1
  }

  function Children(i: nat, n: nat): nat {
    (if LeftChild(i) < n then 1 else 0) + (if RightChild(i) < n then 1 else 0)
  }

  predicate IsLeft(i: nat) {
    i % 2 == 1
  }

  // ---------------------------------------------------------------- states

  const FRESH_TOKEN := Token(false, 0, 0)
  const FRESH_NODE := Node(true, FRESH_TOKEN, FRESH_TOKEN, FRESH_TOKEN, FRESH_TOKEN, FRESH_TOKEN, 0, 0, 0, 0, 0,
    0, 0, 0, false)

  predicate Shape(s: Net) {
    && |s.nodes| > 0
    && |s.counters| == |s.nodes|
    && |s.samples| == |s.nodes|
    && |s.start| == |s.nodes|
  }

  /** `td_reset`. */
  predicate Init(s: Net) {
    && Shape(s)
    && (forall i :: 0 <= i < |s.nodes| ==> s.nodes[i] == FRESH_NODE && s.samples[i] == [])
    && s.evals == [] && s.start == s.counters
  }

  predicate Covers(a: Counters, b: Counters) {
    a.spawned <= b.spawned && a.completed <= b.completed
  }

  /** Counters only grow. */
  predicate Grows(a: seq<Counters>, b: seq<Counters>) {
    |a| == |b| && forall i :: 0 <= i < |a| ==> Covers(a[i], b[i])
  }

  // ---------------------------------------------------------------- one vote

  /** `td_set_counters`. */
  function SetCounters(t: Token, c: Counters): Token {
    t.(spawned := c.spawned, completed := c.completed)
  }

  /** What an element has collected when it votes: its own counters and its children's tokens. */
  function Collected(d: Node, c: Counters): Counters {
    Counters(c.spawned + d.upleft.spawned + d.upright.spawned,
             c.completed + d.upleft.completed + d.upright.completed)
  }

  predicate HaveVotes(d: Node, children: nat) {
    match children
    case 0 => true
    case 1 => d.leftVoted > d.lastLeft
    case _ => d.leftVoted > d.lastLeft && d.rightVoted > d.lastRight
  }

  /** The receiving side of `pass_token_up`. */
  function Voted(p: Node, left: bool, t: Token): Node {
    if left then p.(upleft := t, leftVoted := p.leftVoted + 1)
    else p.(upright := t, rightVoted := p.rightVoted + 1)
  }

  /** The receiving side of `pass_token_down`. */
  function Told(c: Node, t: Token): Node {
    c.(down := t, parentVoted := c.parentVoted + 1)
  }

  function PassUp(nodes: seq<Node>, i: nat, t: Token): (r: seq<Node>)
    requires 0 < i < |nodes|
    ensures |r| == |nodes|
  {
    nodes[Parent(i) := Voted(nodes[Parent(i)], IsLeft(i), t)]
  }

  function PassLeft(nodes: seq<Node>, i: nat, t: Token): (r: seq<Node>)
    ensures |r| == |nodes|
  {
    var l := LeftChild(i);
    if l < |nodes| then nodes[l := Told(nodes[l], t)] else nodes
  }

  /** The vote of an element that is going up. */
  function VoteUp(s: Net, i: nat): Net
    requires Shape(s) && 0 < i < |s.nodes|
  {
    var c := s.counters[i];
    var sum := Collected(s.nodes[i], c);
    var d := s.nodes[i];
    var d' := d.(token := SetCounters(d.token, c), send := Token(d.token.terminated, sum.spawned, sum.completed),
                 up := false,
                 lastLeft := if d.token.terminated then d.lastLeft else d.leftVoted,
                 lastRight := if d.token.terminated then d.lastRight else d.rightVoted);
    s.(nodes := PassUp(s.nodes[i := d'], i, d'.send), samples := s.samples[i := s.samples[i] + [c]])
  }

  /** A leaf that has been told to start over. */
  function VoteAgain(s: Net, i: nat): Net
    requires Shape(s) && 0 < i < |s.nodes|
  {
    var c := s.counters[i];
    var d := s.nodes[i];
    var t := SetCounters(d.token, c);
    var d' := d.(token := t, send := t, lastParent := d.parentVoted);
    s.(nodes := PassUp(s.nodes[i := d'], i, t), samples := s.samples[i := s.samples[i] + [c]])
  }

  /** A leaf that has been told that all work is done. */
  function LeafDone(s: Net, i: nat): Net
    requires Shape(s) && i < |s.nodes|
  {
    var d := s.nodes[i];
    s.(nodes := s.nodes[i := d.(token := SetCounters(d.token, s.counters[i]).(terminated := true))])
  }

  /** An inner element hands its parent's verdict on. */
  function PassVerdict(s: Net, i: nat): Net
    requires Shape(s) && i < |s.nodes|
  {
    var d := s.nodes[i];
    var t := SetCounters(d.token, s.counters[i]);
    var d' := d.(token := if d.down.terminated then t.(terminated := true) else t,
                 send := d.down, up := true,
                 pending := RightChild(i) < |s.nodes|,
                 lastParent := if d.down.terminated then d.lastParent else d.parentVoted);
    s.(nodes := PassLeft(s.nodes[i := d'], i, d.down))
  }

  /** The root's test: two successive waves agree, and every spawned task is completed. */
  predicate Decides(d: Node, sum: Counters) {
    sum.spawned == d.lastSpawned && sum.completed == d.lastCompleted && sum.spawned == sum.completed
  }

  function Evaluate(s: Net): Net
    requires Shape(s)
  {
    var d := s.nodes[0];
    var c := s.counters[0];
    var sum := Collected(d, c);
    var done := d.token.terminated || Decides(d, sum);
    var t := Token(done, sum.spawned, sum.completed);
    var d' := d.(token := Token(done, c.spawned, c.completed), send := t, up := true,
                 pending := RightChild(0) < |s.nodes|,
                 lastSpawned := sum.spawned, lastCompleted := sum.completed,
                 lastLeft := if done then d.lastLeft else d.leftVoted,
                 lastRight := if done then d.lastRight else d.rightVoted);
    s.(nodes := PassLeft(s.nodes[0 := d'], 0, t),
       samples := s.samples[0 := s.samples[0] + [c]], evals := s.evals + [s.counters])
  }

  /** The special case of a single element. */
  function EvaluateAlone(s: Net): Net
    requires Shape(s)
  {
    var d := s.nodes[0];
    var c := s.counters[0];
    var done := d.token.terminated || Decides(d, c);
    s.(nodes := s.nodes[0 := d.(token := Token(done, c.spawned, c.completed), lastSpawned := c.spawned,
      lastCompleted := c.completed)],
       samples := s.samples[0 := s.samples[0] + [c]], evals := s.evals + [s.counters])
  }

  /** Which branch of `td_attempt_vote` a call takes. */
  datatype Branch = Alone | Waits | Climbs | Restarts | Finishes | HandsDown | Judges

  function BranchOf(s: Net, i: nat): Branch
    requires Shape(s) && i < |s.nodes|
  {
    var d := s.nodes[i];
    var k := Children(i, |s.nodes|);
    if |s.nodes| == 1 then Alone
    else if !d.up then
      if i == 0 || d.parentVoted > d.lastParent then
        if k > 0 then HandsDown
        else if d.down.terminated then Finishes
        else if i > 0 then Restarts
        else Waits
      else Waits
    else if HaveVotes(d, k) then (if i == 0 then Judges else Climbs)
    else Waits
  }

  /** `td_set_counters` followed by `td_attempt_vote`. */
  function Attempt(s: Net, i: nat): Net
    requires Shape(s) && i < |s.nodes|
  {
    match BranchOf(s, i)
    case Alone => EvaluateAlone(s)
    case Waits => s.(nodes := s.nodes[i := s.nodes[i].(token := SetCounters(s.nodes[i].token, s.counters[i]))])
    case Climbs => VoteUp(s, i)
    case Restarts => VoteAgain(s, i)
    case Finishes => LeafDone(s, i)
    case HandsDown => PassVerdict(s, i)
    case Judges => Evaluate(s)
  }

  /** The second half of a broadcast to two children. */
  function TellRight(s: Net, i: nat): Net
    requires Shape(s) && i < |s.nodes| && RightChild(i) < |s.nodes|
  {
    var r := RightChild(i);
    s.(nodes := s.nodes[i := s.nodes[i].(pending := false)][r := Told(s.nodes[r], s.nodes[i].send)])
  }

  // ---------------------------------------------------------------- steps

  /** An element whose vote has returned 1 leaves its search loop and never votes again. */
  predicate Enabled(s: Net, a: Action) {
    Shape(s) &&
    match a
    case Work(c) => Grows(s.counters, c)
    case Vote(i) => i < |s.nodes| && !s.nodes[i].pending && !s.nodes[i].token.terminated
    case SendRight(i) => i < |s.nodes| && s.nodes[i].pending && RightChild(i) < |s.nodes|
  }

  function Apply(s: Net, a: Action): Net
    requires Enabled(s, a)
  {
    match a
    case Work(c) => s.(counters := c)
    case Vote(i) => Attempt(s, i)
    case SendRight(i) => TellRight(s, i)
  }

  // ---------------------------------------------------------------- totals

  function Add(a: Counters, b: Counters): Counters {
    Counters(a.spawned + b.spawned, a.completed + b.completed)
  }

  /** The counters of all elements added up. */
  function Total(cs: seq<Counters>): Counters {
    if cs == [] then Counters(0, 0) else Add(Total(cs[..|cs| - 1]), cs[|cs| - 1])
  }

  /** All work that was ever spawned is completed. */
  predicate Balanced(cs: seq<Counters>) {
    Total(cs).spawned == Total(cs).completed
  }

  /** The result of the last vote of element `i`. */
  predicate Detected(s: Net, i: nat)
    requires Shape(s) && i < |s.nodes|
  {
    s.nodes[i].token.terminated
  }
}
