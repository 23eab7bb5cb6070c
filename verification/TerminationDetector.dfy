/** `td_attempt_vote` on the symmetric array of detection contexts, updated in place.  Between the two
    sends of a broadcast the other elements may take any number of steps; which ones is a parameter,
    and steps that are not possible at that moment are passed over. */
module TerminationDetector {
  import opened TerminationModel

  /** After `td_set_counters`, before the vote proper. */
  function Ready(s: Net, i: nat): Net
    requires Shape(s) && i < |s.nodes|
  {
    s.(nodes := s.nodes[i := s.nodes[i].(token := SetCounters(s.nodes[i].token, s.counters[i]))])
  }

  lemma JudgeIsEvaluate(s: Net)
    requires Shape(s) && |s.nodes| > 1 && s.nodes[0].up && HaveVotes(s.nodes[0], Children(0, |s.nodes|))
    ensures Attempt(s, 0) == Evaluate(s)
  {
    hide HaveVotes, Evaluate;
  }

  lemma DownBranches(s: Net, i: nat)
    requires Shape(s) && i < |s.nodes| && |s.nodes| > 1 && !s.nodes[i].up
    requires i == 0 || s.nodes[i].parentVoted > s.nodes[i].lastParent
    ensures Attempt(s, i) == if LeftChild(i) < |s.nodes| then PassVerdict(s, i)
                             else if s.nodes[i].down.terminated then LeafDone(s, i) else VoteAgain(s, i)
    ensures LeftChild(i) >= |s.nodes| ==> 0 < i
  {
    hide PassVerdict, LeafDone, VoteAgain;
  }

  // ---------------------------------------------------------------- the others

  /** A step of somebody else: a vote or a send of another element, or work on other counters. */
  predicate IsOthers(s: Net, a: Action, me: nat)
    requires Enabled(s, a) && me < |s.nodes|
  {
    match a
    case Work(c) => |c| == |s.counters| && c[me] == s.counters[me]
    case Vote(i) => i != me
    case SendRight(i) => i != me
  }

  /** What everyone but `me` does: the possible ones among `steps`. */
  function Others(s: Net, me: nat, steps: seq<Action>): Net
    decreases |steps|
  {
    if steps == [] then s
    else
      var a := steps[0];
      Others(if Enabled(s, a) && me < |s.nodes| && IsOthers(s, a, me) then Apply(s, a) else s, me, steps[1..])
  }

  /** What the others cannot change about element `me`: they only fill its mailboxes. */
  predicate MyPart(s: Net, s': Net, me: nat) {
    && Shape(s) && Shape(s') && |s'.nodes| == |s.nodes| && me < |s.nodes|
    && s'.counters[me] == s.counters[me] && s'.samples[me] == s.samples[me]
    && var d, d' := s.nodes[me], s'.nodes[me];
    d' == d.(down := d'.down, upleft := d'.upleft, upright := d'.upright,
             leftVoted := d'.leftVoted, rightVoted := d'.rightVoted, parentVoted := d'.parentVoted)
  }

  lemma ClimberLeavesMyPart(s: Net, i: nat, me: nat)
    requires Shape(s) && 0 < i < |s.nodes| && i != me && me < |s.nodes|
    ensures MyPart(s, VoteUp(s, i), me) && MyPart(s, VoteAgain(s, i), me)
  {
    hide Collected;
  }

  lemma TellerLeavesMyPart(s: Net, i: nat, me: nat)
    requires Shape(s) && i < |s.nodes| && i != me && me < |s.nodes|
    ensures MyPart(s, PassVerdict(s, i), me) && MyPart(s, LeafDone(s, i), me)
    ensures RightChild(i) < |s.nodes| ==> MyPart(s, TellRight(s, i), me)
  {
  }

  lemma RootLeavesMyPart(s: Net, me: nat)
    requires Shape(s) && 0 < me < |s.nodes|
    ensures MyPart(s, Evaluate(s), me)
  {
    hide Collected, Decides;
  }

  lemma VoterLeavesMyPart(s: Net, i: nat, me: nat)
    requires Shape(s) && i < |s.nodes| && i != me && me < |s.nodes|
    ensures MyPart(s, Attempt(s, i), me)
  {
    hide HaveVotes, MyPart, VoteUp, VoteAgain, PassVerdict, LeafDone, Evaluate;
    TellerLeavesMyPart(s, i, me);
    if i > 0 {
      ClimberLeavesMyPart(s, i, me);
    } else {
      RootLeavesMyPart(s, me);
    }
    WaiterLeavesMyPart(s, i, me);
  }

  lemma WaiterLeavesMyPart(s: Net, i: nat, me: nat)
    requires Shape(s) && i < |s.nodes| && i != me && me < |s.nodes|
    ensures MyPart(s, s.(nodes := s.nodes[i := s.nodes[i].(token := SetCounters(s.nodes[i].token, s.counters[i]))]), me)
  {
  }

  lemma OtherLeavesMyPart(s: Net, a: Action, me: nat)
    requires Enabled(s, a) && me < |s.nodes| && IsOthers(s, a, me)
    ensures MyPart(s, Apply(s, a), me)
  {
    match a
    case Work(c) =>
    case Vote(i) =>
      hide MyPart, Attempt, BranchOf;
      VoterLeavesMyPart(s, i, me);
    case SendRight(i) =>
      hide MyPart, TellRight;
      TellerLeavesMyPart(s, i, me);
  }

  lemma {:induction false} OthersLeaveMyPart(s: Net, me: nat, steps: seq<Action>)
    requires Shape(s) && me < |s.nodes|
    ensures MyPart(s, Others(s, me, steps), me)
    decreases |steps|
  {
    hide Enabled, Apply, IsOthers;
    if steps != [] {
      var a := steps[0];
      if Enabled(s, a) && IsOthers(s, a, me) {
        OtherLeavesMyPart(s, a, me);
        OthersLeaveMyPart(Apply(s, a), me, steps[1..]);
      } else {
        OthersLeaveMyPart(s, me, steps[1..]);
      }
    }
  }

  /** A whole call, with what the others do in the middle of a broadcast to two children. */
  function Call(s: Net, me: nat, gap: seq<Action>): Net
    requires Shape(s) && me < |s.nodes|
  {
    var s1 := Attempt(s, me);
    if me < |s1.nodes| && s1.nodes[me].pending then
      var s2 := Others(s1, me, gap);
      if Shape(s2) && RightChild(me) < |s2.nodes| then TellRight(s2, me) else s2
    else s1
  }

  lemma AttemptLeaves(s: Net, me: nat)
    requires Shape(s) && me < |s.nodes| && !s.nodes[me].pending
    ensures Shape(Attempt(s, me)) && |Attempt(s, me).nodes| == |s.nodes|
    ensures Attempt(s, me).counters == s.counters
    ensures Attempt(s, me).nodes[me].pending ==> RightChild(me) < |s.nodes|
  {
    hide HaveVotes, Children, Decides, Collected;
  }

  // ---------------------------------------------------------------- in place

  /** The contexts of all processing elements, as each of them sees them through remote access. */
  class Detector {
    const td: array<Node>
    /** Everybody's work counters, and the history; its copy of the contexts is not used. */
    var world: Net

    function View(): Net
      reads this, td
    {
      world.(nodes := td[..])
    }

    /** `td_create` and `td_reset`. */
    constructor (nproc: nat)
      requires nproc > 0
      ensures fresh(td) && td.Length == nproc && Init(View())
    {
      td := new Node[nproc](_ => FRESH_NODE);
      var none := seq(nproc, i => Counters(0, 0));
      world := Net([], none, seq(nproc, i => []), [], none);
    }

    /** The others' turn. */
    method Yield(me: nat, turn: seq<Action>)
      requires Shape(View()) && me < td.Length
      modifies this, td
      ensures View() == Others(old(View()), me, turn) && MyPart(old(View()), View(), me)
    {
      hide Others;
      OthersLeaveMyPart(View(), me, turn);
      var s := Others(View(), me, turn);
      world := s;
      forall i | 0 <= i < td.Length {
        td[i] := s.nodes[i];
      }
      assert td[..] == s.nodes;
    }

    method PassTokenUp(me: nat)
      requires 0 < me < td.Length
      modifies td
      ensures td[..] == PassUp(old(td[..]), me, old(td[me].send))
    {
      var p := (me + 1) / 2 - 1;
      if me % 2 == 1 {
        td[p] := td[p].(upleft := td[me].send, leftVoted := td[p].leftVoted + 1);
      } else {
        td[p] := td[p].(upright := td[me].send, rightVoted := td[p].rightVoted + 1);
      }
    }

    /** The send to the left child in `pass_token_down`. */
    method PassTokenLeft(me: nat)
      requires me < td.Length
      modifies td
      ensures td[..] == PassLeft(old(td[..]), me, old(td[me].send))
    {
      var l := 2 * (me + 1) - 1;
      if l < td.Length {
        td[l] := td[l].(down := td[me].send, parentVoted := td[l].parentVoted + 1);
      }
    }

    /** The send to the right child. */
    method PassTokenRight(me: nat)
      requires me < td.Length && Shape(View()) && RightChild(me) < td.Length
      modifies td
      ensures View() == TellRight(old(View()), me)
    {
      var r := 2 * (me + 1);
      td[r] := td[r].(down := td[me].send, parentVoted := td[r].parentVoted + 1);
      td[me] := td[me].(pending := false);
    }

    /** Case 1 of `td_attempt_vote`: the token moves down and the parent has spoken. */
    method VoteDown(me: nat, ghost net: Net)
      requires Shape(net) && me < |net.nodes| && td[..] == Ready(net, me).nodes
      requires |net.nodes| > 1 && !net.nodes[me].up && !net.nodes[me].pending
      requires me == 0 || net.nodes[me].parentVoted > net.nodes[me].lastParent
      modifies td
      ensures td[..] == Attempt(net, me).nodes
    {
      DownBranches(net, me);
      hide Attempt, BranchOf, HaveVotes, Children;
      var ndown := td[me].parentVoted;
      if 2 * (me + 1) - 1 >= td.Length {
        if td[me].down.terminated {
          td[me] := td[me].(token := td[me].token.(terminated := true));
        } else {
          td[me] := td[me].(send := td[me].token);
          PassTokenUp(me);
          td[me] := td[me].(lastParent := ndown);
        }
      } else {
        if td[me].down.terminated {
          td[me] := td[me].(token := td[me].token.(terminated := true));
        }
        td[me] := td[me].(send := td[me].down);
        PassTokenLeft(me);
        td[me] := td[me].(up := true, pending := 2 * (me + 1) < td.Length);
        if !td[me].down.terminated {
          td[me] := td[me].(lastParent := ndown);
        }
      }
    }

    /** Case 2, at the root: all children have voted. */
    method Judge(ghost net: Net)
      requires Shape(net) && td[..] == Ready(net, 0).nodes
      requires |net.nodes| > 1 && net.nodes[0].up && !net.nodes[0].pending
      requires HaveVotes(net.nodes[0], Children(0, |net.nodes|))
      modifies td
      ensures td[..] == Attempt(net, 0).nodes
    {
      JudgeIsEvaluate(net);
      hide HaveVotes, Attempt, BranchOf, Children;
      var nleft, nright := td[0].leftVoted, td[0].rightVoted;
      var spawned := td[0].token.spawned + td[0].upleft.spawned + td[0].upright.spawned;
      var completed := td[0].token.completed + td[0].upleft.completed + td[0].upright.completed;
      if spawned == td[0].lastSpawned && completed == td[0].lastCompleted && spawned == completed {
        td[0] := td[0].(token := td[0].token.(terminated := true));
      }
      td[0] := td[0].(lastSpawned := spawned, lastCompleted := completed);
      td[0] := td[0].(send := Token(td[0].token.terminated, spawned, completed));
      PassTokenLeft(0);
      td[0] := td[0].(up := true, pending := 2 < td.Length);
      if !td[0].token.terminated {
        td[0] := td[0].(lastLeft := nleft, lastRight := nright);
      }
    }

    /** Case 2, elsewhere. */
    method Climb(me: nat, ghost net: Net)
      requires Shape(net) && 0 < me < |net.nodes| && td[..] == Ready(net, me).nodes
      requires |net.nodes| > 1 && net.nodes[me].up && !net.nodes[me].pending
      requires HaveVotes(net.nodes[me], Children(me, |net.nodes|))
      modifies td
      ensures td[..] == Attempt(net, me).nodes
    {
      var nleft, nright := td[me].leftVoted, td[me].rightVoted;
      var spawned := td[me].token.spawned + td[me].upleft.spawned + td[me].upright.spawned;
      var completed := td[me].token.completed + td[me].upleft.completed + td[me].upright.completed;
      td[me] := td[me].(send := Token(td[me].token.terminated, spawned, completed));
      PassTokenUp(me);
      td[me] := td[me].(up := false);
      if !td[me].token.terminated {
        td[me] := td[me].(lastLeft := nleft, lastRight := nright);
      }
      hide HaveVotes;
    }

    /** A call up to the first send of a broadcast. */
    method FirstHalf(me: nat, c: Counters, ghost net: Net)
      requires Shape(net) && me < |net.nodes| && net.nodes == td[..] && net.counters[me] == c
      requires !td[me].pending
      modifies td
      ensures td[..] == Attempt(net, me).nodes
    {
      td[me] := td[me].(token := td[me].token.(spawned := c.spawned, completed := c.completed));
      if td.Length == 1 {
        if c.spawned == td[0].lastSpawned && c.completed == td[0].lastCompleted && c.spawned == c.completed {
          td[0] := td[0].(token := td[0].token.(terminated := true));
        }
        td[0] := td[0].(lastSpawned := c.spawned, lastCompleted := c.completed);
      } else if !td[me].up {
        if me == 0 || td[me].parentVoted > td[me].lastParent {
          VoteDown(me, net);
        }
      } else {
        var l, r := 2 * (me + 1) - 1, 2 * (me + 1);
        if (l >= td.Length || td[me].leftVoted > td[me].lastLeft)
          && (r >= td.Length || td[me].rightVoted > td[me].lastRight) {
          if me == 0 {
            Judge(net);
          } else {
            Climb(me, net);
          }
        }
      }
    }

    /** `td_set_counters` and `td_attempt_vote` of element `me`. */
    method AttemptVote(me: nat, gap: seq<Action>) returns (done: bool)
      requires Shape(View()) && me < td.Length && !td[me].pending
      modifies this, td
      ensures Shape(old(View())) && View() == Call(old(View()), me, gap)
      ensures Shape(View()) && me < td.Length && (done <==> Detected(View(), me))
    {
      ghost var net := View();
      hide Attempt, Others, TellRight;
      AttemptLeaves(net, me);
      var next := Attempt(View(), me);
      FirstHalf(me, world.counters[me], net);
      world := next;
      assert View() == next;
      if td[me].pending {
        Yield(me, gap);
        TellRightShape(View(), me);
        PassTokenRight(me);
      }
      done := td[me].token.terminated;
    }
  }

  lemma TellRightShape(s: Net, me: nat)
    requires Shape(s) && RightChild(me) < |s.nodes|
    ensures Shape(TellRight(s, me))
  {
  }

  /** Whatever the others can do, they can do it in a gap. */
  lemma {:induction false} AnyGap(ss: seq<Net>, acts: seq<Action>, me: nat)
    requires |ss| == |acts| + 1
    requires forall i :: 0 <= i < |acts| ==>
               && Enabled(ss[i], acts[i]) && me < |ss[i].nodes| && IsOthers(ss[i], acts[i], me)
               && ss[i + 1] == Apply(ss[i], acts[i])
    ensures Others(ss[0], me, acts) == ss[|acts|]
    decreases |acts|
  {
    hide Enabled, Apply, IsOthers;
    if acts != [] {
      assert Enabled(ss[0], acts[0]) && ss[1] == Apply(ss[0], acts[0]);
      assert me < |ss[0].nodes| && IsOthers(ss[0], acts[0], me);
      AnyGap(ss[1..], acts[1..], me);
    }
  }
}
