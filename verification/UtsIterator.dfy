/** The iterator class, the sequential traversal and the two task functions as they are written,
    updating iterators and counters in place. */
module UtsIterator {
  import opened UtsModel
  import opened UtsSchedule

  /** The static counters of `UTSIterator`. */
  class Counters {
    var nNodes: nat
    var nLeaves: nat
    var maxDepth: nat
    ghost var visited: multiset<seq<nat>>

    ghost function Value(): Tally
      reads this
    {
      Tally(nNodes, nLeaves, maxDepth, visited)
    }

    /** `resetStats`. */
    constructor ()
      ensures Value() == ZERO
    {
      nNodes, nLeaves, maxDepth, visited := 0, 0, 0, multiset{};
    }
  }

  class UTSIterator {
    var node: Tree
    var height: nat
    var currentChild: nat
    /** Names the node; not in the program. */
    var path: seq<nat>

    function Value(): Iter
      reads this
    {
      Iter(node, height, currentChild, path)
    }

    constructor (t: Tree, h: nat, p: seq<nat>)
      ensures Value() == Iter(t, h, 0, p)
    {
      node, height, currentChild, path := t, h, 0, p;
    }

    predicate HasMore()
      reads this
    {
      currentChild < |node.children|
    }

    method Next() returns (child: UTSIterator)
      requires HasMore()
      modifies this`currentChild
      ensures fresh(child) && HasNext(old(Value()))
      ensures Value() == Advanced(old(Value())) && child.Value() == UtsModel.ChildOf(old(Value()))
    {
      child := new UTSIterator(node.children[currentChild], height + 1, path + [currentChild]);
      currentChild := currentChild + 1;
    }

    /** Counts the node. */
    method Process(stats: Counters)
      modifies stats
      ensures stats.Value() == Join(old(stats.Value()), Own(Value()))
    {
      stats.nNodes := stats.nNodes + 1;
      if |node.children| == 0 {
        stats.nLeaves := stats.nLeaves + 1;
      }
      if height > stats.maxDepth {
        stats.maxDepth := height;
      }
      stats.visited := stats.visited + multiset{path};
    }
  }

  /** `ldbal_sequential` counts exactly what is left to count below and including the node. */
  method LdbalSequential(iter: UTSIterator, stats: Counters)
    modifies iter, stats
    ensures stats.Value() == Join(old(stats.Value()), Work(old(iter.Value())))
    ensures !iter.HasMore()
    decreases iter.node
  {
    ghost var it, base := iter.Value(), stats.Value();
    iter.Process(stats);
    JoinAssoc(base, Own(it), Rest(it));
    hide Join, Own, OfChildren;
    while iter.HasMore()
      invariant iter.node == it.node
      invariant Join(stats.Value(), Rest(iter.Value())) == Join(base, Work(it))
      decreases |iter.node.children| - iter.currentChild
    {
      ghost var before, done := iter.Value(), stats.Value();
      RestUnfolds(before);
      var child := iter.Next();
      LdbalSequential(child, stats);
      JoinAssoc(done, Work(UtsModel.ChildOf(before)), Rest(iter.Value()));
    }
    RestEnds(iter.Value());
    JoinZero(stats.Value());
  }

  /** The iterators of the children still to come. */
  function Remaining(it: Iter): seq<Iter>
    decreases if HasNext(it) then |it.node.children| - it.currentChild else 0
  {
    if HasNext(it) then [UtsModel.ChildOf(it)] + Remaining(Advanced(it)) else []
  }

  function FirstEffect(d: Todo, rest: (Tally, seq<Iter>)): (Tally, seq<Iter>) {
    match d
    case Process(it) => (Join(Own(it), rest.0), rest.1)
    case AddTask(it) => (rest.0, [it] + rest.1)
    case Expand(it) => (rest.0, Remaining(it) + rest.1)
  }

  /** What a callback counts and adds when it is run to its end. */
  function Effects(ds: seq<Todo>): (Tally, seq<Iter>)
  {
    if ds == [] then (ZERO, []) else FirstEffect(ds[0], Effects(ds[1..]))
  }

  lemma {:induction false} OneEffect(d: Todo)
    ensures Effects([d]) == FirstEffect(d, (ZERO, []))
  {
    hide Join, Own, Remaining;
  }

  lemma {:induction false} TwoEffects(d: Todo, e: Todo)
    ensures Effects([d, e]) == FirstEffect(d, FirstEffect(e, (ZERO, [])))
  {
    OneEffect(e);
    assert [d, e][1..] == [e];
    hide Join, Own, Remaining;
  }

  /** The steps of the callback running on element `p`, with nobody else in between. */
  function Complete(s: Search, p: nat): Search
    requires |s.todo| == |s.tallies| && p < |s.todo|
    decreases TodosSteps(s.strict, s.todo[p])
  {
    if s.todo[p] == [] then s
    else
      GoShrinks(s, p);
      Complete(Do(s, Go(p)), p)
  }

  lemma {:induction false} GoShrinks(s: Search, p: nat)
    requires Possible(s, Go(p))
    ensures TodosSteps(s.strict, Do(s, Go(p)).todo[p]) < TodosSteps(s.strict, s.todo[p])
  {
    var d, rest := s.todo[p][0], s.todo[p][1..];
    assert s.todo[p] == [d] + rest;
    TodosUnfold(s.strict, d, rest);
    if d.Expand? {
      TodosUnfold(s.strict, Expand(Advanced(d.it)), rest);
    }
    hide TodosSteps, StrictSteps;
  }

  /** Run to its end, a callback counts and adds exactly its effects. */
  lemma {:induction false} EffectsAreSteps(s: Search, p: nat)
    requires |s.todo| == |s.tallies| && p < |s.todo|
    ensures var e := Effects(s.todo[p]);
            Complete(s, p) == s.(todo := s.todo[p := []], tallies := s.tallies[p := Join(s.tallies[p], e.0)],
              pending := s.pending + e.1)
    decreases TodosSteps(s.strict, s.todo[p])
  {
    hide Join, Own, TodosSteps;
    if s.todo[p] == [] {
      JoinZero(s.tallies[p]);
      assert s.todo[p := []] == s.todo && s.tallies[p := s.tallies[p]] == s.tallies && s.pending + [] == s.pending;
    } else {
      var s1, d, rest := Do(s, Go(p)), s.todo[p][0], s.todo[p][1..];
      GoShrinks(s, p);
      EffectsAreSteps(s1, p);
      var e := Effects(rest);
      match d
      case Process(it) => JoinAssoc(s.tallies[p], Own(it), e.0);
      case AddTask(it) => assert (s.pending + [it]) + e.1 == s.pending + ([it] + e.1);
      case Expand(it) => ExpandEffects(s, p, it, rest);
    }
  }

  lemma {:induction false} ExpandEffects(s: Search, p: nat, it: Iter, rest: seq<Todo>)
    requires Possible(s, Go(p)) && s.todo[p][0] == Expand(it) && rest == s.todo[p][1..]
    ensures var s1 := Do(s, Go(p));
            && s1.tallies == s.tallies && s1.todo[p := []] == s.todo[p := []]
            && Effects(s1.todo[p]).0 == Effects(s.todo[p]).0
            && s1.pending + Effects(s1.todo[p]).1 == s.pending + Effects(s.todo[p]).1
  {
    var s1, e := Do(s, Go(p)), Effects(rest);
    if HasNext(it) {
      assert s1.todo[p] == [Expand(Advanced(it))] + rest && s1.todo[p][1..] == rest;
      var x, more := UtsModel.ChildOf(it), Remaining(Advanced(it));
      assert (s.pending + [x]) + (more + e.1) == s.pending + (([x] + more) + e.1);
    } else {
      assert s1.todo[p] == rest;
      assert Remaining(it) + e.1 == e.1;
    }
  }

  lemma PlainEffects(it: Iter)
    ensures Effects(Callback(false, it)) == (Own(it), Remaining(it))
  {
    hide Join, Effects;
    TwoEffects(Process(it), Expand(it));
    assert Remaining(it) + [] == Remaining(it);
    JoinZero(Own(it));
  }

  /** `task_fcn`; `added` is what it hands to `gtc_add`. */
  method TaskFcn(iter: UTSIterator, stats: Counters) returns (added: seq<Iter>)
    modifies iter, stats
    ensures var e := Effects(Callback(false, old(iter.Value())));
            stats.Value() == Join(old(stats.Value()), e.0) && added == e.1
  {
    ghost var it := iter.Value();
    PlainEffects(it);
    iter.Process(stats);
    hide Join, Own, Effects;
    added := [];
    while iter.HasMore()
      invariant iter.node == it.node
      invariant added + Remaining(iter.Value()) == Remaining(it)
      invariant stats.Value() == old(Join(stats.Value(), Own(iter.Value())))
      decreases |iter.node.children| - iter.currentChild
    {
      ghost var before := iter.Value();
      var child := iter.Next();
      added := added + [child.Value()];
      assert Remaining(before) == [UtsModel.ChildOf(before)] + Remaining(iter.Value());
    }
  }

  lemma StrictEffects(it: Iter)
    ensures var e := Effects(Callback(true, it));
            if HasNext(it) then
              var child := UtsModel.ChildOf(it);
              if HasNext(Advanced(it)) then e == (ZERO, [Advanced(it), child]) else e == (Own(Advanced(it)), [child])
            else e == (Own(it), [])
  {
    hide Join, Effects;
    var ds := Callback(true, it);
    JoinZero(Own(Advanced(it)));
    JoinZero(Own(it));
    if |ds| == 2 {
      TwoEffects(ds[0], ds[1]);
      assert ds == [ds[0], ds[1]];
      assert [ds[1].it] + [] == [ds[1].it] && [ds[0].it] + [ds[1].it] == [ds[0].it, ds[1].it];
    } else {
      OneEffect(ds[0]);
      assert ds == [ds[0]];
    }
  }

  /** `strict_dfs_task_fcn`. */
  method StrictDfsTaskFcn(iter: UTSIterator, stats: Counters) returns (added: seq<Iter>)
    modifies iter, stats
    ensures var e := Effects(Callback(true, old(iter.Value())));
            stats.Value() == Join(old(stats.Value()), e.0) && added == e.1
  {
    StrictEffects(iter.Value());
    JoinZero(stats.Value());
    hide Join, Own, Effects;
    added := [];
    if iter.HasMore() {
      var child := iter.Next();
      if iter.HasMore() {
        added := added + [iter.Value()];
      } else {
        iter.Process(stats);
      }
      added := added + [child.Value()];
    } else {
      iter.Process(stats);
    }
  }

  /** The sequential traversal from the root gives the reference counts. */
  method Sequential(t: Tree) returns (stats: Counters)
    ensures fresh(stats) && stats.Value() == OfTree(t, 0, [])
  {
    stats := new Counters();
    var root := new UTSIterator(t, 0, []);
    LdbalSequential(root, stats);
    TreeUnfolds(t, 0, []);
    JoinZero(OfTree(t, 0, []));
  }
}
