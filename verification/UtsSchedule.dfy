/** Tree search on any number of elements, in any order: pending tasks are taken in whatever order the
    runtime delivers them, the steps of running callbacks interleave, and the counters joined at the
    end are those of the sequential traversal. */
module UtsSchedule {
  import opened UtsModel

  /** What a running callback still has to do. */
  datatype Todo = Process(it: Iter) | AddTask(it: Iter) | Expand(it: Iter)

  /** `strict` says which of the two task functions is registered. */
  datatype Search = Search(strict: bool, pending: seq<Iter>, todo: seq<seq<Todo>>, tallies: seq<Tally>)

  datatype Action = Start(p: nat, k: nat) | Go(p: nat)

  /** `task_fcn` processes the node and then adds all its children; `strict_dfs_task_fcn` adds one
      child, after putting the parent back or, when that was the last child, processing it. */
  function Callback(strict: bool, it: Iter): seq<Todo> {
    if !strict then [Process(it), Expand(it)]
    else if HasNext(it) then
      [if HasNext(Advanced(it)) then AddTask(Advanced(it)) else Process(Advanced(it)), AddTask(ChildOf(it))]
    else [Process(it)]
  }

  predicate Possible(s: Search, a: Action) {
    |s.todo| == |s.tallies| &&
    match a
    case Start(p, k) => p < |s.todo| && k < |s.pending| && s.todo[p] == []
    case Go(p) => p < |s.todo| && s.todo[p] != []
  }

  function Do(s: Search, a: Action): Search
    requires Possible(s, a)
  {
    match a
    case Start(p, k) =>
      s.(pending := s.pending[..k] + s.pending[k + 1..], todo := s.todo[p := Callback(s.strict, s.pending[k])])
    case Go(p) =>
      var rest := s.todo[p][1..];
      match s.todo[p][0]
      case Process(it) => s.(todo := s.todo[p := rest], tallies := s.tallies[p := Join(s.tallies[p], Own(it))])
      case AddTask(it) => s.(todo := s.todo[p := rest], pending := s.pending + [it])
      case Expand(it) =>
        if HasNext(it) then s.(todo := s.todo[p := [Expand(Advanced(it))] + rest], pending := s.pending + [ChildOf(it)])
        else s.(todo := s.todo[p := rest])
  }

  /** Element 0 seeds the search with the root. */
  function Seeded(strict: bool, t: Tree, npes: nat): Search {
    Search(strict, [Iter(t, 0, 0, [])], seq(npes, p => []), seq(npes, p => ZERO))
  }

  // ---------------------------------------------------------------- what is still to be counted

  function Sum(ts: seq<Tally>): Tally {
    if ts == [] then ZERO else Join(Sum(ts[..|ts| - 1]), ts[|ts| - 1])
  }

  function TodoWork(d: Todo): Tally {
    match d
    case Process(it) => Own(it)
    case AddTask(it) => Work(it)
    case Expand(it) => Rest(it)
  }

  function TodosWork(ds: seq<Todo>): Tally {
    if ds == [] then ZERO else Join(TodoWork(ds[0]), TodosWork(ds[1..]))
  }

  function Works(its: seq<Iter>): (r: seq<Tally>)
    ensures |r| == |its|
  {
    seq(|its|, i requires 0 <= i < |its| => Work(its[i]))
  }

  function Running(todo: seq<seq<Todo>>): (r: seq<Tally>)
    ensures |r| == |todo|
  {
    seq(|todo|, p requires 0 <= p < |todo| => TodosWork(todo[p]))
  }

  /** Counted so far and still to be counted. */
  function Whole(s: Search): Tally {
    Join(Sum(s.tallies), Join(Sum(Works(s.pending)), Sum(Running(s.todo))))
  }

  // ---------------------------------------------------------------- sums

  lemma {:induction false} SumOfTwo(a: seq<Tally>, b: seq<Tally>)
    ensures Sum(a + b) == Join(Sum(a), Sum(b))
    decreases |b|
  {
    if b == [] {
      assert a + b == a;
      JoinZero(Sum(a));
    } else {
      var z := |b| - 1;
      SumOfTwo(a, b[..z]);
      assert (a + b)[..|a + b| - 1] == a + b[..z];
      JoinAssoc(Sum(a), Sum(b[..z]), b[z]);
      hide Join;
    }
  }

  lemma {:induction false} SumOfOne(x: Tally)
    ensures Sum([x]) == x
  {
    JoinZero(x);
    hide Join;
  }

  /** The element at `i` taken out of a sum. */
  lemma {:induction false} SumWithout(a: seq<Tally>, i: nat)
    requires i < |a|
    ensures Sum(a) == Join(a[i], Sum(a[..i] + a[i + 1..]))
  {
    assert a == (a[..i] + [a[i]]) + a[i + 1..];
    SumOfTwo(a[..i] + [a[i]], a[i + 1..]);
    SumOfTwo(a[..i], [a[i]]);
    SumOfOne(a[i]);
    SumOfTwo(a[..i], a[i + 1..]);
    hide Sum;
    JoinSwap(Sum(a[..i]), a[i]);
    JoinAssoc(a[i], Sum(a[..i]), Sum(a[i + 1..]));
    hide Join;
  }

  /** Everything but the element at `i`. */
  function Others(a: seq<Tally>, i: nat): Tally
    requires i < |a|
  {
    Sum(a[..i] + a[i + 1..])
  }

  lemma {:induction false} SumUpdate(a: seq<Tally>, i: nat, x: Tally)
    requires i < |a|
    ensures Sum(a) == Join(a[i], Others(a, i))
    ensures Sum(a[i := x]) == Join(x, Others(a, i))
  {
    SumWithout(a, i);
    SumWithout(a[i := x], i);
    assert a[i := x][..i] + a[i := x][i + 1..] == a[..i] + a[i + 1..];
    hide Sum, Join;
  }

  // Joining is associative and commutative; the rearrangements a step needs.

  lemma ToFront(x: Tally, a: Tally, b: Tally)
    ensures Join(a, Join(x, b)) == Join(x, Join(a, b))
  {
    JoinAssoc(a, x, b);
    JoinAssoc(x, a, b);
    JoinSwap(a, x);
    hide Join;
  }

  /** A piece of work handed from the running to the pending or back. */
  lemma HandOver(t: Tally, p: Tally, x: Tally, r: Tally)
    ensures Join(t, Join(Join(x, p), r)) == Join(t, Join(p, Join(x, r)))
    ensures Join(t, Join(Join(p, x), r)) == Join(t, Join(p, Join(x, r)))
  {
    JoinAssoc(x, p, r);
    JoinAssoc(p, x, r);
    ToFront(x, p, r);
    hide Join;
  }

  /** A node that is counted. */
  lemma Counted(tp: Tally, t: Tally, x: Tally, p: Tally, r: Tally)
    ensures Join(Join(Join(tp, x), t), Join(p, r)) == Join(Join(tp, t), Join(p, Join(x, r)))
  {
    JoinAssoc(tp, x, t);
    JoinAssoc(tp, t, Join(p, Join(x, r)));
    JoinAssoc(tp, Join(x, t), Join(p, r));
    JoinAssoc(x, t, Join(p, r));
    ToFront(x, p, r);
    ToFront(x, t, Join(p, r));
    hide Join;
  }

  // ---------------------------------------------------------------- every step conserves the whole

  /** A callback has the work of its task to do, no more and no less. */
  lemma {:induction false} CallbackWork(strict: bool, it: Iter)
    ensures TodosWork(Callback(strict, it)) == Work(it)
  {
    TwoTodos(Process(it), Expand(it));
    OneTodo(Process(it));
    if HasNext(it) {
      RestUnfolds(it);
      var up := if HasNext(Advanced(it)) then AddTask(Advanced(it)) else Process(Advanced(it));
      TwoTodos(up, AddTask(ChildOf(it)));
      if !HasNext(Advanced(it)) {
        RestEnds(Advanced(it));
        JoinZero(Own(it));
        JoinZero(Work(ChildOf(it)));
      }
      hide OfChildren, Rest, TodosWork;
      ParentAndChild(Own(it), Work(ChildOf(it)), Rest(Advanced(it)));
    } else {
      RestEnds(it);
      JoinZero(Own(it));
    }
    hide TodosWork, OfChildren;
  }

  lemma ParentAndChild(own: Tally, child: Tally, rest: Tally)
    ensures Join(Join(own, rest), child) == Join(own, Join(child, rest))
  {
    JoinAssoc(own, rest, child);
    JoinSwap(rest, child);
  }

  lemma {:induction false} OneTodo(d: Todo)
    ensures TodosWork([d]) == TodoWork(d)
  {
    JoinZero(TodoWork(d));
    hide Join, TodoWork;
  }

  lemma {:induction false} TwoTodos(d: Todo, e: Todo)
    ensures TodosWork([d, e]) == Join(TodoWork(d), TodoWork(e))
  {
    OneTodo(e);
    assert [d, e][1..] == [e];
    hide Join, TodoWork;
  }

  lemma {:induction false} FirstTodo(d: Todo, ds: seq<Todo>)
    ensures TodosWork([d] + ds) == Join(TodoWork(d), TodosWork(ds))
  {
    assert ([d] + ds)[1..] == ds;
    hide Join, TodoWork;
  }

  lemma RunningUpdate(todo: seq<seq<Todo>>, p: nat, ds: seq<Todo>)
    requires p < |todo|
    ensures Running(todo)[p] == TodosWork(todo[p])
    ensures Running(todo[p := ds]) == Running(todo)[p := TodosWork(ds)]
  {
    hide TodosWork;
  }

  lemma WorksWithout(its: seq<Iter>, k: nat)
    requires k < |its|
    ensures Sum(Works(its)) == Join(Work(its[k]), Sum(Works(its[..k] + its[k + 1..])))
  {
    hide Work, Join;
    SumWithout(Works(its), k);
    assert Works(its)[..k] + Works(its)[k + 1..] == Works(its[..k] + its[k + 1..]);
    hide Sum;
  }

  lemma WorksWith(its: seq<Iter>, it: Iter)
    ensures Sum(Works(its + [it])) == Join(Sum(Works(its)), Work(it))
  {
    hide Work, Join;
    assert Works(its + [it]) == Works(its) + [Work(it)];
    SumOfTwo(Works(its), [Work(it)]);
    SumOfOne(Work(it));
    hide Sum;
  }

  /** What is running at `p`, apart from the rest. */
  lemma RunningAt(todo: seq<seq<Todo>>, p: nat, ds: seq<Todo>)
    requires p < |todo|
    ensures Sum(Running(todo)) == Join(TodosWork(todo[p]), Others(Running(todo), p))
    ensures Sum(Running(todo[p := ds])) == Join(TodosWork(ds), Others(Running(todo), p))
  {
    hide TodosWork, Join, Sum;
    RunningUpdate(todo, p, ds);
    SumUpdate(Running(todo), p, TodosWork(ds));
  }

  lemma {:induction false} StartKeeps(s: Search, p: nat, k: nat)
    requires Possible(s, Start(p, k))
    ensures Whole(Do(s, Start(p, k))) == Whole(s)
  {
    hide TodosWork, Callback, Join, Sum, Work, Others, Works, Running;
    var ds, o := Callback(s.strict, s.pending[k]), Others(Running(s.todo), p);
    var left := s.pending[..k] + s.pending[k + 1..];
    CallbackWork(s.strict, s.pending[k]);
    WorksWithout(s.pending, k);
    RunningAt(s.todo, p, ds);
    NothingTodo(s.todo[p], o);
    HandOver(Sum(s.tallies), Sum(Works(left)), Work(s.pending[k]), o);
  }

  lemma {:induction false} NothingTodo(ds: seq<Todo>, o: Tally)
    requires ds == []
    ensures Join(TodosWork(ds), o) == o
  {
    JoinZero(o);
  }

  lemma {:induction false} GoKeeps(s: Search, p: nat)
    requires Possible(s, Go(p))
    ensures Whole(Do(s, Go(p))) == Whole(s)
  {
    var d, rest, o := s.todo[p][0], s.todo[p][1..], Others(Running(s.todo), p);
    assert s.todo[p] == [d] + rest;
    FirstTodo(d, rest);
    hide TodosWork, Join, Sum, Work, Others, Own, Rest;
    RunningAt(s.todo, p, rest);
    JoinAssoc(TodoWork(d), TodosWork(rest), o);
    match d
    case Process(it) =>
      SumUpdate(s.tallies, p, Join(s.tallies[p], Own(it)));
      Counted(s.tallies[p], Others(s.tallies, p), Own(it), Sum(Works(s.pending)), Join(TodosWork(rest), o));
    case AddTask(it) =>
      WorksWith(s.pending, it);
      HandOver(Sum(s.tallies), Sum(Works(s.pending)), Work(it), Join(TodosWork(rest), o));
    case Expand(it) =>
      if HasNext(it) {
        ExpandKeeps(s, p, it, rest);
      } else {
        RestEnds(it);
        JoinZero(Join(TodosWork(rest), o));
      }
  }

  lemma {:induction false} ExpandKeeps(s: Search, p: nat, it: Iter, rest: seq<Todo>)
    requires Possible(s, Go(p)) && s.todo[p] == [Expand(it)] + rest && HasNext(it)
    ensures Whole(Do(s, Go(p))) == Whole(s)
  {
    var o, more := Others(Running(s.todo), p), [Expand(Advanced(it))] + rest;
    assert s.todo[p][1..] == rest;
    FirstTodo(Expand(it), rest);
    FirstTodo(Expand(Advanced(it)), rest);
    hide TodosWork, Join, Sum, Work, Others, Own, Rest, Advanced, ChildOf;
    RunningAt(s.todo, p, more);
    RestUnfolds(it);
    WorksWith(s.pending, ChildOf(it));
    var x, y, z := Work(ChildOf(it)), Rest(Advanced(it)), TodosWork(rest);
    JoinAssoc(x, y, z);
    JoinAssoc(x, Join(y, z), o);
    HandOver(Sum(s.tallies), Sum(Works(s.pending)), x, Join(Join(y, z), o));
  }

  lemma DoKeeps(s: Search, a: Action)
    requires Possible(s, a)
    ensures Whole(Do(s, a)) == Whole(s)
  {
    hide Whole;
    match a
    case Start(p, k) => StartKeeps(s, p, k);
    case Go(p) => GoKeeps(s, p);
  }

  // ---------------------------------------------------------------- every search ends

  /** Steps it takes to expand a node from child `c` on, and everything below. */
  function ExpandSteps(t: Tree, c: nat): nat
    decreases t, if c < |t.children| then |t.children| - c else 0
  {
    if c >= |t.children| then 1 else 1 + (2 + ExpandSteps(t.children[c], 0)) + ExpandSteps(t, c + 1)
  }

  /** The same for the strict callback, which comes back to the node for each child. */
  function StrictSteps(t: Tree, c: nat): nat
    decreases t, if c < |t.children| then |t.children| - c else 0
  {
    if c >= |t.children| then 2
    else 3 + StrictSteps(t.children[c], 0) + if c + 1 < |t.children| then StrictSteps(t, c + 1) else 0
  }

  function TaskSteps(strict: bool, it: Iter): nat {
    if strict then StrictSteps(it.node, it.currentChild) else 2 + ExpandSteps(it.node, it.currentChild)
  }

  function TodoSteps(strict: bool, d: Todo): nat {
    match d
    case Process(it) => 1
    case AddTask(it) => 1 + TaskSteps(strict, it)
    case Expand(it) => ExpandSteps(it.node, it.currentChild)
  }

  function TasksSteps(strict: bool, its: seq<Iter>): nat {
    if its == [] then 0 else TasksSteps(strict, its[..|its| - 1]) + TaskSteps(strict, its[|its| - 1])
  }

  function TodosSteps(strict: bool, ds: seq<Todo>): nat {
    if ds == [] then 0 else TodoSteps(strict, ds[0]) + TodosSteps(strict, ds[1..])
  }

  function RunningSteps(strict: bool, todo: seq<seq<Todo>>): nat {
    if todo == [] then 0 else RunningSteps(strict, todo[..|todo| - 1]) + TodosSteps(strict, todo[|todo| - 1])
  }

  /** Steps left, whatever the order. */
  function Left(s: Search): nat {
    TasksSteps(s.strict, s.pending) + RunningSteps(s.strict, s.todo)
  }

  lemma {:induction false} TasksWithout(strict: bool, its: seq<Iter>, k: nat)
    requires k < |its|
    ensures TasksSteps(strict, its) == TaskSteps(strict, its[k]) + TasksSteps(strict, its[..k] + its[k + 1..])
    decreases |its|
  {
    var z := |its| - 1;
    var w := its[..k] + its[k + 1..];
    if k == z {
      assert w == its[..z];
    } else {
      TasksWithout(strict, its[..z], k);
      assert w[..|w| - 1] == its[..z][..k] + its[..z][k + 1..];
    }
    hide TaskSteps;
  }

  lemma {:induction false} RunningStepsAt(strict: bool, todo: seq<seq<Todo>>, p: nat, ds: seq<Todo>)
    requires p < |todo|
    ensures RunningSteps(strict, todo[p := ds]) + TodosSteps(strict, todo[p]) == RunningSteps(strict, todo)
            + TodosSteps(strict, ds)
    decreases |todo|
  {
    var z := |todo| - 1;
    if p == z {
      assert todo[p := ds][..z] == todo[..z];
    } else {
      RunningStepsAt(strict, todo[..z], p, ds);
      assert todo[p := ds][..z] == todo[..z][p := ds];
    }
    hide TodosSteps;
  }

  lemma {:induction false} CallbackSteps(strict: bool, it: Iter)
    ensures TaskSteps(strict, it) == 1 + TodosSteps(strict, Callback(strict, it))
  {
    var ds := Callback(strict, it);
    TodosUnfold(strict, ds[0], ds[1..]);
    assert ds == [ds[0]] + ds[1..];
    NoTodos(strict, []);
    if |ds| == 2 {
      TodosUnfold(strict, ds[1], []);
      assert ds[1..] == [ds[1]] + [];
    } else {
      assert ds[1..] == [];
    }
    hide TodosSteps;
  }

  lemma {:induction false} AppendTask(strict: bool, its: seq<Iter>, it: Iter)
    ensures TasksSteps(strict, its + [it]) == TasksSteps(strict, its) + TaskSteps(strict, it)
  {
    assert (its + [it])[..|its|] == its;
    hide TaskSteps;
  }

  lemma {:induction false} TodosUnfold(strict: bool, d: Todo, ds: seq<Todo>)
    ensures TodosSteps(strict, [d] + ds) == TodoSteps(strict, d) + TodosSteps(strict, ds)
  {
    assert ([d] + ds)[1..] == ds;
    hide TodoSteps;
  }

  lemma {:induction false} ExpandUnfolds(strict: bool, it: Iter)
    requires HasNext(it)
    ensures !strict ==>
              TodoSteps(strict, Expand(it))
              == 1 + TaskSteps(strict, ChildOf(it)) + TodoSteps(strict, Expand(Advanced(it)))
    ensures it.currentChild >= |it.node.children| ==> TodoSteps(strict, Expand(it)) == 1
  {
  }

  /** Only `task_fcn` expands. */
  ghost predicate Plain(s: Search) {
    s.strict ==> forall p, i :: 0 <= p < |s.todo| && 0 <= i < |s.todo[p]| ==> !s.todo[p][i].Expand?
  }

  lemma PlainKept(s: Search, a: Action)
    requires Possible(s, a) && Plain(s)
    ensures Plain(Do(s, a))
  {
    var s' := Do(s, a);
    if s.strict {
      var p := a.p;
      forall q, i | 0 <= q < |s'.todo| && 0 <= i < |s'.todo[q]|
        ensures !s'.todo[q][i].Expand?
      {
        if q == p && a.Go? {
          assert !s.todo[p][0].Expand?;
          assert s'.todo[q][i] == s.todo[p][i + 1];
        }
      }
    }
  }

  /** Every step is one step fewer to go. */
  lemma {:induction false} DoCounts(s: Search, a: Action)
    requires Possible(s, a) && Plain(s)
    ensures Left(Do(s, a)) + 1 == Left(s)
  {
    hide TaskSteps, TasksSteps, RunningSteps, Callback, TodosSteps, TodoSteps;
    match a
    case Start(p, k) =>
      TasksWithout(s.strict, s.pending, k);
      RunningStepsAt(s.strict, s.todo, p, Callback(s.strict, s.pending[k]));
      CallbackSteps(s.strict, s.pending[k]);
      NoTodos(s.strict, s.todo[p]);
    case Go(p) => GoCounts(s, p);
  }

  lemma {:induction false} NoTodos(strict: bool, ds: seq<Todo>)
    ensures ds == [] ==> TodosSteps(strict, ds) == 0
  {
  }

  lemma {:induction false} GoCounts(s: Search, p: nat)
    requires Possible(s, Go(p)) && Plain(s)
    ensures Left(Do(s, Go(p))) + 1 == Left(s)
  {
    hide TaskSteps, TasksSteps, RunningSteps, Callback, TodosSteps;
    var d, rest := s.todo[p][0], s.todo[p][1..];
    assert s.todo[p] == [d] + rest;
    TodosUnfold(s.strict, d, rest);
    RunningStepsAt(s.strict, s.todo, p, rest);
    match d
    case Process(it) =>
    case AddTask(it) => AppendTask(s.strict, s.pending, it);
    case Expand(it) =>
      if HasNext(it) {
        hide TodoSteps;
        ExpandUnfolds(s.strict, it);
        AppendTask(s.strict, s.pending, ChildOf(it));
        TodosUnfold(s.strict, Expand(Advanced(it)), rest);
        RunningStepsAt(s.strict, s.todo, p, [Expand(Advanced(it))] + rest);
      }
  }

  // ---------------------------------------------------------------- runs

  ghost predicate IsRun(ss: seq<Search>, acts: seq<Action>) {
    && |ss| == |acts| + 1
    && (forall i :: 0 <= i < |acts| ==> Possible(ss[i], acts[i]) && ss[i + 1] == Do(ss[i], acts[i]))
  }

  predicate Finished(s: Search) {
    s.pending == [] && forall p :: 0 <= p < |s.todo| ==> s.todo[p] == []
  }

  /** As long as the search is not finished, some element can go on. */
  lemma NeverStuck(s: Search) returns (a: Action)
    requires |s.todo| == |s.tallies| > 0 && !Finished(s)
    ensures Possible(s, a)
  {
    if p :| 0 <= p < |s.todo| && s.todo[p] != [] {
      a := Go(p);
    } else {
      a := Start(0, 0);
    }
  }

  lemma {:induction false} RunKeeps(ss: seq<Search>, acts: seq<Action>)
    requires IsRun(ss, acts) && |ss[0].todo| == |ss[0].tallies| && Plain(ss[0])
    ensures var z := ss[|acts|];
            && |z.todo| == |z.tallies| == |ss[0].tallies| && Plain(z)
            && Whole(z) == Whole(ss[0]) && Left(z) + |acts| == Left(ss[0])
    decreases |acts|
  {
    hide Whole, Left, Plain;
    if acts != [] {
      var k := |acts| - 1;
      RunKeeps(ss[..k + 1], acts[..k]);
      assert Possible(ss[k], acts[k]) && ss[k + 1] == Do(ss[k], acts[k]);
      DoKeeps(ss[k], acts[k]);
      DoCounts(ss[k], acts[k]);
      PlainKept(ss[k], acts[k]);
      hide IsRun;
    }
  }

  lemma {:induction false} ZeroSum(ts: seq<Tally>)
    requires forall i :: 0 <= i < |ts| ==> ts[i] == ZERO
    ensures Sum(ts) == ZERO
    decreases |ts|
  {
    hide Join;
    if ts != [] {
      ZeroSum(ts[..|ts| - 1]);
      JoinZero(ts[|ts| - 1]);
    }
  }

  lemma {:induction false} SeedWhole(strict: bool, t: Tree, npes: nat)
    ensures Whole(Seeded(strict, t, npes)) == OfTree(t, 0, [])
    ensures Plain(Seeded(strict, t, npes))
  {
    var s := Seeded(strict, t, npes);
    ZeroSum(s.tallies);
    forall p | 0 <= p < npes
      ensures Running(s.todo)[p] == ZERO
    {
      assert s.todo[p] == [];
    }
    ZeroSum(Running(s.todo));
    assert Works(s.pending) == [Work(s.pending[0])];
    SumOfOne(Work(s.pending[0]));
    TreeUnfolds(t, 0, []);
    hide OfTree, OfChildren, Sum, Running, Works, Join, Own;
    JoinZero(OfTree(t, 0, []));
  }

  lemma {:induction false} FinishedWhole(s: Search)
    requires Finished(s)
    ensures Whole(s) == Sum(s.tallies)
  {
    forall p | 0 <= p < |s.todo|
      ensures Running(s.todo)[p] == ZERO
    {
      assert s.todo[p] == [];
    }
    ZeroSum(Running(s.todo));
    ZeroSum(Works(s.pending));
    hide Sum, Running, Works, Join;
    JoinZero(ZERO);
    JoinZero(Sum(s.tallies));
  }

  /** Schedule independence: with either task function, on any number of elements and in any order of
      taking pending tasks and interleaving callbacks, the search ends after the same number of steps,
      and the counters joined over all elements are those of the sequential traversal, which visits
      every node of the tree exactly once. */
  lemma AnySchedule(strict: bool, t: Tree, npes: nat, ss: seq<Search>, acts: seq<Action>)
    requires npes > 0 && IsRun(ss, acts) && ss[0] == Seeded(strict, t, npes)
    ensures |acts| + Left(ss[|acts|]) == Left(ss[0])
    ensures Finished(ss[|acts|]) ==> Sum(ss[|acts|].tallies) == OfTree(t, 0, [])
    ensures !Finished(ss[|acts|]) ==> exists a :: Possible(ss[|acts|], a)
  {
    var z := ss[|acts|];
    hide Whole, Left, Plain, OfTree, Sum, IsRun, Possible;
    SeedWhole(strict, t, npes);
    RunKeeps(ss, acts);
    if Finished(z) {
      FinishedWhole(z);
    } else {
      var a := NeverStuck(z);
    }
  }
}
