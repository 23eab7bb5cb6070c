/** Unbalanced tree search (examples/uts): trees, iterators over the children of a node, and what a
    traversal is supposed to count.

    A node's random state determines its whole subtree, so a node is modelled as its subtree. */
module UtsModel {

  datatype Tree = Node(children: seq<Tree>)

  /** A `UTSIterator`.  `path` names the node: the child indices leading to it from the root. */
  datatype Iter = Iter(node: Tree, height: nat, currentChild: nat, path: seq<nat>)

  /** The static counters of the iterator class, and which nodes they have counted. */
  datatype Tally = Tally(nodes: nat, leaves: nat, depth: nat, visited: multiset<seq<nat>>)

  const ZERO := Tally(0, 0, 0, multiset{})

  function Max(a: nat, b: nat): nat {
    if a < b then b else a
  }

  function Join(a: Tally, b: Tally): Tally {
    Tally(a.nodes + b.nodes, a.leaves + b.leaves, Max(a.depth, b.depth), a.visited + b.visited)
  }

  predicate HasNext(it: Iter) {
    it.currentChild < |it.node.children|
  }

  /** The child iterator `next` makes. */
  function ChildOf(it: Iter): Iter
    requires HasNext(it)
  {
    Iter(it.node.children[it.currentChild], it.height + 1, 0, it.path + [it.currentChild])
  }

  /** The iterator after `next`. */
  function Advanced(it: Iter): Iter {
    it.(currentChild := it.currentChild + 1)
  }

  /** What one call of `process` counts. */
  function Own(it: Iter): Tally {
    Tally(1, if |it.node.children| == 0 then 1 else 0, it.height, multiset{it.path})
  }

  // ---------------------------------------------------------------- the reference

  /** Everything below and including the node, counted by recursion over the tree. */
  function OfTree(t: Tree, height: nat, path: seq<nat>): Tally
    decreases t, |t.children| + 1
  {
    Join(Own(Iter(t, height, 0, path)), OfChildren(t, height, path, 0))
  }

  /** Everything below the children from index `c` on. */
  function OfChildren(t: Tree, height: nat, path: seq<nat>, c: nat): Tally
    decreases t, if c < |t.children| then |t.children| - c else 0
  {
    if c >= |t.children| then ZERO
    else Join(OfTree(t.children[c], height + 1, path + [c]), OfChildren(t, height, path, c + 1))
  }

  /** What is still to be counted for an iterator whose own node has not been processed. */
  function Work(it: Iter): Tally {
    Join(Own(it), Rest(it))
  }

  function Rest(it: Iter): Tally {
    OfChildren(it.node, it.height, it.path, it.currentChild)
  }

  function Nodes(t: Tree): nat
    decreases t, |t.children| + 1
  {
    1 + NodesFrom(t, 0)
  }

  function NodesFrom(t: Tree, c: nat): nat
    decreases t, if c < |t.children| then |t.children| - c else 0
  {
    if c >= |t.children| then 0 else Nodes(t.children[c]) + NodesFrom(t, c + 1)
  }

  /** Follows child indices down from the root of `t`. */
  predicate IsPath(t: Tree, p: seq<nat>)
    decreases |p|
  {
    p == [] || (p[0] < |t.children| && IsPath(t.children[p[0]], p[1..]))
  }

  // ---------------------------------------------------------------- joining

  lemma JoinZero(a: Tally)
    ensures Join(a, ZERO) == a && Join(ZERO, a) == a
  {
  }

  lemma JoinSwap(a: Tally, b: Tally)
    ensures Join(a, b) == Join(b, a)
  {
  }

  lemma JoinAssoc(a: Tally, b: Tally, c: Tally)
    ensures Join(Join(a, b), c) == Join(a, Join(b, c))
  {
    assert (a.visited + b.visited) + c.visited == a.visited + (b.visited + c.visited);
  }

  lemma {:induction false} TreeUnfolds(t: Tree, height: nat, base: seq<nat>)
    ensures OfTree(t, height, base) == Join(Own(Iter(t, height, 0, base)), OfChildren(t, height, base, 0))
    ensures Nodes(t) == 1 + NodesFrom(t, 0)
  {
  }

  lemma {:induction false} ChildrenUnfold(t: Tree, height: nat, path: seq<nat>, c: nat)
    requires c < |t.children|
    ensures OfChildren(t, height, path, c)
         == Join(OfTree(t.children[c], height + 1, path + [c]), OfChildren(t, height, path, c + 1))
    ensures NodesFrom(t, c) == Nodes(t.children[c]) + NodesFrom(t, c + 1)
  {
  }

  /** The rest of an iterator is its next child's tree and the rest after it. */
  lemma RestUnfolds(it: Iter)
    requires HasNext(it)
    ensures Rest(it) == Join(Work(ChildOf(it)), Rest(Advanced(it)))
  {
    hide OfChildren, OfTree;
    ChildrenUnfold(it.node, it.height, it.path, it.currentChild);
    TreeUnfolds(it.node.children[it.currentChild], it.height + 1, it.path + [it.currentChild]);
  }

  lemma RestEnds(it: Iter)
    requires !HasNext(it)
    ensures Rest(it) == ZERO
  {
  }

  // ---------------------------------------------------------------- what the reference means

  /** Node `base + p` is counted once if `p` leads to a node of the tree, and never otherwise; so the
      tally's node count is the number of nodes. */
  lemma {:induction false} TreeVisits(t: Tree, height: nat, base: seq<nat>, q: seq<nat>)
    ensures OfTree(t, height, base).nodes == Nodes(t)
    ensures OfTree(t, height, base).visited[base + q] == if IsPath(t, q) then 1 else 0
    decreases t, |t.children| + 1
  {
    ChildrenVisit(t, height, base, q, 0);
    assert base + q == base <==> q == [] by {
      assert q == [] ==> base + q == base;
    }
    hide OfTree, OfChildren, Nodes, NodesFrom;
    TreeUnfolds(t, height, base);
  }

  lemma {:induction false} ChildrenVisit(t: Tree, height: nat, base: seq<nat>, q: seq<nat>, c: nat)
    ensures OfChildren(t, height, base, c).nodes == NodesFrom(t, c)
    ensures OfChildren(t, height, base, c).visited[base + q] == if q != [] && c <= q[0] && IsPath(t, q) then 1 else 0
    decreases t, if c < |t.children| then |t.children| - c else 0
  {
    if c < |t.children| {
      ChildrenVisit(t, height, base, q, c + 1);
      ChildVisit(t, height, base, q, c);
      ChildrenUnfold(t, height, base, c);
      hide OfChildren, OfTree, Nodes, NodesFrom, IsPath;
    }
  }

  lemma {:induction false} ChildVisit(t: Tree, height: nat, base: seq<nat>, q: seq<nat>, c: nat)
    requires c < |t.children|
    ensures OfTree(t.children[c], height + 1, base + [c]).nodes == Nodes(t.children[c])
    ensures OfTree(t.children[c], height + 1, base + [c]).visited[base + q]
         == if q != [] && q[0] == c && IsPath(t, q) then 1 else 0
    decreases t, 0, 0
  {
    var u := t.children[c];
    if q != [] && q[0] == c {
      TreeVisits(u, height + 1, base + [c], q[1..]);
      assert base + [c] + q[1..] == base + q;
    } else {
      TreeVisits(u, height + 1, base + [c], []);
      NotBelow(u, height + 1, base + [c], base + q, c, |base|);
    }
    hide OfTree, OfChildren, Nodes, NodesFrom;
  }

  /** Everything counted below a node has that node's path as a prefix. */
  lemma {:induction false} NotBelow(t: Tree, height: nat, path: seq<nat>, p: seq<nat>, c: nat, k: nat)
    requires k < |path| && path[k] == c && (k >= |p| || p[k] != c)
    ensures OfTree(t, height, path).visited[p] == 0
    decreases t, |t.children| + 1
  {
    NotBelowFrom(t, height, path, p, c, k, 0);
    assert p != path;
  }

  lemma {:induction false} NotBelowFrom(t: Tree, height: nat, path: seq<nat>, p: seq<nat>, c: nat, k: nat, d: nat)
    requires k < |path| && path[k] == c && (k >= |p| || p[k] != c)
    ensures OfChildren(t, height, path, d).visited[p] == 0
    decreases t, if d < |t.children| then |t.children| - d else 0
  {
    if d < |t.children| {
      NotBelow(t.children[d], height + 1, path + [d], p, c, k);
      NotBelowFrom(t, height, path, p, c, k, d + 1);
    }
  }

  // ---------------------------------------------------------------- depth

  /** No node lies deeper than the tally says. */
  lemma {:induction false} DepthCovers(t: Tree, height: nat, base: seq<nat>, p: seq<nat>)
    requires IsPath(t, p)
    ensures height + |p| <= OfTree(t, height, base).depth
    decreases |p|
  {
    hide IsPath, OfChildren;
    if p == [] {
      TreeUnfolds(t, height, base);
    } else {
      PathUnfolds(t, p);
      DepthCovers(t.children[p[0]], height + 1, base + [p[0]], p[1..]);
      ChildrenCover(t, height, base, p[0], 0);
    }
  }

  lemma PathUnfolds(t: Tree, p: seq<nat>)
    requires p != []
    ensures IsPath(t, p) <==> p[0] < |t.children| && IsPath(t.children[p[0]], p[1..])
  {
  }

  lemma {:induction false} ChildrenCover(t: Tree, height: nat, path: seq<nat>, k: nat, c: nat)
    requires c <= k < |t.children|
    ensures OfTree(t.children[k], height + 1, path + [k]).depth <= OfChildren(t, height, path, c).depth
    decreases |t.children| - c
  {
    hide OfTree, OfChildren;
    ChildrenUnfold(t, height, path, c);
    if c < k {
      ChildrenCover(t, height, path, k, c + 1);
    }
  }

  /** Some node lies that deep. */
  lemma {:induction false} DepthReached(t: Tree, height: nat, base: seq<nat>) returns (p: seq<nat>)
    ensures IsPath(t, p) && height + |p| == OfTree(t, height, base).depth
    decreases t, |t.children| + 1
  {
    TreeUnfolds(t, height, base);
    p := [];
    var q := ChildrenReached(t, height, base, 0);
    if q != [] && height + |q| > height {
      p := q;
    }
  }

  lemma {:induction false} ChildrenReached(t: Tree, height: nat, path: seq<nat>, c: nat) returns (p: seq<nat>)
    ensures IsPath(t, p) && OfChildren(t, height, path, c).depth == if p == [] then 0 else height + |p|
    ensures p == [] <==> c >= |t.children|
    decreases t, if c < |t.children| then |t.children| - c else 0
  {
    if c >= |t.children| {
      p := [];
    } else {
      ChildrenUnfold(t, height, path, c);
      var a := DepthReached(t.children[c], height + 1, path + [c]);
      var b := ChildrenReached(t, height, path, c + 1);
      p := if b != [] && |b| > |a| + 1 then b else [c] + a;
      assert ([c] + a)[1..] == a;
    }
  }

  // ---------------------------------------------------------------- leaves

  /** Leads to a node without children. */
  predicate IsLeafPath(t: Tree, p: seq<nat>)
    decreases |p|
  {
    if p == [] then t.children == [] else p[0] < |t.children| && IsLeafPath(t.children[p[0]], p[1..])
  }

  /** The paths of all leaves, from left to right. */
  function LeafPaths(t: Tree): seq<seq<nat>>
    decreases t, |t.children| + 1
  {
    if t.children == [] then [[]] else LeafPathsFrom(t, 0)
  }

  function LeafPathsFrom(t: Tree, c: nat): seq<seq<nat>>
    decreases t, if c < |t.children| then |t.children| - c else 0
  {
    if c >= |t.children| then [] else Prefixed(c, LeafPaths(t.children[c])) + LeafPathsFrom(t, c + 1)
  }

  function Prefixed(c: nat, ps: seq<seq<nat>>): (r: seq<seq<nat>>)
    ensures |r| == |ps| && forall i :: 0 <= i < |ps| ==> r[i] == [c] + ps[i]
  {
    seq(|ps|, i requires 0 <= i < |ps| => [c] + ps[i])
  }

  /** The tally counts exactly the leaves: each node without children, once. */
  lemma {:induction false} TreeLeaves(t: Tree, height: nat, base: seq<nat>)
    ensures OfTree(t, height, base).leaves == |LeafPaths(t)|
    ensures forall p :: p in LeafPaths(t) <==> IsLeafPath(t, p)
    ensures forall i, j :: 0 <= i < j < |LeafPaths(t)| ==> LeafPaths(t)[i] != LeafPaths(t)[j]
    decreases t, |t.children| + 1
  {
    TreeUnfolds(t, height, base);
    ChildrenLeaves(t, height, base, 0);
    forall p
      ensures p in LeafPaths(t) <==> IsLeafPath(t, p)
    {
      assert p in LeafPathsFrom(t, 0) <==> IsLeafFrom(t, p, 0);
    }
    hide OfTree, OfChildren;
  }

  predicate IsLeafFrom(t: Tree, p: seq<nat>, c: nat) {
    p != [] && c <= p[0] < |t.children| && IsLeafPath(t.children[p[0]], p[1..])
  }

  lemma {:induction false} ChildrenLeaves(t: Tree, height: nat, path: seq<nat>, c: nat)
    ensures OfChildren(t, height, path, c).leaves == |LeafPathsFrom(t, c)|
    ensures forall p :: p in LeafPathsFrom(t, c) <==> IsLeafFrom(t, p, c)
    ensures forall i, j :: 0 <= i < j < |LeafPathsFrom(t, c)| ==> LeafPathsFrom(t, c)[i] != LeafPathsFrom(t, c)[j]
    decreases t, if c < |t.children| then |t.children| - c else 0
  {
    if c < |t.children| {
      TreeLeaves(t.children[c], height + 1, path + [c]);
      ChildrenLeaves(t, height, path, c + 1);
      ChildrenUnfold(t, height, path, c);
      var ps, rest := LeafPaths(t.children[c]), LeafPathsFrom(t, c + 1);
      assert LeafPathsFrom(t, c) == Prefixed(c, ps) + rest;
      hide OfTree, OfChildren, LeafPaths, LeafPathsFrom;
      forall p
        ensures p in Prefixed(c, ps) + rest <==> IsLeafFrom(t, p, c)
      {
        PrefixedAre(c, ps, p);
        assert p in rest <==> IsLeafFrom(t, p, c + 1);
        if p != [] && p[0] == c {
          assert p[1..] in ps <==> IsLeafPath(t.children[c], p[1..]);
        }
      }
      Apart(c, ps, rest);
    }
  }

  lemma PrefixedAre(c: nat, ps: seq<seq<nat>>, p: seq<nat>)
    ensures p in Prefixed(c, ps) <==> p != [] && p[0] == c && p[1..] in ps
  {
    if p in Prefixed(c, ps) {
      var i :| 0 <= i < |ps| && Prefixed(c, ps)[i] == p;
      assert p[1..] == ps[i];
    }
    if p != [] && p[0] == c && p[1..] in ps {
      var i :| 0 <= i < |ps| && ps[i] == p[1..];
      assert p == [c] + p[1..];
      assert Prefixed(c, ps)[i] == p;
    }
  }

  lemma Apart(c: nat, ps: seq<seq<nat>>, rest: seq<seq<nat>>)
    requires forall i, j :: 0 <= i < j < |ps| ==> ps[i] != ps[j]
    requires forall i, j :: 0 <= i < j < |rest| ==> rest[i] != rest[j]
    requires forall p :: p in rest ==> p != [] && p[0] != c
    ensures var all := Prefixed(c, ps) + rest; forall i, j :: 0 <= i < j < |all| ==> all[i] != all[j]
  {
    var all := Prefixed(c, ps) + rest;
    forall i, j | 0 <= i < j < |all|
      ensures all[i] != all[j]
    {
      if j < |ps| {
        assert all[i][1..] == ps[i] && all[j][1..] == ps[j];
      } else if i < |ps| {
        assert all[j] in rest && all[i][0] == c;
      }
    }
  }
}
