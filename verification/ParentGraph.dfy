/** Walks along a parent map, and the nodes that lie on its cycles.

    Models `_find_cycle_nodes` (backend/assets/department_imports.py:187-204). An empty key
    ends a walk, as a missing one does.
 */
module ParentGraph {
  import opened RackRanges

  type Key = string

  type Parents = map<Key, Option<Key>>

  predicate Walkable(parents: Parents, node: Key) {
    node != "" && node in parents
  }

  function Follow(parents: Parents, node: Key): Option<Key> {
    if Walkable(parents, node) then parents[node] else None
  }

  /** The node after `k` steps, if the walk is that long. */
  function Iter(parents: Parents, node: Key, k: nat): Option<Key>
    decreases k
  {
    if k == 0 then Some(node)
    else
      var next := Follow(parents, node);
      if next == None then None else Iter(parents, next.value, k - 1)
  }

  ghost predicate OnCycle(parents: Parents, node: Key) {
    exists k: nat :: 1 <= k && Iter(parents, node, k) == Some(node)
  }

  ghost predicate Acyclic(parents: Parents) {
    forall node :: !OnCycle(parents, node)
  }

  /** `above` is the node itself or one of its ancestors. */
  ghost predicate IsAbove(parents: Parents, node: Key, above: Key) {
    exists k: nat :: Iter(parents, node, k) == Some(above)
  }

  lemma {:induction false} IterPlus(parents: Parents, node: Key, a: nat, b: nat)
    requires Iter(parents, node, a).Some?
    ensures Iter(parents, node, a + b) == Iter(parents, Iter(parents, node, a).value, b)
    decreases a
  {
    if a > 0 { IterPlus(parents, Follow(parents, node).value, a - 1, b); }
  }

  /** Walks from inside such a set stay inside while they can go on. */
  ghost predicate Closed(parents: Parents, nodes: set<Key>) {
    forall n :: n in nodes && Follow(parents, n).Some? && Walkable(parents, Follow(parents, n).value) ==>
      Follow(parents, n).value in nodes
  }

  lemma {:induction false} StaysClosed(parents: Parents, nodes: set<Key>, node: Key, k: nat)
    requires Closed(parents, nodes) && (node in nodes || !Walkable(parents, node))
    ensures Iter(parents, node, k).Some? ==>
              Iter(parents, node, k).value in nodes || !Walkable(parents, Iter(parents, node, k).value)
    decreases k
  {
    if k > 0 && Follow(parents, node).Some? { StaysClosed(parents, nodes, Follow(parents, node).value, k - 1); }
  }

  /** A node whose walk leaves it for a closed set without it is on no cycle. */
  lemma NeverBack(parents: Parents, nodes: set<Key>, node: Key)
    requires Closed(parents, nodes) && node !in nodes && Walkable(parents, node)
    requires Follow(parents, node).Some? ==>
               Follow(parents, node).value in nodes || !Walkable(parents, Follow(parents, node).value)
    ensures !OnCycle(parents, node)
  {
    forall k: nat | 1 <= k ensures Iter(parents, node, k) != Some(node) {
      if Follow(parents, node).Some? { StaysClosed(parents, nodes, Follow(parents, node).value, k - 1); }
    }
  }

  function Nodes(path: seq<Key>): set<Key> {
    set i | 0 <= i < |path| :: path[i]
  }

  ghost predicate IsPath(parents: Parents, path: seq<Key>) {
    && (forall i :: 0 <= i < |path| ==> Walkable(parents, path[i]))
    && (forall i :: 0 <= i < |path| - 1 ==> Follow(parents, path[i]) == Some(path[i + 1]))
    && (forall i, j :: 0 <= i < j < |path| ==> path[i] != path[j])
  }

  lemma {:induction false} AlongPath(parents: Parents, path: seq<Key>, i: nat, j: nat)
    requires IsPath(parents, path) && i <= j < |path|
    ensures Iter(parents, path[i], j - i) == Some(path[j])
    decreases j - i
  {
    if i < j { AlongPath(parents, path, i + 1, j); }
  }

  /** A path that runs back into its own position `k` is a cycle from there on. */
  lemma BackOnCycle(parents: Parents, path: seq<Key>, k: nat, j: nat)
    requires IsPath(parents, path) && k <= j < |path| && Follow(parents, path[|path| - 1]) == Some(path[k])
    ensures OnCycle(parents, path[j])
  {
    var last := |path| - 1;
    AlongPath(parents, path, j, last);
    AlongPath(parents, path, k, j);
    IterPlus(parents, path[j], last - j, 1 + (j - k));
    assert Iter(parents, path[last], 1 + (j - k)) == Iter(parents, path[k], j - k);
    assert Iter(parents, path[j], (last - j) + (1 + (j - k))) == Some(path[j]);
  }

  /** A path that ends in a closed set, or nowhere, has no node on a cycle. */
  lemma EndingPath(parents: Parents, path: seq<Key>, i: nat, nodes: set<Key>)
    requires IsPath(parents, path) && i < |path| && Closed(parents, nodes)
    requires forall j :: 0 <= j < |path| ==> path[j] !in nodes
    requires Leaves(parents, path[|path| - 1], nodes)
    ensures !OnCycle(parents, path[i])
  {
    var after := nodes + set j | i < j < |path| :: path[j];
    forall n | n in after && Follow(parents, n).Some? && Walkable(parents, Follow(parents, n).value)
      ensures Follow(parents, n).value in after
    {
      if n !in nodes {
        var j :| i < j < |path| && path[j] == n;
        assert j < |path| - 1 ==> Follow(parents, path[j]) == Some(path[j + 1]);
      }
    }
    assert i < |path| - 1 ==> Follow(parents, path[i]) == Some(path[i + 1]);
    NeverBack(parents, after, path[i]);
  }

  ghost predicate Leaves(parents: Parents, node: Key, nodes: set<Key>) {
    Follow(parents, node).Some? ==>
      Follow(parents, node).value in nodes || !Walkable(parents, Follow(parents, node).value)
  }

  lemma HasKey(s: set<Key>)
    requires s != {}
    ensures exists k :: k in s
  {
    assert (exists k :: k in s) || s == {};
  }

  /** What one walk from an unvisited start found. */
  ghost predicate WalkDone(parents: Parents, visited: set<Key>, path: seq<Key>, found: set<Key>) {
    && IsPath(parents, path)
    && (forall i :: 0 <= i < |path| ==> path[i] !in visited)
    && (forall n :: n in found ==> n in path)
    && (forall i :: 0 <= i < |path| ==> (path[i] in found <==> OnCycle(parents, path[i])))
    && Closed(parents, visited + Nodes(path))
  }

  /** The inner loop: follows parents until a dead end, a visited node or its own path. */
  method WalkFrom(parents: Parents, visited: set<Key>, start: Key) returns (path: seq<Key>, found: set<Key>)
    requires Closed(parents, visited) && start in parents && start !in visited
    ensures WalkDone(parents, visited, path, found)
    ensures start == "" || start in path
  {
    path, found := [], {};
    var positions: map<Key, nat> := map[];
    var current := Some(start);
    while current.Some? && current.value != "" && current.value in parents && current.value !in visited
      invariant IsPath(parents, path)
      invariant forall i :: 0 <= i < |path| ==> path[i] !in visited
      invariant |path| == 0 ==> current == Some(start)
      invariant |path| > 0 ==> path[0] == start && Follow(parents, path[|path| - 1]) == current
      invariant forall i :: 0 <= i < |path| ==> path[i] in positions && positions[path[i]] == i
      invariant forall n :: n in positions ==> positions[n] < |path| && path[positions[n]] == n
      decreases |parents| - |path|
    {
      if current.value in positions {
        var k := positions[current.value];
        found := set i | k <= i < |path| :: path[i];
        RepeatDone(parents, visited, path, k);
        return;
      }
      positions := positions[current.value := |path|];
      path := path + [current.value];
      PathFits(parents, path);
      current := parents[current.value];
    }
    if path != [] {
      EndDone(parents, visited, path);
    } else {
      assert Nodes([]) == {};
    }
  }

  lemma PathFits(parents: Parents, path: seq<Key>)
    requires IsPath(parents, path)
    ensures |path| <= |parents|
  {
    var nodes := Nodes(path);
    DistinctCount(path, nodes);
    Subset(nodes, parents.Keys);
    assert |parents| == |parents.Keys|;
  }

  lemma {:induction false} DistinctCount(path: seq<Key>, nodes: set<Key>)
    requires forall i, j :: 0 <= i < j < |path| ==> path[i] != path[j]
    requires nodes == Nodes(path)
    ensures |nodes| == |path|
  {
    if path != [] {
      var init := path[..|path| - 1];
      var rest := set i | 0 <= i < |init| :: init[i];
      DistinctCount(init, rest);
      forall n | n in nodes ensures n in rest + {path[|path| - 1]} {
        var i :| 0 <= i < |path| && path[i] == n;
        if i < |init| { assert init[i] == n; }
      }
      assert nodes == rest + {path[|path| - 1]};
    }
  }

  lemma {:induction false} Subset(a: set<Key>, b: set<Key>)
    requires a <= b
    ensures |a| <= |b|
  {
    if a != {} {
      HasKey(a);
      var k :| k in a;
      Subset(a - {k}, b - {k});
    }
  }

  lemma EndDone(parents: Parents, visited: set<Key>, path: seq<Key>)
    requires Closed(parents, visited) && IsPath(parents, path) && path != []
    requires forall i :: 0 <= i < |path| ==> path[i] !in visited
    requires Leaves(parents, path[|path| - 1], visited)
    ensures WalkDone(parents, visited, path, {})
  {
    forall i | 0 <= i < |path| ensures !OnCycle(parents, path[i]) { EndingPath(parents, path, i, visited); }
    PathClosed(parents, visited, path);
  }

  lemma PathClosed(parents: Parents, visited: set<Key>, path: seq<Key>)
    requires Closed(parents, visited) && IsPath(parents, path) && path != []
    requires Leaves(parents, path[|path| - 1], visited + Nodes(path))
    ensures Closed(parents, visited + Nodes(path))
  {
    var nodes := visited + Nodes(path);
    forall n | n in nodes && Follow(parents, n).Some? && Walkable(parents, Follow(parents, n).value)
      ensures Follow(parents, n).value in nodes
    {
      if n !in visited {
        var j :| 0 <= j < |path| && path[j] == n;
        assert j < |path| - 1 ==> Follow(parents, path[j]) == Some(path[j + 1]);
      }
    }
  }

  lemma RepeatDone(parents: Parents, visited: set<Key>, path: seq<Key>, k: nat)
    requires Closed(parents, visited) && IsPath(parents, path) && k < |path|
    requires forall i :: 0 <= i < |path| ==> path[i] !in visited
    requires Follow(parents, path[|path| - 1]) == Some(path[k])
    ensures WalkDone(parents, visited, path, set i | k <= i < |path| :: path[i])
  {
    var loop := set i | k <= i < |path| :: path[i];
    forall i | k <= i < |path| ensures OnCycle(parents, path[i]) { BackOnCycle(parents, path, k, i); }
    forall n | n in loop && Follow(parents, n).Some? ensures Follow(parents, n).value in loop {
      var j :| k <= j < |path| && path[j] == n;
      assert j < |path| - 1 ==> Follow(parents, path[j]) == Some(path[j + 1]);
    }
    var lead := path[..k];
    forall i | 0 <= i < k ensures !OnCycle(parents, path[i]) {
      assert Follow(parents, lead[k - 1]) == Some(path[k]);
      EndingPath(parents, lead, i, loop);
      assert lead[i] == path[i];
    }
    PathClosed(parents, visited, path);
  }

  /** `_find_cycle_nodes`: exactly the nodes on a cycle, although a walk stops at anything
      that an earlier walk has visited. */
  method FindCycleNodes(parents: Parents) returns (nodes: set<Key>)
    ensures forall n :: n in nodes <==> OnCycle(parents, n)
  {
    nodes := {};
    var visited: set<Key> := {};
    var todo := parents.Keys;
    while todo != {}
      invariant todo <= parents.Keys
      invariant Closed(parents, visited)
      invariant forall n :: n in parents && n !in todo && n != "" ==> n in visited
      invariant forall n :: n in nodes ==> n in visited
      invariant forall n :: n in visited ==> (n in nodes <==> OnCycle(parents, n))
      decreases todo
    {
      HasKey(todo);
      var start :| start in todo;
      todo := todo - {start};
      if start !in visited {
        var path, found := WalkFrom(parents, visited, start);
        nodes := nodes + found;
        visited := visited + Nodes(path);
      }
    }
    forall n | OnCycle(parents, n) ensures n in nodes {
      var k: nat :| 1 <= k && Iter(parents, n, k) == Some(n);
      assert Walkable(parents, n);
    }
  }

  /** In a finite non-empty set where every node has its parent in the set, some node is on a cycle. */
  lemma ClosedSetHasCycle(parents: Parents, nodes: set<Key>)
    requires nodes != {}
    requires forall n ::
               n in nodes ==> Walkable(parents, n) && Follow(parents, n).Some? && Follow(parents, n).value in nodes
    ensures exists n :: n in nodes && OnCycle(parents, n)
  {
    HasKey(nodes);
    var n :| n in nodes;
    PathFindsCycle(parents, nodes, [n]);
  }

  lemma ClosedSetIsCyclic(parents: Parents, nodes: set<Key>)
    requires nodes != {}
    requires forall n ::
               n in nodes ==> Walkable(parents, n) && Follow(parents, n).Some? && Follow(parents, n).value in nodes
    ensures !Acyclic(parents)
  {
    ClosedSetHasCycle(parents, nodes);
  }

  lemma {:induction false} PathFindsCycle(parents: Parents, nodes: set<Key>, path: seq<Key>)
    requires forall n ::
               n in nodes ==> Walkable(parents, n) && Follow(parents, n).Some? && Follow(parents, n).value in nodes
    requires path != [] && IsPath(parents, path) && forall i :: 0 <= i < |path| ==> path[i] in nodes
    ensures exists n :: n in nodes && OnCycle(parents, n)
    decreases |parents| - |path|
  {
    var next := Follow(parents, path[|path| - 1]).value;
    if k: nat :| k < |path| && path[k] == next {
      BackOnCycle(parents, path, k, k);
    } else {
      PathFits(parents, path + [next]);
      PathFindsCycle(parents, nodes, path + [next]);
    }
  }

  /** If every step along the map goes down in rank, no walk returns. */
  lemma {:induction false} RankFalls(parents: Parents, rank: map<Key, nat>, node: Key, k: nat)
    requires forall n :: Walkable(parents, n) && parents[n].Some? && Walkable(parents, parents[n].value) ==>
               n in rank && parents[n].value in rank && rank[parents[n].value] < rank[n]
    requires 1 <= k && Walkable(parents, node) && Iter(parents, node, k).Some?
             && Walkable(parents, Iter(parents, node, k).value)
    ensures node in rank && Iter(parents, node, k).value in rank && rank[Iter(parents, node, k).value] < rank[node]
    decreases k
  {
    var next := Follow(parents, node).value;
    if k > 1 { RankFalls(parents, rank, next, k - 1); }
  }

  lemma RankedIsAcyclic(parents: Parents, rank: map<Key, nat>)
    requires forall n :: Walkable(parents, n) && parents[n].Some? && Walkable(parents, parents[n].value) ==>
               n in rank && parents[n].value in rank && rank[parents[n].value] < rank[n]
    ensures Acyclic(parents)
  {
    forall n, k: nat | 1 <= k ensures Iter(parents, n, k) != Some(n) {
      if Iter(parents, n, k) == Some(n) && Walkable(parents, n) { RankFalls(parents, rank, n, k); }
    }
  }

  // ---------- changing a map ----------

  /** Maps that agree outside `changed` agree on walks that stay outside it. */
  lemma {:induction false} SameWalk(a: Parents, b: Parents, changed: set<Key>, node: Key, k: nat)
    requires forall n :: n !in changed ==> Follow(a, n) == Follow(b, n)
    requires forall i: nat :: i < k && Iter(a, node, i).Some? ==> Iter(a, node, i).value !in changed
    ensures Iter(b, node, k) == Iter(a, node, k)
    decreases k
  {
    if k > 0 {
      assert Iter(a, node, 0) == Some(node);
      if Follow(a, node).Some? {
        var next := Follow(a, node).value;
        forall i: nat | i < k - 1 && Iter(a, next, i).Some? ensures Iter(a, next, i).value !in changed {
          assert Iter(a, node, i + 1) == Iter(a, next, i);
        }
        SameWalk(a, b, changed, next, k - 1);
      }
    }
  }

  lemma CycleShift(parents: Parents, node: Key, j: nat, later: Key)
    requires OnCycle(parents, node) && Iter(parents, node, j) == Some(later)
    ensures OnCycle(parents, later)
  {
    var k: nat :| 1 <= k && Iter(parents, node, k) == Some(node);
    IterPlus(parents, node, j, k);
    IterPlus(parents, node, k, j);
    assert j + k == k + j;
    assert Iter(parents, later, k) == Some(later);
  }

  /** A cycle of the new map that avoids the changed nodes was there before. */
  lemma OldCycle(a: Parents, b: Parents, changed: set<Key>, node: Key)
    requires forall n :: n !in changed ==> Follow(a, n) == Follow(b, n)
    requires OnCycle(b, node) && forall n :: n in changed ==> !OnCycle(b, n)
    ensures OnCycle(a, node)
  {
    var k: nat :| 1 <= k && Iter(b, node, k) == Some(node);
    forall i: nat | i < k && Iter(b, node, i).Some? ensures Iter(b, node, i).value !in changed {
      CycleShift(b, node, i, Iter(b, node, i).value);
    }
    SameWalk(b, a, changed, node, k);
  }

  lemma {:induction false} LeastStep(parents: Parents, node: Key, target: Key, k: nat) returns (least: nat)
    requires Iter(parents, node, k) == Some(target)
    ensures Iter(parents, node, least) == Some(target)
            && forall i: nat :: i < least ==> Iter(parents, node, i) != Some(target)
    decreases k
  {
    if i: nat :| i < k && Iter(parents, node, i) == Some(target) {
      least := LeastStep(parents, node, target, i);
    } else {
      least := k;
    }
  }

  /** Giving a node a new parent keeps the map acyclic exactly when the node is not above
      that parent. */
  lemma NewParentKeepsAcyclic(parents: Parents, node: Key, parent: Key)
    requires Acyclic(parents) && node != ""
    ensures Acyclic(parents[node := Some(parent)]) <==> !IsAbove(parents, parent, node)
  {
    var after := parents[node := Some(parent)];
    assert forall n :: n != node ==> Follow(after, n) == Follow(parents, n);
    if IsAbove(parents, parent, node) {
      var k: nat :| Iter(parents, parent, k) == Some(node);
      var least := LeastStep(parents, parent, node, k);
      SameWalk(parents, after, {node}, parent, least);
      assert Iter(after, node, least + 1) == Iter(after, parent, least);
      assert OnCycle(after, node);
    } else {
      NotOnNewCycle(parents, node, parent);
      forall n ensures !OnCycle(after, n) {
        if OnCycle(after, n) { OldCycle(parents, after, {node}, n); }
      }
    }
  }

  lemma NotOnNewCycle(parents: Parents, node: Key, parent: Key)
    requires node != "" && !IsAbove(parents, parent, node)
    ensures !OnCycle(parents[node := Some(parent)], node)
  {
    var after := parents[node := Some(parent)];
    forall k: nat | 1 <= k ensures Iter(after, node, k) != Some(node) {
      assert Iter(after, node, k) == Iter(after, parent, k - 1);
      SameWalk(parents, after, {node}, parent, k - 1);
    }
  }

  /** Inside a part that both maps treat alike and that no walk leaves, walks are the same. */
  lemma {:induction false} SameInside(a: Parents, b: Parents, part: iset<Key>, node: Key, k: nat)
    requires node in part
    requires forall n ::
               n in part ==> Follow(a, n) == Follow(b, n) && (Follow(a, n).Some? ==> Follow(a, n).value in part)
    ensures Iter(a, node, k) == Iter(b, node, k)
    decreases k
  {
    if k > 0 && Follow(a, node).Some? { SameInside(a, b, part, Follow(a, node).value, k - 1); }
  }

  lemma {:induction false} PartOfWalk(part: Parents, whole: Parents, node: Key, k: nat)
    requires forall n :: n in part ==> n in whole && whole[n] == part[n]
    ensures Iter(part, node, k).Some? ==> Iter(whole, node, k) == Iter(part, node, k)
    decreases k
  {
    if k > 0 && Follow(part, node).Some? { PartOfWalk(part, whole, Follow(part, node).value, k - 1); }
  }

  /** Fewer edges make no new cycle. */
  lemma PartOfAcyclic(part: Parents, whole: Parents)
    requires Acyclic(whole) && forall n :: n in part ==> n in whole && whole[n] == part[n]
    ensures Acyclic(part)
  {
    forall n, k: nat | 1 <= k ensures Iter(part, n, k) != Some(n) {
      PartOfWalk(part, whole, n, k);
      assert Iter(whole, n, k) == Some(n) ==> OnCycle(whole, n);
    }
  }

  /** Making a node a root keeps the map acyclic. */
  lemma RootKeepsAcyclic(parents: Parents, node: Key)
    requires Acyclic(parents)
    ensures Acyclic(parents[node := None])
  {
    var after := parents[node := None];
    forall n ensures !OnCycle(after, n) {
      assert Follow(after, node) == None;
      assert !OnCycle(after, node);
      if OnCycle(after, n) { OldCycle(parents, after, {node}, n); }
    }
  }

  lemma AboveParent(parents: Parents, node: Key, above: Key)
    requires Follow(parents, node).Some? && IsAbove(parents, Follow(parents, node).value, above)
    ensures IsAbove(parents, node, above)
  {
    var k: nat :| Iter(parents, Follow(parents, node).value, k) == Some(above);
    assert Iter(parents, node, k + 1) == Some(above);
  }
}
