/** The cycle check of internal/domain/graph.go: depth-first search with an explicit stack and a parent map. */
module CycleSearch {
  import opened Text
  import opened Digraph

  /** What the search has found: every visited task but the start has a visited parent closer to the start. */
  ghost predicate SearchTree(
    deps: seq<Dependency>, start: string, visited: set<string>, parent: map<string, string>, depth: map<string, nat>)
  {
    && start in visited && depth.Keys == visited
    && forall n :: n in visited && n != start ==> HasParent(deps, visited, parent, depth, n)
  }

  ghost predicate HasParent(
    deps: seq<Dependency>, visited: set<string>, parent: map<string, string>, depth: map<string, nat>, n: string)
    requires depth.Keys == visited && n in visited
  {
    && n in parent && parent[n] in visited
    && depth[parent[n]] < depth[n]
    && Dependency(parent[n], n) in deps
  }

  lemma GrowTree(
    deps: seq<Dependency>, start: string, visited: set<string>, parent: map<string, string>, depth: map<string, nat>,
    node: string, next: string)
    requires SearchTree(deps, start, visited, parent, depth)
    requires node in visited && next !in visited && Dependency(node, next) in deps
    ensures SearchTree(deps, start, visited + {next}, parent[next := node], depth[next := depth[node] + 1])
  {
  }

  /** Every visited task that is no longer on the stack has been expanded and is not the target. */
  ghost predicate Expanded(deps: seq<Dependency>, visited: set<string>, stack: seq<string>, target: string) {
    && (forall n :: n in visited && n !in stack ==> n != target)
    && (forall d :: d in deps && d.blocker in visited && d.blocker !in stack ==> d.blocked in visited)
  }

  /** The path is reversed with two indices that meet. */
  method ReversePath(upward: seq<string>) returns (path: seq<string>)
    ensures path == Reversed(upward)
  {
    path := upward;
    var i, j := 0, |path| - 1;
    while i < j
      invariant 0 <= i && i + j == |upward| - 1 && |path| == |upward| && j >= -1
      invariant forall k :: 0 <= k < |path| && (k < i || k > j) ==> path[k] == upward[|upward| - 1 - k]
      invariant forall k :: 0 <= k < |path| && i <= k <= j ==> path[k] == upward[k]
    {
      path := path[i := path[j]][j := path[i]];
      i, j := i + 1, j - 1;
    }
    forall k | 0 <= k < |path|
      ensures path[k] == Reversed(upward)[k]
    {
      ReversedAt(upward, k);
    }
  }

  /** A chain of parents, read upwards, with the depth falling at every link. */
  ghost predicate ParentChain(deps: seq<Dependency>, depth: map<string, nat>, up: seq<string>) {
    && |up| >= 1
    && (forall k :: 0 <= k < |up| ==> up[k] in depth)
    && (forall k :: 0 <= k < |up| - 1 ==> depth[up[k + 1]] < depth[up[k]])
    && (forall k :: 0 <= k < |up| - 1 ==> Dependency(up[k + 1], up[k]) in deps)
  }

  lemma ChainGrows(deps: seq<Dependency>, depth: map<string, nat>, up: seq<string>, above: string)
    requires ParentChain(deps, depth, up) && above in depth
    requires depth[above] < depth[up[|up| - 1]] && Dependency(above, up[|up| - 1]) in deps
    ensures ParentChain(deps, depth, up + [above])
  {
  }

  lemma {:induction false} ChainFalls(deps: seq<Dependency>, depth: map<string, nat>, up: seq<string>, i: nat, j: nat)
    requires ParentChain(deps, depth, up) && i < j < |up|
    ensures depth[up[j]] < depth[up[i]]
    decreases j
  {
    if i < j - 1 {
      ChainFalls(deps, depth, up, i, j - 1);
    }
  }

  lemma ReversedLink(deps: seq<Dependency>, depth: map<string, nat>, up: seq<string>, k: nat)
    requires ParentChain(deps, depth, up) && k < |up| - 1 && |Reversed(up)| == |up|
    ensures Dependency(Reversed(up)[k], Reversed(up)[k + 1]) in deps
  {
    hide Reversed;
    ReversedAt(up, k);
    ReversedAt(up, k + 1);
    var m := |up| - 2 - k;
    assert Dependency(up[m + 1], up[m]) in deps;
  }

  lemma ReversedDiffer(deps: seq<Dependency>, depth: map<string, nat>, up: seq<string>, i: nat, j: nat)
    requires ParentChain(deps, depth, up) && i < j < |up| && |Reversed(up)| == |up|
    ensures Reversed(up)[i] != Reversed(up)[j]
  {
    hide Reversed;
    ReversedAt(up, i);
    ReversedAt(up, j);
    ChainFalls(deps, depth, up, |up| - 1 - j, |up| - 1 - i);
  }

  lemma ReversedChainIsWalk(deps: seq<Dependency>, depth: map<string, nat>, up: seq<string>)
    requires ParentChain(deps, depth, up)
    ensures WalkBetween(deps, Reversed(up), up[|up| - 1], up[0])
    ensures Distinct(Reversed(up))
  {
    assert |up| >= 1;
    hide Reversed, ParentChain;
    var p := Reversed(up);
    ReversedAt(up, 0);
    ReversedAt(up, |up| - 1);
    forall k | 0 <= k < |p| - 1
      ensures Dependency(p[k], p[k + 1]) in deps
    {
      ReversedLink(deps, depth, up, k);
    }
    forall i, j | 0 <= i < j < |p|
      ensures p[i] != p[j]
    {
      ReversedDiffer(deps, depth, up, i, j);
    }
  }

  /** The path from the start to the node, found by walking the parent map upwards and reversing. */
  method ParentPath(
    deps: seq<Dependency>, start: string, visited: set<string>, parent: map<string, string>,
    ghost depth: map<string, nat>, node: string)
    returns (path: seq<string>)
    requires SearchTree(deps, start, visited, parent, depth) && node in visited
    ensures WalkBetween(deps, path, start, node) && Distinct(path)
  {
    path := [node];
    var current := node;
    while current != start
      invariant |path| > 0 && current in visited && path[0] == node && path[|path| - 1] == current
      invariant ParentChain(deps, depth, path)
      decreases depth[current]
    {
      assert HasParent(deps, visited, parent, depth, current);
      ChainGrows(deps, depth, path, parent[current]);
      current := parent[current];
      path := path + [current];
    }
    ReversedChainIsWalk(deps, depth, path);
    path := ReversePath(path);
  }

  /** Adjacency lists keyed by blocker, each sorted. */
  method Adjacency(deps: seq<Dependency>) returns (adj: map<string, seq<string>>)
    ensures forall n, m :: (n in adj && m in adj[n]) <==> Dependency(n, m) in deps
    ensures forall n :: n in adj ==> Ascending(adj[n])
  {
    adj := map[];
    for i := 0 to |deps|
      invariant forall n, m :: (n in adj && m in adj[n]) <==> Dependency(n, m) in deps[..i]
    {
      var dep := deps[i];
      var before := if dep.blocker in adj then adj[dep.blocker] else [];
      adj := adj[dep.blocker := before + [dep.blocked]];
      assert deps[..i + 1] == deps[..i] + [dep];
    }
    assert deps[..|deps|] == deps;
    ghost var unsorted := adj;
    adj := map n | n in adj :: Sorted(adj[n]);
    forall n | n in adj
      ensures Ascending(adj[n])
    {
      SortedAscending(unsorted[n]);
    }
  }

  lemma StackEmptyMeansUnreachable(
    deps: seq<Dependency>, start: string, target: string, visited: set<string>)
    requires start in visited && Expanded(deps, visited, [], target)
    ensures !Reaches(deps, start, target)
  {
    forall p | WalkBetween(deps, p, start, target)
      ensures false
    {
      ClosedKeepsWalk(deps, visited, p);
    }
  }

  /** Pushes the unvisited successors of a node, last one first. */
  method PushUnvisited(
    deps: seq<Dependency>, start: string, node: string, next: seq<string>, visited: set<string>,
    parent: map<string, string>, ghost depth: map<string, nat>, stack: seq<string>)
    returns (visited': set<string>, parent': map<string, string>, ghost depth': map<string, nat>, stack': seq<string>)
    requires SearchTree(deps, start, visited, parent, depth) && node in visited
    requires forall m :: m in next ==> Dependency(node, m) in deps
    ensures SearchTree(deps, start, visited', parent', depth')
    ensures visited' == visited + Range(next)
    ensures stack <= stack' && (visited' == visited ==> stack' == stack)
    ensures forall n :: n in stack' <==> n in stack || n in visited' - visited
  {
    visited', parent', depth', stack' := visited, parent, depth, stack;
    var i := |next| - 1;
    while i >= 0
      invariant -1 <= i < |next|
      invariant SearchTree(deps, start, visited', parent', depth')
      invariant visited <= visited' && visited' == visited + Range(next[i + 1..])
      invariant stack <= stack' && (visited' == visited ==> stack' == stack)
      invariant forall n :: n in stack' <==> n in stack || n in visited' - visited
    {
      assert Range(next[i..]) == {next[i]} + Range(next[i + 1..]);
      if next[i] !in visited' {
        GrowTree(deps, start, visited', parent', depth', node, next[i]);
        depth' := depth'[next[i] := depth'[node] + 1];
        parent' := parent'[next[i] := node];
        visited' := visited' + {next[i]};
        stack' := stack' + [next[i]];
      }
      i := i - 1;
    }
    assert next[0..] == next;
  }

  lemma ExpandedAfterPush(
    deps: seq<Dependency>, visited: set<string>, stack: seq<string>, node: string, target: string,
    visited': set<string>, stack': seq<string>)
    requires Expanded(deps, visited, stack + [node], target) && node != target
    requires visited <= visited'
    requires forall n :: n in stack' <==> n in stack || n in visited' - visited
    requires forall d :: d in deps && d.blocker == node ==> d.blocked in visited'
    ensures Expanded(deps, visited', stack', target)
  {
  }

  /** Every task the search can visit. */
  ghost function Universe(deps: seq<Dependency>, start: string): set<string> {
    {start} + set d | d in deps :: d.blocked
  }

  method Expand(
    deps: seq<Dependency>, adj: map<string, seq<string>>, start: string, target: string, node: string,
    visited: set<string>, parent: map<string, string>, ghost depth: map<string, nat>, rest: seq<string>)
    returns (visited': set<string>, parent': map<string, string>, ghost depth': map<string, nat>, stack': seq<string>)
    requires forall n, m :: (n in adj && m in adj[n]) <==> Dependency(n, m) in deps
    requires SearchTree(deps, start, visited, parent, depth) && visited <= Universe(deps, start)
    requires Expanded(deps, visited, rest + [node], target)
    requires node in visited && node != target && forall n :: n in rest ==> n in visited
    ensures SearchTree(deps, start, visited', parent', depth')
    ensures Expanded(deps, visited', stack', target)
    ensures visited <= visited' <= Universe(deps, start)
    ensures forall n :: n in stack' ==> n in visited'
    ensures visited' == visited ==> stack' == rest
  {
    var next := if node in adj then adj[node] else [];
    forall d | d in deps && d.blocker == node
      ensures d.blocked in next
    {
      assert Dependency(node, d.blocked) in deps;
    }
    forall m | m in next
      ensures Dependency(node, m) in deps && m in Universe(deps, start)
    {
      var d := Dependency(node, m);
      assert d in deps;
    }
    visited', parent', depth', stack' := PushUnvisited(deps, start, node, next, visited, parent, depth, rest);
    ExpandedAfterPush(deps, visited, rest, node, target, visited', stack');
  }

  lemma SearchStarts(deps: seq<Dependency>, start: string, target: string)
    ensures SearchTree(deps, start, {start}, map[], map[start := 0])
    ensures Expanded(deps, {start}, [start], target)
  {
  }

  method CyclePath(deps: seq<Dependency>, blocker: string, blocked: string) returns (path: seq<string>)
    ensures blocker == blocked ==> path == [blocker, blocker]
    ensures blocker != blocked ==> (path != [] <==> Reaches(deps, blocked, blocker))
    ensures blocker != blocked && path != [] ==> ClosesCycle(deps, blocker, blocked, path)
  {
    if blocker == blocked {
      return [blocker, blocker];
    }
    hide SearchTree, Expanded, IsWalk;
    var adj := Adjacency(deps);
    var parent: map<string, string> := map[];
    var visited := {blocked};
    var stack := [blocked];
    ghost var depth: map<string, nat> := map[blocked := 0];
    SearchStarts(deps, blocked, blocker);
    while |stack| > 0
      invariant SearchTree(deps, blocked, visited, parent, depth)
      invariant visited <= Universe(deps, blocked)
      invariant forall n :: n in stack ==> n in visited
      invariant Expanded(deps, visited, stack, blocker)
      decreases Universe(deps, blocked) - visited, |stack|
    {
      var node, rest := stack[|stack| - 1], stack[..|stack| - 1];
      assert stack == rest + [node];
      if node == blocker {
        path := ParentPath(deps, blocked, visited, parent, depth, node);
        assert (path + [blocked])[..|path|] == path;
        NotTrivial(deps, path, blocked, blocker);
        return path + [blocked];
      }
      ghost var before := visited;
      visited, parent, depth, stack := Expand(deps, adj, blocked, blocker, node, visited, parent, depth, rest);
      assert visited != before ==> exists n :: n in visited && n !in before;
    }
    StackEmptyMeansUnreachable(deps, blocked, blocker, visited);
    path := [];
  }

  lemma NotTrivial(deps: seq<Dependency>, path: seq<string>, a: string, b: string)
    requires WalkBetween(deps, path, a, b) && a != b
    ensures |path| >= 2 && Reaches(deps, a, b)
  {
  }
}
