/** Walks, reachability and cycles of the dependency relation, independent of any algorithm. */
module Digraph {
  import opened Text

  /** A stored edge: the blocker has to be settled before the blocked task. */
  datatype Dependency = Dependency(blocker: string, blocked: string)

  ghost predicate IsWalk(deps: seq<Dependency>, p: seq<string>) {
    && |p| >= 1
    && forall i :: 0 <= i < |p| - 1 ==> Dependency(p[i], p[i + 1]) in deps
  }

  ghost predicate WalkBetween(deps: seq<Dependency>, p: seq<string>, a: string, b: string) {
    IsWalk(deps, p) && p[0] == a && p[|p| - 1] == b
  }

  ghost predicate Reaches(deps: seq<Dependency>, a: string, b: string) {
    exists p :: WalkBetween(deps, p, a, b)
  }

  ghost predicate Acyclic(deps: seq<Dependency>) {
    forall p :: IsWalk(deps, p) && |p| >= 2 ==> p[0] != p[|p| - 1]
  }

  /** The circle the candidate edge blocker -> blocked would close. */
  ghost predicate ClosesCycle(deps: seq<Dependency>, blocker: string, blocked: string, path: seq<string>) {
    && |path| >= 3
    && path[|path| - 1] == blocked
    && Distinct(path[..|path| - 1])
    && WalkBetween(deps, path[..|path| - 1], blocked, blocker)
  }

  /** A permutation of the tasks in which every blocker comes before the task it blocks. */
  ghost predicate IsTopological(tasks: seq<string>, deps: seq<Dependency>, order: seq<string>) {
    && multiset(order) == multiset(tasks)
    && BlockersFirst(deps, order)
  }

  ghost predicate BlockersFirst(deps: seq<Dependency>, order: seq<string>) {
    forall d, i :: d in deps && 0 <= i < |order| && order[i] == d.blocked ==> d.blocker in order[..i]
  }

  predicate Known(tasks: set<string>, deps: seq<Dependency>) {
    forall d :: d in deps ==> d.blocker in tasks && d.blocked in tasks
  }

  lemma WalkJoin(deps: seq<Dependency>, p: seq<string>, q: seq<string>)
    requires IsWalk(deps, p) && IsWalk(deps, q) && p[|p| - 1] == q[0]
    ensures IsWalk(deps, p + q[1..])
    ensures (p + q[1..])[|p| + |q| - 2] == q[|q| - 1]
  {
  }

  lemma WalkPart(deps: seq<Dependency>, p: seq<string>, i: nat, j: nat)
    requires IsWalk(deps, p) && i < j <= |p|
    ensures IsWalk(deps, p[i..j])
  {
  }

  lemma WalkMono(deps: seq<Dependency>, more: seq<Dependency>, p: seq<string>)
    requires IsWalk(deps, p)
    requires forall d :: d in deps ==> d in more
    ensures IsWalk(more, p)
  {
  }

  /** Without cycles no walk visits a task twice. */
  lemma AcyclicWalkIsDistinct(deps: seq<Dependency>, p: seq<string>)
    requires Acyclic(deps) && IsWalk(deps, p)
    ensures Distinct(p)
  {
    hide IsWalk;
    forall i, j | 0 <= i < j < |p|
      ensures p[i] != p[j]
    {
      WalkPart(deps, p, i, j + 1);
      var part := p[i..j + 1];
      assert part[0] == p[i] && part[|part| - 1] == p[j];
    }
  }

  /** A set closed under the edges keeps every walk that starts in it. */
  lemma {:induction false} ClosedKeepsWalk(deps: seq<Dependency>, closed: set<string>, p: seq<string>)
    requires IsWalk(deps, p) && p[0] in closed
    requires forall d :: d in deps && d.blocker in closed ==> d.blocked in closed
    ensures p[|p| - 1] in closed
  {
    if |p| > 1 {
      assert Dependency(p[0], p[1]) in deps;
      WalkPart(deps, p, 1, |p|);
      ClosedKeepsWalk(deps, closed, p[1..]);
    }
  }

  ghost predicate BlockedWithin(deps: seq<Dependency>, tasks: set<string>, n: string) {
    exists d :: d in deps && d.blocked == n && d.blocker in tasks
  }

  /** In a finite set where every member has a blocker in the set, the edges close a cycle. */
  lemma EveryoneBlockedMeansCycle(deps: seq<Dependency>, stuck: set<string>)
    requires stuck != {}
    requires forall n :: n in stuck ==> BlockedWithin(deps, stuck, n)
    ensures !Acyclic(deps)
  {
    var n :| n in stuck;
    WalkBack(deps, stuck, [n]);
  }

  lemma WalkPrepend(deps: seq<Dependency>, a: string, p: seq<string>)
    requires IsWalk(deps, p) && Dependency(a, p[0]) in deps
    ensures IsWalk(deps, [a] + p)
  {
  }

  lemma ReturningWalk(deps: seq<Dependency>, p: seq<string>, k: nat)
    requires IsWalk(deps, p) && k < |p| && Dependency(p[k], p[0]) in deps
    ensures !Acyclic(deps)
  {
    WalkPrepend(deps, p[k], p);
    WalkPart(deps, [p[k]] + p, 0, k + 2);
    var loop := ([p[k]] + p)[0..k + 2];
    assert loop[0] == loop[|loop| - 1];
  }

  lemma PrependWithin(a: string, p: seq<string>, within: set<string>)
    requires Distinct(p) && Range(p) <= within && a in within && a !in p
    ensures Distinct([a] + p) && Range([a] + p) <= within
    ensures |p| + 1 <= |within|
  {
    var q := [a] + p;
    forall i, j | 0 <= i < j < |q|
      ensures q[i] != q[j]
    {
      assert q[j] == p[j - 1];
    }
    assert Range(q) == Range(p) + {a};
    RangeSize(q);
    SubsetSize(Range(q), within);
  }

  lemma {:induction false} WalkBack(deps: seq<Dependency>, stuck: set<string>, p: seq<string>)
    requires IsWalk(deps, p) && Distinct(p) && Range(p) <= stuck
    requires forall n :: n in stuck ==> BlockedWithin(deps, stuck, n)
    ensures !Acyclic(deps)
    decreases |stuck| - |p|
  {
    assert p[0] in Range(p);
    assert BlockedWithin(deps, stuck, p[0]);
    var d :| d in deps && d.blocked == p[0] && d.blocker in stuck;
    assert d == Dependency(d.blocker, p[0]);
    if d.blocker in p {
      var k :| 0 <= k < |p| && p[k] == d.blocker;
      ReturningWalk(deps, p, k);
    } else {
      WalkPrepend(deps, d.blocker, p);
      PrependWithin(d.blocker, p, stuck);
      WalkBack(deps, stuck, [d.blocker] + p);
    }
  }

  /** Along a walk, positions in an order with all blockers first only grow. */
  lemma {:induction false} WalkClimbs(deps: seq<Dependency>, order: seq<string>, p: seq<string>, i: nat)
    requires BlockersFirst(deps, order)
    requires IsWalk(deps, p) && i < |order| && order[i] == p[|p| - 1]
    ensures exists k :: 0 <= k <= i - (|p| - 1) && order[k] == p[0]
  {
    if |p| > 1 {
      var last := |p| - 1;
      assert Dependency(p[last - 1], p[last]) in deps;
      var j :| 0 <= j < i && order[j] == p[last - 1];
      WalkPart(deps, p, 0, last);
      WalkClimbs(deps, order, p[0..last], j);
    }
  }

  /** A graph all of whose tasks can be ordered blockers first has no cycle. */
  lemma OrderedMeansAcyclic(deps: seq<Dependency>, order: seq<string>)
    requires BlockersFirst(deps, order) && Distinct(order)
    requires Known(Range(order), deps)
    ensures Acyclic(deps)
  {
    forall p | IsWalk(deps, p) && |p| >= 2
      ensures p[0] != p[|p| - 1]
    {
      assert Dependency(p[|p| - 2], p[|p| - 1]) in deps;
      var i :| 0 <= i < |order| && order[i] == p[|p| - 1];
      WalkClimbs(deps, order, p, i);
    }
  }

  /** Every finite set of tasks of an acyclic graph can be ordered blockers first. */
  lemma {:induction false} AcyclicHasOrder(deps: seq<Dependency>, tasks: set<string>) returns (order: seq<string>)
    requires Acyclic(deps)
    ensures Distinct(order) && Range(order) == tasks
    ensures forall d, i :: d in deps && d.blocker in tasks && 0 <= i < |order| && order[i] == d.blocked
              ==> d.blocker in order[..i]
    decreases tasks
  {
    if tasks == {} {
      order := [];
    } else {
      if forall n :: n in tasks ==> BlockedWithin(deps, tasks, n) {
        EveryoneBlockedMeansCycle(deps, tasks);
      }
      var first :| first in tasks && !BlockedWithin(deps, tasks, first);
      var rest := AcyclicHasOrder(deps, tasks - {first});
      order := [first] + rest;
      assert first !in Range(rest);
      assert Range(order) == {first} + Range(rest);
      forall d, i | d in deps && d.blocker in tasks && 0 <= i < |order| && order[i] == d.blocked
        ensures d.blocker in order[..i]
      {
        assert i > 0 && rest[i - 1] == d.blocked;
        assert order[..i] == [first] + rest[..i - 1];
      }
    }
  }

  /** Adding an edge closes a cycle exactly when its target already reaches its source. */
  lemma NewEdgeKeepsAcyclic(deps: seq<Dependency>, more: seq<Dependency>, e: Dependency)
    requires Acyclic(deps)
    requires forall d :: d in more <==> d in deps || d == e
    ensures Acyclic(more) <==> !Reaches(deps, e.blocked, e.blocker)
  {
    if Reaches(deps, e.blocked, e.blocker) {
      var p :| WalkBetween(deps, p, e.blocked, e.blocker);
      WalkMono(deps, more, p);
      assert e == Dependency(p[|p| - 1], p[0]);
      ReturningWalk(more, p, |p| - 1);
    } else {
      forall p | IsWalk(more, p) && |p| >= 2
        ensures p[0] != p[|p| - 1]
      {
        if p[0] == p[|p| - 1] {
          LoopUsesNewEdge(deps, more, e, p);
        }
      }
    }
  }

  lemma LoopUsesNewEdge(deps: seq<Dependency>, more: seq<Dependency>, e: Dependency, p: seq<string>)
    requires Acyclic(deps)
    requires forall d :: d in more <==> d in deps || d == e
    requires IsWalk(more, p) && |p| >= 2 && p[0] == p[|p| - 1]
    ensures Reaches(deps, e.blocked, e.blocker)
  {
    if IsWalk(deps, p) {
      assert false;
    } else {
      var i :| 0 <= i < |p| - 1 && Dependency(p[i], p[i + 1]) !in deps;
      assert Dependency(p[i], p[i + 1]) in more;
      var q := TurnAround(more, p, i);
      WithoutNewEdge(deps, more, e, q);
    }
  }

  /** Along a loop: from the end of one step to the end, then from the start to that step. */
  lemma TurnAround(deps: seq<Dependency>, p: seq<string>, i: nat) returns (q: seq<string>)
    requires IsWalk(deps, p) && p[0] == p[|p| - 1] && i + 1 < |p|
    ensures WalkBetween(deps, q, p[i + 1], p[i])
  {
    var tail, head := p[i + 1..|p|], p[0..i + 1];
    WalkPart(deps, p, i + 1, |p|);
    WalkPart(deps, p, 0, i + 1);
    WalkJoin(deps, tail, head);
    q := tail + head[1..];
  }

  /** A walk from the target of the new edge to its source need not use the new edge. */
  lemma {:induction false} WithoutNewEdge(deps: seq<Dependency>, more: seq<Dependency>, e: Dependency, p: seq<string>)
    requires forall d :: d in more <==> d in deps || d == e
    requires WalkBetween(more, p, e.blocked, e.blocker)
    ensures Reaches(deps, e.blocked, e.blocker)
    decreases |p|
  {
    if IsWalk(deps, p) {
      assert WalkBetween(deps, p, e.blocked, e.blocker);
    } else {
      var i :| 0 <= i < |p| - 1 && Dependency(p[i], p[i + 1]) !in deps;
      assert Dependency(p[i], p[i + 1]) in more;
      WalkPart(more, p, 0, i + 1);
      WithoutNewEdge(deps, more, e, p[0..i + 1]);
    }
  }
}
