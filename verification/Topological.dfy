/** The ordering of internal/domain/graph.go: Kahn's algorithm with a sorted queue. */
module Topological {
  import opened Text
  import opened Digraph

  datatype OrderResult =
    | Ordered(order: seq<string>)
    | UnknownBlocker(id: string)
    | UnknownBlocked(id: string)
    | ContainsCycle

  /** How many stored edges into n come from a blocker outside done. */
  function Indegree(deps: seq<Dependency>, n: string, done: set<string>): nat {
    if deps == [] then 0
    else
      var last := |deps| - 1;
      Indegree(deps[..last], n, done)
      + (if deps[last].blocked == n && deps[last].blocker !in done then 1 else 0)
  }

  ghost predicate Waits(deps: seq<Dependency>, n: string, done: set<string>) {
    exists d :: d in deps && d.blocked == n && d.blocker !in done
  }

  lemma {:induction false} IndegreePositive(deps: seq<Dependency>, n: string, done: set<string>)
    ensures Indegree(deps, n, done) > 0 <==> Waits(deps, n, done)
  {
    if deps != [] {
      var last := |deps| - 1;
      assert deps == deps[..last] + [deps[last]];
      IndegreePositive(deps[..last], n, done);
    }
  }

  /** The blocked ends of the edges that leave n, in stored order. */
  function Successors(deps: seq<Dependency>, n: string): seq<string> {
    if deps == [] then []
    else
      var last := |deps| - 1;
      Successors(deps[..last], n) + (if deps[last].blocker == n then [deps[last].blocked] else [])
  }

  lemma {:induction false} SuccessorsAre(deps: seq<Dependency>, n: string)
    ensures forall m :: m in Successors(deps, n) <==> Dependency(n, m) in deps
  {
    if deps != [] {
      var last := |deps| - 1;
      assert deps == deps[..last] + [deps[last]];
      SuccessorsAre(deps[..last], n);
    }
  }

  /** Settling one more blocker lowers an indegree by the number of its edges. */
  lemma {:induction false} SettleLowers(deps: seq<Dependency>, n: string, done: set<string>, id: string)
    requires id !in done
    ensures Indegree(deps, n, done) == Indegree(deps, n, done + {id}) + multiset(Successors(deps, id))[n]
  {
    if deps != [] {
      SettleLowers(deps[..|deps| - 1], n, done, id);
    }
  }

  /** a is the smaller of the two at the first place where they differ, or a prefix of b. */
  ghost predicate PrefixLeast(a: seq<string>, b: seq<string>) {
    a <= b || exists k :: 0 <= k < |a| && k < |b| && a[..k] == b[..k] && Below(a[k], b[k])
  }

  /** The queue holds exactly the tasks that wait for nobody, smallest first. */
  ghost predicate QueueIsReady(
    tasks: set<string>, indegree: map<string, nat>, order: seq<string>, queue: seq<string>)
    requires indegree.Keys == tasks
  {
    && Ascending(queue) && Distinct(queue)
    && forall n :: n in queue <==> n in tasks && n !in order && indegree[n] == 0
  }

  ghost predicate Settled(
    tasks: set<string>, deps: seq<Dependency>, indegree: map<string, nat>, order: seq<string>)
  {
    && indegree.Keys == tasks && Range(order) <= tasks
    && Distinct(order) && BlockersFirst(deps, order)
    && (forall n :: n in tasks ==> indegree[n] == Indegree(deps, n, Range(order)))
    && (forall n :: n in order ==> indegree[n] == 0)
  }

  ghost predicate LeastSoFar(tasks: seq<string>, deps: seq<Dependency>, order: seq<string>) {
    forall other :: IsTopological(tasks, deps, other) ==> PrefixLeast(order, other)
  }

  /** The tables built from the first edges. */
  ghost predicate Counted(
    tasks: set<string>, deps: seq<Dependency>, indegree: map<string, nat>, adj: map<string, seq<string>>)
  {
    && indegree.Keys == tasks
    && (forall n :: n in tasks ==> indegree[n] == Indegree(deps, n, {}))
    && (forall n :: n in adj ==> adj[n] == Successors(deps, n))
    && (forall n :: n !in adj ==> Successors(deps, n) == [])
  }

  lemma CountOne(
    tasks: set<string>, deps: seq<Dependency>, dep: Dependency, indegree: map<string, nat>,
    adj: map<string, seq<string>>)
    requires Counted(tasks, deps, indegree, adj) && dep.blocked in tasks
    ensures Counted(tasks, deps + [dep], indegree[dep.blocked := indegree[dep.blocked] + 1],
              adj[dep.blocker := (if dep.blocker in adj then adj[dep.blocker] else []) + [dep.blocked]])
  {
  }

  lemma NothingCounted(tasks: seq<string>, indegree: map<string, nat>)
    requires indegree.Keys == Range(tasks) && forall n :: n in indegree ==> indegree[n] == 0
    ensures Counted(Range(tasks), [], indegree, map[])
  {
  }

  method CountIndegrees(tasks: seq<string>, deps: seq<Dependency>)
    returns (indegree: map<string, nat>, adj: map<string, seq<string>>, failure: OrderResult)
    ensures !failure.Ordered? ==> FirstUnknown(tasks, deps, failure)
    ensures failure.Ordered? ==> Known(Range(tasks), deps) && Counted(Range(tasks), deps, indegree, adj)
  {
    hide Counted, Indegree, Successors;
    failure := Ordered([]);
    adj := map[];
    indegree := map n | n in tasks :: 0;
    assert deps[..0] == [];
    NothingCounted(tasks, indegree);
    for i := 0 to |deps|
      invariant failure == Ordered([])
      invariant Known(Range(tasks), deps[..i])
      invariant indegree.Keys == Range(tasks) && Counted(Range(tasks), deps[..i], indegree, adj)
    {
      var dep := deps[i];
      if dep.blocker !in indegree {
        failure := UnknownBlocker(dep.blocker);
        return;
      }
      if dep.blocked !in indegree {
        failure := UnknownBlocked(dep.blocked);
        return;
      }
      CountOne(Range(tasks), deps[..i], dep, indegree, adj);
      assert deps[..i + 1] == deps[..i] + [dep];
      indegree := indegree[dep.blocked := indegree[dep.blocked] + 1];
      adj := adj[dep.blocker := (if dep.blocker in adj then adj[dep.blocker] else []) + [dep.blocked]];
    }
    assert deps[..|deps|] == deps;
  }

  /** The error names the first endpoint, in stored order and blocker first, that is no task. */
  ghost predicate FirstUnknown(tasks: seq<string>, deps: seq<Dependency>, failure: OrderResult) {
    exists i :: 0 <= i < |deps| && Known(Range(tasks), deps[..i]) && (
      || (failure == UnknownBlocker(deps[i].blocker) && deps[i].blocker !in tasks)
      || (failure == UnknownBlocked(deps[i].blocked) && deps[i].blocker in tasks && deps[i].blocked !in tasks))
  }

  /** The initial queue is collected in map order, which is arbitrary, and then sorted. */
  method InitialQueue(indegree: map<string, nat>) returns (queue: seq<string>)
    ensures QueueIsReady(indegree.Keys, indegree, [], queue)
  {
    queue := [];
    var keys := indegree.Keys;
    while keys != {}
      invariant keys <= indegree.Keys && Distinct(queue)
      invariant forall n :: n in queue <==> n in indegree && n !in keys && indegree[n] == 0
      decreases keys
    {
      var id :| id in keys;
      keys := keys - {id};
      if indegree[id] == 0 {
        queue := queue + [id];
      }
    }
    SortedAscending(queue);
    SortedDistinct(queue);
    queue := Sorted(queue);
  }

  lemma ReleaseOne(
    tasks: set<string>, order: seq<string>, indegree: map<string, nat>, queue: seq<string>, m: string)
    requires indegree.Keys == tasks && QueueIsReady(tasks, indegree, order, queue)
    requires m in tasks && indegree[m] > 0
    requires m !in order
    ensures QueueIsReady(tasks, indegree[m := (indegree[m] - 1) as nat], order,
              if indegree[m] == 1 then Sorted(queue + [m]) else queue)
  {
    assert m !in queue;
    if indegree[m] == 1 {
      var longer := queue + [m];
      SortedAscending(longer);
      SortedDistinct(longer);
    }
  }

  /** Lowers the indegree of every successor and queues those that reach zero. */
  method Release(
    ghost tasks: set<string>, ghost order: seq<string>, next: seq<string>, indegree: map<string, nat>,
    queue: seq<string>)
    returns (indegree': map<string, nat>, queue': seq<string>)
    requires indegree.Keys == tasks && QueueIsReady(tasks, indegree, order, queue)
    requires forall n :: n in next ==> n in tasks && n !in order
    requires forall n :: n in tasks ==> indegree[n] >= multiset(next)[n]
    ensures indegree'.Keys == tasks && QueueIsReady(tasks, indegree', order, queue')
    ensures forall n :: n in tasks ==> indegree'[n] + multiset(next)[n] == indegree[n]
  {
    hide QueueIsReady;
    indegree', queue' := indegree, queue;
    for j := 0 to |next|
      invariant indegree'.Keys == tasks && QueueIsReady(tasks, indegree', order, queue')
      invariant forall n :: n in tasks ==> indegree'[n] + multiset(next[..j])[n] == indegree[n]
    {
      var m := next[j];
      CountSplit(next, j);
      ReleaseOne(tasks, order, indegree', queue', m);
      indegree' := indegree'[m := indegree'[m] - 1];
      if indegree'[m] == 0 {
        queue' := Sorted(queue' + [m]);
      }
    }
    assert next[..|next|] == next;
  }

  lemma CountSplit(s: seq<string>, j: nat)
    requires j < |s|
    ensures multiset(s[..j + 1]) == multiset(s[..j]) + multiset{s[j]}
    ensures multiset(s)[s[j]] > multiset(s[..j])[s[j]]
  {
    assert s[..j + 1] == s[..j] + [s[j]];
    assert s == s[..j] + [s[j]] + s[j + 1..];
  }

  /** Taking the head of the queue keeps the order a prefix of the least one. */
  lemma TakeLeast(
    tasks: seq<string>, deps: seq<Dependency>, indegree: map<string, nat>, order: seq<string>, queue: seq<string>)
    requires Settled(Range(tasks), deps, indegree, order)
    requires QueueIsReady(Range(tasks), indegree, order, queue) && queue != []
    requires LeastSoFar(tasks, deps, order)
    requires Distinct(tasks)
    ensures LeastSoFar(tasks, deps, order + [queue[0]])
  {
    var id := queue[0];
    forall other | IsTopological(tasks, deps, other)
      ensures PrefixLeast(order + [id], other)
    {
      assert PrefixLeast(order, other);
      if order <= other {
        var k := |order|;
        SameLength(tasks, other);
        assert id in Range(tasks) && id in other;
        NextIsReady(tasks, deps, indegree, order, queue, other);
        assert other[k] in queue;
        var q :| 0 <= q < |queue| && queue[q] == other[k];
        assert !Below(other[k], id) by { if q == 0 { BelowIrreflexive(id); } }
        BelowTotal(id, other[k]);
        assert other[..k] == order;
        if other[k] == id {
          assert other[..k + 1] == order + [id];
        } else {
          assert (order + [id])[..k] == other[..k];
        }
      } else {
        var k :| 0 <= k < |order| && k < |other| && order[..k] == other[..k] && Below(order[k], other[k]);
        assert (order + [id])[..k] == other[..k] && (order + [id])[k] == order[k];
      }
    }
  }

  lemma SameLength(tasks: seq<string>, other: seq<string>)
    requires multiset(other) == multiset(tasks)
    ensures |other| == |tasks|
    ensures forall x :: x in other <==> x in tasks
  {
    assert |multiset(other)| == |multiset(tasks)|;
    assert forall x :: x in other <==> x in multiset(other);
    assert forall x :: x in tasks <==> x in multiset(tasks);
  }

  /** A competing order that agrees so far goes on with a task that is in the queue. */
  lemma NextIsReady(
    tasks: seq<string>, deps: seq<Dependency>, indegree: map<string, nat>, order: seq<string>, queue: seq<string>,
    other: seq<string>)
    requires Settled(Range(tasks), deps, indegree, order)
    requires QueueIsReady(Range(tasks), indegree, order, queue)
    requires IsTopological(tasks, deps, other) && Distinct(tasks)
    requires order <= other && |order| < |other|
    ensures other[|order|] in queue
  {
    var m := other[|order|];
    SameLength(tasks, other);
    MultisetOfDistinct(tasks);
    DistinctByMultiset(other);
    assert m in tasks;
    assert m !in order;
    assert other[..|order|] == order;
    IndegreePositive(deps, m, Range(order));
    assert Indegree(deps, m, Range(order)) == 0;
  }

  lemma Take(
    tasks: set<string>, deps: seq<Dependency>, indegree: map<string, nat>, order: seq<string>, id: string,
    next: seq<string>, indegree': map<string, nat>)
    requires Settled(tasks, deps, indegree, order) && Known(tasks, deps)
    requires id in tasks && id !in order && indegree[id] == 0 && next == Successors(deps, id)
    requires indegree'.Keys == tasks
    requires forall n :: n in tasks ==> indegree'[n] + multiset(next)[n] == indegree[n]
    ensures Settled(tasks, deps, indegree', order + [id])
  {
    var longer := order + [id];
    assert Range(longer) == Range(order) + {id};
    IndegreePositive(deps, id, Range(order));
    BlockersStayFirst(deps, order, id);
    forall n | n in tasks
      ensures indegree'[n] == Indegree(deps, n, Range(longer))
    {
      SettleLowers(deps, n, Range(order), id);
    }
  }

  lemma BlockersStayFirst(deps: seq<Dependency>, order: seq<string>, id: string)
    requires BlockersFirst(deps, order) && !Waits(deps, id, Range(order))
    ensures BlockersFirst(deps, order + [id])
  {
    var longer := order + [id];
    forall d, i | d in deps && 0 <= i < |longer| && longer[i] == d.blocked
      ensures d.blocker in longer[..i]
    {
      if i < |order| {
        assert longer[..i] == order[..i];
      } else {
        assert longer[..i] == order;
        assert d.blocker in Range(order);
      }
    }
  }

  /** Successors of a task that is taken are tasks that were not taken before, counted by their indegree. */
  lemma SuccessorsBounded(
    tasks: set<string>, deps: seq<Dependency>, indegree: map<string, nat>, order: seq<string>, id: string)
    requires Settled(tasks, deps, indegree, order) && Known(tasks, deps)
    requires id in tasks && id !in order && indegree[id] == 0
    ensures forall n :: n in tasks ==> indegree[n] >= multiset(Successors(deps, id))[n]
    ensures forall n :: n in Successors(deps, id) ==> n in tasks && n !in order + [id]
  {
    forall n | n in tasks
      ensures indegree[n] >= multiset(Successors(deps, id))[n]
    {
      SettleLowers(deps, n, Range(order), id);
    }
    SuccessorsAre(deps, id);
    forall n | n in Successors(deps, id)
      ensures n in tasks && n !in order + [id]
    {
      assert Dependency(id, n) in deps;
      assert Waits(deps, n, Range(order));
      IndegreePositive(deps, n, Range(order));
    }
  }

  /** When the queue runs dry early, the tasks left over all wait for each other. */
  lemma LeftOverMeansCycle(
    tasks: seq<string>, deps: seq<Dependency>, indegree: map<string, nat>, order: seq<string>)
    requires Settled(Range(tasks), deps, indegree, order) && Known(Range(tasks), deps)
    requires QueueIsReady(Range(tasks), indegree, order, [])
    requires Distinct(tasks) && |order| != |tasks|
    ensures !Acyclic(deps)
  {
    RangeSize(tasks);
    RangeSize(order);
    var stuck := Range(tasks) - Range(order);
    assert Range(order) != Range(tasks);
    var left :| left in Range(tasks) && left !in Range(order);
    assert left in stuck;
    forall n | n in stuck
      ensures BlockedWithin(deps, stuck, n)
    {
      assert n !in [] && n !in order;
      IndegreePositive(deps, n, Range(order));
      assert Waits(deps, n, Range(order));
      var d :| d in deps && d.blocked == n && d.blocker !in Range(order);
      assert d.blocker in stuck;
    }
    EveryoneBlockedMeansCycle(deps, stuck);
  }

  lemma CompleteIsTopological(
    tasks: seq<string>, deps: seq<Dependency>, indegree: map<string, nat>, order: seq<string>)
    requires Settled(Range(tasks), deps, indegree, order) && Known(Range(tasks), deps) && |order| == |tasks|
    ensures Distinct(tasks) && IsTopological(tasks, deps, order) && Acyclic(deps)
  {
    RangeSize(tasks);
    RangeSize(order);
    SubsetSize(Range(order), Range(tasks));
    MultisetOfDistinct(tasks);
    MultisetOfDistinct(order);
    forall x
      ensures multiset(order)[x] == multiset(tasks)[x]
    {
      assert x in Range(order) <==> x in Range(tasks);
      assert x in order <==> x in multiset(order);
      assert x in tasks <==> x in multiset(tasks);
    }
    OrderedMeansAcyclic(deps, order);
  }

  ghost predicate Progress(
    tasks: seq<string>, deps: seq<Dependency>, indegree: map<string, nat>, order: seq<string>, queue: seq<string>)
  {
    && Settled(Range(tasks), deps, indegree, order)
    && QueueIsReady(Range(tasks), indegree, order, queue)
    && (Distinct(tasks) ==> LeastSoFar(tasks, deps, order))
  }

  /** Takes the head of the queue and releases the tasks it blocked. */
  method TakeHead(
    ghost tasks: seq<string>, ghost deps: seq<Dependency>, adj: map<string, seq<string>>,
    indegree: map<string, nat>, order: seq<string>, queue: seq<string>)
    returns (indegree': map<string, nat>, queue': seq<string>)
    requires Known(Range(tasks), deps) && Progress(tasks, deps, indegree, order, queue) && queue != []
    requires forall n :: n in adj ==> adj[n] == Successors(deps, n)
    requires forall n :: n !in adj ==> Successors(deps, n) == []
    ensures queue[0] in Range(tasks) && queue[0] !in order
    ensures Progress(tasks, deps, indegree', order + [queue[0]], queue')
  {
    var id := queue[0];
    ghost var all := Range(tasks);
    var next := if id in adj then adj[id] else [];
    assert id in queue;
    if Distinct(tasks) {
      TakeLeast(tasks, deps, indegree, order, queue);
    }
    DropHead(all, indegree, order, queue);
    SuccessorsBounded(all, deps, indegree, order, id);
    indegree', queue' := Release(all, order + [id], next, indegree, queue[1..]);
    Take(all, deps, indegree, order, id, next, indegree');
  }

  /** TopologicalOrder: the least order with every blocker first, or the reason there is none. */
  method TopologicalOrder(tasks: seq<string>, deps: seq<Dependency>) returns (result: OrderResult)
    ensures result.UnknownBlocker? || result.UnknownBlocked? <==> !Known(Range(tasks), deps)
    ensures result.UnknownBlocker? || result.UnknownBlocked? ==> FirstUnknown(tasks, deps, result)
    ensures result.Ordered? <==> Known(Range(tasks), deps) && Distinct(tasks) && Acyclic(deps)
    ensures result.Ordered? ==> IsTopological(tasks, deps, result.order)
    ensures result.Ordered? ==> LeastSoFar(tasks, deps, result.order)
  {
    var indegree, adj, failure := CountIndegrees(tasks, deps);
    if !failure.Ordered? {
      return failure;
    }
    var queue := InitialQueue(indegree);
    var order: seq<string> := [];
    ghost var all := Range(tasks);
    assert Range(order) == {};
    while |queue| > 0
      invariant Progress(tasks, deps, indegree, order, queue)
      decreases all - Range(order)
    {
      var indegree', queue' := TakeHead(tasks, deps, adj, indegree, order, queue);
      assert Range(order + [queue[0]]) == Range(order) + {queue[0]};
      order, indegree, queue := order + [queue[0]], indegree', queue';
    }
    assert queue == [];
    if |order| != |tasks| {
      if Distinct(tasks) {
        LeftOverMeansCycle(tasks, deps, indegree, order);
      }
      return ContainsCycle;
    }
    CompleteIsTopological(tasks, deps, indegree, order);
    return Ordered(order);
  }

  lemma DropHead(tasks: set<string>, indegree: map<string, nat>, order: seq<string>, queue: seq<string>)
    requires indegree.Keys == tasks && QueueIsReady(tasks, indegree, order, queue) && queue != []
    ensures QueueIsReady(tasks, indegree, order + [queue[0]], queue[1..])
  {
  }

  lemma PrefixLeastBothWays(a: seq<string>, b: seq<string>)
    requires PrefixLeast(a, b) && PrefixLeast(b, a) && |a| == |b|
    ensures a == b
  {
    hide Below;
    if a != b {
      var k :| 0 <= k < |a| && a[..k] == b[..k] && Below(a[k], b[k]);
      var m :| 0 <= m < |a| && a[..m] == b[..m] && Below(b[m], a[m]);
      BelowIrreflexive(a[k]);
      BelowIrreflexive(a[m]);
      if k == m {
        BelowTransitive(a[k], b[k], a[k]);
      }
    }
  }

  /** The order depends on the tasks and the edges only, not on how either is listed. */
  lemma LeastOrderIsUnique(
    tasks: seq<string>, deps: seq<Dependency>, order: seq<string>,
    tasks': seq<string>, deps': seq<Dependency>, order': seq<string>)
    requires multiset(tasks) == multiset(tasks') && forall d :: d in deps <==> d in deps'
    requires IsTopological(tasks, deps, order) && LeastSoFar(tasks, deps, order)
    requires IsTopological(tasks', deps', order') && LeastSoFar(tasks', deps', order')
    ensures order == order'
  {
    SameLength(order, order');
    assert IsTopological(tasks, deps, order') && IsTopological(tasks', deps', order);
    PrefixLeastBothWays(order, order');
  }
}
