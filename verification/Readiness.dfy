/** Derive of internal/domain/graph.go, and the batch check of internal/app/prompt.go that relies on it. */
module Readiness {
  import opened Text
  import opened Digraph
  import opened Status

  datatype BlockedCode = NotBlocked | DependencyDataIncomplete | WaitingForBlocker

  /** A task with everything the snapshot derives for it. */
  datatype DerivedTask = DerivedTask(
    task: Task, display: DisplayState, ready: bool, pending: seq<string>, code: BlockedCode, blockerId: string,
    reason: string, labels: seq<BlockLabel>)

  /** The row a map built in list order ends up with: the last one under the key. */
  function LastTask(tasks: seq<Task>, id: string): Option<Task> {
    if tasks == [] then None
    else if tasks[|tasks| - 1].id == id then Some(tasks[|tasks| - 1])
    else LastTask(tasks[..|tasks| - 1], id)
  }

  function LastPullRequest(prs: seq<PullRequest>, id: string): Option<PullRequest> {
    if prs == [] then None
    else if prs[|prs| - 1].taskId == id then Some(prs[|prs| - 1])
    else LastPullRequest(prs[..|prs| - 1], id)
  }

  /** A blocker that is missing or not settled holds up what waits for it. */
  predicate HoldsUp(tasks: seq<Task>, prs: seq<PullRequest>, blocker: string) {
    var task := LastTask(tasks, blocker);
    task.None? || !IsSatisfied(task.value, LastPullRequest(prs, blocker))
  }

  /** The blockers that hold up a task, in stored order. */
  function PendingBlockers(tasks: seq<Task>, deps: seq<Dependency>, prs: seq<PullRequest>, id: string): seq<string> {
    if deps == [] then []
    else
      var last := deps[|deps| - 1];
      PendingBlockers(tasks, deps[..|deps| - 1], prs, id)
      + (if last.blocked == id && HoldsUp(tasks, prs, last.blocker) then [last.blocker] else [])
  }

  lemma {:induction false} PendingBlockersAre(
    tasks: seq<Task>, deps: seq<Dependency>, prs: seq<PullRequest>, id: string)
    ensures forall b :: b in PendingBlockers(tasks, deps, prs, id) <==>
              Dependency(b, id) in deps && HoldsUp(tasks, prs, b)
  {
    if deps != [] {
      PendingBlockersAre(tasks, deps[..|deps| - 1], prs, id);
      assert deps == deps[..|deps| - 1] + [deps[|deps| - 1]];
    }
  }

  function BlockedReasonText(code: BlockedCode, blockerTitle: string): string {
    match code
    case DependencyDataIncomplete => "dependency data is incomplete"
    case WaitingForBlocker => "waiting for " + blockerTitle
    case NotBlocked => ""
  }

  /** What the design promises about one derived task. */
  ghost predicate IsDerived(
    tasks: seq<Task>, deps: seq<Dependency>, prs: seq<PullRequest>, task: Task, r: DerivedTask)
  {
    var pr := LastPullRequest(prs, task.id);
    && r.task == task
    && r.display == DisplayStateFor(task, pr)
    && r.pending == (if IsTaskFinished(r.display) then [] else PendingBlockers(tasks, deps, prs, task.id))
    && (r.ready <==> IsReadyCandidate(r.display) && r.pending == [])
    && r.labels == (if IsTaskFinished(r.display) then [] else BlockLabelsFor(pr, r.pending != []))
    && ReasonNamesFirst(tasks, r)
  }

  /** The blocked reason speaks of the first pending blocker only. */
  ghost predicate ReasonNamesFirst(tasks: seq<Task>, r: DerivedTask) {
    if r.pending == [] then r.code.NotBlocked? && r.blockerId == "" && r.reason == ""
    else
      match LastTask(tasks, r.pending[0])
      case None =>
        && r.code.DependencyDataIncomplete? && r.blockerId == ""
        && r.reason == "dependency data is incomplete"
      case Some(blocker) =>
        && r.code.WaitingForBlocker? && r.blockerId == r.pending[0]
        && r.reason == "waiting for " + blocker.title
  }

  ghost predicate TasksIndexed(tasks: seq<Task>, byId: map<string, Task>) {
    forall id :: LastTask(tasks, id) == if id in byId then Some(byId[id]) else None
  }

  ghost predicate PullRequestsIndexed(prs: seq<PullRequest>, byTask: map<string, PullRequest>) {
    forall id :: LastPullRequest(prs, id) == if id in byTask then Some(byTask[id]) else None
  }

  ghost predicate BlockersIndexed(deps: seq<Dependency>, blockers: map<string, seq<string>>) {
    forall id :: BlockersOf(deps, id) == if id in blockers then blockers[id] else []
  }

  method IndexTasks(tasks: seq<Task>) returns (byId: map<string, Task>)
    ensures TasksIndexed(tasks, byId)
  {
    byId := map[];
    for i := 0 to |tasks|
      invariant TasksIndexed(tasks[..i], byId)
    {
      byId := byId[tasks[i].id := tasks[i]];
      assert tasks[..i + 1][..i] == tasks[..i];
    }
    assert tasks[..|tasks|] == tasks;
  }

  method IndexPullRequests(prs: seq<PullRequest>) returns (byTask: map<string, PullRequest>)
    ensures PullRequestsIndexed(prs, byTask)
  {
    byTask := map[];
    for i := 0 to |prs|
      invariant PullRequestsIndexed(prs[..i], byTask)
    {
      byTask := byTask[prs[i].taskId := prs[i]];
      assert prs[..i + 1][..i] == prs[..i];
    }
    assert prs[..|prs|] == prs;
  }

  /** The blockers stored for a task, in stored order. */
  function BlockersOf(deps: seq<Dependency>, id: string): seq<string> {
    if deps == [] then []
    else
      BlockersOf(deps[..|deps| - 1], id)
      + (if deps[|deps| - 1].blocked == id then [deps[|deps| - 1].blocker] else [])
  }

  method IndexBlockers(deps: seq<Dependency>) returns (blockers: map<string, seq<string>>)
    ensures BlockersIndexed(deps, blockers)
  {
    blockers := map[];
    for i := 0 to |deps|
      invariant BlockersIndexed(deps[..i], blockers)
    {
      var d := deps[i];
      blockers := blockers[d.blocked := (if d.blocked in blockers then blockers[d.blocked] else []) + [d.blocker]];
      assert deps[..i + 1][..i] == deps[..i];
    }
    assert deps[..|deps|] == deps;
  }

  function Unsettled(tasks: seq<Task>, prs: seq<PullRequest>, blockers: seq<string>): seq<string> {
    if blockers == [] then []
    else
      var last := blockers[|blockers| - 1];
      Unsettled(tasks, prs, blockers[..|blockers| - 1]) + (if HoldsUp(tasks, prs, last) then [last] else [])
  }

  lemma {:induction false} UnsettledBlockers(
    tasks: seq<Task>, deps: seq<Dependency>, prs: seq<PullRequest>, id: string)
    ensures Unsettled(tasks, prs, BlockersOf(deps, id)) == PendingBlockers(tasks, deps, prs, id)
  {
    if deps != [] {
      var rest, last := deps[..|deps| - 1], deps[|deps| - 1];
      UnsettledBlockers(tasks, rest, prs, id);
      if last.blocked == id {
        var before := BlockersOf(rest, id);
        assert (before + [last.blocker])[..|before|] == before;
      } else {
        assert BlockersOf(deps, id) == BlockersOf(rest, id);
        assert PendingBlockers(tasks, deps, prs, id) == PendingBlockers(tasks, rest, prs, id);
      }
    }
  }

  method DeriveOne(
    ghost tasks: seq<Task>, ghost deps: seq<Dependency>, ghost prs: seq<PullRequest>, task: Task,
    byId: map<string, Task>, prByTask: map<string, PullRequest>, blockers: seq<string>)
    returns (r: DerivedTask)
    requires TasksIndexed(tasks, byId) && PullRequestsIndexed(prs, prByTask)
    requires blockers == BlockersOf(deps, task.id)
    ensures IsDerived(tasks, deps, prs, task, r)
  {
    var pr := if task.id in prByTask then Some(prByTask[task.id]) else None;
    var display := DisplayStateFor(task, pr);
    if IsTaskFinished(display) {
      return DerivedTask(task, display, false, [], NotBlocked, "", "", []);
    }
    var ready := IsReadyCandidate(display);
    var pending: seq<string> := [];
    var code, blockerId := NotBlocked, "";
    for j := 0 to |blockers|
      invariant pending == Unsettled(tasks, prs, blockers[..j])
      invariant ready <==> IsReadyCandidate(display) && pending == []
      invariant code.NotBlocked? <==> pending == []
      invariant pending == [] ==> blockerId == ""
      invariant pending != [] ==> (code.DependencyDataIncomplete? <==> LastTask(tasks, pending[0]).None?)
      invariant pending != [] ==> blockerId == (if LastTask(tasks, pending[0]).None? then "" else pending[0])
    {
      var id := blockers[j];
      assert blockers[..j + 1][..j] == blockers[..j];
      if id in byId && IsSatisfied(byId[id], if id in prByTask then Some(prByTask[id]) else None) {
        continue;
      }
      ready := false;
      pending := pending + [id];
      if !code.NotBlocked? {
        continue;
      }
      if id !in byId {
        code := DependencyDataIncomplete;
        continue;
      }
      code, blockerId := WaitingForBlocker, id;
    }
    assert blockers[..|blockers|] == blockers;
    UnsettledBlockers(tasks, deps, prs, task.id);
    var title := if blockerId in byId then byId[blockerId].title else "";
    r := DerivedTask(task, display, ready, pending, code, blockerId, BlockedReasonText(code, title),
      BlockLabelsFor(pr, |pending| > 0));
  }

  ghost predicate AllDerived(
    tasks: seq<Task>, deps: seq<Dependency>, prs: seq<PullRequest>, result: seq<DerivedTask>)
  {
    && |result| == |tasks|
    && forall i {:trigger IsDerived(tasks, deps, prs, tasks[i], result[i])} :: 0 <= i < |tasks| ==>
         IsDerived(tasks, deps, prs, tasks[i], result[i])
  }

  method Derive(tasks: seq<Task>, deps: seq<Dependency>, prs: seq<PullRequest>) returns (result: seq<DerivedTask>)
    ensures AllDerived(tasks, deps, prs, result)
  {
    hide IsDerived, TasksIndexed, PullRequestsIndexed, BlockersOf;
    var prByTask := IndexPullRequests(prs);
    var blockers := IndexBlockers(deps);
    var byId := IndexTasks(tasks);
    result := [];
    for i := 0 to |tasks|
      invariant |result| == i
      invariant forall k {:trigger IsDerived(tasks, deps, prs, tasks[k], result[k])} ::
                  0 <= k < i ==> IsDerived(tasks, deps, prs, tasks[k], result[k])
    {
      var mine := if tasks[i].id in blockers then blockers[tasks[i].id] else [];
      var r := DeriveOne(tasks, deps, prs, tasks[i], byId, prByTask, mine);
      result := result + [r];
    }
  }

  // ----- something can always move -----

  function Ids(tasks: seq<Task>): (r: seq<string>)
    ensures |r| == |tasks|
    ensures forall i :: 0 <= i < |tasks| ==> r[i] == tasks[i].id
  {
    seq(|tasks|, i requires 0 <= i < |tasks| => tasks[i].id)
  }

  /** A snapshot as the store keeps it: distinct tasks, known endpoints, no cycle. */
  ghost predicate Sound(tasks: seq<Task>, deps: seq<Dependency>) {
    Distinct(Ids(tasks)) && Known(Range(Ids(tasks)), deps) && Acyclic(deps)
  }

  /** Each entry is the index of a derived task, and its successor is one of its pending blockers. */
  ghost predicate PendingChain(result: seq<DerivedTask>, chain: seq<nat>) {
    && |chain| >= 1
    && (forall k :: 0 <= k < |chain| ==> chain[k] < |result|)
    && (forall j, k :: 0 <= j && k == j + 1 < |chain| ==> result[chain[k]].task.id in result[chain[j]].pending)
  }

  lemma {:induction false} TaskUnderItsId(tasks: seq<Task>, i: nat)
    requires i < |tasks| && Distinct(Ids(tasks))
    ensures LastTask(tasks, tasks[i].id) == Some(tasks[i])
  {
    var last := |tasks| - 1;
    if i < last {
      assert Ids(tasks)[i] != Ids(tasks)[last];
      var rest := tasks[..last];
      assert forall a :: 0 <= a < |rest| ==> Ids(rest)[a] == Ids(tasks)[a];
      TaskUnderItsId(rest, i);
    }
  }

  /** Every pending step follows a stored edge backwards, to a task that is not settled. */
  lemma PendingIsEdge(
    tasks: seq<Task>, deps: seq<Dependency>, prs: seq<PullRequest>, result: seq<DerivedTask>, i: nat, b: string)
    requires AllDerived(tasks, deps, prs, result) && i < |tasks| && b in result[i].pending
    ensures Dependency(b, tasks[i].id) in deps && HoldsUp(tasks, prs, b)
  {
    assert IsDerived(tasks, deps, prs, tasks[i], result[i]);
    PendingBlockersAre(tasks, deps, prs, tasks[i].id);
  }

  function ChainIds(tasks: seq<Task>, chain: seq<nat>): (r: seq<string>)
    requires forall k :: 0 <= k < |chain| ==> chain[k] < |tasks|
    ensures |r| == |chain|
    ensures forall k :: 0 <= k < |chain| ==> r[k] == tasks[chain[|chain| - 1 - k]].id
  {
    seq(|chain|, k requires 0 <= k < |chain| => tasks[chain[|chain| - 1 - k]].id)
  }

  lemma ChainLink(
    tasks: seq<Task>, deps: seq<Dependency>, prs: seq<PullRequest>, result: seq<DerivedTask>, chain: seq<nat>, m: nat)
    requires AllDerived(tasks, deps, prs, result) && PendingChain(result, chain) && m + 1 < |chain|
    ensures Dependency(tasks[chain[m + 1]].id, tasks[chain[m]].id) in deps
  {
    assert result[chain[m + 1]].task.id in result[chain[m]].pending;
    assert IsDerived(tasks, deps, prs, tasks[chain[m + 1]], result[chain[m + 1]]);
    PendingIsEdge(tasks, deps, prs, result, chain[m], tasks[chain[m + 1]].id);
  }

  lemma ChainIsWalk(
    tasks: seq<Task>, deps: seq<Dependency>, prs: seq<PullRequest>, result: seq<DerivedTask>, chain: seq<nat>)
    requires AllDerived(tasks, deps, prs, result) && PendingChain(result, chain)
    ensures IsWalk(deps, ChainIds(tasks, chain))
  {
    var p := ChainIds(tasks, chain);
    hide ChainIds, IsDerived;
    forall k | 0 <= k < |p| - 1
      ensures Dependency(p[k], p[k + 1]) in deps
    {
      ChainLink(tasks, deps, prs, result, chain, |chain| - 2 - k);
    }
  }

  /** Following pending blockers never runs in a circle, so it ends within as many steps as there are tasks. */
  lemma ChainEnds(
    tasks: seq<Task>, deps: seq<Dependency>, prs: seq<PullRequest>, result: seq<DerivedTask>, chain: seq<nat>)
    requires Sound(tasks, deps) && AllDerived(tasks, deps, prs, result) && PendingChain(result, chain)
    ensures |chain| <= |tasks|
  {
    ChainIsWalk(tasks, deps, prs, result, chain);
    var p := ChainIds(tasks, chain);
    AcyclicWalkIsDistinct(deps, p);
    ChainIdsAreTasks(tasks, chain);
    RangeSize(p);
    RangeSize(Ids(tasks));
    SubsetSize(Range(p), Range(Ids(tasks)));
  }

  lemma ChainIdsAreTasks(tasks: seq<Task>, chain: seq<nat>)
    requires forall k :: 0 <= k < |chain| ==> chain[k] < |tasks|
    ensures Range(ChainIds(tasks, chain)) <= Range(Ids(tasks))
  {
  }

  /** Somebody can work on this task now, or already does. */
  predicate CanMove(r: DerivedTask) {
    r.ready || IsUnderway(r.display)
  }

  /** Where a chain of pending blockers ends, there is work to do: no deadlock. */
  lemma ChainEndCanMove(
    tasks: seq<Task>, deps: seq<Dependency>, prs: seq<PullRequest>, result: seq<DerivedTask>, chain: seq<nat>)
    requires Sound(tasks, deps) && AllDerived(tasks, deps, prs, result) && PendingChain(result, chain)
    requires |chain| >= 2 && result[chain[|chain| - 1]].pending == []
    ensures CanMove(result[chain[|chain| - 1]])
  {
    var m := |chain| - 2;
    var end := chain[m + 1];
    assert IsDerived(tasks, deps, prs, tasks[end], result[end]);
    assert result[chain[m + 1]].task.id in result[chain[m]].pending;
    PendingIsEdge(tasks, deps, prs, result, chain[m], tasks[end].id);
    TaskUnderItsId(tasks, end);
    UnsatisfiedCanMove(tasks[end], LastPullRequest(prs, tasks[end].id));
  }

  lemma ChainGrows(result: seq<DerivedTask>, chain: seq<nat>, next: nat)
    requires PendingChain(result, chain) && next < |result|
    requires result[next].task.id in result[chain[|chain| - 1]].pending
    ensures PendingChain(result, chain + [next])
  {
  }

  lemma PendingIsTask(
    tasks: seq<Task>, deps: seq<Dependency>, prs: seq<PullRequest>, result: seq<DerivedTask>, i: nat)
    returns (next: nat)
    requires Known(Range(Ids(tasks)), deps) && AllDerived(tasks, deps, prs, result)
    requires i < |result| && result[i].pending != []
    ensures next < |result| && result[next].task.id in result[i].pending
  {
    var b := result[i].pending[0];
    PendingIsEdge(tasks, deps, prs, result, i, b);
    assert b in Range(Ids(tasks));
    next :| 0 <= next < |tasks| && Ids(tasks)[next] == b;
    assert IsDerived(tasks, deps, prs, tasks[next], result[next]);
  }

  /** From every waiting task a chain of pending blockers leads to a task that can move. */
  lemma {:induction false} WaitingLeadsToWork(
    tasks: seq<Task>, deps: seq<Dependency>, prs: seq<PullRequest>, result: seq<DerivedTask>, chain: seq<nat>)
    returns (whole: seq<nat>)
    requires Sound(tasks, deps) && AllDerived(tasks, deps, prs, result) && PendingChain(result, chain)
    requires result[chain[|chain| - 1]].pending != [] || |chain| >= 2
    ensures PendingChain(result, whole) && chain <= whole
    ensures result[whole[|whole| - 1]].pending == [] && CanMove(result[whole[|whole| - 1]])
    decreases |tasks| - |chain|
  {
    var last := chain[|chain| - 1];
    if result[last].pending == [] {
      ChainEndCanMove(tasks, deps, prs, result, chain);
      whole := chain;
    } else {
      var next := PendingIsTask(tasks, deps, prs, result, last);
      ChainGrows(result, chain, next);
      ChainEnds(tasks, deps, prs, result, chain + [next]);
      whole := WaitingLeadsToWork(tasks, deps, prs, result, chain + [next]);
    }
  }

  // ----- batches -----

  datatype BatchError =
    | NoTasks
    | TaskNotFound(id: string)
    | WrongFeature(id: string)
    | MissingBlocker(id: string, blocker: string)

  function BatchIds(batch: seq<DerivedTask>): set<string> {
    set r | r in batch :: r.task.id
  }

  ghost predicate BlockersIncluded(batch: seq<DerivedTask>) {
    forall r, b :: r in batch && b in r.pending ==> b in BatchIds(batch)
  }

  /** The first pending blocker, task by task, that the batch leaves out. */
  ghost predicate FirstMissing(batch: seq<DerivedTask>, e: BatchError) {
    exists i, j :: 0 <= i < |batch| && 0 <= j < |batch[i].pending|
      && e == MissingBlocker(batch[i].task.id, batch[i].pending[j])
      && batch[i].pending[j] !in BatchIds(batch)
      && (forall b :: b in batch[i].pending[..j] ==> b in BatchIds(batch))
      && (forall r, b :: r in batch[..i] && b in r.pending ==> b in BatchIds(batch))
  }

  method RequirePromptBlockers(batch: seq<DerivedTask>) returns (failure: Option<BatchError>)
    ensures failure.None? <==> BlockersIncluded(batch)
    ensures failure.Some? ==> FirstMissing(batch, failure.value)
  {
    var included: set<string> := {};
    for i := 0 to |batch|
      invariant included == set r | r in batch[..i] :: r.task.id
    {
      included := included + {batch[i].task.id};
      assert batch[..i + 1] == batch[..i] + [batch[i]];
    }
    assert batch[..|batch|] == batch;
    assert included == BatchIds(batch);
    for i := 0 to |batch|
      invariant forall r, b :: r in batch[..i] && b in r.pending ==> b in included
    {
      var pending := batch[i].pending;
      for j := 0 to |pending|
        invariant forall b :: b in pending[..j] ==> b in included
      {
        if pending[j] !in included {
          assert batch[i] in batch && pending[j] in batch[i].pending && !BlockersIncluded(batch);
          return Some(MissingBlocker(batch[i].task.id, pending[j]));
        }
        assert pending[..j + 1] == pending[..j] + [pending[j]];
      }
      assert pending[..|pending|] == pending;
      assert batch[..i + 1] == batch[..i] + [batch[i]];
    }
    return None;
  }

  function FindTask(snapshot: seq<DerivedTask>, id: string): (r: Option<DerivedTask>)
    ensures r.Some? ==> r.value in snapshot && r.value.task.id == id
    ensures r.None? <==> id !in BatchIds(snapshot)
  {
    if snapshot == [] then None
    else if snapshot[0].task.id == id then Some(snapshot[0])
    else
      assert snapshot == [snapshot[0]] + snapshot[1..];
      FindTask(snapshot[1..], id)
  }

  /** The tasks a batch prompt is rendered for, in the caller's order, or why there is none. */
  method BatchTasks(snapshot: seq<DerivedTask>, featureId: string, ids: seq<string>)
    returns (batch: seq<DerivedTask>, failure: Option<BatchError>)
    ensures failure.None? ==> |batch| == |ids| && |ids| > 0 && BlockersIncluded(batch)
    ensures failure.None? ==> forall i :: 0 <= i < |ids| ==>
                batch[i] in snapshot && batch[i].task.id == ids[i] && batch[i].task.featureId == featureId
    ensures failure == Some(NoTasks) <==> ids == []
    ensures failure.Some? && failure.value.TaskNotFound? ==>
              failure.value.id in ids && failure.value.id !in BatchIds(snapshot)
    ensures failure.Some? && failure.value.WrongFeature? ==>
              exists r :: r in snapshot && r.task.id == failure.value.id && r.task.featureId != featureId
    ensures failure.Some? && failure.value.MissingBlocker? ==> failure.value.blocker !in ids
  {
    batch := [];
    if |ids| == 0 {
      return [], Some(NoTasks);
    }
    for i := 0 to |ids|
      invariant |batch| == i
      invariant forall k :: 0 <= k < i ==>
                  batch[k] in snapshot && batch[k].task.id == ids[k] && batch[k].task.featureId == featureId
    {
      var found := FindTask(snapshot, ids[i]);
      if found.None? {
        return [], Some(TaskNotFound(ids[i]));
      }
      if found.value.task.featureId != featureId {
        return [], Some(WrongFeature(ids[i]));
      }
      batch := batch + [found.value];
    }
    failure := RequirePromptBlockers(batch);
    assert forall k :: 0 <= k < |ids| ==> batch[k].task.id in BatchIds(batch);
  }

  /** Every accepted batch can be worked through with each task's pending blockers before it. */
  lemma BatchHasOrder(
    tasks: seq<Task>, deps: seq<Dependency>, prs: seq<PullRequest>, result: seq<DerivedTask>,
    batch: seq<DerivedTask>)
    returns (order: seq<string>)
    requires Sound(tasks, deps) && AllDerived(tasks, deps, prs, result)
    requires forall r :: r in batch ==> r in result
    requires BlockersIncluded(batch)
    ensures Distinct(order) && Range(order) == BatchIds(batch)
    ensures forall r, b, i :: r in batch && b in r.pending && 0 <= i < |order| && order[i] == r.task.id
              ==> b in order[..i]
  {
    order := AcyclicHasOrder(deps, BatchIds(batch));
    forall r, b, i | r in batch && b in r.pending && 0 <= i < |order| && order[i] == r.task.id
      ensures b in order[..i]
    {
      var k :| 0 <= k < |result| && result[k] == r;
      assert IsDerived(tasks, deps, prs, tasks[k], result[k]);
      PendingIsEdge(tasks, deps, prs, result, k, b);
      assert Dependency(b, r.task.id) in deps;
    }
  }
}
