/** Fetching a batch in chunks: internal/github/graphql.go from the response to the classified result. */
module FetchBatch {
  import opened Text
  import opened Status
  import opened GitHub
  import opened GraphQL

  /** An element of an error path: a response key, or a list position. */
  datatype PathElement = ResponseKey(name: string) | Position(index: int)

  /** An entry of the response's errors, already classified by its message and type. */
  datatype GraphError = GraphError(kind: ErrorClass, message: string, path: seq<PathElement>)

  function Reported(e: GraphError): Failure {
    Failure(e.kind, 0, e.message)
  }

  function PathName(path: seq<PathElement>, k: nat): string {
    if k < |path| && path[k].ResponseKey? then path[k].name else ""
  }

  /** The error belongs to the request as a whole: its path does not begin with a repository alias. */
  predicate IsGlobal(e: GraphError, items: seq<Item>) {
    e.path == [] || forall item :: item in items ==> item.repositoryAlias != PathName(e.path, 0)
  }

  predicate NamesPull(e: GraphError, items: seq<Item>) {
    && |e.path| > 1
    && (exists item :: item in items
          && item.repositoryAlias == PathName(e.path, 0) && item.pullAlias == PathName(e.path, 1))
  }

  /** The error speaks of this item: of its pull request, or of its repository when it names no pull request. */
  predicate Marks(e: GraphError, items: seq<Item>, item: Item) {
    && e.path != [] && item.repositoryAlias == PathName(e.path, 0)
    && (NamesPull(e, items) ==> item.pullAlias == PathName(e.path, 1))
  }

  /** The last error that marks an item of the task. */
  ghost predicate LastMark(errors: seq<GraphError>, items: seq<Item>, id: string, f: Failure) {
    exists k :: 0 <= k < |errors| && f == Reported(errors[k]) && MarksTask(errors[k], items, id)
      && forall l :: k < l < |errors| ==> !MarksTask(errors[l], items, id)
  }

  ghost predicate MarksTask(e: GraphError, items: seq<Item>, id: string) {
    exists item :: item in items && item.current.taskId == id && Marks(e, items, item)
  }

  /** Aliases as BuildQuery hands them out. */
  ghost predicate WellAliased(items: seq<Item>) {
    && (forall item :: item in items ==> '/' !in item.repositoryAlias && '/' !in item.pullAlias)
    && (forall i, j :: 0 <= i < j < |items| ==> items[i].pullAlias != items[j].pullAlias)
  }

  lemma PlanIsWellAliased(current: seq<PullRequest>, query: Query, items: seq<Item>)
    requires Plan(current, query, items)
    ensures WellAliased(items)
    ensures multiset(Values(items)) == multiset(current)
  {
    var ordered, keys, repositories :|
      multiset(ordered) == multiset(current) && LaidOut(ordered, keys, repositories, query, items);
    forall i | 0 <= i < |items|
      ensures '/' !in items[i].repositoryAlias && '/' !in items[i].pullAlias && items[i].current == ordered[i]
    {
      assert ItemFor(ordered, repositories, items, i);
      AliasesDiffer(repositories[Key(ordered[i])], 0);
      AliasesDiffer(i, 0);
    }
    forall i, j | 0 <= i < j < |items|
      ensures items[i].pullAlias != items[j].pullAlias
    {
      assert ItemFor(ordered, repositories, items, i) && ItemFor(ordered, repositories, items, j);
      AliasesDiffer(i, j);
    }
    assert Values(items) == ordered;
  }

  function Values(items: seq<Item>): (r: seq<PullRequest>)
    ensures |r| == |items| && forall i :: 0 <= i < |items| ==> r[i] == items[i].current
  {
    seq(|items|, i requires 0 <= i < |items| => items[i].current)
  }

  function PairKey(repositoryAlias: string, pullAlias: string): string {
    repositoryAlias + "/" + pullAlias
  }

  ghost predicate ByRepository(items: seq<Item>, byRepository: map<string, seq<Item>>) {
    && (forall a :: a in byRepository <==> exists item :: item in items && item.repositoryAlias == a)
    && (forall a, item :: a in byRepository ==>
          (item in byRepository[a] <==> item in items && item.repositoryAlias == a))
  }

  function PairOf(item: Item): string {
    PairKey(item.repositoryAlias, item.pullAlias)
  }

  ghost predicate ByPull(items: seq<Item>, byPull: map<string, Item>) {
    && (forall item :: item in items ==> PairOf(item) in byPull && byPull[PairOf(item)] == item)
    && (forall k :: k in byPull ==> byPull[k] in items && k == PairOf(byPull[k]))
  }

  /** byRepository lists the items of each alias, byPull holds every item under its pair of aliases. */
  ghost predicate Indexed(items: seq<Item>, byRepository: map<string, seq<Item>>, byPull: map<string, Item>) {
    ByRepository(items, byRepository) && ByPull(items, byPull)
  }

  lemma PairKeyInjective(a: string, b: string, c: string, d: string)
    requires '/' !in a && '/' !in c && PairKey(a, b) == PairKey(c, d)
    ensures a == c && b == d
  {
    assert PairKey(a, b) == a + ['/'] + b && PairKey(c, d) == c + ['/'] + d;
    JoinInjective(a, b, c, d, '/');
  }

  lemma IndexOneRepository(items: seq<Item>, byRepository: map<string, seq<Item>>, item: Item)
    requires ByRepository(items, byRepository)
    ensures ByRepository(items + [item], byRepository[item.repositoryAlias :=
              (if item.repositoryAlias in byRepository then byRepository[item.repositoryAlias] else []) + [item]])
  {
  }

  lemma IndexOnePull(items: seq<Item>, byPull: map<string, Item>, item: Item)
    requires ByPull(items, byPull) && WellAliased(items + [item])
    ensures ByPull(items + [item], byPull[PairOf(item) := item])
  {
    hide PairKey;
    var more := items + [item];
    forall other | other in items
      ensures PairOf(other) != PairOf(item)
    {
      var i :| 0 <= i < |items| && items[i] == other;
      assert more[i] == other && more[|items|] == item;
      if PairOf(other) == PairOf(item) {
        PairKeyInjective(other.repositoryAlias, other.pullAlias, item.repositoryAlias, item.pullAlias);
      }
    }
  }

  method IndexItems(items: seq<Item>) returns (byRepository: map<string, seq<Item>>, byPull: map<string, Item>)
    requires WellAliased(items)
    ensures Indexed(items, byRepository, byPull)
  {
    byRepository, byPull := map[], map[];
    for i := 0 to |items|
      invariant Indexed(items[..i], byRepository, byPull)
    {
      var item := items[i];
      assert items[..i + 1] == items[..i] + [item];
      assert WellAliased(items[..i + 1]);
      IndexOneRepository(items[..i], byRepository, item);
      IndexOnePull(items[..i], byPull, item);
      byRepository := byRepository[item.repositoryAlias :=
        (if item.repositoryAlias in byRepository then byRepository[item.repositoryAlias] else []) + [item]];
      byPull := byPull[PairOf(item) := item];
    }
    assert items[..|items|] == items;
  }

  /** Marking is recorded for the errors seen so far. */
  ghost predicate Recorded(errors: seq<GraphError>, items: seq<Item>, result: map<string, Failure>) {
    && (forall id :: id in result ==> LastMark(errors, items, id, result[id]))
    && (forall id, e :: e in errors && MarksTask(e, items, id) ==> id in result)
  }

  lemma NothingRecorded(items: seq<Item>)
    ensures Recorded([], items, map[])
  {
  }

  lemma RecordOne(
    errors: seq<GraphError>, items: seq<Item>, result: map<string, Failure>, e: GraphError,
    result': map<string, Failure>)
    requires Recorded(errors, items, result)
    requires forall id :: id in result' <==> id in result || MarksTask(e, items, id)
    requires forall id :: id in result' ==>
               (result'[id] == if MarksTask(e, items, id) then Reported(e) else result[id])
    ensures Recorded(errors + [e], items, result')
  {
    var more := errors + [e];
    forall id | id in result'
      ensures LastMark(more, items, id, result'[id])
    {
      if MarksTask(e, items, id) {
        assert more[|errors|] == e;
      } else {
        var k :| 0 <= k < |errors| && result[id] == Reported(errors[k]) && MarksTask(errors[k], items, id)
          && forall l :: k < l < |errors| ==> !MarksTask(errors[l], items, id);
        assert more[k] == errors[k];
        assert forall l :: k < l < |more| ==> !MarksTask(more[l], items, id);
      }
    }
  }

  /** Marks everything one error speaks of. */
  method MarkItems(e: GraphError, marked: seq<Item>, result: map<string, Failure>)
    returns (result': map<string, Failure>)
    ensures forall id :: id in result' <==> id in result || exists item :: item in marked && item.current.taskId == id
    ensures forall id :: id in result' ==> (result'[id] ==
              if exists item :: item in marked && item.current.taskId == id then Reported(e) else result[id])
  {
    result' := result;
    for i := 0 to |marked|
      invariant forall id :: id in result' <==>
                  id in result || exists item :: item in marked[..i] && item.current.taskId == id
      invariant forall id :: id in result' ==> (result'[id] ==
                  if exists item :: item in marked[..i] && item.current.taskId == id then Reported(e) else result[id])
    {
      var item := marked[i];
      assert marked[..i + 1] == marked[..i] + [item];
      result' := result'[item.current.taskId := Reported(e)];
    }
    assert marked[..|marked|] == marked;
  }

  /** The items an error marks, looked up the way the program does. */
  method MarkedItems(
    e: GraphError, items: seq<Item>, byRepository: map<string, seq<Item>>, byPull: map<string, Item>)
    returns (marked: seq<Item>)
    requires WellAliased(items) && Indexed(items, byRepository, byPull) && !IsGlobal(e, items)
    ensures forall item :: item in marked <==> item in items && Marks(e, items, item)
  {
    var repositoryAlias := PathName(e.path, 0);
    var owner :| owner in items && owner.repositoryAlias == repositoryAlias;
    if |e.path| > 1 {
      var key := PairKey(repositoryAlias, PathName(e.path, 1));
      if key in byPull {
        var item := byPull[key];
        PairKeyInjective(item.repositoryAlias, item.pullAlias, repositoryAlias, PathName(e.path, 1));
        assert NamesPull(e, items);
        forall other | other in items && Marks(e, items, other)
          ensures other == item
        {
          var i, j :| 0 <= i < |items| && 0 <= j < |items| && items[i] == other && items[j] == item;
        }
        return [item];
      }
    }
    assert !NamesPull(e, items);
    return byRepository[repositoryAlias];
  }

  lemma MarkedTasks(e: GraphError, items: seq<Item>, marked: seq<Item>)
    requires forall item :: item in marked <==> item in items && Marks(e, items, item)
    ensures forall id :: MarksTask(e, items, id) <==> exists item :: item in marked && item.current.taskId == id
  {
  }

  ghost predicate FirstGlobal(errors: seq<GraphError>, items: seq<Item>, f: Failure) {
    exists k :: 0 <= k < |errors| && IsGlobal(errors[k], items) && f == Reported(errors[k])
      && forall l :: 0 <= l < k ==> !IsGlobal(errors[l], items)
  }

  lemma GlobalIff(e: GraphError, items: seq<Item>, byRepository: map<string, seq<Item>>)
    requires ByRepository(items, byRepository)
    ensures IsGlobal(e, items) <==> |e.path| == 0 || PathName(e.path, 0) !in byRepository
  {
  }

  lemma FirstGlobalAt(errors: seq<GraphError>, items: seq<Item>, k: nat)
    requires k < |errors| && IsGlobal(errors[k], items)
    requires forall l :: 0 <= l < k ==> !IsGlobal(errors[l], items)
    ensures FirstGlobal(errors, items, Reported(errors[k]))
  {
  }

  /** mapGraphQLErrors: each error lands on the items under its alias, or fails the whole request. */
  method MapErrors(errors: seq<GraphError>, items: seq<Item>)
    returns (result: map<string, Failure>, global: Option<Failure>)
    requires WellAliased(items)
    ensures global.None? <==> forall e :: e in errors ==> !IsGlobal(e, items)
    ensures global.Some? ==> FirstGlobal(errors, items, global.value)
    ensures global.None? ==> Recorded(errors, items, result)
  {
    hide Marks, MarksTask, ByPull, ByRepository, IsGlobal, FirstGlobal, Recorded, WellAliased, PathName;
    result, global := map[], None;
    NothingRecorded(items);
    var byRepository, byPull := IndexItems(items);
    for k := 0 to |errors|
      invariant global.None? && forall l :: 0 <= l < k ==> !IsGlobal(errors[l], items)
      invariant Recorded(errors[..k], items, result)
    {
      var e := errors[k];
      GlobalIff(e, items, byRepository);
      if |e.path| == 0 || PathName(e.path, 0) !in byRepository {
        assert e in errors;
        FirstGlobalAt(errors, items, k);
        return result, Some(Reported(e));
      }
      var marked := MarkedItems(e, items, byRepository, byPull);
      MarkedTasks(e, items, marked);
      ghost var before := result;
      result := MarkItems(e, marked, result);
      assert errors[..k + 1] == errors[..k] + [e];
      RecordOne(errors[..k], items, before, e, result);
    }
    assert errors[..|errors|] == errors;
  }

  // ----- one chunk -----

  datatype PullBody = NullPull | BadPull | Pull(value: GraphPull)

  datatype RepositoryBody = NullRepository | BadRepository | Repository(pulls: map<string, PullBody>)

  datatype Reply =
    | Refused(failure: Failure)
    | Answered(data: map<string, RepositoryBody>, errors: seq<GraphError>)

  /** The remaining pages of a pull request's lists. */
  datatype Paging = Complete(value: GraphPull) | Broken(failure: Failure)

  /** What the REST interface yields for one pull request, complete or up to a failure. */
  datatype RestReply = RestReply(fields: PullRequest, failure: Option<Failure>)

  /** Everything outside: each call may be answered differently, told apart by its number. */
  datatype Transport = Transport(
    post: (nat, Query) -> Reply, page: (nat, GraphPull) -> Paging, rest: (nat, PullRequest) -> RestReply,
    now: nat -> int)

  /** The calls made to the outside from a first number on, and before a last one. */
  datatype Calls = Calls(transport: Transport, first: nat, past: nat)

  predicate IsCall(calls: Calls, t: nat) {
    calls.first <= t < calls.past
  }

  ghost predicate Within(calls: Calls, more: Calls) {
    calls.transport == more.transport && more.first <= calls.first && calls.past <= more.past
  }

  function MissingRepository(): Failure {
    Failure(NotFound, 0, "repository was not found or is not visible")
  }

  function Signed(n: int): string {
    if n < 0 then "-" + Decimal(-n) else Decimal(n)
  }

  function MissingPull(v: PullRequest): Failure
  {
    Failure(Other, 0, "pull request " + v.owner + "/" + v.repository + "#" + Signed(v.number) + " was not found")
  }

  function Unreadable(): Failure {
    Failure(Other, 0, "parse GitHub updatedAt")
  }

  function BodyOf(data: map<string, RepositoryBody>, item: Item): RepositoryBody {
    if item.repositoryAlias in data then data[item.repositoryAlias] else NullRepository
  }

  function PullOf(pulls: map<string, PullBody>, item: Item): PullBody {
    if item.pullAlias in pulls then pulls[item.pullAlias] else NullPull
  }

  predicate IsUndecodable(data: map<string, RepositoryBody>, item: Item) {
    match BodyOf(data, item)
    case NullRepository => false
    case BadRepository => true
    case Repository(pulls) => PullOf(pulls, item).BadPull?
  }

  function BadBody(data: map<string, RepositoryBody>, item: Item): Failure {
    Failure(Other, 0, if BodyOf(data, item).BadRepository? then "decode GraphQL repository"
                      else "decode GraphQL pull request")
  }

  function OneError(id: string, f: Failure): Batch {
    Batch(map[], map[], map[id := f])
  }

  function OnePartial(id: string, value: PullRequest, f: Failure): Batch {
    Batch(map[], map[id := value], map[id := f])
  }

  function OneSuccess(id: string, value: PullRequest): Batch {
    Batch(map[id := value], map[], map[])
  }

  /** A single answer classifies its value, provided a record is about it. */
  lemma OneIsClassified(v: PullRequest, one: Batch)
    requires one.pullRequests.Keys + one.errors.Keys == {v.taskId}
    requires one.pullRequests.Keys !! one.errors.Keys && one.partials.Keys <= one.errors.Keys
    requires v.taskId in one.pullRequests ==>
               SameIdentity(v, one.pullRequests[v.taskId]) && IsFresh(one.pullRequests[v.taskId])
    requires v.taskId in one.partials ==> SameIdentity(v, one.partials[v.taskId])
    ensures Classified([v], one)
  {
  }

  /** The record is what a complete answer says, dated by one of the calls. */
  ghost predicate FullIn(calls: Calls, current: PullRequest, pull: GraphPull, updated: PullRequest) {
    exists t: nat :: IsCall(calls, t) && IsFull(current, pull, updated, calls.transport.now(t))
  }

  ghost predicate CoreIn(calls: Calls, current: PullRequest, pull: GraphPull, updated: PullRequest) {
    exists t: nat :: IsCall(calls, t) && IsCore(current, pull, updated, calls.transport.now(t))
  }

  /** An error marks the item, or none does. */
  ghost predicate MarkedBy(errors: seq<GraphError>, items: seq<Item>, id: string, itemError: Option<Failure>) {
    match itemError
    case Some(f) => LastMark(errors, items, id, f)
    case None => forall e :: e in errors ==> !MarksTask(e, items, id)
  }

  predicate OnlyRecord(id: string, batch: Batch) {
    id in batch.pullRequests && id !in batch.partials && id !in batch.errors
  }

  predicate OnlyError(id: string, f: Failure, batch: Batch) {
    id !in batch.pullRequests && id !in batch.partials && id in batch.errors && batch.errors[id] == f
  }

  predicate RecordBesideError(id: string, f: Failure, batch: Batch) {
    id !in batch.pullRequests && id in batch.partials && id in batch.errors && batch.errors[id] == f
  }

  /** An open pull request is complete only with the remaining pages of its lists. */
  ghost predicate ReportsPaging(
    calls: Calls, current: PullRequest, pull: GraphPull, paging: Paging, batch: Batch)
  {
    var id := current.taskId;
    match paging
    case Broken(f) => RecordBesideError(id, f, batch) && FullIn(calls, current, pull, batch.partials[id])
    case Complete(whole) =>
      if whole.updatedAt.None? then OnlyError(id, Unreadable(), batch)
      else OnlyRecord(id, batch) && FullIn(calls, current, whole, batch.pullRequests[id])
  }

  /**
    A pull request that arrived: unreadable without its date, refreshed when it is over, partial beside an error
    that speaks of it, and otherwise what its remaining pages make of it.
   */
  ghost predicate ReportsPull(
    calls: Calls, current: PullRequest, pull: GraphPull, itemError: Option<Failure>, batch: Batch)
  {
    var id := current.taskId;
    if pull.updatedAt.None? then OnlyError(id, Unreadable(), batch)
    else if itemError.Some? && IsTerminal(pull) then
      OnlyRecord(id, batch) && CoreIn(calls, current, pull, batch.pullRequests[id])
    else if itemError.Some? then
      RecordBesideError(id, itemError.value, batch) && FullIn(calls, current, pull, batch.partials[id])
    else if IsTerminal(pull) then OnlyRecord(id, batch) && FullIn(calls, current, pull, batch.pullRequests[id])
    else
      exists t: nat :: IsCall(calls, t)
        && ReportsPaging(calls, current, pull, calls.transport.page(t, pull), batch)
  }

  /** What the batch says of an item is what arrived under its aliases. */
  ghost predicate ItemAnswer(
    calls: Calls, data: map<string, RepositoryBody>, item: Item, itemError: Option<Failure>, batch: Batch)
  {
    var id := item.current.taskId;
    match BodyOf(data, item)
    case NullRepository => OnlyError(id, itemError.GetOr(MissingRepository()), batch)
    case BadRepository => false
    case Repository(pulls) =>
      match PullOf(pulls, item)
      case NullPull => OnlyError(id, itemError.GetOr(MissingPull(item.current)), batch)
      case BadPull => false
      case Pull(value) => ReportsPull(calls, item.current, value, itemError, batch)
  }

  /** The answer for one item, or a body that does not decode. */
  method ClassifyItem(
    transport: Transport, tick: nat, item: Item, data: map<string, RepositoryBody>, itemError: Option<Failure>)
    returns (one: Batch, failure: Option<Failure>, tick': nat)
    ensures tick <= tick'
    ensures failure == if IsUndecodable(data, item) then Some(BadBody(data, item)) else None
    ensures failure.None? ==> Classified([item.current], one)
    ensures failure.None? ==> ItemAnswer(Calls(transport, tick, tick'), data, item, itemError, one)
  {
    var id := item.current.taskId;
    one, failure, tick' := EMPTY_BATCH, None, tick;
    var body := BodyOf(data, item);
    match body {
      case NullRepository =>
        one := OneError(id, itemError.GetOr(MissingRepository()));
      case BadRepository =>
        failure := Some(Failure(Other, 0, "decode GraphQL repository"));
        return;
      case Repository(pulls) =>
        match PullOf(pulls, item) {
          case NullPull =>
            one := OneError(id, itemError.GetOr(MissingPull(item.current)));
          case BadPull =>
            failure := Some(Failure(Other, 0, "decode GraphQL pull request"));
            return;
          case Pull(value) =>
            one, tick' := ClassifyPull(transport, tick, item.current, value, itemError);
        }
    }
    OneIsClassified(item.current, one);
  }

  /** The answer for an item whose pull request arrived. */
  method ClassifyPull(
    transport: Transport, tick: nat, current: PullRequest, pull: GraphPull, itemError: Option<Failure>)
    returns (one: Batch, tick': nat)
    ensures tick <= tick'
    ensures one.pullRequests.Keys + one.errors.Keys == {current.taskId}
    ensures one.pullRequests.Keys !! one.errors.Keys && one.partials.Keys <= one.errors.Keys
    ensures current.taskId in one.pullRequests ==>
              SameIdentity(current, one.pullRequests[current.taskId]) && IsFresh(one.pullRequests[current.taskId])
    ensures current.taskId in one.partials ==> SameIdentity(current, one.partials[current.taskId])
    ensures ReportsPull(Calls(transport, tick, tick'), current, pull, itemError, one)
  {
    hide IsFull, IsCore;
    var id := current.taskId;
    tick' := tick + 1;
    if itemError.Some? && IsTerminal(pull) {
      var core := CoreUpdate(current, pull, transport.now(tick));
      if core.None? {
        return OneError(id, Unreadable()), tick';
      }
      CoreRefreshes(current, pull, core.value, transport.now(tick));
      assert IsCall(Calls(transport, tick, tick'), tick);
      return OneSuccess(id, core.value), tick';
    }
    var updated := FullUpdate(current, pull, transport.now(tick));
    if updated.None? {
      return OneError(id, Unreadable()), tick';
    }
    FullRefreshes(current, pull, updated.value, transport.now(tick));
    if itemError.Some? {
      assert IsCall(Calls(transport, tick, tick'), tick);
      return OnePartial(id, updated.value, itemError.value), tick';
    }
    if IsTerminal(pull) {
      assert IsCall(Calls(transport, tick, tick'), tick);
      return OneSuccess(id, updated.value), tick';
    }
    tick' := tick + 3;
    ghost var calls := Calls(transport, tick, tick');
    assert IsCall(calls, tick) && IsCall(calls, tick + 1) && IsCall(calls, tick + 2);
    match transport.page(tick + 1, pull) {
      case Broken(f) =>
        one := OnePartial(id, updated.value, f);
        assert ReportsPaging(calls, current, pull, transport.page(tick + 1, pull), one);
      case Complete(whole) =>
        updated := FullUpdate(current, whole, transport.now(tick + 2));
        if updated.None? {
          one := OneError(id, Unreadable());
        } else {
          FullRefreshes(current, whole, updated.value, transport.now(tick + 2));
          one := OneSuccess(id, updated.value);
        }
        assert ReportsPaging(calls, current, pull, transport.page(tick + 1, pull), one);
    }
  }

  lemma FullRefreshes(current: PullRequest, pull: GraphPull, updated: PullRequest, now: int)
    requires IsFull(current, pull, updated, now)
    ensures SameIdentity(current, updated) && IsFresh(updated)
  {
  }

  lemma CoreRefreshes(current: PullRequest, pull: GraphPull, updated: PullRequest, now: int)
    requires IsCore(current, pull, updated, now)
    ensures SameIdentity(current, updated) && IsFresh(updated)
  {
  }

  /** The two batches say the same of a task. */
  predicate Agree(a: Batch, b: Batch, id: string) {
    && (id in a.pullRequests <==> id in b.pullRequests)
    && (id in a.pullRequests ==> a.pullRequests[id] == b.pullRequests[id])
    && (id in a.partials <==> id in b.partials) && (id in a.partials ==> a.partials[id] == b.partials[id])
    && (id in a.errors <==> id in b.errors) && (id in a.errors ==> a.errors[id] == b.errors[id])
  }

  /** Where only one of two batches speaks, the merged one says the same. */
  lemma MergeSaysTheSame(a: Batch, b: Batch, id: string)
    ensures id !in b.pullRequests && id !in b.partials && id !in b.errors ==> Agree(a, Merge(a, b), id)
    ensures id !in a.pullRequests && id !in a.partials && id !in a.errors ==> Agree(b, Merge(a, b), id)
  {
  }

  lemma Unmentioned(ids: set<string>, batch: Batch, id: string)
    requires Covers(ids, batch) && id !in ids
    ensures id !in batch.pullRequests && id !in batch.partials && id !in batch.errors
  {
  }

  /** Merging the answers for other tasks changes nothing about these. */
  lemma MergeAgrees(before: seq<PullRequest>, a: Batch, chunk: seq<PullRequest>, b: Batch)
    requires Classified(before, a) && Classified(chunk, b) && DistinctTasks(before + chunk)
    ensures forall w :: w in before ==> Agree(a, Merge(a, b), w.taskId)
    ensures forall w :: w in chunk ==> Agree(b, Merge(a, b), w.taskId)
  {
    DistinctParts(before, chunk);
    hide AllRefresh, AllFresh, Covers, Agree, DistinctTasks, Merge;
    forall w | w in before
      ensures Agree(a, Merge(a, b), w.taskId)
    {
      assert w.taskId in TaskIds(before);
      Unmentioned(TaskIds(chunk), b, w.taskId);
      MergeSaysTheSame(a, b, w.taskId);
    }
    forall w | w in chunk
      ensures Agree(b, Merge(a, b), w.taskId)
    {
      assert w.taskId in TaskIds(chunk);
      Unmentioned(TaskIds(before), a, w.taskId);
      MergeSaysTheSame(a, b, w.taskId);
    }
  }

  /** The item's answer, under the error that marks it. */
  ghost predicate ItemSettled(
    calls: Calls, data: map<string, RepositoryBody>, errors: seq<GraphError>, items: seq<Item>, item: Item,
    batch: Batch)
  {
    exists itemError :: MarkedBy(errors, items, item.current.taskId, itemError)
      && ItemAnswer(calls, data, item, itemError, batch)
  }

  lemma FullLater(calls: Calls, current: PullRequest, pull: GraphPull, updated: PullRequest, more: Calls)
    requires Within(calls, more)
    ensures FullIn(calls, current, pull, updated) ==> FullIn(more, current, pull, updated)
    ensures CoreIn(calls, current, pull, updated) ==> CoreIn(more, current, pull, updated)
  {
    hide IsFull, IsCore;
    if FullIn(calls, current, pull, updated) {
      var t: nat :| IsCall(calls, t) && IsFull(current, pull, updated, calls.transport.now(t));
      assert IsCall(more, t);
    }
    if CoreIn(calls, current, pull, updated) {
      var t: nat :| IsCall(calls, t) && IsCore(current, pull, updated, calls.transport.now(t));
      assert IsCall(more, t);
    }
  }

  lemma PullLater(
    calls: Calls, current: PullRequest, pull: GraphPull, itemError: Option<Failure>, batch: Batch, more: Calls,
    larger: Batch)
    requires ReportsPull(calls, current, pull, itemError, batch) && Within(calls, more)
    requires Agree(batch, larger, current.taskId)
    ensures ReportsPull(more, current, pull, itemError, larger)
  {
    hide FullIn, CoreIn;
    var id := current.taskId;
    if id in batch.pullRequests {
      FullLater(calls, current, pull, batch.pullRequests[id], more);
    }
    if id in batch.partials {
      FullLater(calls, current, pull, batch.partials[id], more);
    }
    if pull.updatedAt.Some? && itemError.None? && !IsTerminal(pull) {
      var t: nat :| IsCall(calls, t) && ReportsPaging(calls, current, pull, calls.transport.page(t, pull), batch);
      if calls.transport.page(t, pull).Complete? && id in batch.pullRequests {
        FullLater(calls, current, calls.transport.page(t, pull).value, batch.pullRequests[id], more);
      }
      assert IsCall(more, t) && ReportsPaging(more, current, pull, more.transport.page(t, pull), larger);
    }
  }

  /** A settled item stays settled as more calls are made and other tasks are answered. */
  lemma SettledStays(
    calls: Calls, data: map<string, RepositoryBody>, errors: seq<GraphError>, items: seq<Item>, item: Item,
    batch: Batch, more: Calls, larger: Batch)
    requires ItemSettled(calls, data, errors, items, item, batch) && Within(calls, more)
    requires Agree(batch, larger, item.current.taskId)
    ensures ItemSettled(more, data, errors, items, item, larger)
  {
    hide MarkedBy, ReportsPull;
    var itemError :| MarkedBy(errors, items, item.current.taskId, itemError)
      && ItemAnswer(calls, data, item, itemError, batch);
    match BodyOf(data, item)
    case NullRepository =>
    case BadRepository =>
    case Repository(pulls) =>
      match PullOf(pulls, item)
      case NullPull =>
      case BadPull =>
      case Pull(value) => PullLater(calls, item.current, value, itemError, batch, more, larger);
    assert ItemAnswer(more, data, item, itemError, larger);
  }

  /** Every item before position i has the answer that arrived under its aliases. */
  ghost predicate SettledUpTo(
    calls: Calls, data: map<string, RepositoryBody>, errors: seq<GraphError>, items: seq<Item>, i: nat,
    batch: Batch)
  {
    forall k {:trigger items[k]} :: 0 <= k < i && k < |items| ==>
      ItemSettled(calls, data, errors, items, items[k], batch)
  }

  lemma AllSettledStay(
    calls: Calls, data: map<string, RepositoryBody>, errors: seq<GraphError>, items: seq<Item>, i: nat,
    batch: Batch, more: Calls, larger: Batch)
    requires SettledUpTo(calls, data, errors, items, i, batch) && Within(calls, more)
    requires forall k :: 0 <= k < i && k < |items| ==> Agree(batch, larger, items[k].current.taskId)
    ensures SettledUpTo(more, data, errors, items, i, larger)
  {
    hide ItemSettled, Agree;
    forall k | 0 <= k < i && k < |items|
      ensures ItemSettled(more, data, errors, items, items[k], larger)
    {
      SettledStays(calls, data, errors, items, items[k], batch, more, larger);
    }
  }

  lemma SettleNext(
    calls: Calls, data: map<string, RepositoryBody>, errors: seq<GraphError>, items: seq<Item>, i: nat,
    batch: Batch, call: Calls, one: Batch, more: Calls)
    requires i < |items| && DistinctTasks(Values(items)) && Within(calls, more) && Within(call, more)
    requires Classified(Values(items)[..i], batch) && Classified([items[i].current], one)
    requires SettledUpTo(calls, data, errors, items, i, batch)
    requires ItemSettled(call, data, errors, items, items[i], one)
    ensures SettledUpTo(more, data, errors, items, i + 1, Merge(batch, one))
  {
    hide ItemSettled, Agree, Classified, Merge, DistinctTasks;
    var values, v := Values(items)[..i], items[i].current;
    assert values + [v] == Values(items)[..i + 1];
    assert Values(items) == Values(items)[..i + 1] + Values(items)[i + 1..];
    DistinctParts(Values(items)[..i + 1], Values(items)[i + 1..]);
    MergeAgrees(values, batch, [v], one);
    assert v in [v];
    SettledStays(call, data, errors, items, items[i], one, more, Merge(batch, one));
    forall k | 0 <= k < i
      ensures Agree(batch, Merge(batch, one), items[k].current.taskId)
    {
      assert values[k] == items[k].current && values[k] in values;
    }
    AllSettledStay(calls, data, errors, items, i, batch, more, Merge(batch, one));
  }

  lemma PermutedClassified(values: seq<PullRequest>, current: seq<PullRequest>, batch: Batch)
    requires Classified(values, batch) && multiset(values) == multiset(current)
    ensures Classified(current, batch)
  {
    SameElements(values, current);
    assert TaskIds(values) == TaskIds(current);
    if DistinctTasks(current) {
      PermutedDistinct(values, current);
    }
    forall id | id in batch.pullRequests
      ensures Refreshes(current, id, batch.pullRequests[id])
    {
      RefreshesMore(values, current, id, batch.pullRequests[id]);
    }
    forall id | id in batch.partials
      ensures Refreshes(current, id, batch.partials[id])
    {
      RefreshesMore(values, current, id, batch.partials[id]);
    }
  }

  lemma PermutedDistinct(values: seq<PullRequest>, current: seq<PullRequest>)
    requires multiset(values) == multiset(current) && DistinctTasks(current)
    ensures DistinctTasks(values)
  {
    MultisetOfDistinct(current);
    DistinctByMultiset(values);
    SameElements(values, current);
    forall i, j | 0 <= i < j < |values|
      ensures values[i].taskId != values[j].taskId
    {
      assert values[i] in current && values[j] in current;
      var k :| 0 <= k < |current| && current[k] == values[i];
      var l :| 0 <= l < |current| && current[l] == values[j];
      assert k != l;
    }
  }

  /** Classifying goes on value by value. */
  lemma MergeNext(values: seq<PullRequest>, i: nat, batch: Batch, one: Batch)
    requires i < |values| && Classified(values[..i], batch) && Classified([values[i]], one)
    ensures Classified(values[..i + 1], Merge(batch, one))
  {
    MergeClassified(values[..i], batch, [values[i]], one);
    assert values[..i + 1] == values[..i] + [values[i]];
  }

  /** Why a chunk fails as a whole, if it does. */
  ghost predicate FailsFor(reply: Reply, items: seq<Item>, failure: Option<Failure>) {
    match reply
    case Refused(f) => failure == Some(f)
    case Answered(data, errors) =>
      if exists e :: e in errors && IsGlobal(e, items) then
        failure.Some? && FirstGlobal(errors, items, failure.value)
      else if exists item :: item in items && IsUndecodable(data, item) then
        failure.Some? && FirstUndecodable(data, items, failure.value)
      else failure.None?
  }

  ghost predicate FirstUndecodable(data: map<string, RepositoryBody>, items: seq<Item>, f: Failure) {
    exists k :: 0 <= k < |items| && IsUndecodable(data, items[k]) && f == BadBody(data, items[k])
      && forall l :: 0 <= l < k ==> !IsUndecodable(data, items[l])
  }

  /**
    fetchGraphQLChunk: the chunk fails as a whole, or every value is classified by what arrived under its
    aliases and by the error that marks it.
   */
  method FetchChunk(transport: Transport, tick: nat, current: seq<PullRequest>)
    returns (batch: Batch, failure: Option<Failure>, tick': nat, ghost query: Query, ghost items: seq<Item>)
    ensures tick < tick'
    ensures Plan(current, query, items) && FailsFor(transport.post(tick, query), items, failure)
    ensures failure.None? ==> Classified(current, batch)
    ensures failure.None? && DistinctTasks(current) ==>
              var reply := transport.post(tick, query);
              SettledUpTo(Calls(transport, tick + 1, tick'), reply.data, reply.errors, items, |items|, batch)
  {
    hide Classified, Plan, Recorded, ItemAnswer, IsUndecodable, IsGlobal, FirstGlobal, FirstUndecodable, SettledUpTo;
    var query', items' := BuildQuery(current);
    query, items := query', items';
    PlanIsWellAliased(current, query, items);
    tick' := tick + 1;
    batch, failure := EMPTY_BATCH, None;
    match transport.post(tick, query') {
      case Refused(f) =>
        failure := Some(f);
      case Answered(data, errors) =>
        var itemErrors, global := MapErrors(errors, items');
        if global.Some? {
          failure := global;
          FirstIsGlobal(errors, items, global.value);
          return;
        }
        batch, failure, tick' := ClassifyItems(transport, tick', items', data, errors, itemErrors);
        if failure.None? {
          PermutedClassified(Values(items), current, batch);
          if DistinctTasks(current) {
            PermutedDistinct(Values(items), current);
          }
        }
    }
  }

  lemma FirstIsGlobal(errors: seq<GraphError>, items: seq<Item>, f: Failure)
    requires FirstGlobal(errors, items, f)
    ensures exists e :: e in errors && IsGlobal(e, items)
  {
  }

  lemma RecordedMarks(errors: seq<GraphError>, items: seq<Item>, itemErrors: map<string, Failure>, id: string)
    requires Recorded(errors, items, itemErrors)
    ensures MarkedBy(errors, items, id, if id in itemErrors then Some(itemErrors[id]) else None)
  {
  }

  /** The loop of fetchGraphQLChunk. */
  method ClassifyItems(
    transport: Transport, tick: nat, items: seq<Item>, data: map<string, RepositoryBody>,
    ghost errors: seq<GraphError>, itemErrors: map<string, Failure>)
    returns (batch: Batch, failure: Option<Failure>, tick': nat)
    requires Recorded(errors, items, itemErrors)
    ensures tick <= tick'
    ensures failure.Some? <==> exists item :: item in items && IsUndecodable(data, item)
    ensures failure.Some? ==> FirstUndecodable(data, items, failure.value)
    ensures failure.None? ==> Classified(Values(items), batch)
    ensures failure.None? && DistinctTasks(Values(items)) ==>
              SettledUpTo(Calls(transport, tick, tick'), data, errors, items, |items|, batch)
  {
    hide Classified, Recorded, ItemAnswer, MarkedBy, IsUndecodable, BadBody;
    batch, failure, tick' := EMPTY_BATCH, None, tick;
    EmptyIsClassified();
    assert Values(items)[..0] == [];
    for i := 0 to |items|
      invariant tick <= tick' && failure.None?
      invariant forall k :: 0 <= k < i ==> !IsUndecodable(data, items[k])
      invariant Classified(Values(items)[..i], batch)
      invariant DistinctTasks(Values(items)) ==>
                  SettledUpTo(Calls(transport, tick, tick'), data, errors, items, i, batch)
    {
      ghost var before := tick';
      var id := items[i].current.taskId;
      var itemError := if id in itemErrors then Some(itemErrors[id]) else None;
      RecordedMarks(errors, items, itemErrors, id);
      var one;
      one, failure, tick' := ClassifyItem(transport, tick', items[i], data, itemError);
      if failure.Some? {
        assert items[i] in items;
        return;
      }
      ghost var call := Calls(transport, before, tick');
      assert ItemSettled(call, data, errors, items, items[i], one);
      if DistinctTasks(Values(items)) {
        SettleNext(
          Calls(transport, tick, before), data, errors, items, i, batch, call, one, Calls(transport, tick, tick'));
      }
      MergeNext(Values(items), i, batch, one);
      batch := Merge(batch, one);
    }
    assert Values(items)[..|items|] == Values(items);
  }

  // ----- the whole batch -----

  const CHUNK_SIZE: nat := 20

  /** LiveProvider.Fetch changes what it learnt and never which pull request the record is about. */
  function WithFields(current: PullRequest, fields: PullRequest): (r: PullRequest)
    ensures SameIdentity(current, r)
  {
    fields.(taskId := current.taskId, host := current.host, owner := current.owner,
      repository := current.repository, number := current.number)
  }

  /** What one REST request yielded is what the batch says of its pull request. */
  ghost predicate RestSettles(transport: Transport, t: nat, v: PullRequest, batch: Batch) {
    var reply := transport.rest(t, v);
    match reply.failure
    case Some(f) =>
      RecordBesideError(v.taskId, f, batch) && batch.partials[v.taskId] == WithFields(v, reply.fields)
    case None =>
      OnlyRecord(v.taskId, batch) && batch.pullRequests[v.taskId] == WithFields(v, reply.fields).(
                                                                       lastSyncedAt := Some(transport.now(t)),
                                                                       syncError := "", stale := false)
  }

  ghost predicate AllByRest(calls: Calls, values: seq<PullRequest>, batch: Batch) {
    forall v :: v in values ==> exists t: nat :: IsCall(calls, t) && RestSettles(calls.transport, t, v, batch)
  }

  method FetchRest(transport: Transport, tick: nat, value: PullRequest) returns (one: Batch)
    ensures Classified([value], one) && RestSettles(transport, tick, value, one)
  {
    var reply := transport.rest(tick, value);
    var updated := WithFields(value, reply.fields);
    one := match reply.failure
      case Some(f) => OnePartial(value.taskId, updated, f)
      case None => OneSuccess(value.taskId,
        updated.(lastSyncedAt := Some(transport.now(tick)), syncError := "", stale := false));
    OneIsClassified(value, one);
  }

  lemma RestNext(
    transport: Transport, first: nat, values: seq<PullRequest>, i: nat, batch: Batch, t: nat, one: Batch)
    requires i < |values| && DistinctTasks(values) && first <= t
    requires Classified(values[..i], batch) && AllByRest(Calls(transport, first, t), values[..i], batch)
    requires Classified([values[i]], one) && RestSettles(transport, t, values[i], one)
    ensures AllByRest(Calls(transport, first, t + 1), values[..i + 1], Merge(batch, one))
  {
    hide Classified, Merge, DistinctTasks, WithFields;
    var larger, more := Merge(batch, one), Calls(transport, first, t + 1);
    assert values[..i + 1] == values[..i] + [values[i]] && values == values[..i + 1] + values[i + 1..];
    DistinctParts(values[..i + 1], values[i + 1..]);
    MergeAgrees(values[..i], batch, [values[i]], one);
    assert values[i] in [values[i]];
    assert IsCall(more, t) && RestSettles(transport, t, values[i], larger);
    forall v | v in values[..i]
      ensures exists u: nat :: IsCall(more, u) && RestSettles(transport, u, v, larger)
    {
      var u: nat :| IsCall(Calls(transport, first, t), u) && RestSettles(transport, u, v, batch);
      assert IsCall(more, u) && RestSettles(transport, u, v, larger);
    }
  }

  /** fetchRESTBatch: one request for each value; it cannot fail as a whole. */
  method FetchRestBatch(transport: Transport, tick: nat, current: seq<PullRequest>)
    returns (batch: Batch, tick': nat)
    ensures tick <= tick' && Classified(current, batch)
    ensures DistinctTasks(current) ==> AllByRest(Calls(transport, tick, tick'), current, batch)
  {
    hide Classified, RestSettles, DistinctTasks;
    batch, tick' := EMPTY_BATCH, tick;
    EmptyIsClassified();
    assert current[..0] == [];
    for i := 0 to |current|
      invariant tick <= tick' && Classified(current[..i], batch)
      invariant DistinctTasks(current) ==> AllByRest(Calls(transport, tick, tick'), current[..i], batch)
    {
      var one := FetchRest(transport, tick', current[i]);
      if DistinctTasks(current) {
        RestNext(transport, tick, current, i, batch, tick', one);
      }
      tick' := tick' + 1;
      MergeNext(current, i, batch, one);
      batch := Merge(batch, one);
    }
    assert current[..|current|] == current;
  }

  /** What a batch that stopped early has settled: whole chunks, and nothing after them. */
  ghost predicate StoppedAt(current: seq<PullRequest>, batch: Batch, done: nat) {
    done < |current| && done % CHUNK_SIZE == 0 && Classified(current[..done], batch)
  }

  lemma MergeChunk(values: seq<PullRequest>, start: nat, end: nat, batch: Batch, chunk: Batch)
    requires start <= end <= |values|
    requires Classified(values[..start], batch) && Classified(values[start..end], chunk)
    ensures Classified(values[..end], Merge(batch, chunk))
  {
    MergeClassified(values[..start], batch, values[start..end], chunk);
    assert values[..end] == values[..start] + values[start..end];
  }

  function ChunkAt(current: seq<PullRequest>, n: nat): seq<PullRequest>
    requires n * CHUNK_SIZE <= |current|
  {
    if (n + 1) * CHUNK_SIZE < |current| then current[n * CHUNK_SIZE..(n + 1) * CHUNK_SIZE]
    else current[n * CHUNK_SIZE..]
  }

  /** The chunk was asked for in one of the calls, and the batch says of it what was answered. */
  ghost predicate ChunkAnswered(calls: Calls, chunk: seq<PullRequest>, batch: Batch) {
    exists t: nat, query, items :: IsCall(calls, t) && ChunkFrom(calls, t, query, items, chunk, batch)
  }

  ghost predicate ChunkFrom(
    calls: Calls, t: nat, query: Query, items: seq<Item>, chunk: seq<PullRequest>, batch: Batch)
  {
    var reply := calls.transport.post(t, query);
    && Plan(chunk, query, items) && FailsFor(reply, items, None)
    && SettledUpTo(calls, reply.data, reply.errors, items, |items|, batch)
  }

  /** The chunk was asked for in one of the calls, and this is why it failed as a whole. */
  ghost predicate ChunkFailed(calls: Calls, chunk: seq<PullRequest>, f: Failure) {
    exists t: nat, query, items ::
      IsCall(calls, t) && Plan(chunk, query, items) && FailsFor(calls.transport.post(t, query), items, Some(f))
  }

  ghost predicate ChunksAnswered(calls: Calls, current: seq<PullRequest>, n: nat, batch: Batch) {
    forall c: nat :: c < n && c * CHUNK_SIZE < |current| ==> ChunkAnswered(calls, ChunkAt(current, c), batch)
  }

  lemma ChunkLater(calls: Calls, chunk: seq<PullRequest>, batch: Batch, more: Calls, larger: Batch)
    requires ChunkAnswered(calls, chunk, batch) && Within(calls, more)
    requires forall w :: w in chunk ==> Agree(batch, larger, w.taskId)
    ensures ChunkAnswered(more, chunk, larger)
  {
    hide Plan, FailsFor, SettledUpTo, Agree;
    var t: nat, query: Query, items: seq<Item> :| IsCall(calls, t) && ChunkFrom(calls, t, query, items, chunk, batch);
    var reply := calls.transport.post(t, query);
    PlanIsWellAliased(chunk, query, items);
    SameElements(Values(items), chunk);
    forall k | 0 <= k < |items|
      ensures Agree(batch, larger, items[k].current.taskId)
    {
      assert Values(items)[k] in chunk;
    }
    assert reply.Answered? by { FailsForNothing(reply, items); }
    AllSettledStay(calls, reply.data, reply.errors, items, |items|, batch, more, larger);
    assert IsCall(more, t) && ChunkFrom(more, t, query, items, chunk, larger);
  }

  lemma FailsForNothing(reply: Reply, items: seq<Item>)
    requires FailsFor(reply, items, None)
    ensures reply.Answered?
  {
  }

  lemma FailedLater(calls: Calls, chunk: seq<PullRequest>, f: Failure, more: Calls)
    requires ChunkFailed(calls, chunk, f) && Within(calls, more)
    ensures ChunkFailed(more, chunk, f)
  {
    hide Plan, FailsFor;
    var t: nat, query: Query, items: seq<Item> :|
      IsCall(calls, t) && Plan(chunk, query, items) && FailsFor(calls.transport.post(t, query), items, Some(f));
    assert IsCall(more, t);
  }

  lemma ChunksNext(
    calls: Calls, current: seq<PullRequest>, n: nat, batch: Batch, call: Calls, chunk: Batch, more: Calls)
    requires n * CHUNK_SIZE < |current| && DistinctTasks(current) && Within(calls, more) && Within(call, more)
    requires Classified(current[..n * CHUNK_SIZE], batch) && Classified(ChunkAt(current, n), chunk)
    requires ChunksAnswered(calls, current, n, batch) && ChunkAnswered(call, ChunkAt(current, n), chunk)
    ensures ChunksAnswered(more, current, n + 1, Merge(batch, chunk))
  {
    hide ChunkAnswered, Agree, Classified, Merge, DistinctTasks;
    var before, larger := current[..n * CHUNK_SIZE], Merge(batch, chunk);
    var rest := current[|before| + |ChunkAt(current, n)|..];
    assert current == (before + ChunkAt(current, n)) + rest;
    DistinctParts(before + ChunkAt(current, n), rest);
    MergeAgrees(before, batch, ChunkAt(current, n), chunk);
    ChunkLater(call, ChunkAt(current, n), chunk, more, larger);
    forall c: nat | c < n
      ensures ChunkAnswered(more, ChunkAt(current, c), larger)
    {
      assert (c + 1) * CHUNK_SIZE <= n * CHUNK_SIZE;
      assert forall w :: w in ChunkAt(current, c) ==> w in before;
      ChunkLater(calls, ChunkAt(current, c), batch, more, larger);
    }
  }

  /** The chunks before position n were answered, and the one there failed. */
  ghost predicate StoppedBy(calls: Calls, current: seq<PullRequest>, batch: Batch, n: nat, f: Failure) {
    && n * CHUNK_SIZE < |current| && StoppedAt(current, batch, n * CHUNK_SIZE)
    && ChunksAnswered(calls, current, n, batch)
    && ChunkFailed(calls, ChunkAt(current, n), f)
  }

  /** The REST interface is used only after a chunk failed with a status of an error. */
  ghost predicate FellBack(calls: Calls, current: seq<PullRequest>, n: nat, f: Failure) {
    n * CHUNK_SIZE < |current| && f.status >= 400 && ChunkFailed(calls, ChunkAt(current, n), f)
  }

  /** What a fetch came back with goes back to what was answered in its calls. */
  ghost predicate FetchedFrom(calls: Calls, current: seq<PullRequest>, batch: Batch, failure: Option<Failure>) {
    match failure
    case Some(f) => f.status < 400 && exists n: nat :: StoppedBy(calls, current, batch, n, f)
    case None =>
      || ChunksAnswered(calls, current, |current|, batch)
      || (AllByRest(calls, current, batch) && exists n: nat, f :: FellBack(calls, current, n, f))
  }

  lemma FetchedAll(calls: Calls, current: seq<PullRequest>, n: nat, batch: Batch)
    requires ChunksAnswered(calls, current, n, batch) && n * CHUNK_SIZE >= |current|
    ensures FetchedFrom(calls, current, batch, None)
  {
    hide ChunkAnswered;
    forall c: nat | c < |current| && c * CHUNK_SIZE < |current|
      ensures ChunkAnswered(calls, ChunkAt(current, c), batch)
    {
      assert c < n;
    }
  }

  lemma FetchedByRest(calls: Calls, current: seq<PullRequest>, n: nat, f: Failure, rest: Calls, batch: Batch,
    more: Calls)
    requires n * CHUNK_SIZE < |current| && ChunkFailed(calls, ChunkAt(current, n), f) && f.status >= 400
    requires AllByRest(rest, current, batch) && Within(calls, more) && Within(rest, more)
    ensures FetchedFrom(more, current, batch, None)
  {
    hide RestSettles;
    FailedLater(calls, ChunkAt(current, n), f, more);
    assert FellBack(more, current, n, f);
    forall v | v in current
      ensures exists t: nat :: IsCall(more, t) && RestSettles(more.transport, t, v, batch)
    {
      var t: nat :| IsCall(rest, t) && RestSettles(rest.transport, t, v, batch);
      assert IsCall(more, t);
    }
  }

  lemma FetchStopped(calls: Calls, current: seq<PullRequest>, n: nat, batch: Batch, f: Failure, call: Calls,
    more: Calls)
    requires n * CHUNK_SIZE < |current| && StoppedAt(current, batch, n * CHUNK_SIZE) && f.status < 400
    requires ChunksAnswered(calls, current, n, batch) && ChunkFailed(call, ChunkAt(current, n), f)
    requires Within(calls, more) && Within(call, more)
    ensures FetchedFrom(more, current, batch, Some(f))
  {
    hide ChunkAnswered, Agree, StoppedAt;
    FailedLater(call, ChunkAt(current, n), f, more);
    forall c: nat | c < n && c * CHUNK_SIZE < |current|
      ensures ChunkAnswered(more, ChunkAt(current, c), batch)
    {
      forall w | w in ChunkAt(current, c)
        ensures Agree(batch, batch, w.taskId)
      {
        AgreesWithItself(batch, w.taskId);
      }
      ChunkLater(calls, ChunkAt(current, c), batch, more, batch);
    }
    assert StoppedBy(more, current, batch, n, f);
  }

  lemma AgreesWithItself(batch: Batch, id: string)
    ensures Agree(batch, batch, id)
  {
  }

  /** FetchBatch: everything is classified, or exactly the chunks before the one that failed. */
  method FetchAll(transport: Transport, tick: nat, current: seq<PullRequest>)
    returns (batch: Batch, failure: Option<Failure>, tick': nat, ghost done: nat)
    ensures tick <= tick'
    ensures failure.None? ==> Classified(current, batch)
    ensures failure.Some? ==> StoppedAt(current, batch, done) && failure.value.status < 400
    ensures DistinctTasks(current) ==> FetchedFrom(Calls(transport, tick, tick'), current, batch, failure)
  {
    hide Classified, Plan, FailsFor, SettledUpTo, FetchedFrom, ChunksAnswered, ChunkAnswered, ChunkFailed;
    hide AllByRest, DistinctTasks, Merge;
    batch, failure, tick', done := EMPTY_BATCH, None, tick, 0;
    EmptyIsClassified();
    assert current[..0] == [];
    var start := 0;
    ghost var settled, n: nat := 0, 0;
    NoChunkYet(Calls(transport, tick, tick), current, batch);
    while start < |current|
      invariant tick <= tick' && failure.None?
      invariant start == n * CHUNK_SIZE && settled == if start < |current| then start else |current|
      invariant Classified(current[..settled], batch)
      invariant DistinctTasks(current) ==> ChunksAnswered(Calls(transport, tick, tick'), current, n, batch)
      decreases |current| - start
    {
      var end := if start + CHUNK_SIZE < |current| then start + CHUNK_SIZE else |current|;
      assert current[start..end] == ChunkAt(current, n);
      ghost var before := tick';
      var chunk;
      ghost var query, items;
      chunk, failure, tick', query, items := FetchChunk(transport, tick', current[start..end]);
      ghost var calls, call := Calls(transport, tick, before), Calls(transport, before, tick');
      if failure.Some? {
        ChunkHasFailed(call, query, items, ChunkAt(current, n), failure.value);
        if failure.value.status >= 400 {
          ghost var f, middle := failure.value, tick';
          batch, tick' := FetchRestBatch(transport, tick', current);
          failure := None;
          if DistinctTasks(current) {
            FetchedByRest(
              call, current, n, f, Calls(transport, middle, tick'), batch, Calls(transport, tick, tick'));
          }
          return;
        }
        done := start;
        if DistinctTasks(current) {
          FetchStopped(calls, current, n, batch, failure.value, call, Calls(transport, tick, tick'));
        }
        return;
      }
      if DistinctTasks(current) {
        DistinctChunk(current, n);
        ChunkHasAnswered(call, query, items, ChunkAt(current, n), chunk);
        ChunksNext(calls, current, n, batch, call, chunk, Calls(transport, tick, tick'));
      }
      MergeChunk(current, start, end, batch, chunk);
      batch, settled, n := Merge(batch, chunk), end, n + 1;
      start := start + CHUNK_SIZE;
    }
    assert current[..|current|] == current;
    if DistinctTasks(current) {
      FetchedAll(Calls(transport, tick, tick'), current, n, batch);
    }
  }

  lemma NoChunkYet(calls: Calls, current: seq<PullRequest>, batch: Batch)
    ensures ChunksAnswered(calls, current, 0, batch)
  {
  }

  lemma ChunkHasFailed(call: Calls, query: Query, items: seq<Item>, chunk: seq<PullRequest>, f: Failure)
    requires call.first < call.past && Plan(chunk, query, items)
    requires FailsFor(call.transport.post(call.first, query), items, Some(f))
    ensures ChunkFailed(call, chunk, f)
  {
    hide Plan, FailsFor;
    assert IsCall(call, call.first);
  }

  lemma ChunkHasAnswered(call: Calls, query: Query, items: seq<Item>, chunk: seq<PullRequest>, batch: Batch)
    requires call.first < call.past && Plan(chunk, query, items)
    requires FailsFor(call.transport.post(call.first, query), items, None)
    requires var reply := call.transport.post(call.first, query);
             SettledUpTo(
               Calls(call.transport, call.first + 1, call.past), reply.data, reply.errors, items, |items|, batch)
    ensures ChunkAnswered(call, chunk, batch)
  {
    hide Plan, FailsFor, SettledUpTo, Agree;
    var reply := call.transport.post(call.first, query);
    FailsForNothing(reply, items);
    forall k | 0 <= k < |items|
      ensures Agree(batch, batch, items[k].current.taskId)
    {
      AgreesWithItself(batch, items[k].current.taskId);
    }
    AllSettledStay(
      Calls(call.transport, call.first + 1, call.past), reply.data, reply.errors, items, |items|, batch, call, batch);
    assert IsCall(call, call.first) && ChunkFrom(call, call.first, query, items, chunk, batch);
  }

  lemma DistinctChunk(current: seq<PullRequest>, n: nat)
    requires DistinctTasks(current) && n * CHUNK_SIZE <= |current|
    ensures DistinctTasks(ChunkAt(current, n))
  {
    var before, chunk := current[..n * CHUNK_SIZE], ChunkAt(current, n);
    var rest := current[|before| + |chunk|..];
    assert current == before + (chunk + rest);
    DistinctParts(before, chunk + rest);
    DistinctParts(chunk, rest);
  }

  /** unresolvedIndex: the first value the batch says nothing about. */
  method UnresolvedIndex(values: seq<PullRequest>, batch: Batch) returns (index: nat)
    ensures index <= |values|
    ensures forall i :: 0 <= i < index ==> Mentioned(batch, values[i].taskId)
    ensures index < |values| ==> !Mentioned(batch, values[index].taskId)
  {
    for i := 0 to |values|
      invariant forall k :: 0 <= k < i ==> Mentioned(batch, values[k].taskId)
    {
      var id := values[i].taskId;
      if id !in batch.pullRequests && id !in batch.partials && id !in batch.errors {
        return i;
      }
    }
    return |values|;
  }

  predicate Mentioned(batch: Batch, id: string) {
    id in batch.pullRequests || id in batch.partials || id in batch.errors
  }

  /** After a failed fetch the retry starts exactly behind the finished chunks. */
  lemma RetryStartsBehindFinishedChunks(values: seq<PullRequest>, batch: Batch, done: nat, index: nat)
    requires StoppedAt(values, batch, done) && DistinctTasks(values)
    requires index <= |values| && forall i :: 0 <= i < index ==> Mentioned(batch, values[i].taskId)
    requires index < |values| ==> !Mentioned(batch, values[index].taskId)
    ensures index == done
  {
    forall i | 0 <= i < |values|
      ensures Mentioned(batch, values[i].taskId) <==> i < done
    {
      assert Mentioned(batch, values[i].taskId) <==> values[i].taskId in TaskIds(values[..done]);
      if i < done {
        assert values[..done][i] == values[i];
      }
    }
    assert !Mentioned(batch, values[done].taskId);
  }
}
