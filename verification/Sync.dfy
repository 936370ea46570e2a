/** The synchronisation of pull requests with GitHub: internal/app/github_sync.go. */
module Syncing {
  import opened Text
  import opened Status
  import opened GitHub
  import opened FetchBatch
  import opened Resolving
  import opened Outcomes
  import opened Visiting

  /** candidateAttempt: what one credential achieved, and where a failure stopped it. */
  datatype Attempt = Attempt(
    successes: map<string, PullRequest>, partials: map<string, PullRequest>, failures: map<string, Failure>,
    failedAt: int, err: Option<Failure>)

  const EMPTY_ATTEMPT: Attempt := Attempt(map[], map[], map[], -1, None)

  /** Every recorded failure is explained by the error it stands for and by the calls made meanwhile. */
  ghost predicate AllExplained(
    world: World, first: nat, past: nat, values: seq<PullRequest>, errors: map<string, Failure>,
    failures: map<string, Failure>)
  {
    forall v :: v in values && v.taskId in failures ==>
      v.taskId in errors && Explained(world, first, past, v, errors[v.taskId], failures[v.taskId])
  }

  lemma ExplainedLater(
    world: World, first: nat, past: nat, values: seq<PullRequest>, errors: map<string, Failure>,
    failures: map<string, Failure>, later: nat)
    requires AllExplained(world, first, past, values, errors, failures) && past <= later
    ensures AllExplained(world, first, later, values, errors, failures)
  {
  }

  /** The values are those of one repository, whatever the case it is written in. */
  ghost predicate OneRepository(values: seq<PullRequest>) {
    forall v, w :: v in values && w in values ==> GroupKey(v) == GroupKey(w)
  }

  lemma ProbeSees(world: World, first: nat, past: nat, v: PullRequest)
    requires first < past && world.probe(past - 1, v.owner, v.repository).None?
    ensures RepositorySeen(world, first, past, v)
  {
  }

  lemma SeenForAll(world: World, first: nat, past: nat, values: seq<PullRequest>, v: PullRequest)
    requires OneRepository(values) && v in values && RepositorySeen(world, first, past, v)
    ensures forall w :: w in values ==> RepositorySeen(world, first, past, w)
  {
    var t: nat, owner, repository :| first <= t < past && world.probe(t, owner, repository).None?
      && Lower(owner) == Lower(v.owner) && Lower(repository) == Lower(v.repository);
    forall w | w in values
      ensures RepositorySeen(world, first, past, w)
    {
      assert GroupKey(v) == GroupKey(w);
      assert Lower(owner) == Lower(w.owner) && Lower(repository) == Lower(w.repository);
    }
  }

  lemma SeenLater(world: World, first: nat, past: nat, values: seq<PullRequest>, later: nat)
    requires past <= later
    ensures forall v :: v in values && RepositorySeen(world, first, past, v) ==> RepositorySeen(world, first, later, v)
  {
  }

  /** The store failed in one of the calls: the cache of credentials, or a record that was to be stored. */
  ghost predicate StorageFailed(world: World, first: nat, past: nat, f: Failure) {
    exists t: nat :: first <= t < past && FailsToStore(world, t, f)
  }

  ghost predicate FailsToStore(world: World, t: nat, f: Failure) {
    || world.upsert(t) == Some(f)
    || (world.hasCache && world.cachePut(t) == Some(f))
    || (world.hasCache && exists key :: world.cached(t, key) == CacheFailed(f))
  }

  lemma CacheFails(world: World, t: nat, key: RepositoryKey, f: Failure)
    requires world.hasCache && world.cached(t, key) == CacheFailed(f)
    ensures FailsToStore(world, t, f)
  {
  }

  lemma UpsertFails(world: World, first: nat, past: nat, f: Failure)
    requires first < past && world.upsert(past - 1) == Some(f)
    ensures StorageFailed(world, first, past, f)
  {
    assert FailsToStore(world, past - 1, f);
  }

  lemma CachePutFails(world: World, t: nat, f: Failure)
    requires world.hasCache && world.cachePut(t) == Some(f)
    ensures StorageFailed(world, t, t + 1, f)
  {
    assert FailsToStore(world, t, f);
  }

  lemma StorageDidFail(world: World, first: nat, past: nat, f: Failure)
    requires StorageFailed(world, first, past, f)
    ensures !StorageWorks(world)
  {
  }

  lemma StorageFailedLater(world: World, first: nat, past: nat, f: Failure, earlier: nat, later: nat)
    requires StorageFailed(world, first, past, f) && earlier <= first && past <= later
    ensures StorageFailed(world, earlier, later, f)
  {
    hide FailsToStore;
  }

  /** The store answers every call. */
  ghost predicate StorageWorks(world: World) {
    forall t: nat, f :: !FailsToStore(world, t, f)
  }

  /** Every value gets the failure. */
  method FailAll(failures: map<string, Failure>, values: seq<PullRequest>, failure: Failure)
    returns (r: map<string, Failure>)
    ensures r.Keys == failures.Keys + TaskIds(values)
    ensures forall id :: id in r ==> r[id] == if id in TaskIds(values) then failure else failures[id]
  {
    r := failures;
    for i := 0 to |values|
      invariant r.Keys == failures.Keys + TaskIds(values[..i])
      invariant forall id :: id in r ==> r[id] == if id in TaskIds(values[..i]) then failure else failures[id]
    {
      assert values[..i + 1] == values[..i] + [values[i]];
      assert TaskIds(values[..i + 1]) == TaskIds(values[..i]) + {values[i].taskId};
      r := r[values[i].taskId := failure];
    }
    assert values[..|values|] == values;
  }

  /** The values from a position on; a position outside the values means all of them. */
  function Remaining(values: seq<PullRequest>, failedAt: int): seq<PullRequest> {
    values[if 0 <= failedAt < |values| then failedAt else 0..]
  }

  /** addRemainingFailures. */
  method AddRemainingFailures(
    failures: map<string, Failure>, values: seq<PullRequest>, failedAt: int, failure: Failure)
    returns (r: map<string, Failure>)
    ensures r.Keys == failures.Keys + TaskIds(Remaining(values, failedAt))
    ensures forall id :: id in r ==>
              r[id] == if id in TaskIds(Remaining(values, failedAt)) then failure else failures[id]
  {
    r := FailAll(failures, Remaining(values, failedAt), failure);
  }

  /** addUnavailableFailures. */
  method AddUnavailableFailures(failures: map<string, Failure>, work: seq<PullRequest>, host: string)
    returns (r: map<string, Failure>)
    ensures r.Keys == failures.Keys + TaskIds(work)
    ensures forall id :: id in r ==> r[id] == if id in failures then failures[id] else NoUsableAuth(host)
  {
    r := failures;
    for i := 0 to |work|
      invariant r.Keys == failures.Keys + TaskIds(work[..i])
      invariant forall id :: id in r ==> r[id] == if id in failures then failures[id] else NoUsableAuth(host)
    {
      assert work[..i + 1] == work[..i] + [work[i]];
      assert TaskIds(work[..i + 1]) == TaskIds(work[..i]) + {work[i].taskId};
      if work[i].taskId !in r {
        r := r[work[i].taskId := NoUsableAuth(host)];
      }
    }
    assert work[..|work|] == work;
  }

  /** workAfterFailure: the values that are handed to the next credential. */
  function WorkAfterFailure(work: seq<PullRequest>, failedAt: int): seq<PullRequest> {
    if 0 <= failedAt < |work| then work[failedAt..] else []
  }

  function MergeAttempt(result: SyncResult, attempt: Attempt): SyncResult {
    result.(successes := result.successes + attempt.successes, partials := result.partials + attempt.partials,
      failures := result.failures + attempt.failures)
  }

  method CandidateById(candidates: seq<Candidate>, id: string) returns (r: Option<Candidate>)
    ensures WithId(candidates, id) == if r.Some? then [r.value] else []
  {
    for i := 0 to |candidates|
      invariant WithId(candidates, id) == WithId(candidates[i..], id)
    {
      if candidates[i].id == id {
        return Some(candidates[i]);
      }
    }
    r := None;
  }

  /** The values before a position have outcomes. */
  ghost predicate SettledBefore(values: seq<PullRequest>, position: int, outcomes: set<string>) {
    0 <= position <= |values| && TaskIds(values[..position]) <= outcomes <= TaskIds(values)
  }

  /** Where an attempt ended: at the position it failed at, or behind the last value. */
  function EndOf(values: seq<PullRequest>, attempt: Attempt): int {
    if attempt.err.None? then |values| else attempt.failedAt
  }

  /** What an attempt leaves: everything before its end has an outcome, and of one kind only. */
  ghost predicate Attempted(values: seq<PullRequest>, asked: seq<Answer>, attempt: Attempt) {
    && Recovered(values, asked, attempt.successes, attempt.partials)
    && attempt.successes.Keys !! attempt.failures.Keys
    && NoFallback(attempt.failures)
    && SettledBefore(values, EndOf(values, attempt), attempt.successes.Keys + attempt.failures.Keys)
    && (attempt.err.Some? && values != [] ==> attempt.failedAt < |values|)
  }

  /** The credential was tried once for the values. */
  ghost predicate AskedOnce(candidate: Candidate, values: seq<PullRequest>, asked: seq<Answer>) {
    |asked| == 1 && asked[0].candidate == candidate && asked[0].values == values
  }

  lemma AskedOnceTries(
    world: World, before: seq<Answer>, candidate: Candidate, values: seq<PullRequest>, asked: seq<Answer>,
    work: seq<PullRequest>)
    requires AskedOnce(candidate, values, asked) && Genuine(world, asked[0]) && forall v :: v in work ==> v in values
    ensures Tried(world, asked, candidate, work)
    ensures asked[0].failure.Some? ==> Stopped(world, before + asked, asked[0].failure.value, work)
  {
    hide Genuine;
    assert asked[0] in asked && asked[0] in before + asked;
  }

  /** The batch speaks of the values before position done, and of each in one way only. */
  ghost predicate Reached(values: seq<PullRequest>, batch: Batch, done: nat) {
    && done <= |values| && Classified(values[..done], batch) && batch.pullRequests.Keys !! batch.errors.Keys
  }

  lemma ReachedAll(values: seq<PullRequest>, batch: Batch)
    requires Classified(values, batch) && DistinctTasks(values)
    ensures Reached(values, batch, |values|)
  {
  }

  lemma ReachedSome(values: seq<PullRequest>, batch: Batch, done: nat)
    requires StoppedAt(values, batch, done) && DistinctTasks(values)
    ensures Reached(values, batch, done)
  {
  }

  /** The records of what a fetch reached are about the values. */
  lemma ReachedRefreshes(values: seq<PullRequest>, batch: Batch, done: nat)
    requires Reached(values, batch, done)
    ensures Clean(batch) == batch.pullRequests && Unclean(batch) == batch.partials
    ensures batch.pullRequests.Keys + batch.errors.Keys == TaskIds(values[..done])
    ensures AllRefresh(values, Clean(batch)) && AllFresh(Clean(batch)) && AllRefresh(values, Unclean(batch))
  {
  }

  lemma ReachedPartials(values: seq<PullRequest>, batch: Batch, done: nat)
    requires Reached(values, batch, done)
    ensures batch.partials.Keys <= batch.errors.Keys
  {
  }

  /** The failures recorded for the values before position i. */
  ghost predicate FailuresUpTo(values: seq<PullRequest>, i: nat, batch: Batch, failures: map<string, Failure>) {
    && i <= |values| && NoFallback(failures)
    && failures.Keys == TaskIds(values[..i]) * batch.errors.Keys
  }

  lemma NoFailureYet(values: seq<PullRequest>, batch: Batch)
    ensures FailuresUpTo(values, 0, batch, map[])
  {
    assert values[..0] == [];
  }

  lemma FailuresNext(
    values: seq<PullRequest>, i: nat, batch: Batch, failures: map<string, Failure>, f: Failure)
    requires i < |values| && FailuresUpTo(values, i, batch, failures) && !IsFallback(f.kind)
    ensures FailuresUpTo(
              values, i + 1, batch,
              if values[i].taskId in batch.errors then failures[values[i].taskId := f] else failures)
  {
  }

  lemma ExplainOne(
    world: World, first: nat, past: nat, values: seq<PullRequest>, i: nat, errors: map<string, Failure>,
    failures: map<string, Failure>, f: Failure)
    requires i < |values| && DistinctTasks(values) && AllExplained(world, first, past, values, errors, failures)
    requires values[i].taskId in errors
    requires Explained(world, first, past, values[i], errors[values[i].taskId], f)
    ensures AllExplained(world, first, past, values, errors, failures[values[i].taskId := f])
  {
    hide Explained;
  }

  /** What a reached part of the values amounts to, once its failures up to position i are recorded. */
  lemma AttemptIsDone(
    values: seq<PullRequest>, answer: Answer, done: nat, i: nat, failures: map<string, Failure>,
    err: Option<Failure>)
    requires Reached(values, answer.batch, done) && i <= done
    requires FailuresUpTo(values, i, answer.batch, failures)
    requires err.None? ==> i == |values|
    requires err.Some? ==> i < |values|
    ensures Attempted(values, [answer],
              Attempt(Clean(answer.batch), Unclean(answer.batch), failures, if err.None? then -1 else i, err))
  {
    ReachedRefreshes(values, answer.batch, done);
    FoundOne(answer);
    assert TaskIds(values[..i]) <= TaskIds(values[..done]) <= TaskIds(values);
    assert TaskIds(values[..i]) <= answer.batch.pullRequests.Keys + failures.Keys;
  }

  lemma AttemptedNothing(values: seq<PullRequest>, answer: Answer, f: Failure)
    requires answer.batch == EMPTY_BATCH
    ensures Attempted(values, [answer], EMPTY_ATTEMPT.(failedAt := 0, err := Some(f)))
  {
    FoundOne(answer);
  }

  /** Where an attempt failed is where the next one goes on. */
  lemma AttemptEnds(values: seq<PullRequest>, asked: seq<Answer>, attempt: Attempt)
    requires Attempted(values, asked, attempt)
    ensures 0 <= EndOf(values, attempt) <= |values| && attempt.failures.Keys <= TaskIds(values)
    ensures attempt.err.Some? ==>
              WorkAfterFailure(values, attempt.failedAt) == values[attempt.failedAt..]
              && Remaining(values, attempt.failedAt) == values[attempt.failedAt..]
  {
    hide Recovered, NoFallback;
  }

  // ----- the credentials of one repository, one after the other -----

  /** The values before position start have outcomes, and no success that was found is missing. */
  ghost predicate Progress(values: seq<PullRequest>, start: nat, asked: seq<Answer>, result: SyncResult) {
    && Recovered(values, asked, result.successes, result.partials)
    && NoFallback(result.failures)
    && SettledBefore(values, start, result.successes.Keys + result.failures.Keys)
  }

  lemma ProgressStarts(values: seq<PullRequest>)
    ensures Progress(values, 0, [], EMPTY_RESULT)
  {
  }

  lemma SettledFurther(values: seq<PullRequest>, start: nat, a: set<string>, more: int, b: set<string>)
    requires SettledBefore(values, start, a) && SettledBefore(values[start..], more, b)
    ensures SettledBefore(values, start + more, a + b)
  {
  }

  lemma MergedKeys<T, U>(a: map<string, T>, a': map<string, T>, b: map<string, U>, b': map<string, U>)
    ensures (a + a').Keys + (b + b').Keys == (a.Keys + b.Keys) + (a'.Keys + b'.Keys)
  {
  }

  lemma MergedNoFallback(a: map<string, Failure>, b: map<string, Failure>)
    requires NoFallback(a) && NoFallback(b)
    ensures NoFallback(a + b)
  {
  }

  /** Taking an attempt on the remaining values into account moves the start to where it stopped. */
  lemma ProgressStep(
    values: seq<PullRequest>, start: nat, asked: seq<Answer>, result: SyncResult,
    asked': seq<Answer>, attempt: Attempt)
    requires Progress(values, start, asked, result)
    requires Attempted(values[start..], asked', attempt)
    ensures Progress(values, start + EndOf(values[start..], attempt), asked + asked', MergeAttempt(result, attempt))
  {
    RecoveredMore(values, asked, result.successes, result.partials,
      values[start..], asked', attempt.successes, attempt.partials);
    var a, b := result.successes.Keys + result.failures.Keys, attempt.successes.Keys + attempt.failures.Keys;
    SettledFurther(values, start, a, EndOf(values[start..], attempt), b);
    MergedKeys(result.successes, attempt.successes, result.failures, attempt.failures);
    MergedNoFallback(result.failures, attempt.failures);
  }

  lemma EmptyAddsNothing(asked: seq<Answer>, answer: Answer)
    requires answer.batch == EMPTY_BATCH
    ensures Found(asked + [answer]) == Found(asked) && FoundPartly(asked + [answer]) == FoundPartly(asked)
  {
    assert Clean(EMPTY_BATCH) == map[] && Unclean(EMPTY_BATCH) == map[];
    hide Found, FoundPartly, Clean, Unclean;
    FoundJoin(asked, [answer]);
    FoundOne(answer);
    PlusNothing(Found(asked));
    PlusNothing(FoundPartly(asked));
  }

  lemma PlusNothing<T>(m: map<string, T>)
    ensures m + map[] == m
  {
  }

  lemma RecoveredIdle(
    values: seq<PullRequest>, asked: seq<Answer>, successes: map<string, PullRequest>,
    partials: map<string, PullRequest>, answer: Answer)
    requires Recovered(values, asked, successes, partials) && answer.batch == EMPTY_BATCH
    ensures Recovered(values, asked + [answer], successes, partials)
  {
    hide Found, FoundPartly, AllRefresh, AllFresh;
    EmptyAddsNothing(asked, answer);
  }

  /** A credential that fetched nothing changes nothing. */
  lemma ProgressIdle(
    values: seq<PullRequest>, start: nat, asked: seq<Answer>, result: SyncResult, answer: Answer)
    requires Progress(values, start, asked, result) && answer.batch == EMPTY_BATCH
    ensures Progress(values, start, asked + [answer], result)
  {
    hide Recovered;
    RecoveredIdle(values, asked, result.successes, result.partials, answer);
  }

  /** The failures an attempt adds have causes if those before have. */
  lemma AttemptIsCaused(
    world: World, host: string, values: seq<PullRequest>, start: nat, asked: seq<Answer>, result: SyncResult,
    asked': seq<Answer>, attempt: Attempt)
    requires DistinctTasks(values) && start <= |values|
    requires |asked'| == 1 && Genuine(world, asked'[0]) && asked'[0].values == values[start..]
    requires Caused(world, host, values, asked, result.failures)
    requires attempt.failures.Keys <= TaskIds(values[start..])
    requires AllExplained(
               world, asked'[0].first, asked'[0].past, values[start..], asked'[0].batch.errors, attempt.failures)
    ensures Caused(world, host, values, asked + asked', MergeAttempt(result, attempt).failures)
  {
    hide Caused, Explained, DistinctTasks, Genuine;
    CausedMore(world, host, values, asked, result.failures, asked');
    CausedByErrors(world, host, values, values[start..], asked'[0], attempt.failures);
    assert asked' == [asked'[0]];
    LaterCaused(world, host, values, asked', attempt.failures, asked);
    CausedTogether(world, host, values, asked + asked', result.failures, attempt.failures);
  }

  /** An attempt on what remains is progress, and the failures it adds have causes. */
  lemma AttemptGoesOn(
    world: World, host: string, values: seq<PullRequest>, start: nat, asked: seq<Answer>, result: SyncResult,
    asked': seq<Answer>, attempt: Attempt)
    requires DistinctTasks(values) && Progress(values, start, asked, result)
    requires |asked'| == 1 && Genuine(world, asked'[0]) && asked'[0].values == values[start..]
    requires Caused(world, host, values, asked, result.failures) && Attempted(values[start..], asked', attempt)
    requires AllExplained(
               world, asked'[0].first, asked'[0].past, values[start..], asked'[0].batch.errors, attempt.failures)
    ensures var next := MergeAttempt(result, attempt);
            Progress(values, start + EndOf(values[start..], attempt), asked + asked', next)
            && Caused(world, host, values, asked + asked', next.failures)
  {
    hide Caused, Genuine, AllExplained, DistinctTasks, Recovered;
    AttemptEnds(values[start..], asked', attempt);
    AttemptIsCaused(world, host, values, start, asked, result, asked', attempt);
    ProgressStep(values, start, asked, result, asked', attempt);
  }

  lemma NothingIsCaused(world: World, host: string, values: seq<PullRequest>)
    ensures Caused(world, host, values, [], map[])
  {
  }

  lemma NothingToExplain(
    world: World, first: nat, past: nat, values: seq<PullRequest>, errors: map<string, Failure>)
    ensures AllExplained(world, first, past, values, errors, map[])
  {
  }

  lemma LaterCaused(
    world: World, host: string, values: seq<PullRequest>, asked: seq<Answer>, failures: map<string, Failure>,
    before: seq<Answer>)
    requires Caused(world, host, values, asked, failures)
    ensures Caused(world, host, values, before + asked, failures)
  {
    hide Genuine, Explained;
  }

  lemma ProgressEnds(values: seq<PullRequest>, asked: seq<Answer>, result: SyncResult)
    requires Progress(values, |values|, asked, result)
    ensures Concluded(values, asked, result)
  {
  }

  /** Failing what remains concludes the repository. */
  lemma ProgressFails(
    values: seq<PullRequest>, start: nat, asked: seq<Answer>, result: SyncResult, failures: map<string, Failure>)
    requires Progress(values, start, asked, result) && NoFallback(failures)
    requires result.failures.Keys + TaskIds(values[start..]) <= failures.Keys <= TaskIds(values)
    ensures Concluded(values, asked, result.(failures := failures))
  {
    assert values == values[..start] + values[start..];
    assert TaskIds(values) == TaskIds(values[..start]) + TaskIds(values[start..]);
  }

  /** After some first attempts, the first i credentials have been tried in their order. */
  ghost predicate OrderedUpTo(candidates: seq<Candidate>, i: nat, first: seq<Answer>, asked: seq<Answer>) {
    i <= |candidates| && CandidatesOf(asked) == CandidatesOf(first) + candidates[..i]
  }

  lemma OrderGoesOn(
    candidates: seq<Candidate>, i: nat, first: seq<Answer>, asked: seq<Answer>, work: seq<PullRequest>,
    more: seq<Answer>)
    requires i < |candidates| && AskedOnce(candidates[i], work, more)
    requires OrderedUpTo(candidates, i, first, asked)
    ensures OrderedUpTo(candidates, i + 1, first, asked + more)
  {
  }

  lemma OrderIsPrefix(candidates: seq<Candidate>, i: nat, asked: seq<Answer>)
    requires OrderedUpTo(candidates, i, [], asked)
    ensures CandidatesOf(asked) <= candidates
  {
    assert CandidatesOf([]) + candidates[..i] == candidates[..i];
  }

  lemma NothingTried(world: World, candidates: seq<Candidate>, work: seq<PullRequest>)
    ensures OrderedUpTo(candidates, 0, [], []) && AllTried(world, candidates[..0], [], work)
  {
  }

  /** The attempt as a whole ended unauthorized, and no pull request ended it before. */
  ghost predicate EndsUnauthorized(a: Answer) {
    a.failure.Some? && a.failure.value.kind.Unauthorized? && NoFallback(a.batch.errors)
  }

  lemma FailureHalts(world: World, a: Answer)
    ensures a.failure.Some? ==> Halted(world, a, a.failure.value)
  {
  }

  lemma NoTrace(world: World, first: nat, known: Credentials)
    ensures Trace(world, first, known, [], first, known)
  {
  }

  lemma TraceTimes(
    world: World, first: nat, known: Credentials, asked: seq<Answer>, past: nat, known': Credentials)
    requires Trace(world, first, known, asked, past, known')
    ensures first <= past
  {
    hide Genuine, TraceStep;
    TraceIsGenuine(world, first, known, asked, past, known');
  }

  /** The records of the result refresh what was selected. */
  ghost predicate KeepsIdentity(selected: seq<PullRequest>, result: SyncResult) {
    AllRefresh(selected, result.successes) && AllRefresh(selected, result.partials)
  }

  /** Nothing is stored but records about what was selected, each of the same pull request of the same task. */
  ghost predicate OnlyAbout(selected: seq<PullRequest>, stored: seq<PullRequest>) {
    forall r :: r in stored ==> Refreshes(selected, r.taskId, r)
  }

  lemma NothingIsAbout(selected: seq<PullRequest>)
    ensures OnlyAbout(selected, [])
  {
  }

  lemma GroupIsSelected(
    selected: seq<PullRequest>, groups: map<RepositoryKey, seq<PullRequest>>, key: RepositoryKey)
    requires Grouped(selected, groups) && key in groups
    ensures forall v :: v in groups[key] ==> v in selected
  {
  }

  lemma OnlyAboutBoth(selected: seq<PullRequest>, a: seq<PullRequest>, b: seq<PullRequest>)
    requires OnlyAbout(selected, a) && OnlyAbout(selected, b)
    ensures OnlyAbout(selected, a + b)
  {
  }

  lemma StoredIsAbout(
    selected: seq<PullRequest>, values: seq<PullRequest>, result: SyncResult, stored: seq<PullRequest>)
    requires StoredPrefix(values, result, stored) && KeepsIdentity(selected, result)
    requires forall v :: v in values ==> v in selected
    ensures OnlyAbout(selected, stored)
  {
    hide KeepsIdentity;
    forall r | r in stored
      ensures Refreshes(selected, r.taskId, r)
    {
      var i :| 0 <= i < |stored| && stored[i] == r;
      RecordIsAbout(selected, values[i], result, r);
    }
  }

  lemma RecordIsAbout(selected: seq<PullRequest>, v: PullRequest, result: SyncResult, r: PullRequest)
    requires StoredFor(v, result, r) && KeepsIdentity(selected, result) && v in selected
    ensures Refreshes(selected, r.taskId, r)
  {
    if v.taskId in result.successes {
      assert Refreshes(selected, v.taskId, r);
    } else if v.taskId in result.partials {
      assert Refreshes(selected, v.taskId, result.partials[v.taskId]);
    } else {
      assert SameIdentity(v, r);
    }
  }

  lemma ConcludedIsFresh(
    selected: seq<PullRequest>, values: seq<PullRequest>, asked: seq<Answer>, result: SyncResult)
    requires Concluded(values, asked, result) && forall v :: v in values ==> v in selected
    ensures AllFresh(result.successes) && KeepsIdentity(selected, result)
  {
    hide Found, FoundPartly, SameIdentity;
  }

  lemma NotOpenedIsStraight(world: World, a: Answer)
    requires NotOpened(world, a)
    ensures Straight(world, a)
  {
  }

  lemma NotOpenedIsProbed(world: World, a: Answer)
    requires NotOpened(world, a)
    ensures ProbedFirst(world, a)
  {
  }

  lemma NotSeenIsGenuine(world: World, a: Answer, f: Failure)
    requires OpenOutcome(world, a.first, a.candidate, a.before).None? && a.values != [] && a.past == a.first + 2
    requires world.probe(a.first + 1, a.values[0].owner, a.values[0].repository) == Some(f)
    requires a == NotFetched(a.candidate, a.values, a.first, a.past, a.before, f)
    ensures Genuine(world, a) && ProbedFirst(world, a)
  {
    hide OpenOutcome;
  }

  lemma FetchFollows(world: World, a: Answer, probe: bool)
    requires OpenOutcome(world, a.first, a.candidate, a.before).None?
    requires FetchedSince(world, a, if probe then a.first + 2 else a.first + 1)
    requires probe && a.values != [] ==>
               world.probe(a.first + 1, a.values[0].owner, a.values[0].repository).None?
    ensures if probe then ProbedFirst(world, a) else Straight(world, a)
  {
    hide OpenOutcome, FetchedSince;
  }

  lemma FetchedIsGenuine(world: World, a: Answer, calls: Calls)
    requires OpenOutcome(world, a.first, a.candidate, a.before).None? && a.fetched
    requires calls.transport == world.transport && calls.first == a.first + 1 && calls.past == a.past
    requires calls.first <= calls.past && FetchedFrom(calls, a.values, a.batch, a.failure)
    ensures WasFetched(world, a) && Straight(world, a)
  {
    hide FetchedFrom, OpenOutcome;
    assert calls == Calls(world.transport, a.first + 1, a.past);
  }

  lemma UnmarkedTrace(world: World, first: nat, a: Answer, past: nat, known: Credentials)
    requires Genuine(world, a) && first <= a.first && a.past <= past && known == Opened(world, a)
    ensures Trace(world, first, a.before, [a], past, known)
  {
    hide Genuine, Opened;
    TraceOne(world, first, a, past, known);
  }

  lemma MarkedTrace(world: World, first: nat, a: Answer, f: Failure, past: nat, known: Credentials)
    requires Genuine(world, a) && first <= a.first && a.past <= past && Halted(world, a, f)
    requires known == if f.kind.Unauthorized? then
                        Opened(world, a).(unauthorized := a.before.unauthorized + {a.candidate.id})
                      else Opened(world, a)
    ensures Trace(world, first, a.before, [a], past, known)
  {
    hide Genuine, Halted;
    assert f.kind.Unauthorized? ==> IsRefused(world, a);
    TraceOne(world, first, a, past, known);
  }

  lemma OneRepositoryTail(values: seq<PullRequest>, start: nat)
    requires OneRepository(values) && start <= |values|
    ensures OneRepository(values[start..])
  {
  }

  /** After some first attempts, the first i credentials have been tried for the work. */
  ghost predicate RoundsSoFar(
    world: World, candidates: seq<Candidate>, i: nat, first: seq<Answer>, asked: seq<Answer>,
    work: seq<PullRequest>)
  {
    && OrderedUpTo(candidates, i, first, asked)
    && AllTried(world, candidates[..i], asked, work)
  }

  lemma RoundsStart(world: World, candidates: seq<Candidate>, first: seq<Answer>, work: seq<PullRequest>)
    ensures RoundsSoFar(world, candidates, 0, first, first, work)
  {
  }

  /** One more attempt uses the credentials as it should. */
  lemma UsesOneMore(
    world: World, candidates: seq<Candidate>, i: nat, values: seq<PullRequest>, start: nat, first: seq<Answer>,
    asked: seq<Answer>, more: seq<Answer>)
    requires i < |candidates| && start <= |values| && RoundsSoFar(world, candidates, i, first, asked, values[start..])
    requires UsesCredentials(world, candidates, CandidatesOf(first), values, asked)
    requires AskedOnce(candidates[i], values[start..], more) && ProbedFirst(world, more[0])
    ensures UsesCredentials(world, candidates, CandidatesOf(first), values, asked + more)
  {
    hide AllTried, Straight, ProbedFirst;
    OrderGoesOn(candidates, i, first, asked, values[start..], more);
    AsksMore(values, asked, start, candidates[i], more);
  }

  lemma NextRound(
    world: World, candidates: seq<Candidate>, i: nat, first: seq<Answer>, asked: seq<Answer>,
    work: seq<PullRequest>, more: seq<Answer>, work': seq<PullRequest>)
    requires i < |candidates| && RoundsSoFar(world, candidates, i, first, asked, work)
    requires AskedOnce(candidates[i], work, more) && Tried(world, more, candidates[i], work')
    requires forall v :: v in work' ==> v in work
    ensures RoundsSoFar(world, candidates, i + 1, first, asked + more, work')
  {
    OrderGoesOn(candidates, i, first, asked, work, more);
    hide Tried;
    OneMoreTried(world, candidates, i, asked, work, more, work');
  }

  lemma RoundsEnd(
    world: World, candidates: seq<Candidate>, first: seq<Answer>, asked: seq<Answer>, work: seq<PullRequest>)
    requires RoundsSoFar(world, candidates, |candidates|, first, asked, work)
    ensures AllTried(world, candidates, asked, work)
  {
    hide Tried;
    assert candidates[..|candidates|] == candidates;
  }

  /** The credentials that were tried for the work were tried for what is left of it. */
  lemma OneMoreTried(
    world: World, candidates: seq<Candidate>, i: nat, asked: seq<Answer>, work: seq<PullRequest>,
    more: seq<Answer>, next: seq<PullRequest>)
    requires i < |candidates| && AllTried(world, candidates[..i], asked, work)
    requires Tried(world, more, candidates[i], next) && forall v :: v in next ==> v in work
    ensures AllTried(world, candidates[..i + 1], asked + more, next)
  {
    hide Tried;
    AllTriedMore(world, candidates[..i], asked, work, asked + more, next);
    TriedMore(world, more, candidates[i], next, asked + more, next);
    assert candidates[..i + 1] == candidates[..i] + [candidates[i]];
  }

  lemma NothingUsed(world: World, candidates: seq<Candidate>, values: seq<PullRequest>)
    ensures UsesCredentials(world, candidates, [], values, []) && Remembers(candidates, [], "")
  {
  }

  lemma NothingRemembered(candidates: seq<Candidate>, asked: seq<Answer>)
    ensures Remembers(candidates, asked, "")
  {
  }

  lemma OneUsed(
    world: World, candidates: seq<Candidate>, candidate: Candidate, values: seq<PullRequest>, asked: seq<Answer>,
    authId: string)
    requires candidate in candidates && AskedOnce(candidate, values, asked) && Straight(world, asked[0])
    requires authId != "" ==> authId == candidate.id && asked[0].failure.None?
    ensures CandidatesOf(asked) == [candidate] && UsesCredentials(world, candidates, [candidate], values, asked)
    ensures Remembers(candidates, asked, authId)
  {
    hide Straight;
    assert values[0..] == values;
  }

  lemma RememberLast(
    candidates: seq<Candidate>, i: nat, before: seq<Answer>, work: seq<PullRequest>, next: seq<Answer>,
    authId: string)
    requires i < |candidates| && AskedOnce(candidates[i], work, next)
    requires authId != "" ==> authId == candidates[i].id && next[0].failure.None?
    ensures Remembers(candidates, before + next, authId)
  {
  }

  lemma AsksMore(
    values: seq<PullRequest>, asked: seq<Answer>, start: nat, candidate: Candidate, more: seq<Answer>)
    requires AsksSuffixes(values, asked) && start <= |values| && AskedOnce(candidate, values[start..], more)
    ensures AsksSuffixes(values, asked + more)
  {
  }

  lemma DistinctTail(values: seq<PullRequest>, start: nat)
    requires DistinctTasks(values) && start <= |values|
    ensures DistinctTasks(values[start..])
  {
  }

  /** An error that no other credential can cure is the outcome of everything from the failed position on. */
  method FailRemaining(
    result: SyncResult, work: seq<PullRequest>, failedAt: int, failure: Failure, ghost world: World,
    ghost host: string, ghost values: seq<PullRequest>, ghost start: nat, ghost asked: seq<Answer>)
    returns (result': SyncResult)
    requires Progress(values, start, asked, result) && !IsFallback(failure.kind) && DistinctTasks(values)
    requires Remaining(work, failedAt) == values[start..]
    requires Caused(world, host, values, asked, result.failures) && Stopped(world, asked, failure, values[start..])
    ensures Caused(world, host, values, asked, result'.failures)
    ensures Concluded(values, asked, result') && result'.authId == result.authId
    ensures forall id :: id in TaskIds(values[start..]) ==> id in result'.failures && result'.failures[id] == failure
  {
    hide Caused, Stopped, DistinctTasks;
    var failures := AddRemainingFailures(result.failures, work, failedAt, failure);
    CausedByStop(world, host, values, values[start..], asked, failure, result.failures, failures);
    ProgressFails(values, start, asked, result, failures);
    result' := result.(failures := failures);
  }

  /**
    mergeCandidateAttempt, and what follows from it: the attempt concludes the values, fails the rest for good, or
    leaves a suffix for the next credential.
   */
  method TakeAttempt(
    result: SyncResult, attempt: Attempt, candidate: Candidate, work: seq<PullRequest>, ghost world: World,
    ghost host: string, ghost values: seq<PullRequest>, ghost start: nat, ghost asked: seq<Answer>,
    ghost asked': seq<Answer>)
    returns (result': SyncResult, work': seq<PullRequest>, stop: bool, ghost start': nat)
    requires DistinctTasks(values) && Progress(values, start, asked, result) && result.authId == ""
    requires start <= |values| && work == values[start..] && Attempted(work, asked', attempt)
    requires AskedOnce(candidate, work, asked') && Genuine(world, asked'[0])
    requires AllExplained(world, asked'[0].first, asked'[0].past, work, asked'[0].batch.errors, attempt.failures)
    requires Caused(world, host, values, asked, result.failures)
    requires attempt.err.None? ==> asked'[0].failure.None?
    requires attempt.err.Some? && !IsFallback(attempt.err.value.kind) ==> asked'[0].failure == attempt.err
    ensures stop <==> attempt.err.None? || !IsFallback(attempt.err.value.kind)
    ensures stop ==> Concluded(values, asked + asked', result')
    ensures !stop ==> start' <= |values| && work' == values[start'..] && result'.authId == ""
    ensures !stop ==> Progress(values, start', asked + asked', result')
    ensures !stop ==> Tried(world, asked', candidate, work') && forall v :: v in work' ==> v in work
    ensures Caused(world, host, values, asked + asked', result'.failures)
    ensures start' <= |values|
    ensures result'.authId != "" ==> result'.authId == candidate.id && asked'[0].failure.None?
  {
    hide Caused, Genuine, AllExplained, DistinctTasks, Progress, Attempted, Tried, Stopped;
    result' := MergeAttempt(result, attempt);
    AttemptEnds(work, asked', attempt);
    AttemptGoesOn(world, host, values, start, asked, result, asked', attempt);
    start' := start + EndOf(work, attempt);
    work', stop := [], true;
    if attempt.err.None? {
      ProgressEnds(values, asked + asked', result');
      result' := result'.(authId := candidate.id);
      return;
    }
    assert values[start..][attempt.failedAt..] == values[start'..];
    AskedOnceTries(world, asked, candidate, work, asked', values[start'..]);
    stop := !IsFallback(attempt.err.value.kind);
    if stop {
      result' := FailRemaining(
        result', work, attempt.failedAt, attempt.err.value, world, host, values, start', asked + asked');
    } else {
      work' := WorkAfterFailure(work, attempt.failedAt);
    }
  }

  method GiveUp(
    result: SyncResult, work: seq<PullRequest>, host: string, ghost world: World, ghost values: seq<PullRequest>,
    ghost start: nat, ghost asked: seq<Answer>)
    returns (result': SyncResult)
    requires Progress(values, start, asked, result) && work == values[start..] && DistinctTasks(values)
    requires Caused(world, host, values, asked, result.failures)
    requires work == [] || AllTried(world, world.candidates(host), asked, work)
    ensures Concluded(values, asked, result') && result'.authId == result.authId
    ensures Caused(world, host, values, asked, result'.failures)
  {
    hide Caused, AllTried, DistinctTasks;
    var failures := AddUnavailableFailures(result.failures, work, host);
    CausedByGivingUp(world, host, values, work, asked, result.failures, failures);
    ProgressFails(values, start, asked, result, failures);
    result' := result.(failures := failures);
  }

  method GiveUpAtOnce(values: seq<PullRequest>, failure: Failure) returns (result: SyncResult)
    requires !IsFallback(failure.kind)
    ensures Concluded(values, [], result) && result.authId == ""
    ensures forall id :: id in result.failures ==> result.failures[id] == failure
  {
    var failures := FailAll(map[], values, failure);
    ProgressStarts(values);
    ProgressFails(values, 0, [], EMPTY_RESULT, failures);
    result := EMPTY_RESULT.(failures := failures);
  }

  // ----- storing -----

  /** The values come before those not stored yet, each with the record that belongs to it. */
  ghost predicate StoredPrefix(values: seq<PullRequest>, result: SyncResult, stored: seq<PullRequest>) {
    && |stored| <= |values|
    && (forall i {:trigger StoredFor(values[i], result, stored[i])} ::
          0 <= i < |stored| ==> StoredFor(values[i], result, stored[i]))
  }

  lemma NothingStored(selected: seq<PullRequest>, result: SyncResult)
    ensures CountedAs([], 0, 0) && StoredPrefix([], result, []) && Flatten(selected, []) == []
  {
  }

  lemma CountOne(stored: seq<PullRequest>, record: PullRequest, succeeded: nat, failed: nat)
    requires CountedAs(stored, succeeded, failed)
    ensures CountedAs(stored + [record], succeeded + (if IsRefreshedNow(record) then 1 else 0),
              failed + if NeedsAttention(record) then 1 else 0)
  {
    assert [record][1..] == [];
    CountJoin(IsRefreshedNow, stored, [record]);
    CountJoin(NeedsAttention, stored, [record]);
  }

  lemma StoredTogether(
    values: seq<PullRequest>, result: SyncResult, stored: seq<PullRequest>,
    values': seq<PullRequest>, stored': seq<PullRequest>)
    requires StoredPrefix(values, result, stored) && |stored| == |values|
    requires StoredPrefix(values', result, stored')
    ensures StoredPrefix(values + values', result, stored + stored')
  {
  }

  lemma AllStoredSettles(
    world: World, host: string, values: seq<PullRequest>, asked: seq<Answer>, result: SyncResult,
    stored: seq<PullRequest>)
    requires Concluded(values, asked, result) && DistinctTasks(values)
    requires Caused(world, host, values, asked, result.failures)
    requires forall v :: v in values ==> GroupKey(v).host == host
    requires StoredPrefix(values, result, stored) && |stored| == |values|
    ensures Settled(world, values, asked, stored)
  {
    hide Caused, GivesReason, GroupKey, DistinctTasks;
    forall i | 0 <= i < |values| && values[i].taskId !in Found(asked)
      ensures GivesReason(world, asked, values[i], stored[i])
    {
      assert StoredFor(values[i], result, stored[i]);
      StoredReports(world, host, values, asked, result, values[i], stored[i]);
    }
    forall i | 0 <= i < |values|
      ensures SettledOne(values[i], Found(asked), stored[i])
    {
      assert StoredFor(values[i], result, stored[i]);
      StoredSettles(values, asked, result, values[i], stored[i]);
    }
  }

  // ----- the groups -----

  /** The selected values by repository: no group is empty and none is missing. */
  ghost predicate Grouped(selected: seq<PullRequest>, groups: map<RepositoryKey, seq<PullRequest>>) {
    && (forall key :: key in groups ==> groups[key] == OfKey(selected, key) && groups[key] != [])
    && (forall v :: v in selected ==> GroupKey(v) in groups)
  }

  lemma GroupsAre(groups: map<RepositoryKey, seq<PullRequest>>, selected: seq<PullRequest>)
    requires Grouped(selected, groups)
    ensures forall key :: key in groups ==> groups[key] == OfKey(selected, key)
  {
  }

  lemma OfKeyNext(selected: seq<PullRequest>, v: PullRequest, key: RepositoryKey)
    ensures OfKey(selected + [v], key) == OfKey(selected, key) + if GroupKey(v) == key then [v] else []
  {
  }

  lemma {:induction false} OfKeyNone(selected: seq<PullRequest>, key: RepositoryKey)
    requires forall v :: v in selected ==> GroupKey(v) != key
    ensures OfKey(selected, key) == []
  {
    if selected != [] {
      OfKeyNone(selected[..|selected| - 1], key);
    }
  }

  /** Groups grow value by value. */
  method AddToGroup(
    groups: map<RepositoryKey, seq<PullRequest>>, v: PullRequest, ghost selected: seq<PullRequest>)
    returns (groups': map<RepositoryKey, seq<PullRequest>>)
    requires Grouped(selected, groups)
    ensures Grouped(selected + [v], groups')
  {
    var key := GroupKey(v);
    groups' := groups[key := (if key in groups then groups[key] else []) + [v]];
    forall k | k in groups'
      ensures groups'[k] == OfKey(selected + [v], k) && groups'[k] != []
    {
      OfKeyNext(selected, v, k);
      if k == key && key !in groups {
        OfKeyNone(selected, key);
      }
    }
  }

  /** The values of the given repositories, one repository after the other. */
  method JoinGroups(
    keys: seq<RepositoryKey>, groups: map<RepositoryKey, seq<PullRequest>>, ghost selected: seq<PullRequest>)
    returns (work: seq<PullRequest>)
    requires Grouped(selected, groups) && forall k :: k in keys ==> k in groups
    ensures work == Flatten(selected, keys)
  {
    work := [];
    for i := 0 to |keys|
      invariant work == Flatten(selected, keys[..i])
    {
      FlattenNext(selected, keys, i);
      work := work + groups[keys[i]];
    }
    assert keys[..|keys|] == keys;
  }

  function OfHost(keys: seq<RepositoryKey>, host: string): (r: seq<RepositoryKey>)
    ensures forall k :: k in r <==> k in keys && k.host == host
  {
    if keys == [] then []
    else
      OfHost(keys[..|keys| - 1], host)
      + (if keys[|keys| - 1].host == host then [keys[|keys| - 1]] else [])
  }

  ghost predicate OneHost(keys: seq<RepositoryKey>) {
    forall a, b :: a in keys && b in keys ==> a.host == b.host
  }

  lemma {:induction false} FlattenMembers(selected: seq<PullRequest>, keys: seq<RepositoryKey>)
    ensures forall v :: v in Flatten(selected, keys) ==> GroupKey(v) in keys && v in selected
  {
    if keys != [] {
      FlattenMembers(selected, keys[1..]);
    }
  }

  lemma FlattenHost(selected: seq<PullRequest>, keys: seq<RepositoryKey>)
    requires keys != [] && OneHost(keys)
    ensures forall v :: v in Flatten(selected, keys) ==> GroupKey(v).host == keys[0].host
  {
  }

  method GroupSelected(
    pullRequests: seq<PullRequest>, taskFeature: map<string, string>, featureId: string, taskId: string)
    returns (groups: map<RepositoryKey, seq<PullRequest>>)
    ensures Grouped(Selected(pullRequests, taskFeature, featureId, taskId), groups)
  {
    groups := map[];
    ghost var selected := [];
    for i := 0 to |pullRequests|
      invariant selected == Selected(pullRequests[..i], taskFeature, featureId, taskId)
      invariant Grouped(selected, groups)
    {
      SelectedNext(pullRequests, i, taskFeature, featureId, taskId);
      if IsSelected(pullRequests[i], taskFeature, featureId, taskId) {
        groups := AddToGroup(groups, pullRequests[i], selected);
        selected := selected + [pullRequests[i]];
      }
    }
    assert pullRequests[..|pullRequests|] == pullRequests;
  }

  /** groupPullRequests: the selected values by repository, and the repositories in order. */
  method GroupPullRequests(
    pullRequests: seq<PullRequest>, taskFeature: map<string, string>, featureId: string, taskId: string)
    returns (groups: map<RepositoryKey, seq<PullRequest>>, keys: seq<RepositoryKey>)
    ensures Grouped(Selected(pullRequests, taskFeature, featureId, taskId), groups)
    ensures Distinct(keys) && AscendingBy(KeyBelow, keys) && Range(keys) == groups.Keys
  {
    groups := GroupSelected(pullRequests, taskFeature, featureId, taskId);
    keys := SortedKeys(groups.Keys);
  }

  lemma SortedKeysKeep(listed: seq<RepositoryKey>)
    requires Distinct(listed)
    ensures Distinct(SortedBy(KeyBelow, listed)) && AscendingBy(KeyBelow, SortedBy(KeyBelow, listed))
    ensures Range(SortedBy(KeyBelow, listed)) == Range(listed)
  {
    KeyBelowIsOrdering();
    SortedByAscending(KeyBelow, listed);
    MultisetOfDistinct(listed);
    DistinctByMultiset(SortedBy(KeyBelow, listed));
    assert forall k :: k in SortedBy(KeyBelow, listed) <==> k in listed;
  }

  method SortedKeys(found: set<RepositoryKey>) returns (keys: seq<RepositoryKey>)
    ensures Distinct(keys) && AscendingBy(KeyBelow, keys) && Range(keys) == found
  {
    var listed: seq<RepositoryKey> := [];
    var remaining := found;
    while remaining != {}
      invariant remaining <= found && Distinct(listed) && Range(listed) == found - remaining
      decreases |remaining|
    {
      var key :| key in remaining;
      assert key !in Range(listed);
      assert Range(listed + [key]) == Range(listed) + {key};
      listed := listed + [key];
      remaining := remaining - {key};
    }
    keys := SortedBy(KeyBelow, listed);
    SortedKeysKeep(listed);
  }

  lemma {:induction false} OfHostDistinct(keys: seq<RepositoryKey>, host: string)
    requires Distinct(keys)
    ensures Distinct(OfHost(keys, host))
  {
    if keys != [] {
      OfHostDistinct(keys[..|keys| - 1], host);
    }
  }

  lemma OfHostNext(keys: seq<RepositoryKey>, i: nat)
    requires i < |keys|
    ensures forall h :: OfHost(keys[..i + 1], h)
                     == OfHost(keys[..i], h) + if keys[i].host == h then [keys[i]] else []
  {
    assert keys[..i + 1][..i] == keys[..i];
  }

  lemma {:induction false} OfHostNone(keys: seq<RepositoryKey>, host: string)
    requires forall k :: k in keys ==> k.host != host
    ensures OfHost(keys, host) == []
  {
    if keys != [] {
      OfHostNone(keys[..|keys| - 1], host);
    }
  }

  /** The keys of syncUncachedHostGroups by host, hosts in the order of their first key. */
  method GroupByHost(keys: seq<RepositoryKey>)
    returns (hosts: seq<string>, keysByHost: map<string, seq<RepositoryKey>>)
    ensures Distinct(hosts) && Range(hosts) == keysByHost.Keys
    ensures forall h :: h in keysByHost ==> keysByHost[h] == OfHost(keys, h) && keysByHost[h] != []
    ensures forall k :: k in keys ==> k.host in keysByHost
  {
    hide OfHost;
    hosts, keysByHost := [], map[];
    for i := 0 to |keys|
      invariant Distinct(hosts) && Range(hosts) == keysByHost.Keys
      invariant forall h :: h in keysByHost ==> keysByHost[h] == OfHost(keys[..i], h) && keysByHost[h] != []
      invariant forall k :: k in keys[..i] ==> k.host in keysByHost
    {
      var key := keys[i];
      OfHostNext(keys, i);
      if key.host !in keysByHost {
        assert key.host !in Range(hosts);
        assert Range(hosts + [key.host]) == Range(hosts) + {key.host};
        OfHostNone(keys[..i], key.host);
        hosts := hosts + [key.host];
      }
      keysByHost := keysByHost[key.host :=
        (if key.host in keysByHost then keysByHost[key.host] else []) + [key]];
    }
    assert keys[..|keys|] == keys;
  }

  /** A credential is remembered for one of the repositories, or the cache cannot tell. */
  ghost predicate KnowsCredential(world: World, tick: nat, keys: seq<RepositoryKey>) {
    world.hasCache && exists i :: 0 <= i < |keys| && !world.cached(tick + i, keys[i]).NotCached?
  }

  /** The repositories of one host are taken as a batch: there are two or more, and no credential was known at t. */
  ghost predicate BatchedAt(world: World, t: nat, own: seq<RepositoryKey>, processed: set<RepositoryKey>) {
    forall k :: k in own ==> (k in processed <==> 2 <= |own| && !KnowsCredential(world, t, own))
  }

  /** That was decided at a call between from and to. */
  ghost predicate Decided(
    world: World, from: nat, to: nat, own: seq<RepositoryKey>, processed: set<RepositoryKey>)
  {
    exists t: nat :: from <= t <= to && BatchedAt(world, t, own, processed)
  }

  ghost predicate HostsDecided(
    world: World, from: nat, to: nat, keys: seq<RepositoryKey>, hosts: seq<string>, processed: set<RepositoryKey>)
  {
    forall h :: h in hosts ==> Decided(world, from, to, OfHost(keys, h), processed)
  }

  lemma NextHostDecided(
    world: World, from: nat, middle: nat, to: nat, keys: seq<RepositoryKey>, hosts: seq<string>, i: nat,
    order: seq<RepositoryKey>, done: seq<RepositoryKey>)
    requires from <= middle <= to && Distinct(hosts) && i < |hosts| && OfHosts(order, hosts[..i])
    requires HostsDecided(world, from, middle, keys, hosts[..i], Range(order))
    requires var own := OfHost(keys, hosts[i]);
             done == if |own| < 2 || KnowsCredential(world, middle, own) then [] else own
    ensures HostsDecided(world, from, to, keys, hosts[..i + 1], Range(order) + Range(done))
  {
    hide OfHost, KnowsCredential;
    var processed := Range(order) + Range(done);
    forall h | h in hosts[..i + 1]
      ensures Decided(world, from, to, OfHost(keys, h), processed)
    {
      if h in hosts[..i] {
        var t: nat :| from <= t <= middle && BatchedAt(world, t, OfHost(keys, h), Range(order));
        assert BatchedAt(world, t, OfHost(keys, h), processed);
      } else {
        assert BatchedAt(world, middle, OfHost(keys, h), processed);
      }
    }
  }

  lemma EveryHostDecided(
    world: World, from: nat, to: nat, keys: seq<RepositoryKey>, hosts: seq<string>, processed: set<RepositoryKey>)
    requires HostsDecided(world, from, to, keys, hosts, processed) && forall k :: k in keys ==> k.host in hosts
    ensures forall k :: k in keys ==> Decided(world, from, to, OfHost(keys, k.host), processed)
  {
  }

  /** A pass over some repositories: every pull request of theirs is settled once, and counted. */
  ghost predicate Passed(
    world: World, selected: seq<PullRequest>, order: seq<RepositoryKey>, asked: seq<Answer>, stored: seq<PullRequest>,
    succeeded: nat, failed: nat)
  {
    Distinct(order) && Settled(world, Flatten(selected, order), asked, stored) && CountedAs(stored, succeeded, failed)
  }

  lemma PassedMore(
    world: World, selected: seq<PullRequest>,
    order: seq<RepositoryKey>, asked: seq<Answer>, stored: seq<PullRequest>, s: nat, f: nat,
    order': seq<RepositoryKey>, asked': seq<Answer>, stored': seq<PullRequest>, s': nat, f': nat)
    requires DistinctTasks(selected) && Distinct(order + order')
    requires Passed(world, selected, order, asked, stored, s, f)
    requires Passed(world, selected, order', asked', stored', s', f')
    ensures Passed(world, selected, order + order', asked + asked', stored + stored', s + s', f + f')
  {
    FlattenJoin(selected, order, order');
    FlattenDistinct(selected, order + order');
    SettledJoin(world, Flatten(selected, order), asked, stored, Flatten(selected, order'), asked', stored');
    CountedTogether(stored, stored', s, f, s', f');
  }

  lemma PassedNothing(world: World, selected: seq<PullRequest>)
    ensures Passed(world, selected, [], [], [], 0, 0) && OfHosts([], [])
  {
  }

  lemma RangeNext(keys: seq<RepositoryKey>, i: nat)
    requires i < |keys| && Distinct(keys)
    ensures Range(keys[..i + 1]) == Range(keys[..i]) + {keys[i]} && keys[i] !in Range(keys[..i])
    ensures Range([keys[i]]) == {keys[i]} && Distinct([keys[i]])
  {
  }

  /** Passing over all repositories settles every selected pull request. */
  lemma EverySelected(
    world: World, selected: seq<PullRequest>, groups: map<RepositoryKey, seq<PullRequest>>, keys: seq<RepositoryKey>,
    asked: seq<Answer>, stored: seq<PullRequest>, succeeded: nat, failed: nat)
    returns (order: seq<PullRequest>)
    requires Grouped(selected, groups) && Distinct(keys) && Range(keys) == groups.Keys
    requires Passed(world, selected, keys, asked, stored, succeeded, failed)
    ensures order == Flatten(selected, keys)
    ensures multiset(order) == multiset(selected) && Settled(world, order, asked, stored)
    ensures CountedAs(stored, succeeded, failed)
    ensures succeeded + failed + Count(IsQuiet, stored) == |selected|
  {
    order := Flatten(selected, keys);
    forall v | v in selected
      ensures GroupKey(v) in keys
    {
      assert GroupKey(v) in Range(keys);
    }
    FlattenIsPermutation(selected, keys);
    assert |multiset(order)| == |multiset(selected)|;
    CountsAddUp(stored);
  }

  ghost predicate OfHosts(order: seq<RepositoryKey>, hosts: seq<string>) {
    forall k :: k in order ==> k.host in hosts
  }

  /** A host that has not been visited adds new repositories. */
  lemma HostIsNew(order: seq<RepositoryKey>, done: seq<RepositoryKey>, hosts: seq<string>, i: nat)
    requires Distinct(hosts) && i < |hosts| && Distinct(order) && Distinct(done)
    requires OfHosts(order, hosts[..i]) && forall k :: k in done ==> k.host == hosts[i]
    ensures Distinct(order + done) && Range(order + done) == Range(order) + Range(done)
    ensures OfHosts(order + done, hosts[..i + 1])
  {
  }

  lemma DistinctTogether(order: seq<RepositoryKey>, order': seq<RepositoryKey>)
    requires Distinct(order) && Distinct(order') && Range(order) !! Range(order')
    ensures Distinct(order + order') && Range(order + order') == Range(order) + Range(order')
  {
    forall i, j | 0 <= i < |order| && 0 <= j < |order'|
      ensures order[i] != order'[j]
    {
      assert order[i] in Range(order) && order'[j] in Range(order');
    }
  }

  // ----- the repositories of one host together -----

  /** The answers for some of the tasks. */
  function Restrict<T>(m: map<string, T>, ids: set<string>): map<string, T> {
    map id | id in m && id in ids :: m[id]
  }

  /** The item error is the outcome: no other credential is asked. */
  predicate IsFinal(batch: Batch, batchErr: Option<Failure>, id: string) {
    if id in batch.errors then !IsFallback(batch.errors[id].kind)
    else id !in batch.pullRequests && batchErr.None?
  }

  function FinalIds(ids: set<string>, batch: Batch, batchErr: Option<Failure>): set<string> {
    set id | id in ids && IsFinal(batch, batchErr, id)
  }

  ghost predicate Added<T>(m: map<string, T>, ids: set<string>, before: map<string, T>, after: map<string, T>) {
    after == before + Restrict(m, ids)
  }

  ghost predicate FailedFor(
    ids: set<string>, batch: Batch, batchErr: Option<Failure>, before: map<string, Failure>,
    after: map<string, Failure>)
  {
    && after.Keys == before.Keys + FinalIds(ids, batch, batchErr) && NoFallback(after)
    && (forall id :: id in after ==>
          after[id] == if id in FinalIds(ids, batch, batchErr) then FinalError(id, batch) else before[id])
  }

  /** The values before position i that go to the next credential. */
  ghost predicate LeftOver(
    work: seq<PullRequest>, i: nat, batch: Batch, batchErr: Option<Failure>, next: seq<PullRequest>)
  {
    && i <= |work| && DistinctTasks(next) && (forall v :: v in next ==> v in work[..i])
    && TaskIds(next) == TaskIds(work[..i]) - Clean(batch).Keys - FinalIds(TaskIds(work[..i]), batch, batchErr)
  }

  /** What has become of the values before position i: refreshed, failed for good, or left for the next credential. */
  ghost predicate Taken(
    work: seq<PullRequest>, i: nat, batch: Batch, batchErr: Option<Failure>, result0: SyncResult,
    result: SyncResult, next: seq<PullRequest>)
  {
    && i <= |work|
    && Added(Clean(batch), TaskIds(work[..i]), result0.successes, result.successes)
    && Added(Unclean(batch), TaskIds(work[..i]), result0.partials, result.partials)
    && FailedFor(TaskIds(work[..i]), batch, batchErr, result0.failures, result.failures)
    && LeftOver(work, i, batch, batchErr, next)
  }

  lemma TaskIdsNext(work: seq<PullRequest>, i: nat)
    requires i < |work|
    ensures TaskIds(work[..i + 1]) == TaskIds(work[..i]) + {work[i].taskId}
  {
  }

  lemma AddedNext<T>(
    m: map<string, T>, ids: set<string>, before: map<string, T>, after: map<string, T>, id: string)
    requires Added(m, ids, before, after)
    ensures Added(m, ids + {id}, before, if id in m then after[id := m[id]] else after)
  {
  }

  lemma FinalNext(ids: set<string>, batch: Batch, batchErr: Option<Failure>, id: string)
    ensures FinalIds(ids + {id}, batch, batchErr)
         == FinalIds(ids, batch, batchErr) + (if IsFinal(batch, batchErr, id) then {id} else {})
  {
  }

  lemma FailedNext(
    ids: set<string>, batch: Batch, batchErr: Option<Failure>, before: map<string, Failure>,
    after: map<string, Failure>, id: string)
    requires FailedFor(ids, batch, batchErr, before, after)
    ensures FailedFor(ids + {id}, batch, batchErr, before,
              if IsFinal(batch, batchErr, id) then after[id := FinalError(id, batch)] else after)
  {
  }

  lemma LeftNext(
    work: seq<PullRequest>, i: nat, batch: Batch, batchErr: Option<Failure>, next: seq<PullRequest>)
    requires LeftOver(work, i, batch, batchErr, next) && i < |work| && DistinctTasks(work)
    ensures LeftOver(work, i + 1, batch, batchErr,
              if work[i].taskId in Clean(batch) || IsFinal(batch, batchErr, work[i].taskId) then next
              else next + [work[i]])
  {
    TaskIdsNext(work, i);
    FinalNext(TaskIds(work[..i]), batch, batchErr, work[i].taskId);
    assert work[i].taskId !in TaskIds(work[..i]);
    assert TaskIds(next + [work[i]]) == TaskIds(next) + {work[i].taskId};
    assert forall v :: v in work[..i] ==> v in work[..i + 1];
  }

  lemma TakenStarts(work: seq<PullRequest>, batch: Batch, batchErr: Option<Failure>, result: SyncResult)
    requires NoFallback(result.failures)
    ensures Taken(work, 0, batch, batchErr, result, result, [])
  {
  }

  /** What the batch says of one task, added to the result. */
  function WithOne(result: SyncResult, id: string, batch: Batch, batchErr: Option<Failure>): SyncResult {
    result.(
    successes := if id in Clean(batch) then result.successes[id := Clean(batch)[id]] else result.successes,
    partials := if id in Unclean(batch) then result.partials[id := Unclean(batch)[id]] else result.partials,
    failures := if IsFinal(batch, batchErr, id) then result.failures[id := FinalError(id, batch)]
      else result.failures)
  }

  /** The item error that is recorded when it is final. */
  function FinalError(id: string, batch: Batch): Failure {
    if id in batch.errors && !IsFallback(batch.errors[id].kind) then batch.errors[id] else NO_RESULT
  }

  /** One more value is taken. */
  lemma TakenNext(
    work: seq<PullRequest>, i: nat, batch: Batch, batchErr: Option<Failure>, result0: SyncResult,
    result: SyncResult, next: seq<PullRequest>)
    requires Taken(work, i, batch, batchErr, result0, result, next)
    requires DistinctTasks(work) && i < |work|
    ensures Taken(work, i + 1, batch, batchErr, result0, WithOne(result, work[i].taskId, batch, batchErr),
              if work[i].taskId in Clean(batch) || IsFinal(batch, batchErr, work[i].taskId) then next
              else next + [work[i]])
  {
    var id, ids := work[i].taskId, TaskIds(work[..i]);
    TaskIdsNext(work, i);
    AddedNext(Clean(batch), ids, result0.successes, result.successes, id);
    AddedNext(Unclean(batch), ids, result0.partials, result.partials, id);
    FailedNext(ids, batch, batchErr, result0.failures, result.failures, id);
    LeftNext(work, i, batch, batchErr, next);
  }

  /** Every value is refreshed, failed for good, or still work; nothing is two of these. */
  ghost predicate HostProgress(
    values: seq<PullRequest>, work: seq<PullRequest>, asked: seq<Answer>, result: SyncResult)
  {
    && Recovered(values, asked, result.successes, result.partials)
    && NoFallback(result.failures)
    && result.successes.Keys !! result.failures.Keys
    && TaskIds(work) !! result.successes.Keys + result.failures.Keys
    && TaskIds(values) == TaskIds(work) + result.successes.Keys + result.failures.Keys
    && DistinctTasks(work) && (forall v :: v in work ==> v in values)
  }

  lemma RestrictAll<T>(m: map<string, T>, ids: set<string>)
    requires m.Keys <= ids
    ensures Restrict(m, ids) == m
  {
  }

  /** A round that went through all of the work. */
  lemma HostStep(
    values: seq<PullRequest>, work: seq<PullRequest>, asked: seq<Answer>, result: SyncResult, answer: Answer,
    done: nat, result': SyncResult, next: seq<PullRequest>)
    requires HostProgress(values, work, asked, result)
    requires Reached(work, answer.batch, done)
    requires Taken(work, |work|, answer.batch, answer.failure, result, result', next)
    ensures HostProgress(values, next, asked + [answer], result')
  {
    var batch := answer.batch;
    assert work[..|work|] == work;
    ReachedRefreshes(work, batch, done);
    FoundOne(answer);
    assert TaskIds(work[..done]) <= TaskIds(work);
    RestrictAll(Clean(batch), TaskIds(work));
    RestrictAll(Unclean(batch), TaskIds(work));
    RecoveredMore(values, asked, result.successes, result.partials, work, [answer], Clean(batch), Unclean(batch));
    HostParts(TaskIds(values), TaskIds(work), result.successes.Keys, result.failures.Keys, Clean(batch).Keys,
      FinalIds(TaskIds(work), batch, answer.failure));
    assert result'.successes.Keys == result.successes.Keys + Clean(batch).Keys;
  }

  lemma SameTask(values: seq<PullRequest>, v: PullRequest, work: seq<PullRequest>)
    requires DistinctTasks(values) && v in values && v.taskId in TaskIds(work)
    requires forall w :: w in work ==> w in values
    ensures v in work
  {
  }

  /** The final errors of a round are causes. */
  lemma HostStepIsCaused(
    world: World, host: string, values: seq<PullRequest>, work: seq<PullRequest>, asked: seq<Answer>,
    result: SyncResult, answer: Answer, done: nat, result': SyncResult, next: seq<PullRequest>)
    requires DistinctTasks(values) && HostProgress(values, work, asked, result)
    requires Genuine(world, answer) && answer.values == work
    requires Reached(work, answer.batch, done) && (answer.failure.None? ==> done == |work|)
    requires Taken(work, |work|, answer.batch, answer.failure, result, result', next)
    requires Caused(world, host, values, asked, result.failures)
    ensures Caused(world, host, values, asked + [answer], result'.failures)
  {
    hide Recovered, DistinctTasks, Cause, Genuine;
    assert work[..|work|] == work;
    ReachedRefreshes(work, answer.batch, done);
    forall v | v in values && v.taskId in result'.failures
      ensures Cause(world, host, asked + [answer], v, result'.failures[v.taskId])
    {
      if v.taskId in FinalIds(TaskIds(work), answer.batch, answer.failure) {
        assert v.taskId in answer.batch.errors;
        SameTask(values, v, work);
        OwnErrorIsCause(world, host, asked, answer, v);
      } else {
        CauseMore(world, host, asked, v, result.failures[v.taskId], asked + [answer]);
      }
    }
  }

  lemma OwnErrorIsCause(world: World, host: string, asked: seq<Answer>, answer: Answer, v: PullRequest)
    requires Genuine(world, answer) && v in answer.values && v.taskId in answer.batch.errors
    requires !answer.batch.errors[v.taskId].kind.NotFound?
    ensures Cause(world, host, asked + [answer], v, answer.batch.errors[v.taskId])
  {
    hide Genuine;
    assert answer in asked + [answer];
  }

  /** A credential that could not be opened changes nothing. */
  lemma HostIdle(
    values: seq<PullRequest>, work: seq<PullRequest>, asked: seq<Answer>, result: SyncResult, answer: Answer)
    requires HostProgress(values, work, asked, result) && answer.batch == EMPTY_BATCH
    ensures HostProgress(values, work, asked + [answer], result)
  {
    hide DistinctTasks, Recovered;
    RecoveredIdle(values, asked, result.successes, result.partials, answer);
  }

  lemma HostWork(values: seq<PullRequest>, work: seq<PullRequest>, asked: seq<Answer>, result: SyncResult)
    requires HostProgress(values, work, asked, result)
    ensures DistinctTasks(work) && NoFallback(result.failures) && forall v :: v in work ==> v in values
  {
  }

  lemma LeftIsWork(
    work: seq<PullRequest>, batch: Batch, batchErr: Option<Failure>, result: SyncResult, result': SyncResult,
    next: seq<PullRequest>)
    requires Taken(work, |work|, batch, batchErr, result, result', next)
    ensures forall v :: v in next ==> v in work
  {
  }

  lemma HostNotOpened(
    world: World, host: string, values: seq<PullRequest>, work: seq<PullRequest>, asked: seq<Answer>,
    result: SyncResult, candidate: Candidate, more: seq<Answer>)
    requires HostProgress(values, work, asked, result) && Caused(world, host, values, asked, result.failures)
    requires AskedOnce(candidate, work, more) && Genuine(world, more[0]) && more[0].batch == EMPTY_BATCH
    ensures HostProgress(values, work, asked + more, result)
    ensures Caused(world, host, values, asked + more, result.failures) && Tried(world, more, candidate, work)
    ensures more[0].failure.Some? ==> Stopped(world, asked + more, more[0].failure.value, work)
  {
    hide HostProgress, Caused, Genuine, Tried, Stopped;
    assert more == [more[0]];
    HostIdle(values, work, asked, result, more[0]);
    CausedMore(world, host, values, asked, result.failures, more);
    AskedOnceTries(world, asked, candidate, work, more, work);
  }

  /** A round with a fetch: everything that is said of the work is taken, and what is left was tried. */
  lemma HostFetched(
    world: World, host: string, values: seq<PullRequest>, work: seq<PullRequest>, asked: seq<Answer>,
    result: SyncResult, candidate: Candidate, more: seq<Answer>, done: nat, result': SyncResult,
    next: seq<PullRequest>)
    requires DistinctTasks(values) && HostProgress(values, work, asked, result)
    requires Caused(world, host, values, asked, result.failures)
    requires AskedOnce(candidate, work, more) && Genuine(world, more[0])
    requires Reached(work, more[0].batch, done) && (more[0].failure.None? ==> done == |work|)
    requires Taken(work, |work|, more[0].batch, more[0].failure, result, result', next)
    ensures HostProgress(values, next, asked + more, result')
    ensures Caused(world, host, values, asked + more, result'.failures)
    ensures Tried(world, more, candidate, next) && forall v :: v in next ==> v in work
    ensures more[0].failure.Some? ==> Stopped(world, asked + more, more[0].failure.value, next)
  {
    hide HostProgress, Caused, Genuine, Tried, Stopped, Reached, Taken, DistinctTasks;
    assert more == [more[0]];
    HostStep(values, work, asked, result, more[0], done, result', next);
    HostStepIsCaused(world, host, values, work, asked, result, more[0], done, result', next);
    LeftIsWork(work, more[0].batch, more[0].failure, result, result', next);
    AskedOnceTries(world, asked, candidate, work, more, next);
  }

  lemma HostStarts(values: seq<PullRequest>)
    requires DistinctTasks(values)
    ensures HostProgress(values, values, [], EMPTY_RESULT)
  {
  }

  lemma HostFails(
    values: seq<PullRequest>, work: seq<PullRequest>, asked: seq<Answer>, result: SyncResult,
    failures: map<string, Failure>)
    requires HostProgress(values, work, asked, result)
    requires failures.Keys == result.failures.Keys + TaskIds(work)
    requires forall id :: id in failures && id in TaskIds(work) ==> !IsFallback(failures[id].kind)
    requires forall id :: id in failures && id !in TaskIds(work) ==> failures[id] == result.failures[id]
    ensures HostProgress(values, [], asked, result.(failures := failures)) && forall v :: v in work ==> v in values
  {
    hide Recovered;
    assert TaskIds([]) == {};
  }

  /** Failing the rest leaves no work. */
  method FailHost(
    result: SyncResult, work: seq<PullRequest>, failure: Failure, ghost world: World, ghost host: string,
    ghost values: seq<PullRequest>, ghost asked: seq<Answer>)
    returns (result': SyncResult)
    requires HostProgress(values, work, asked, result) && !IsFallback(failure.kind) && DistinctTasks(values)
    requires Caused(world, host, values, asked, result.failures) && Stopped(world, asked, failure, work)
    ensures HostProgress(values, [], asked, result') && Caused(world, host, values, asked, result'.failures)
    ensures forall id :: id in TaskIds(work) ==> id in result'.failures && result'.failures[id] == failure
  {
    hide HostProgress, Caused, Stopped, DistinctTasks;
    var failures := AddRemainingFailures(result.failures, work, 0, failure);
    assert work[0..] == work;
    HostFails(values, work, asked, result, failures);
    CausedByStop(world, host, values, work, asked, failure, result.failures, failures);
    result' := result.(failures := failures);
  }

  method GiveUpHost(
    result: SyncResult, work: seq<PullRequest>, host: string, ghost world: World, ghost values: seq<PullRequest>,
    ghost asked: seq<Answer>)
    returns (result': SyncResult)
    requires HostProgress(values, work, asked, result) && DistinctTasks(values)
    requires Caused(world, host, values, asked, result.failures)
    requires work == [] || AllTried(world, world.candidates(host), asked, work)
    ensures Caused(world, host, values, asked, result'.failures)
    ensures Concluded(values, asked, result') && result'.successes.Keys !! result'.failures.Keys
    ensures forall id :: id in TaskIds(work) ==>
              id in result'.failures && result'.failures[id] == NoUsableAuth(host)
  {
    hide Recovered, DistinctTasks, Caused, AllTried;
    var failures := AddUnavailableFailures(result.failures, work, host);
    CausedByGivingUp(world, host, values, work, asked, result.failures, failures);
    result' := result.(failures := failures);
  }

  lemma HostParts(
    all: set<string>, work: set<string>, good: set<string>, bad: set<string>, found: set<string>, failed: set<string>)
    requires good !! bad && work !! good + bad && all == work + good + bad
    requires found <= work && failed <= work && found !! failed
    ensures good + found !! bad + failed
    ensures work - found - failed !! (good + found) + (bad + failed)
    ensures all == (work - found - failed) + (good + found) + (bad + failed)
  {
  }

  class Synchronizer {
    const world: World
    const resolver: Resolver
    /** Number of calls made to the outside. */
    var tick: nat
    /** The records written to the store, in order. */
    var upserts: seq<PullRequest>
    /** The credentials written to the cache, in order. */
    var remembered: seq<CacheEntry>
    /** The answers providers have given, in order. */
    ghost var answers: seq<Answer>

    constructor (world: World, resolver: Resolver)
      ensures this.world == world && this.resolver == resolver && upserts == [] && remembered == [] && answers == []
    {
      this.world, this.resolver, tick, upserts, remembered, answers := world, resolver, 0, [], [], [];
    }

    /** An item error of "not found" is only believed once the repository itself was seen. */
    method ResolveItem(v: PullRequest, fetchErr: Failure, probed: bool, ghost first: nat)
      returns (failure: Failure, probed': bool, fallback: bool)
      requires first <= tick && (probed ==> RepositorySeen(world, first, tick, v))
      modifies this`tick
      ensures old(tick) <= tick && (probed ==> probed')
      ensures probed' ==> RepositorySeen(world, first, tick, v)
      ensures fallback <==> IsFallback(failure.kind)
      ensures !fallback ==> Explained(world, first, tick, v, fetchErr, failure)
      ensures fallback ==>
                IsFallback(fetchErr.kind) && (failure == fetchErr || ProbeFailed(world, first, tick, v, failure))
    {
      failure, probed' := fetchErr, probed;
      if failure.kind.NotFound? && !probed' {
        var probeErr := world.probe(tick, v.owner, v.repository);
        tick := tick + 1;
        if probeErr.None? {
          assert RepositorySeen(world, first, tick, v);
          return MissingPull(v), true, false;
        }
        failure := probeErr.value;
        assert ProbeFailed(world, first, tick, v, failure);
      }
      if failure.kind.NotFound? && probed' {
        return MissingPull(v), probed', false;
      }
      fallback := IsFallback(failure.kind);
    }

    /** The loop of attemptCandidate: the failures up to the first error another credential might cure. */
    method ResolveFailures(values: seq<PullRequest>, resolved: nat, batch: Batch, probe: bool, ghost first: nat)
      returns (failures: map<string, Failure>, failedAt: nat, err: Option<Failure>)
      requires resolved <= |values| && DistinctTasks(values) && OneRepository(values) && first <= tick
      requires probe ==> forall v :: v in values ==> RepositorySeen(world, first, tick, v)
      modifies this`tick
      ensures old(tick) <= tick
      ensures failedAt <= resolved && FailuresUpTo(values, failedAt, batch, failures)
      ensures err.None? ==> failedAt == resolved
      ensures err.Some? ==> failedAt < resolved && IsFallback(err.value.kind)
      ensures AllExplained(world, first, tick, values, batch.errors, failures)
      ensures err.Some? ==>
                values[failedAt].taskId in batch.errors && !NoFallback(batch.errors)
                && (err.value == batch.errors[values[failedAt].taskId]
                    || ProbeFailed(world, first, tick, values[failedAt], err.value))
    {
      hide Explained, DistinctTasks, OneRepository, FailuresUpTo;
      failures, failedAt, err := map[], 0, None;
      var probed := probe;
      NoFailureYet(values, batch);
      while failedAt < resolved
        invariant failedAt <= resolved && err.None? && old(tick) <= tick
        invariant FailuresUpTo(values, failedAt, batch, failures)
        invariant AllExplained(world, first, tick, values, batch.errors, failures)
        invariant probed ==> forall v :: v in values ==> RepositorySeen(world, first, tick, v)
      {
        var current := values[failedAt];
        if current.taskId in batch.errors {
          ghost var before := tick;
          var failure, probed', fallback := ResolveItem(current, batch.errors[current.taskId], probed, first);
          ExplainedLater(world, first, before, values, batch.errors, failures, tick);
          if probed' {
            SeenForAll(world, first, tick, values, current);
          }
          probed := probed';
          if fallback {
            err := Some(failure);
            return;
          }
          FailuresNext(values, failedAt, batch, failures, failure);
          ExplainOne(world, first, tick, values, failedAt, batch.errors, failures, failure);
          failures := failures[current.taskId := failure];
        } else {
          FailuresNext(values, failedAt, batch, failures, NO_RESULT);
        }
        failedAt := failedAt + 1;
      }
    }

    /** Fetches the values and finds where the answer stops. */
    method Fetch(values: seq<PullRequest>) returns (batch: Batch, batchErr: Option<Failure>, resolved: nat)
      requires DistinctTasks(values)
      modifies this`tick
      ensures old(tick) <= tick
      ensures FetchedFrom(Calls(world.transport, old(tick), tick), values, batch, batchErr)
      ensures Reached(values, batch, resolved) && resolved <= |values|
      ensures resolved == |values| <==> batchErr.None?
    {
      hide FetchedFrom;
      var tick';
      ghost var done;
      batch, batchErr, tick', done := FetchAll(world.transport, tick, values);
      tick := tick';
      resolved := |values|;
      if batchErr.Some? {
        resolved := UnresolvedIndex(values, batch);
        RetryStartsBehindFinishedChunks(values, batch, done, resolved);
        ReachedSome(values, batch, done);
      } else {
        ReachedAll(values, batch);
      }
    }

    /** The part of attemptCandidate that follows once a provider is open and its probe has passed. */
    method FetchAttempt(
      candidate: Candidate, values: seq<PullRequest>, probe: bool, ghost first: nat, ghost before: Credentials)
      returns (attempt: Attempt, ghost answer: Answer)
      requires DistinctTasks(values) && OneRepository(values) && first < tick
      requires probe ==> forall v :: v in values ==> RepositorySeen(world, first, tick, v)
      requires OpenOutcome(world, first, candidate, before).None?
      modifies this`tick
      ensures old(tick) <= tick && Genuine(world, answer)
      ensures answer.candidate == candidate && answer.values == values && answer.before == before
      ensures answer.first == first && answer.past == tick && FetchedSince(world, answer, old(tick))
      ensures Attempted(values, [answer], attempt)
      ensures attempt.err.None? ==> answer.failure.None?
      ensures NoFallback(answer.batch.errors) ==> attempt.err == answer.failure
      ensures attempt.err.Some? && !IsFallback(attempt.err.value.kind) ==> answer.failure == attempt.err
      ensures attempt.err.Some? ==> Halted(world, answer, attempt.err.value)
      ensures AllExplained(world, first, tick, values, answer.batch.errors, attempt.failures)
    {
      hide Reached, Recovered, FailuresUpTo, FetchedFrom, Explained, OpenOutcome, RepositorySeen;
      ghost var start := tick;
      var batch, batchErr, resolved := Fetch(values);
      ghost var calls := Calls(world.transport, start, tick);
      SeenLater(world, first, start, values, tick);
      var failures, failedAt, err := ResolveFailures(values, resolved, batch, probe, first);
      answer := Answer(candidate, values, first, tick, before, batch, batchErr, true);
      assert WasFetched(world, answer) by {
        assert calls.transport == world.transport && answer.first <= calls.first && calls.past <= answer.past;
      }
      assert FetchedSince(world, answer, start) by {
        assert calls == Calls(world.transport, start, calls.past) && calls.past <= answer.past;
      }
      if err.None? {
        err := batchErr;
      }
      AttemptIsDone(values, answer, resolved, failedAt, failures, err);
      attempt := Attempt(Clean(batch), Unclean(batch), failures, if err.None? then -1 else failedAt, err);
    }

    /** attemptCandidate. */
    method AttemptCandidate(candidate: Candidate, values: seq<PullRequest>, probe: bool)
      returns (attempt: Attempt, openErr: Option<Failure>, ghost asked: seq<Answer>)
      requires resolver.Valid() && DistinctTasks(values) && OneRepository(values) && (probe ==> values != [])
      modifies this`tick, this`answers, resolver`fingerprints, resolver`providers
      ensures resolver.Valid() && answers == old(answers) + asked && AskedOnce(candidate, values, asked)
      ensures openErr == OpenOutcome(world, old(tick), candidate, old(resolver.Known()))
      ensures Genuine(world, asked[0]) && asked[0].before == old(resolver.Known())
      ensures asked[0].first == old(tick) && asked[0].past == tick && resolver.Known() == Opened(world, asked[0])
      ensures openErr.Some? ==> asked[0].batch == EMPTY_BATCH && asked[0].failure == openErr
      ensures if probe then ProbedFirst(world, asked[0]) else Straight(world, asked[0])
      ensures openErr.None? ==> Attempted(values, asked, attempt)
      ensures openErr.None? && attempt.err.None? ==> asked[0].failure.None?
      ensures openErr.None? && NoFallback(asked[0].batch.errors) ==> attempt.err == asked[0].failure
      ensures openErr.None? && attempt.err.Some? && !IsFallback(attempt.err.value.kind) ==>
                asked[0].failure == attempt.err
      ensures openErr.None? && attempt.err.Some? ==> Halted(world, asked[0], attempt.err.value)
      ensures openErr.None? ==>
                AllExplained(world, old(tick), tick, values, asked[0].batch.errors, attempt.failures)
    {
      hide Explained, OpenOutcome, AfterOpen, OneRepository, DistinctTasks, FetchedFrom, Attempted;
      hide Straight, ProbedFirst, FetchedSince, RepositorySeen;
      attempt, asked := EMPTY_ATTEMPT, [];
      ghost var first, before := tick, resolver.Known();
      openErr := resolver.Open(world, tick, candidate);
      tick := tick + 1;
      if openErr.Some? {
        asked := [NotFetched(candidate, values, first, tick, before, openErr.value)];
        NotOpenedIsStraight(world, asked[0]);
        NotOpenedIsProbed(world, asked[0]);
        answers := answers + asked;
        return;
      }
      if probe {
        var probeErr := world.probe(tick, values[0].owner, values[0].repository);
        tick := tick + 1;
        if probeErr.Some? {
          attempt := attempt.(failedAt := 0, err := probeErr);
          asked := [NotFetched(candidate, values, first, tick, before, probeErr.value)];
          NotSeenIsGenuine(world, asked[0], probeErr.value);
          AttemptedNothing(values, asked[0], probeErr.value);
          answers := answers + asked;
          return;
        }
        ProbeSees(world, first, tick, values[0]);
        SeenForAll(world, first, tick, values, values[0]);
      }
      ghost var answer;
      attempt, answer := FetchAttempt(candidate, values, probe, first, before);
      FetchFollows(world, answer, probe);
      asked := [answer];
      answers := answers + asked;
    }

    /** tryCachedRepository: the remembered credential goes first. */
    method TryCachedRepository(key: RepositoryKey, values: seq<PullRequest>, candidates: seq<Candidate>)
      returns (result: SyncResult, work: seq<PullRequest>, stop: bool, err: Option<Failure>, ghost start: nat,
        ghost asked: seq<Answer>)
      requires resolver.Valid() && DistinctTasks(values) && OneRepository(values) && world.hasCache
      requires candidates == world.candidates(key.host)
      modifies this`tick, this`answers, resolver
      ensures resolver.Valid() && answers == old(answers) + asked
      ensures Trace(world, old(tick), old(resolver.Known()), asked, tick, resolver.Known())
      ensures err.Some? ==> StorageFailed(world, old(tick), tick, err.value)
      ensures err.None? && stop ==> Concluded(values, asked, result)
      ensures err.None? && !stop ==>
                start <= |values| && work == values[start..] && Progress(values, start, asked, result)
                && result.authId == ""
      ensures err.None? ==> Caused(world, key.host, values, asked, result.failures)
      ensures CandidatesOf(asked) == RememberedFor(world, key, old(tick))
      ensures UsesCredentials(world, candidates, CandidatesOf(asked), values, asked)
      ensures Remembers(candidates, asked, result.authId)
      ensures err == match world.cached(old(tick), key) case CacheFailed(f) => Some(f) case _ => None
    {
      hide FailsToStore, Trace, Recovered, Caused, Concluded, OneRepository, DistinctTasks;
      hide Remembers, UsesCredentials, Straight, SettledBefore;
      result, work, stop, err, start, asked := EMPTY_RESULT, values, false, None, 0, [];
      NothingUsed(world, candidates, values);
      ProgressStarts(values);
      NothingIsCaused(world, key.host, values);
      NoTrace(world, tick, resolver.Known());
      TraceLater(world, tick, resolver.Known(), [], tick, resolver.Known(), tick + 1);
      var reply := world.cached(tick, key);
      tick := tick + 1;
      match reply {
        case CacheFailed(f) =>
          assert FailsToStore(world, old(tick), f) by { CacheFails(world, old(tick), key, f); }
          err := Some(f);
        case NotCached =>
        case Cached(authId) =>
          var candidate := CandidateById(candidates, authId);
          if candidate.Some? {
            result, work, stop, start, asked := TryCandidate(candidate.value, values, key.host);
            OneUsed(world, candidates, candidate.value, values, asked, result.authId);
            TraceEarlier(
              world, old(tick) + 1, old(resolver.Known()), asked, tick, resolver.Known(), old(tick));
          }
      }
    }

    method TryCandidate(candidate: Candidate, values: seq<PullRequest>, ghost host: string)
      returns (result: SyncResult, work: seq<PullRequest>, stop: bool, ghost start: nat, ghost asked: seq<Answer>)
      requires resolver.Valid() && DistinctTasks(values) && OneRepository(values)
      modifies this`tick, this`answers, resolver
      ensures resolver.Valid() && answers == old(answers) + asked && AskedOnce(candidate, values, asked)
      ensures Trace(world, old(tick), old(resolver.Known()), asked, tick, resolver.Known())
      ensures EndsUnauthorized(asked[0]) ==> candidate.id in resolver.unauthorized
      ensures stop ==> Concluded(values, asked, result)
      ensures !stop ==> Progress(values, start, asked, result) && result.authId == ""
      ensures start <= |values| && (!stop ==> work == values[start..])
      ensures Caused(world, host, values, asked, result.failures)
      ensures Straight(world, asked[0])
      ensures result.authId != "" ==>
                result.authId == candidate.id && asked[0].failure.None?
    {
      hide Recovered, Caused, Concluded, DistinctTasks, OneRepository, AllExplained, Genuine, Halted, Opened;
      hide OpenOutcome, Attempted, Progress, Trace, Straight, Tried;
      assert values[0..] == values;
      var attempt, openErr;
      attempt, openErr, asked := AttemptCandidate(candidate, values, false);
      assert asked == [asked[0]];
      FailureHalts(world, asked[0]);
      if openErr.Some? {
        attempt := EMPTY_ATTEMPT.(failedAt := 0, err := openErr);
        AttemptedNothing(values, asked[0], openErr.value);
        NothingToExplain(world, asked[0].first, asked[0].past, values, asked[0].batch.errors);
      }
      ProgressStarts(values);
      NothingIsCaused(world, host, values);
      assert [] + asked == asked;
      result, work, stop, start := TakeAttempt(
        EMPTY_RESULT, attempt, candidate, values, world, host, values, 0, [], asked);
      if stop {
        UnmarkedTrace(world, old(tick), asked[0], tick, resolver.Known());
        assert asked[0].failure == attempt.err;
        return;
      }
      if attempt.err.value.kind.Unauthorized? {
        resolver.MarkUnauthorized(candidate.id);
      }
      MarkedTrace(world, old(tick), asked[0], attempt.err.value, tick, resolver.Known());
    }

    /** One round of syncRepository: the remaining values with the next credential. */
    method TryNext(
      candidate: Candidate, work: seq<PullRequest>, result: SyncResult, ghost host: string,
      ghost values: seq<PullRequest>, ghost start: nat, ghost asked: seq<Answer>)
      returns (result': SyncResult, work': seq<PullRequest>, stop: bool, ghost start': nat, ghost asked': seq<Answer>)
      requires resolver.Valid() && DistinctTasks(values) && OneRepository(values)
      requires Progress(values, start, asked, result) && work == values[start..] && work != []
      requires result.authId == "" && Caused(world, host, values, asked, result.failures)
      modifies this`tick, this`answers, resolver
      ensures resolver.Valid() && answers == old(answers) + asked' && AskedOnce(candidate, work, asked')
      ensures Trace(world, old(tick), old(resolver.Known()), asked', tick, resolver.Known())
      ensures EndsUnauthorized(asked'[0]) ==> candidate.id in resolver.unauthorized
      ensures ProbedFirst(world, asked'[0])
      ensures stop ==> Concluded(values, asked + asked', result')
      ensures !stop ==>
                Progress(values, start', asked + asked', result') && work' == values[start'..] && result'.authId == ""
      ensures !stop ==> Tried(world, asked', candidate, work') && forall v :: v in work' ==> v in work
      ensures Caused(world, host, values, asked + asked', result'.failures)
      ensures result'.authId != "" ==> result'.authId == candidate.id && asked'[0].failure.None?
    {
      hide Recovered, Caused, Stopped, Tried, DistinctTasks, OneRepository, AllExplained, Genuine, Halted, Opened;
      hide OpenOutcome, Attempted, Trace, ProbedFirst;
      result', work', stop, start' := result, work, false, start;
      DistinctTail(values, start);
      OneRepositoryTail(values, start);
      var attempt, openErr;
      attempt, openErr, asked' := AttemptCandidate(candidate, work, true);
      if openErr.Some? {
        ProgressIdle(values, start, asked, result, asked'[0]);
        assert asked' == [asked'[0]];
        CausedMore(world, host, values, asked, result.failures, asked');
        AskedOnceTries(world, asked, candidate, work, asked', work);
        FailureHalts(world, asked'[0]);
        if openErr.value.kind.Unauthorized? {
          resolver.MarkUnauthorized(candidate.id);
        }
        MarkedTrace(world, old(tick), asked'[0], openErr.value, tick, resolver.Known());
        if openErr.value.kind.AuthUnavailable? || IsFallback(openErr.value.kind) {
          return;
        }
        stop := true;
        result' := FailRemaining(
          result, work, 0, openErr.value, world, host, values, start, asked + asked');
        return;
      }
      result', work', stop, start' := TakeAttempt(
        result, attempt, candidate, work, world, host, values, start, asked, asked');
      assert asked' == [asked'[0]];
      if attempt.err.None? {
        UnmarkedTrace(world, old(tick), asked'[0], tick, resolver.Known());
        return;
      }
      if attempt.err.value.kind.Unauthorized? {
        resolver.MarkUnauthorized(candidate.id);
      }
      MarkedTrace(world, old(tick), asked'[0], attempt.err.value, tick, resolver.Known());
    }

    /** The rounds of syncRepository, until a credential concludes it or none is left. */
    method TryAll(
      candidates: seq<Candidate>, work0: seq<PullRequest>, result0: SyncResult, host: string,
      ghost values: seq<PullRequest>, ghost start0: nat, ghost base: seq<Answer>, ghost asked0: seq<Answer>,
      ghost first: nat, ghost known: Credentials)
      returns (result: SyncResult, ghost asked: seq<Answer>)
      requires resolver.Valid() && DistinctTasks(values) && OneRepository(values) && answers == base + asked0
      requires Progress(values, start0, asked0, result0) && work0 == values[start0..] && result0.authId == ""
      requires UsesCredentials(world, candidates, CandidatesOf(asked0), values, asked0)
      requires candidates == world.candidates(host) && Caused(world, host, values, asked0, result0.failures)
      requires Trace(world, first, known, asked0, tick, resolver.Known())
      modifies this`tick, this`answers, resolver
      ensures resolver.Valid() && answers == base + asked
      ensures UsesCredentials(world, candidates, CandidatesOf(asked0), values, asked)
      ensures Concluded(values, asked, result) && Remembers(candidates, asked, result.authId)
      ensures Caused(world, host, values, asked, result.failures)
      ensures Trace(world, first, known, asked, tick, resolver.Known())
    {
      hide Concluded, DistinctTasks, OneRepository, Recovered, Caused, Tried, AllTried, Trace, ProbedFirst;
      hide RoundsSoFar, Remembers, UsesCredentials;
      result, asked := result0, asked0;
      var work := work0;
      ghost var start := start0;
      RoundsStart(world, candidates, asked, work);
      NothingRemembered(candidates, asked);
      for i := 0 to |candidates|
        invariant resolver.Valid() && answers == base + asked
        invariant Progress(values, start, asked, result) && work == values[start..] && result.authId == ""
        invariant Caused(world, host, values, asked, result.failures)
        invariant UsesCredentials(world, candidates, CandidatesOf(asked0), values, asked)
        invariant Remembers(candidates, asked, result.authId)
        invariant RoundsSoFar(world, candidates, i, asked0, asked, work)
        invariant Trace(world, first, known, asked, tick, resolver.Known())
      {
        if |work| == 0 {
          break;
        }
        var stop;
        ghost var next;
        ghost var before, from, part, middle, known' := asked, start, work, tick, resolver.Known();
        result, work, stop, start, next := TryNext(candidates[i], work, result, host, values, start, asked);
        asked := before + next;
        TraceJoin(world, first, known, before, middle, known', next, tick, resolver.Known());
        RememberLast(candidates, i, before, part, next, result.authId);
        UsesOneMore(world, candidates, i, values, from, asked0, before, next);
        if stop {
          return;
        }
        NextRound(world, candidates, i, asked0, before, part, next, work);
      }
      if |work| != 0 {
        RoundsEnd(world, candidates, asked0, asked, work);
      }
      result := GiveUp(result, work, host, world, values, start, asked);
    }

    /** syncRepository: every value ends with an outcome, whatever the credentials and providers do. */
    method SyncRepository(key: RepositoryKey, values: seq<PullRequest>)
      returns (result: SyncResult, err: Option<Failure>, ghost asked: seq<Answer>)
      requires resolver.Valid() && DistinctTasks(values) && OneRepository(values)
      modifies this`tick, this`answers, resolver
      ensures resolver.Valid() && answers == old(answers) + asked
      ensures Trace(world, old(tick), old(resolver.Known()), asked, tick, resolver.Known())
      ensures UsesCredentials(
                world, world.candidates(key.host), RememberedFor(world, key, old(tick)), values, asked)
      ensures err.Some? ==> StorageFailed(world, old(tick), tick, err.value)
      ensures err.None? ==> Concluded(values, asked, result)
      ensures err.None? ==> Caused(world, key.host, values, asked, result.failures)
      ensures err.None? ==> Remembers(world.candidates(key.host), asked, result.authId)
    {
      hide UsesCredentials, DistinctTasks, OneRepository, TraceStep;
      result, err, asked := EMPTY_RESULT, None, [];
      ProgressStarts(values);
      var candidates := world.candidates(key.host);
      NothingUsed(world, candidates, values);
      if |candidates| == 0 {
        result := GiveUpAtOnce(values, NoAuthMethod(key.host));
        return;
      }
      var work := values;
      ghost var start: nat := 0;
      if world.hasCache {
        var stop;
        result, work, stop, err, start, asked := TryCachedRepository(key, values, candidates);
        if err.Some? || stop {
          return;
        }
      }
      result, asked := TryAll(
        candidates, work, result, key.host, values, start, old(answers), asked, old(tick), old(resolver.Known()));
    }

    method TakeOne(
      current: PullRequest, batch: Batch, batchErr: Option<Failure>, itemErr0: Option<Failure>, result: SyncResult,
      authId: string)
      returns (result': SyncResult, kept: bool, cacheErr: Option<Failure>)
      requires itemErr0 == if current.taskId in batch.errors then Some(batch.errors[current.taskId]) else None
      requires batch.partials.Keys <= batch.errors.Keys
      modifies this`tick, this`remembered
      ensures old(tick) <= tick
      ensures cacheErr.Some? ==> StorageFailed(world, old(tick), tick, cacheErr.value)
      ensures cacheErr.None? ==>
                && result' == WithOne(result, current.taskId, batch, batchErr)
                && (kept <==> current.taskId !in Clean(batch) && !IsFinal(batch, batchErr, current.taskId))
      ensures cacheErr.None? ==>
                remembered == old(remembered) + if world.hasCache then CreditFor(current, batch, authId) else []
    {
      result', kept, cacheErr := result, false, None;
      var id, itemErr := current.taskId, itemErr0;
      if id in batch.pullRequests && itemErr.None? {
        result' := result'.(successes := result'.successes[id := batch.pullRequests[id]]);
        if world.hasCache {
          cacheErr := world.cachePut(tick);
          tick := tick + 1;
          if cacheErr.Some? {
            assert FailsToStore(world, old(tick), cacheErr.value);
            return;
          }
          remembered := remembered + [CacheEntry(GroupKey(current), authId)];
        }
        return;
      }
      if id in batch.pullRequests && itemErr.Some? {
        result' := result'.(partials := result'.partials[id := batch.pullRequests[id]]);
      }
      if id in batch.partials {
        result' := result'.(partials := result'.partials[id := batch.partials[id]]);
      }
      if itemErr.None? && batchErr.None? {
        itemErr := Some(NO_RESULT);
      }
      if itemErr.None? || IsFallback(itemErr.value.kind) {
        kept := true;
        return;
      }
      result' := result'.(failures := result'.failures[id := itemErr.value]);
    }

    /** Sorts the values by what the batch says of them; a credential that refreshed something is remembered. */
    method TakeAnswers(
      work: seq<PullRequest>, batch: Batch, batchErr: Option<Failure>, result: SyncResult, authId: string)
      returns (result': SyncResult, next: seq<PullRequest>, cacheErr: Option<Failure>)
      requires DistinctTasks(work) && NoFallback(result.failures) && batch.partials.Keys <= batch.errors.Keys
      modifies this`tick, this`remembered
      ensures old(tick) <= tick
      ensures cacheErr.Some? ==> StorageFailed(world, old(tick), tick, cacheErr.value)
      ensures cacheErr.None? ==> Taken(work, |work|, batch, batchErr, result, result', next)
      ensures cacheErr.None? ==> remembered == old(remembered) + Credits(world, work, batch, authId)
    {
      hide FailsToStore, StorageFailed, Credits, CreditFor, Taken, DistinctTasks, NoFallback;
      result', next, cacheErr := result, [], None;
      TakenStarts(work, batch, batchErr, result);
      NoValuesCredited(world, batch, authId);
      for i := 0 to |work|
        invariant old(tick) <= tick && cacheErr.None? && Taken(work, i, batch, batchErr, result, result', next)
        invariant remembered == old(remembered) + Credits(world, work[..i], batch, authId)
      {
        var current := work[i];
        var itemErr := if current.taskId in batch.errors then Some(batch.errors[current.taskId]) else None;
        TakenNext(work, i, batch, batchErr, result, result', next);
        CreditedNext(world, work, i, batch, authId);
        ghost var credit := if world.hasCache then CreditFor(current, batch, authId) else [];
        JoinAssociates(old(remembered), Credits(world, work[..i], batch, authId), credit);
        var kept;
        ghost var before := tick;
        result', kept, cacheErr := TakeOne(current, batch, batchErr, itemErr, result', authId);
        if cacheErr.Some? {
          StorageFailedLater(world, before, tick, cacheErr.value, old(tick), tick);
          return;
        }
        if kept {
          next := next + [current];
        }
      }
      assert work[..|work|] == work;
    }

    /** One round of syncHostBatch: the remaining values of the host with the next credential. */
    method HostRound(
      candidate: Candidate, work: seq<PullRequest>, result: SyncResult, ghost host: string,
      ghost values: seq<PullRequest>, ghost asked: seq<Answer>)
      returns (result': SyncResult, work': seq<PullRequest>, stop: bool, err: Option<Failure>,
        ghost more: seq<Answer>)
      requires resolver.Valid() && HostProgress(values, work, asked, result) && DistinctTasks(values)
      requires Caused(world, host, values, asked, result.failures)
      modifies this`tick, this`answers, this`remembered, resolver
      ensures resolver.Valid() && answers == old(answers) + more && AskedOnce(candidate, work, more)
      ensures Trace(world, old(tick), old(resolver.Known()), more, tick, resolver.Known())
      ensures err.Some? ==> StorageFailed(world, old(tick), tick, err.value)
      ensures err.None? ==> HostProgress(values, work', asked + more, result')
      ensures err.None? ==> Caused(world, host, values, asked + more, result'.failures)
      ensures err.None? ==> if stop then work' == [] else Tried(world, more, candidate, work')
      ensures err.None? ==> forall v :: v in work' ==> v in work
      ensures err.None? && more[0].failure.Some? && more[0].failure.value.kind.Unauthorized? ==>
                candidate.id in resolver.unauthorized
      ensures Straight(world, more[0])
      ensures err.None? ==> remembered == old(remembered) + Credits(world, work, more[0].batch, candidate.id)
    {
      hide Recovered, Caused, Stopped, Tried, DistinctTasks, FetchedFrom, Halted, AfterOpen, HostProgress, Reached;
      hide Taken, CreditedBy, Straight, Trace, StorageFailed;
      result', work', stop, err := result, work, false, None;
      ghost var first, before := tick, resolver.Known();
      var openErr := resolver.Open(world, tick, candidate);
      tick := tick + 1;
      HostWork(values, work, asked, result);
      if openErr.Some? {
        more := [NotFetched(candidate, work, first, tick, before, openErr.value)];
        answers := answers + more;
        assert NotOpened(world, more[0]);
        NotOpenedIsStraight(world, more[0]);
        NothingCredited(work, candidate.id);
        HostNotOpened(world, host, values, work, asked, result, candidate, more);
        if openErr.value.kind.Unauthorized? {
          resolver.MarkUnauthorized(candidate.id);
        }
        FailureHalts(world, more[0]);
        MarkedTrace(world, first, more[0], openErr.value, tick, resolver.Known());
        if IsFallback(openErr.value.kind) {
          return;
        }
        result' := FailHost(result, work, openErr.value, world, host, values, asked + more);
        work', stop := [], true;
        return;
      }
      ghost var start := tick;
      var batch, batchErr, resolved := Fetch(work);
      ghost var calls := Calls(world.transport, start, tick);
      more := [Answer(candidate, work, first, tick, before, batch, batchErr, true)];
      answers := answers + more;
      FetchedIsGenuine(world, more[0], calls);
      ReachedPartials(work, batch, resolved);
      var next;
      result', next, err := TakeAnswers(work, batch, batchErr, result, candidate.id);
      if err.Some? {
        UnmarkedTrace(world, first, more[0], tick, resolver.Known());
        StorageFailedLater(world, more[0].past, tick, err.value, first, tick);
        return;
      }
      HostFetched(world, host, values, work, asked, result, candidate, more, resolved, result', next);
      work' := next;
      if batchErr.None? {
        UnmarkedTrace(world, first, more[0], tick, resolver.Known());
        return;
      }
      if batchErr.value.kind.Unauthorized? {
        resolver.MarkUnauthorized(candidate.id);
      }
      FailureHalts(world, more[0]);
      MarkedTrace(world, first, more[0], batchErr.value, tick, resolver.Known());
      if !IsFallback(batchErr.value.kind) {
        result' := FailHost(result', next, batchErr.value, world, host, values, asked + more);
        work', stop := [], true;
      }
    }

    /** The rounds of syncHostBatch: every value is refreshed or fails, and never both. */
    method HostRounds(host: string, values: seq<PullRequest>)
      returns (result: SyncResult, err: Option<Failure>, ghost asked: seq<Answer>)
      requires resolver.Valid() && DistinctTasks(values)
      modifies this`tick, this`answers, this`remembered, resolver
      ensures resolver.Valid() && answers == old(answers) + asked
      ensures Trace(world, old(tick), old(resolver.Known()), asked, tick, resolver.Known())
      ensures err.Some? ==> StorageFailed(world, old(tick), tick, err.value)
      ensures err.None? ==> Concluded(values, asked, result) && result.successes.Keys !! result.failures.Keys
      ensures err.None? ==> Caused(world, host, values, asked, result.failures)
      ensures CandidatesOf(asked) <= world.candidates(host) && ProbesBehind(world, |asked|, asked)
      ensures err.None? ==> remembered == old(remembered) + CreditedAll(world, asked)
    {
      hide Concluded, DistinctTasks, Recovered, Caused, Tried, HostProgress, Trace, StorageFailed;
      hide Credits, Straight, ProbesBehind, CreditedAll, OrderedUpTo, AllTried;
      NothingProbed(world);
      result, err, asked := EMPTY_RESULT, None, [];
      NothingIsCaused(world, host, values);
      NoTrace(world, tick, resolver.Known());
      var candidates := world.candidates(host);
      var work := values;
      HostStarts(values);
      NothingTried(world, candidates, work);
      for i := 0 to |candidates|
        invariant resolver.Valid() && answers == old(answers) + asked
        invariant Trace(world, old(tick), old(resolver.Known()), asked, tick, resolver.Known())
        invariant err.None? && HostProgress(values, work, asked, result)
        invariant Caused(world, host, values, asked, result.failures) && AllTried(world, candidates[..i], asked, work)
        invariant OrderedUpTo(candidates, i, [], asked) && CandidatesOf(asked) <= candidates
        invariant ProbesBehind(world, |asked|, asked)
        invariant remembered == old(remembered) + CreditedAll(world, asked)
      {
        if |work| == 0 {
          break;
        }
        var stop;
        ghost var more;
        ghost var before, part, middle, known := asked, work, tick, resolver.Known();
        result, work, stop, err, more := HostRound(candidates[i], work, result, host, values, asked);
        asked := before + more;
        assert more == [more[0]];
        CreditedMore(world, before, more[0]);
        StraightMore(world, before, more[0]);
        ghost var credits := Credits(world, part, more[0].batch, candidates[i].id);
        JoinAssociates(old(remembered), CreditedAll(world, before), credits);
        OrderGoesOn(candidates, i, [], before, part, more);
        OrderIsPrefix(candidates, i + 1, asked);
        TraceJoin(world, old(tick), old(resolver.Known()), before, middle, known, more, tick, resolver.Known());
        if err.Some? {
          TraceTimes(world, old(tick), old(resolver.Known()), before, middle, known);
          StorageFailedLater(world, middle, tick, err.value, old(tick), tick);
          return;
        }
        if stop {
          break;
        }
        OneMoreTried(world, candidates, i, before, part, more, work);
      }
      assert candidates[..|candidates|] == candidates;
      result := GiveUpHost(result, work, host, world, values, asked);
    }

    /** persistSyncResult: one record is stored for each value, in order; the counts tell them apart. */
    method PersistSyncResult(values: seq<PullRequest>, result: SyncResult)
      returns (succeeded: nat, failed: nat, err: Option<Failure>, ghost stored: seq<PullRequest>)
      requires AllFresh(result.successes)
      modifies this`tick, this`upserts
      ensures upserts == old(upserts) + stored && CountedAs(stored, succeeded, failed)
      ensures StoredPrefix(values, result, stored)
      ensures err.None? <==> |stored| == |values|
      ensures old(tick) <= tick && (err.Some? ==> StorageFailed(world, old(tick), tick, err.value))
    {
      hide StorageFailed, CountedAs;
      succeeded, failed, err, stored := 0, 0, None, [];
      NothingStored([], result);
      for i := 0 to |values|
        invariant old(tick) <= tick && err.None? && |stored| == i && StoredPrefix(values, result, stored)
        invariant upserts == old(upserts) + stored && CountedAs(stored, succeeded, failed)
      {
        var current := values[i];
        var id := current.taskId;
        var record, counted, attention;
        if id in result.successes {
          record, counted, attention := result.successes[id], true, false;
        } else {
          var partial := if id in result.partials then result.partials[id] else current;
          var failure := if id in result.failures then Some(result.failures[id]) else None;
          var (value, needsAttention) := SyncFailureValue(current, partial, failure, world.now(tick));
          tick := tick + 1;
          record, counted, attention := value, false, needsAttention;
        }
        err := world.upsert(tick);
        tick := tick + 1;
        if err.Some? {
          UpsertFails(world, old(tick), tick, err.value);
          return;
        }
        upserts := upserts + [record];
        CountOne(stored, record, succeeded, failed);
        stored := stored + [record];
        if counted {
          succeeded := succeeded + 1;
        }
        if attention {
          failed := failed + 1;
        }
      }
    }

    /** The last loop of syncHostBatch. */
    method PersistGroups(
      keys: seq<RepositoryKey>, groups: map<RepositoryKey, seq<PullRequest>>, result: SyncResult,
      ghost selected: seq<PullRequest>)
      returns (succeeded: nat, failed: nat, err: Option<Failure>, ghost stored: seq<PullRequest>)
      requires Grouped(selected, groups) && (forall k :: k in keys ==> k in groups)
      requires AllFresh(result.successes) && KeepsIdentity(selected, result)
      modifies this`tick, this`upserts
      ensures upserts == old(upserts) + stored && OnlyAbout(selected, stored)
      ensures old(tick) <= tick && (err.Some? ==> StorageFailed(world, old(tick), tick, err.value))
      ensures err.None? ==> CountedAs(stored, succeeded, failed)
      ensures err.None? ==>
                StoredPrefix(Flatten(selected, keys), result, stored) && |stored| == |Flatten(selected, keys)|
    {
      hide StoredPrefix, CountedAs, Grouped, Flatten, OfKey, StorageFailed, OnlyAbout, KeepsIdentity;
      succeeded, failed, err, stored := 0, 0, None, [];
      assert upserts == old(upserts) + stored;
      NothingStored(selected, result);
      StoredIsAbout(selected, [], result, []);
      GroupsAre(groups, selected);
      for i := 0 to |keys|
        invariant old(tick) <= tick && err.None?
        invariant upserts == old(upserts) + stored && CountedAs(stored, succeeded, failed)
        invariant OnlyAbout(selected, stored)
        invariant StoredPrefix(Flatten(selected, keys[..i]), result, stored)
        invariant |stored| == |Flatten(selected, keys[..i])|
      {
        var s, f;
        ghost var more;
        ghost var before, done, failures, start := stored, succeeded, failed, tick;
        s, f, err, more := PersistSyncResult(groups[keys[i]], result);
        succeeded, failed, stored := succeeded + s, failed + f, before + more;
        JoinAssociates(old(upserts), before, more);
        GroupIsSelected(selected, groups, keys[i]);
        StoredIsAbout(selected, groups[keys[i]], result, more);
        OnlyAboutBoth(selected, before, more);
        if err.Some? {
          StorageFailedLater(world, start, tick, err.value, old(tick), tick);
          return;
        }
        FlattenNext(selected, keys, i);
        StoredTogether(Flatten(selected, keys[..i]), result, before, groups[keys[i]], more);
        CountedTogether(before, more, done, failures, s, f);
      }
      assert keys[..|keys|] == keys;
    }

    /** syncHostBatch. */
    method SyncHostBatch(
      keys: seq<RepositoryKey>, groups: map<RepositoryKey, seq<PullRequest>>, ghost selected: seq<PullRequest>)
      returns (succeeded: nat, failed: nat, err: Option<Failure>, ghost asked: seq<Answer>,
        ghost stored: seq<PullRequest>)
      requires resolver.Valid() && DistinctTasks(selected) && Grouped(selected, groups)
      requires keys != [] && Distinct(keys) && OneHost(keys) && forall k :: k in keys ==> k in groups
      modifies this`tick, this`answers, this`upserts, this`remembered, resolver
      ensures resolver.Valid() && answers == old(answers) + asked && upserts == old(upserts) + stored
      ensures Trace(world, old(tick), old(resolver.Known()), asked, tick, resolver.Known())
      ensures OnlyAbout(selected, stored)
      ensures err.Some? ==> StorageFailed(world, old(tick), tick, err.value)
      ensures err.None? ==> Settled(world, Flatten(selected, keys), asked, stored)
      ensures err.None? ==> CountedAs(stored, succeeded, failed)
      ensures CandidatesOf(asked) <= world.candidates(keys[0].host) && ProbesBehind(world, |asked|, asked)
      ensures err.None? ==> remembered == old(remembered) + CreditedAll(world, asked)
    {
      hide Trace, StorageFailed, Caused, Concluded, OnlyAbout, KeepsIdentity, CreditedAll, ProbesBehind;
      NothingIsAbout(selected);
      succeeded, failed, stored := 0, 0, [];
      var work := JoinGroups(keys, groups, selected);
      FlattenDistinct(selected, keys);
      var result;
      result, err, asked := HostRounds(keys[0].host, work);
      if err.Some? {
        return;
      }
      ghost var middle := tick;
      FlattenMembers(selected, keys);
      ConcludedIsFresh(selected, work, asked, result);
      TraceTimes(world, old(tick), old(resolver.Known()), asked, middle, resolver.Known());
      succeeded, failed, err, stored := PersistGroups(keys, groups, result, selected);
      TraceLater(world, old(tick), old(resolver.Known()), asked, middle, resolver.Known(), tick);
      if err.Some? {
        StorageFailedLater(world, middle, tick, err.value, old(tick), tick);
      } else {
        FlattenHost(selected, keys);
        AllStoredSettles(world, keys[0].host, work, asked, result, stored);
      }
    }

    method RepositoriesHaveCachedAuth(keys: seq<RepositoryKey>) returns (cached: bool)
      modifies this`tick
      ensures old(tick) <= tick && (cached <==> KnowsCredential(world, old(tick), keys))
    {
      cached := false;
      if !world.hasCache {
        return;
      }
      for i := 0 to |keys|
        invariant tick == old(tick) + i && forall k :: 0 <= k < i ==> world.cached(old(tick) + k, keys[k]).NotCached?
      {
        var reply := world.cached(tick, keys[i]);
        tick := tick + 1;
        if !reply.NotCached? {
          return true;
        }
      }
    }

    /** One host of syncUncachedHostGroups: skipped unless it has several repositories and no remembered credential. */
    method VisitHost(
      hostKeys: seq<RepositoryKey>, groups: map<RepositoryKey, seq<PullRequest>>, ghost selected: seq<PullRequest>)
      returns (done: seq<RepositoryKey>, succeeded: nat, failed: nat, err: Option<Failure>,
        ghost asked: seq<Answer>, ghost stored: seq<PullRequest>, ghost visits: seq<Visit>)
      requires resolver.Valid() && DistinctTasks(selected) && Grouped(selected, groups)
      requires Distinct(hostKeys) && OneHost(hostKeys) && forall k :: k in hostKeys ==> k in groups
      modifies this`tick, this`answers, this`upserts, this`remembered, resolver
      ensures resolver.Valid() && answers == old(answers) + asked && upserts == old(upserts) + stored
      ensures Trace(world, old(tick), old(resolver.Known()), asked, tick, resolver.Known())
      ensures OnlyAbout(selected, stored)
      ensures err.Some? ==> StorageFailed(world, old(tick), tick, err.value)
      ensures done == if |hostKeys| < 2 || KnowsCredential(world, old(tick), hostKeys) then [] else hostKeys
      ensures err.None? ==> Passed(world, selected, done, asked, stored, succeeded, failed) && Distinct(done)
      ensures Visited(world, selected, old(tick), tick, visits, asked)
      ensures err.None? ==> Earned(world, visits, done, old(remembered), remembered)
    {
      hide Trace, StorageFailed, OnlyAbout, Visited, Earned, ProbesBehind, CreditedAll;
      done, succeeded, failed, err, asked, stored, visits := [], 0, 0, None, [], [], [];
      VisitedNothing(world, selected, tick, remembered);
      PassedNothing(world, selected);
      NoTrace(world, tick, resolver.Known());
      NothingIsAbout(selected);
      assert answers == old(answers) + asked && upserts == old(upserts) + stored;
      if |hostKeys| < 2 {
        return;
      }
      var cached := RepositoriesHaveCachedAuth(hostKeys);
      ghost var middle := tick;
      VisitedLater(world, selected, old(tick), old(tick), [], [], old(tick), middle);
      if cached {
        TraceLater(world, old(tick), resolver.Known(), [], old(tick), resolver.Known(), tick);
        return;
      }
      done := hostKeys;
      succeeded, failed, err, asked, stored := SyncHostBatch(hostKeys, groups, selected);
      TraceTimes(world, middle, old(resolver.Known()), asked, tick, resolver.Known());
      TraceEarlier(world, middle, old(resolver.Known()), asked, tick, resolver.Known(), old(tick));
      ghost var visit := Visit(hostKeys, old(tick), asked, CreditedAll(world, asked));
      visits := [visit];
      VisitedOne(world, selected, visit, tick);
      if err.None? {
        EarnedOne(world, visit, old(remembered), remembered);
      }
      if err.Some? {
        StorageFailedLater(world, middle, tick, err.value, old(tick), tick);
      }
    }

    /** syncUncachedHostGroups: each host that is visited is dealt with as one batch. */
    method SyncUncachedHostGroups(
      keys: seq<RepositoryKey>, groups: map<RepositoryKey, seq<PullRequest>>, ghost selected: seq<PullRequest>)
      returns (processed: set<RepositoryKey>, succeeded: nat, failed: nat, err: Option<Failure>,
        ghost order: seq<RepositoryKey>, ghost asked: seq<Answer>, ghost stored: seq<PullRequest>,
        ghost visits: seq<Visit>)
      requires resolver.Valid() && DistinctTasks(selected) && Grouped(selected, groups)
      requires Distinct(keys) && Range(keys) == groups.Keys
      modifies this`tick, this`answers, this`upserts, this`remembered, resolver
      ensures resolver.Valid() && answers == old(answers) + asked && upserts == old(upserts) + stored
      ensures Trace(world, old(tick), old(resolver.Known()), asked, tick, resolver.Known())
      ensures OnlyAbout(selected, stored)
      ensures err.Some? ==> StorageFailed(world, old(tick), tick, err.value)
      ensures err.None? ==> Passed(world, selected, order, asked, stored, succeeded, failed) && Distinct(order)
      ensures Visited(world, selected, old(tick), tick, visits, asked)
      ensures err.None? ==> Earned(world, visits, order, old(remembered), remembered)
      ensures err.None? ==> processed == Range(order) && processed <= groups.Keys
      ensures err.None? ==>
                forall k :: k in keys ==> Decided(world, old(tick), tick, OfHost(keys, k.host), processed)
    {
      hide Visited, Earned;
      hide Decided, Passed, OfHosts, OfHost, KnowsCredential, DistinctTasks, Grouped, Trace, StorageFailed, OnlyAbout;
      processed, succeeded, failed, err, order, asked, stored, visits := {}, 0, 0, None, [], [], [], [];
      VisitedNothing(world, selected, tick, remembered);
      var hosts, keysByHost := GroupByHost(keys);
      PassedNothing(world, selected);
      NothingIsAbout(selected);
      NoTrace(world, tick, resolver.Known());
      assert answers == old(answers) + asked && upserts == old(upserts) + stored;
      for i := 0 to |hosts|
        invariant resolver.Valid() && Trace(world, old(tick), old(resolver.Known()), asked, tick, resolver.Known())
        invariant OnlyAbout(selected, stored)
        invariant err.None? && answers == old(answers) + asked && upserts == old(upserts) + stored
        invariant Passed(world, selected, order, asked, stored, succeeded, failed) && Distinct(order)
        invariant processed == Range(order) && processed <= groups.Keys
        invariant Visited(world, selected, old(tick), tick, visits, asked)
        invariant Earned(world, visits, order, old(remembered), remembered)
        invariant OfHosts(order, hosts[..i])
        invariant HostsDecided(world, old(tick), tick, keys, hosts[..i], processed)
      {
        assert hosts[i] in Range(hosts);
        OfHostDistinct(keys, hosts[i]);
        var done, s, f;
        ghost var askedMore, storedMore, visitsMore;
        ghost var before, already, middle, known := asked, stored, tick, resolver.Known();
        ghost var cache, seen := remembered, visits;
        done, s, f, err, askedMore, storedMore, visitsMore := VisitHost(keysByHost[hosts[i]], groups, selected);
        asked, stored, visits := before + askedMore, already + storedMore, seen + visitsMore;
        TraceJoin(world, old(tick), old(resolver.Known()), before, middle, known, askedMore, tick, resolver.Known());
        JoinAssociates(old(answers), before, askedMore);
        JoinAssociates(old(upserts), already, storedMore);
        OnlyAboutBoth(selected, already, storedMore);
        TraceTimes(world, old(tick), old(resolver.Known()), before, middle, known);
        TraceTimes(world, middle, known, askedMore, tick, resolver.Known());
        VisitedMore(world, selected, old(tick), middle, tick, seen, before, visitsMore, askedMore);
        if err.Some? {
          StorageFailedLater(world, middle, tick, err.value, old(tick), tick);
          return;
        }
        EarnedMore(world, seen, order, old(remembered), cache, visitsMore, done, remembered);
        NextHostDecided(world, old(tick), middle, tick, keys, hosts, i, order, done);
        HostIsNew(order, done, hosts, i);
        PassedMore(world, selected, order, before, already, succeeded, failed, done, askedMore, storedMore, s, f);
        succeeded, failed := succeeded + s, failed + f;
        order := order + done;
        processed := processed + Range(done);
      }
      assert hosts[..|hosts|] == hosts;
      EveryHostDecided(world, old(tick), tick, keys, hosts, processed);
    }

    /** syncRepositoryGroups: the repositories the first pass left out, one by one. */
    method SyncRepositoryGroups(
      keys: seq<RepositoryKey>, groups: map<RepositoryKey, seq<PullRequest>>, processed: set<RepositoryKey>,
      ghost selected: seq<PullRequest>)
      returns (succeeded: nat, failed: nat, err: Option<Failure>, ghost order: seq<RepositoryKey>,
        ghost asked: seq<Answer>, ghost stored: seq<PullRequest>, ghost visits: seq<Visit>)
      requires resolver.Valid() && DistinctTasks(selected) && Grouped(selected, groups)
      requires Distinct(keys) && Range(keys) == groups.Keys
      modifies this`tick, this`answers, this`upserts, this`remembered, resolver
      ensures resolver.Valid() && answers == old(answers) + asked && upserts == old(upserts) + stored
      ensures Trace(world, old(tick), old(resolver.Known()), asked, tick, resolver.Known())
      ensures OnlyAbout(selected, stored)
      ensures err.Some? ==> StorageFailed(world, old(tick), tick, err.value)
      ensures err.None? ==> Passed(world, selected, order, asked, stored, succeeded, failed) && Distinct(order)
      ensures Visited(world, selected, old(tick), tick, visits, asked)
      ensures err.None? ==> Earned(world, visits, order, old(remembered), remembered)
      ensures err.None? ==> Range(order) == groups.Keys - processed
    {
      hide Visited, Earned, Passed, DistinctTasks, OfKey, Trace, StorageFailed, OnlyAbout;
      succeeded, failed, err, order, asked, stored, visits := 0, 0, None, [], [], [], [];
      VisitedNothing(world, selected, tick, remembered);
      PassedNothing(world, selected);
      NothingIsAbout(selected);
      NoTrace(world, tick, resolver.Known());
      assert answers == old(answers) + asked && upserts == old(upserts) + stored;
      for i := 0 to |keys|
        invariant resolver.Valid() && Trace(world, old(tick), old(resolver.Known()), asked, tick, resolver.Known())
        invariant OnlyAbout(selected, stored)
        invariant err.None? && answers == old(answers) + asked && upserts == old(upserts) + stored
        invariant Passed(world, selected, order, asked, stored, succeeded, failed) && Distinct(order)
        invariant Visited(world, selected, old(tick), tick, visits, asked)
        invariant Earned(world, visits, order, old(remembered), remembered)
        invariant Range(order) == Range(keys[..i]) - processed
      {
        RangeNext(keys, i);
        if keys[i] in processed {
          continue;
        }
        assert keys[i] in Range(keys);
        var s, f;
        ghost var askedMore, storedMore, visit;
        ghost var before, already, middle, known := asked, stored, tick, resolver.Known();
        ghost var cache, seen := remembered, visits;
        s, f, err, askedMore, storedMore, visit := VisitRepository(keys[i], groups[keys[i]], selected);
        asked, stored, visits := before + askedMore, already + storedMore, seen + [visit];
        TraceJoin(world, old(tick), old(resolver.Known()), before, middle, known, askedMore, tick, resolver.Known());
        JoinAssociates(old(answers), before, askedMore);
        JoinAssociates(old(upserts), already, storedMore);
        OnlyAboutBoth(selected, already, storedMore);
        TraceTimes(world, old(tick), old(resolver.Known()), before, middle, known);
        TraceTimes(world, middle, known, askedMore, tick, resolver.Known());
        VisitedMore(world, selected, old(tick), middle, tick, seen, before, [visit], askedMore);
        if err.Some? {
          StorageFailedLater(world, middle, tick, err.value, old(tick), tick);
          return;
        }
        EarnedMore(world, seen, order, old(remembered), cache, [visit], [keys[i]], remembered);
        DistinctTogether(order, [keys[i]]);
        PassedMore(
          world, selected, order, before, already, succeeded, failed, [keys[i]], askedMore, storedMore, s, f);
        succeeded, failed := succeeded + s, failed + f;
        order := order + [keys[i]];
      }
      assert keys[..|keys|] == keys;
    }

    /** The credential that concluded a repository is written to the cache. */
    method Remember(key: RepositoryKey, authId: string) returns (err: Option<Failure>, ghost written: seq<CacheEntry>)
      modifies this`tick, this`remembered
      ensures old(tick) <= tick && (err.Some? ==> StorageFailed(world, old(tick), tick, err.value))
      ensures err.None? ==>
                remembered == old(remembered) + written
                && written == if world.hasCache && authId != "" then [CacheEntry(key, authId)] else []
    {
      err, written := None, [];
      if world.hasCache && authId != "" {
        err := world.cachePut(tick);
        tick := tick + 1;
        if err.Some? {
          CachePutFails(world, old(tick), err.value);
          return;
        }
        written := [CacheEntry(key, authId)];
        remembered := remembered + [CacheEntry(key, authId)];
      }
    }

    /** One repository of syncRepositoryGroups. */
    method VisitRepository(key: RepositoryKey, values: seq<PullRequest>, ghost selected: seq<PullRequest>)
      returns (succeeded: nat, failed: nat, err: Option<Failure>, ghost asked: seq<Answer>,
        ghost stored: seq<PullRequest>, ghost visit: Visit)
      requires resolver.Valid() && DistinctTasks(selected) && values == OfKey(selected, key)
      modifies this`tick, this`answers, this`upserts, this`remembered, resolver
      ensures resolver.Valid() && answers == old(answers) + asked && upserts == old(upserts) + stored
      ensures Trace(world, old(tick), old(resolver.Known()), asked, tick, resolver.Known())
      ensures OnlyAbout(selected, stored)
      ensures err.Some? ==> StorageFailed(world, old(tick), tick, err.value)
      ensures err.None? ==> Passed(world, selected, [key], asked, stored, succeeded, failed)
      ensures Visited(world, selected, old(tick), tick, [visit], asked)
      ensures err.None? ==> Earned(world, [visit], [key], old(remembered), remembered)
    {
      hide Visited, Earned, UsesCredentials, RememberedFor, Remembers, Caused, Trace, StorageFailed, Concluded;
      hide OnlyAbout, KeepsIdentity, AllFresh;
      succeeded, failed, stored := 0, 0, [];
      assert upserts == old(upserts) + stored;
      NothingIsAbout(selected);
      FlattenOne(selected, key);
      FlattenDistinct(selected, [key]);
      var result;
      result, err, asked := SyncRepository(key, values);
      ghost var middle, known := tick, resolver.Known();
      TraceTimes(world, old(tick), old(resolver.Known()), asked, middle, known);
      visit := Visit([key], old(tick), asked, []);
      if err.Some? {
        RepositoryVisited(world, selected, visit, tick);
        return;
      }
      ghost var written;
      err, written := Remember(key, result.authId);
      visit := Visit([key], old(tick), asked, written);
      if err.Some? {
        RepositoryVisited(world, selected, visit, tick);
        TraceLater(world, old(tick), old(resolver.Known()), asked, middle, known, tick);
        StorageFailedLater(world, middle, tick, err.value, old(tick), tick);
        return;
      }
      ghost var start := tick;
      ConcludedIsFresh(selected, values, asked, result);
      succeeded, failed, err, stored := PersistSyncResult(values, result);
      StoredIsAbout(selected, values, result, stored);
      TraceLater(world, old(tick), old(resolver.Known()), asked, middle, known, tick);
      RepositoryVisited(world, selected, visit, tick);
      if err.Some? {
        StorageFailedLater(world, start, tick, err.value, old(tick), tick);
      } else {
        RepositoryEarned(world, visit, result.authId, old(remembered), remembered);
        AllStoredSettles(world, key.host, values, asked, result, stored);
      }
    }

    /**
      syncLive: without a storage error every selected pull request is stored exactly once, fresh exactly when
      some provider answered for it without an error and otherwise with the reason why none did, and the counts
      tell how each one ended.
     */
    method SyncLive(
      pullRequests: seq<PullRequest>, taskFeature: map<string, string>, featureId: string, taskId: string)
      returns (succeeded: nat, failed: nat, err: Option<Failure>, ghost order: seq<PullRequest>,
        ghost asked: seq<Answer>, ghost stored: seq<PullRequest>, ghost visits: seq<Visit>)
      requires resolver.Valid() && DistinctTasks(pullRequests)
      modifies this`tick, this`answers, this`upserts, this`remembered, resolver
      ensures resolver.Valid() && answers == old(answers) + asked && upserts == old(upserts) + stored
      ensures Trace(world, old(tick), old(resolver.Known()), asked, tick, resolver.Known())
      ensures err.Some? ==> StorageFailed(world, old(tick), tick, err.value)
      ensures StorageWorks(world) ==> err.None?
      ensures OnlyAbout(Selected(pullRequests, taskFeature, featureId, taskId), stored)
      ensures Visited(
                world, Selected(pullRequests, taskFeature, featureId, taskId), old(tick), tick, visits, asked)
      ensures err.None? ==>
                var keys := KeysIn(visits);
                Distinct(keys) && Earned(world, visits, keys, old(remembered), remembered)
                && order == Flatten(Selected(pullRequests, taskFeature, featureId, taskId), keys)
      ensures err.None? ==> multiset(order) == multiset(Selected(pullRequests, taskFeature, featureId, taskId))
      ensures err.None? ==> Settled(world, order, asked, stored)
      ensures err.None? ==> succeeded == Count(IsRefreshedNow, stored) && failed == Count(NeedsAttention, stored)
      ensures err.None? ==>
                succeeded + failed + Count(IsQuiet, stored)
                == |Selected(pullRequests, taskFeature, featureId, taskId)|
    {
      hide Passed, Settled, Grouped, DistinctTasks, Selected, Count, AscendingBy, Trace, StorageFailed;
      hide StorageWorks, OnlyAbout, Visited, Flatten, Distinct;
      order := [];
      ghost var selected := Selected(pullRequests, taskFeature, featureId, taskId);
      SelectedDistinct(pullRequests, taskFeature, featureId, taskId);
      var groups, keys := GroupPullRequests(pullRequests, taskFeature, featureId, taskId);
      var processed;
      ghost var hostOrder, hostAsked, hostStored, hostVisits;
      processed, succeeded, failed, err, hostOrder, hostAsked, hostStored, hostVisits :=
        SyncUncachedHostGroups(keys, groups, selected);
      asked, stored, visits := hostAsked, hostStored, hostVisits;
      if err.Some? {
        StorageDidFail(world, old(tick), tick, err.value);
        return;
      }
      ghost var middle, known, cache := tick, resolver.Known(), remembered;
      var s, f;
      ghost var restOrder, restAsked, restStored, restVisits;
      s, f, err, restOrder, restAsked, restStored, restVisits :=
        SyncRepositoryGroups(keys, groups, processed, selected);
      asked, stored, visits := hostAsked + restAsked, hostStored + restStored, hostVisits + restVisits;
      TraceJoin(
        world, old(tick), old(resolver.Known()), hostAsked, middle, known, restAsked, tick, resolver.Known());
      JoinAssociates(old(answers), hostAsked, restAsked);
      JoinAssociates(old(upserts), hostStored, restStored);
      OnlyAboutBoth(selected, hostStored, restStored);
      TraceTimes(world, old(tick), old(resolver.Known()), hostAsked, middle, known);
      TraceTimes(world, middle, known, restAsked, tick, resolver.Known());
      VisitedMore(world, selected, old(tick), middle, tick, hostVisits, hostAsked, restVisits, restAsked);
      ghost var s0, f0 := succeeded, failed;
      succeeded, failed := succeeded + s, failed + f;
      if err.Some? {
        StorageFailedLater(world, middle, tick, err.value, old(tick), tick);
        StorageDidFail(world, old(tick), tick, err.value);
      } else {
        DistinctTogether(hostOrder, restOrder);
        EarnedMore(world, hostVisits, hostOrder, old(remembered), cache, restVisits, restOrder, remembered);
        PassedMore(world, selected, hostOrder, hostAsked, hostStored, s0, f0, restOrder, restAsked, restStored, s, f);
        order := EverySelected(world, selected, groups, hostOrder + restOrder, asked, stored, succeeded, failed);
      }
    }
  }
}
