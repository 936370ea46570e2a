/** What one synchronisation has learnt and what it stores: the values behind internal/app/github_sync.go. */
module Outcomes {
  import opened Text
  import opened Status
  import opened GitHub
  import opened FetchBatch
  import opened Resolving

  /**
    A credential that was tried for some values: the calls this took, what was known of credentials before, what
    came back, and whether anything was fetched at all.
   */
  datatype Answer = Answer(
    candidate: Candidate, values: seq<PullRequest>, first: nat, past: nat, before: Credentials, batch: Batch,
    failure: Option<Failure>, fetched: bool)

  /** The credential could not be opened, or did not see the repository. */
  function NotFetched(
    candidate: Candidate, values: seq<PullRequest>, first: nat, past: nat, before: Credentials, failure: Failure)
    : Answer
  {
    Answer(candidate, values, first, past, before, EMPTY_BATCH, Some(failure), false)
  }

  /** repositorySyncResult. */
  datatype SyncResult = SyncResult(
    successes: map<string, PullRequest>, partials: map<string, PullRequest>, failures: map<string, Failure>,
    authId: string)

  const EMPTY_RESULT: SyncResult := SyncResult(map[], map[], map[], "")

  /** The errors that another credential might cure. */
  predicate IsFallback(kind: ErrorClass) {
    kind.AuthUnavailable? || kind.Unauthorized? || kind.Permission? || kind.NotFound?
  }

  predicate NoFallback(failures: map<string, Failure>) {
    forall id :: id in failures ==> !IsFallback(failures[id].kind)
  }

  /** The records of a batch that came without an error. */
  function Clean(batch: Batch): map<string, PullRequest> {
    map id | id in batch.pullRequests && id !in batch.errors :: batch.pullRequests[id]
  }

  /** The records of a batch that came with an error. */
  function Unclean(batch: Batch): map<string, PullRequest> {
    (map id | id in batch.pullRequests && id in batch.errors :: batch.pullRequests[id]) + batch.partials
  }

  /** Everything found so far; a later answer replaces an earlier one. */
  function Found(answers: seq<Answer>): map<string, PullRequest> {
    if answers == [] then map[]
    else Found(answers[..|answers| - 1]) + Clean(answers[|answers| - 1].batch)
  }

  function FoundPartly(answers: seq<Answer>): map<string, PullRequest> {
    if answers == [] then map[]
    else FoundPartly(answers[..|answers| - 1]) + Unclean(answers[|answers| - 1].batch)
  }

  lemma JoinAssociates<T>(a: seq<T>, b: seq<T>, c: seq<T>)
    ensures (a + b) + c == a + (b + c)
  {
  }

  lemma LastOfJoin<T>(a: seq<T>, b: seq<T>)
    requires b != []
    ensures (a + b)[..|a + b| - 1] == a + b[..|b| - 1]
    ensures (a + b)[|a + b| - 1] == b[|b| - 1]
  {
  }

  lemma PlusAssociates<T, U>(a: map<T, U>, b: map<T, U>, c: map<T, U>)
    ensures (a + b) + c == a + (b + c)
  {
  }

  lemma {:induction false} FoundJoin(a: seq<Answer>, b: seq<Answer>)
    ensures Found(a + b) == Found(a) + Found(b)
    ensures FoundPartly(a + b) == FoundPartly(a) + FoundPartly(b)
  {
    if b == [] {
      assert a + b == a;
    } else {
      var last := |b| - 1;
      FoundJoin(a, b[..last]);
      LastOfJoin(a, b);
      PlusAssociates(Found(a), Found(b[..last]), Clean(b[last].batch));
      PlusAssociates(FoundPartly(a), FoundPartly(b[..last]), Unclean(b[last].batch));
    }
  }

  lemma FoundKeys(a: seq<Answer>, b: seq<Answer>)
    ensures Found(a + b).Keys == Found(a).Keys + Found(b).Keys
  {
    FoundJoin(a, b);
  }

  lemma FoundOne(answer: Answer)
    ensures Found([answer]) == Clean(answer.batch)
    ensures FoundPartly([answer]) == Unclean(answer.batch)
  {
  }

  // ----- why a pull request was not refreshed -----

  function NoAuthMethod(host: string): Failure {
    Failure(Other, 0, "GitHub host " + host + " has no authentication method")
  }

  function NoUsableAuth(host: string): Failure {
    Failure(Other, 0, "no usable GitHub authentication method for host " + host)
  }

  /** In one of the calls the pull request's repository was answered with this error. */
  ghost predicate ProbeFailed(world: World, first: nat, past: nat, v: PullRequest, f: Failure) {
    exists t: nat :: first <= t < past && world.probe(t, v.owner, v.repository) == Some(f)
  }

  /** In one of the calls the pull request's repository could be seen. */
  ghost predicate RepositorySeen(world: World, first: nat, past: nat, v: PullRequest) {
    exists t: nat, owner, repository :: first <= t < past && world.probe(t, owner, repository).None?
      && Lower(owner) == Lower(v.owner) && Lower(repository) == Lower(v.repository)
  }

  /** A recorded failure is the answer's own, unless that said "not found": then the repository has decided. */
  ghost predicate Explained(world: World, first: nat, past: nat, v: PullRequest, e: Failure, f: Failure) {
    || (f == e && !e.kind.NotFound?)
    || (e.kind.NotFound? && f == MissingPull(v) && RepositorySeen(world, first, past, v))
    || (e.kind.NotFound? && ProbeFailed(world, first, past, v, f))
  }

  /** The first call of the attempt was to open the credential, which failed. */
  ghost predicate NotOpened(world: World, a: Answer) {
    && a.failure.Some? && a.failure == OpenOutcome(world, a.first, a.candidate, a.before)
    && a.batch == EMPTY_BATCH && !a.fetched
  }

  /** The credential was opened, and one of the calls failed to see the repository. */
  ghost predicate NotSeen(world: World, a: Answer) {
    && OpenOutcome(world, a.first, a.candidate, a.before).None?
    && a.values != [] && a.failure.Some? && ProbeFailed(world, a.first, a.past, a.values[0], a.failure.value)
    && a.batch == EMPTY_BATCH && !a.fetched
  }

  /** The credential was opened, and what came back is what the calls of a fetch were answered. */
  ghost predicate WasFetched(world: World, a: Answer) {
    && OpenOutcome(world, a.first, a.candidate, a.before).None? && a.fetched
    && exists calls: Calls :: calls.transport == world.transport && a.first <= calls.first && calls.past <= a.past
         && FetchedFrom(calls, a.values, a.batch, a.failure)
  }

  /** Nothing about the attempt is made up. */
  ghost predicate Genuine(world: World, a: Answer) {
    a.first < a.past && (NotOpened(world, a) || NotSeen(world, a) || WasFetched(world, a))
  }

  /** An answer about this pull request was an error. */
  ghost predicate OwnError(world: World, asked: seq<Answer>, v: PullRequest, f: Failure) {
    exists a :: a in asked && Genuine(world, a) && v in a.values && v.taskId in a.batch.errors
      && Explained(world, a.first, a.past, v, a.batch.errors[v.taskId], f)
  }

  /** An attempt on all of the work failed as a whole. */
  ghost predicate Stopped(world: World, asked: seq<Answer>, f: Failure, work: seq<PullRequest>) {
    exists a :: a in asked && Genuine(world, a) && a.failure == Some(f) && forall v :: v in work ==> v in a.values
  }

  /** The credential was tried for all of the work. */
  ghost predicate Tried(world: World, asked: seq<Answer>, c: Candidate, work: seq<PullRequest>) {
    exists a :: a in asked && Genuine(world, a) && a.candidate == c && forall v :: v in work ==> v in a.values
  }

  ghost predicate AllTried(world: World, candidates: seq<Candidate>, asked: seq<Answer>, work: seq<PullRequest>) {
    forall c :: c in candidates ==> Tried(world, asked, c, work)
  }

  /**
    What the recorded failure goes back to: an error about the pull request itself, the failure of a whole
    attempt, or that every credential of the host was tried for it in vain.
   */
  ghost predicate Cause(
    world: World, host: string, asked: seq<Answer>, v: PullRequest, f: Failure)
  {
    || OwnError(world, asked, v, f)
    || Stopped(world, asked, f, [v])
    || (f == NoUsableAuth(host) && AllTried(world, world.candidates(host), asked, [v]))
    || (f == NoAuthMethod(host) && world.candidates(host) == [])
  }

  ghost predicate Caused(
    world: World, host: string, values: seq<PullRequest>, asked: seq<Answer>, failures: map<string, Failure>)
  {
    forall v :: v in values && v.taskId in failures ==>
      Cause(world, host, asked, v, failures[v.taskId])
  }

  lemma TriedMore(
    world: World, asked: seq<Answer>, c: Candidate, work: seq<PullRequest>, asked': seq<Answer>,
    work': seq<PullRequest>)
    requires Tried(world, asked, c, work)
    requires (forall a :: a in asked ==> a in asked') && (forall v :: v in work' ==> v in work)
    ensures Tried(world, asked', c, work')
  {
    hide Genuine;
  }

  lemma AllTriedMore(
    world: World, candidates: seq<Candidate>, asked: seq<Answer>, work: seq<PullRequest>, asked': seq<Answer>,
    work': seq<PullRequest>)
    requires AllTried(world, candidates, asked, work)
    requires (forall a :: a in asked ==> a in asked') && (forall v :: v in work' ==> v in work)
    ensures AllTried(world, candidates, asked', work')
  {
    hide Genuine;
  }

  /** Causes stay causes as more is learnt. */
  lemma CauseMore(
    world: World, host: string, asked: seq<Answer>, v: PullRequest, f: Failure, asked': seq<Answer>)
    requires Cause(world, host, asked, v, f) && forall a :: a in asked ==> a in asked'
    ensures Cause(world, host, asked', v, f)
  {
    hide Genuine, Explained;
  }

  lemma CausedMore(
    world: World, host: string, values: seq<PullRequest>, asked: seq<Answer>, failures: map<string, Failure>,
    more: seq<Answer>)
    requires Caused(world, host, values, asked, failures)
    ensures Caused(world, host, values, asked + more, failures)
  {
    hide Genuine, Explained;
  }

  lemma CausedTogether(
    world: World, host: string, values: seq<PullRequest>, asked: seq<Answer>, a: map<string, Failure>,
    b: map<string, Failure>)
    requires Caused(world, host, values, asked, a) && Caused(world, host, values, asked, b)
    ensures Caused(world, host, values, asked, a + b)
  {
    hide Cause;
  }

  /** Errors about some of the values cause the failures that are recorded for them. */
  lemma CausedByErrors(
    world: World, host: string, values: seq<PullRequest>, work: seq<PullRequest>, answer: Answer,
    failures: map<string, Failure>)
    requires DistinctTasks(values) && forall v :: v in work ==> v in values
    requires failures.Keys <= TaskIds(work) && Genuine(world, answer) && answer.values == work
    requires forall v :: v in work && v.taskId in failures ==>
               v.taskId in answer.batch.errors
               && Explained(
                 world, answer.first, answer.past, v, answer.batch.errors[v.taskId], failures[v.taskId])
    ensures Caused(world, host, values, [answer], failures)
  {
    hide Genuine, Explained;
  }

  lemma CausedByStop(
    world: World, host: string, values: seq<PullRequest>, work: seq<PullRequest>, asked: seq<Answer>, f: Failure,
    before: map<string, Failure>, after: map<string, Failure>)
    requires DistinctTasks(values) && (forall v :: v in work ==> v in values)
    requires Caused(world, host, values, asked, before) && Stopped(world, asked, f, work)
    requires forall id :: id in after ==>
               if id in TaskIds(work) then after[id] == f else id in before && after[id] == before[id]
    ensures Caused(world, host, values, asked, after)
  {
    hide Genuine, Explained;
  }

  lemma CausedByGivingUp(
    world: World, host: string, values: seq<PullRequest>, work: seq<PullRequest>, asked: seq<Answer>,
    before: map<string, Failure>, after: map<string, Failure>)
    requires DistinctTasks(values) && (forall v :: v in work ==> v in values)
    requires Caused(world, host, values, asked, before)
    requires work == [] || AllTried(world, world.candidates(host), asked, work)
    requires after.Keys == before.Keys + TaskIds(work)
    requires forall id :: id in after ==> after[id] == if id in before then before[id] else NoUsableAuth(host)
    ensures Caused(world, host, values, asked, after)
  {
    hide Genuine, Explained;
  }

  // ----- how the credentials were used -----

  /** The error that ended an attempt: of the whole attempt, of one pull request, or of its repository. */
  ghost predicate Halted(world: World, a: Answer, f: Failure) {
    || a.failure == Some(f)
    || (exists v :: v in a.values && v.taskId in a.batch.errors
          && (f == a.batch.errors[v.taskId] || ProbeFailed(world, a.first, a.past, v, f)))
  }

  /** The attempt showed that the credential is unauthorized. */
  ghost predicate IsRefused(world: World, a: Answer) {
    exists f: Failure :: f.kind.Unauthorized? && Halted(world, a, f)
  }

  function Opened(world: World, a: Answer): Credentials {
    AfterOpen(world, a.first, a.candidate, a.before)
  }

  /** What is known after an attempt: a credential is refused for good only when the attempt has shown why. */
  ghost predicate TraceStep(world: World, a: Answer, past: nat, known: Credentials) {
    && Genuine(world, a) && a.past <= past
    && (known == Opened(world, a)
        || (IsRefused(world, a)
            && known == Opened(world, a).(unauthorized := a.before.unauthorized + {a.candidate.id})))
  }

  /** The attempts took place one after the other between two numbers of calls, each knowing what those before left. */
  ghost predicate Trace(
    world: World, first: nat, known: Credentials, asked: seq<Answer>, past: nat, known': Credentials)
  {
    if asked == [] then first <= past && known' == known
    else
      var last := asked[|asked| - 1];
      && Trace(world, first, known, asked[..|asked| - 1], last.first, last.before)
      && TraceStep(world, last, past, known')
  }

  lemma TraceOne(world: World, first: nat, a: Answer, past: nat, known: Credentials)
    requires first <= a.first && TraceStep(world, a, past, known)
    ensures Trace(world, first, a.before, [a], past, known)
  {
    hide TraceStep;
    assert [a][..0] == [];
  }

  lemma {:induction false} TraceJoin(
    world: World, first: nat, known: Credentials, a: seq<Answer>, middle: nat, known': Credentials,
    b: seq<Answer>, past: nat, known'': Credentials)
    requires Trace(world, first, known, a, middle, known') && Trace(world, middle, known', b, past, known'')
    ensures Trace(world, first, known, a + b, past, known'')
  {
    hide TraceStep;
    if b == [] {
      TraceLater(world, first, known, a, middle, known', past);
      assert a + b == a;
    } else {
      var last := b[|b| - 1];
      TraceJoin(world, first, known, a, middle, known', b[..|b| - 1], last.first, last.before);
      LastOfJoin(a, b);
    }
  }

  lemma TraceLater(
    world: World, first: nat, known: Credentials, asked: seq<Answer>, past: nat, known': Credentials, later: nat)
    requires Trace(world, first, known, asked, past, known') && past <= later
    ensures Trace(world, first, known, asked, later, known')
  {
    hide Genuine, IsRefused, Opened;
  }

  lemma {:induction false} TraceEarlier(
    world: World, first: nat, known: Credentials, asked: seq<Answer>, past: nat, known': Credentials, earlier: nat)
    requires Trace(world, first, known, asked, past, known') && earlier <= first
    ensures Trace(world, earlier, known, asked, past, known')
  {
    hide TraceStep;
    if asked != [] {
      var last := asked[|asked| - 1];
      TraceEarlier(world, first, known, asked[..|asked| - 1], last.first, last.before, earlier);
    }
  }

  ghost predicate RefusedIn(world: World, asked: seq<Answer>, id: string) {
    exists a :: a in asked && a.candidate.id == id && IsRefused(world, a)
  }

  /** Nothing is made up in a run, and every attempt falls into it. */
  lemma {:induction false} TraceIsGenuine(
    world: World, first: nat, known: Credentials, asked: seq<Answer>, past: nat, known': Credentials)
    requires Trace(world, first, known, asked, past, known')
    ensures first <= past
    ensures forall a :: a in asked ==> Genuine(world, a) && first <= a.first && a.past <= past
  {
    if asked != [] {
      hide NotOpened, NotSeen, WasFetched, IsRefused, Opened;
      var last := asked[|asked| - 1];
      TraceIsGenuine(world, first, known, asked[..|asked| - 1], last.first, last.before);
      assert forall a :: a in asked ==> a in asked[..|asked| - 1] || a == last;
    }
  }

  lemma TraceParts(
    world: World, first: nat, known: Credentials, asked: seq<Answer>, past: nat, known': Credentials)
    requires Trace(world, first, known, asked, past, known')
    ensures asked == [] ==> known' == known && first <= past
    ensures asked != [] ==>
              var last := asked[|asked| - 1];
              Trace(world, first, known, asked[..|asked| - 1], last.first, last.before)
              && TraceStep(world, last, past, known')
  {
    hide TraceStep;
  }

  lemma RefusedByStep(world: World, a: Answer, past: nat, known: Credentials)
    requires TraceStep(world, a, past, known)
    ensures a.before.unauthorized <= known.unauthorized
    ensures forall id :: id in known.unauthorized && id !in a.before.unauthorized ==>
              id == a.candidate.id && IsRefused(world, a)
    ensures a.fetched ==> a.candidate.id !in a.before.unauthorized
  {
    hide FetchedFrom, ProbeFailed, IsRefused;
  }

  lemma RefusedInMore(world: World, asked: seq<Answer>, a: Answer, id: string)
    ensures RefusedIn(world, asked, id) ==> RefusedIn(world, asked + [a], id)
    ensures a.candidate.id == id && IsRefused(world, a) ==> RefusedIn(world, asked + [a], id)
  {
    hide IsRefused;
    assert a in asked + [a];
  }

  /** Only credentials that an attempt has shown to be unauthorized are refused, and they are refused for good. */
  lemma {:induction false} RefusedForGood(
    world: World, first: nat, known: Credentials, asked: seq<Answer>, past: nat, known': Credentials)
    requires Trace(world, first, known, asked, past, known')
    ensures known.unauthorized <= known'.unauthorized
    ensures forall id :: id in known'.unauthorized && id !in known.unauthorized ==> RefusedIn(world, asked, id)
  {
    hide Trace, TraceStep, IsRefused, RefusedIn;
    TraceParts(world, first, known, asked, past, known');
    if asked != [] {
      var last, rest := asked[|asked| - 1], asked[..|asked| - 1];
      RefusedForGood(world, first, known, rest, last.first, last.before);
      RefusedByStep(world, last, past, known');
      assert asked == rest + [last];
      forall id | id in known'.unauthorized && id !in known.unauthorized
        ensures RefusedIn(world, asked, id)
      {
        RefusedInMore(world, rest, last, id);
      }
    }
  }

  /** Nothing is fetched with a credential once it is refused. */
  lemma {:induction false} RefusedIsNotUsed(
    world: World, first: nat, known: Credentials, asked: seq<Answer>, past: nat, known': Credentials, i: nat)
    requires Trace(world, first, known, asked, past, known') && i < |asked|
    ensures known.unauthorized <= asked[i].before.unauthorized <= known'.unauthorized
    ensures asked[i].fetched ==> asked[i].candidate.id !in asked[i].before.unauthorized
  {
    var last, rest := asked[|asked| - 1], asked[..|asked| - 1];
    hide Trace, TraceStep;
    TraceParts(world, first, known, asked, past, known');
    RefusedForGood(world, first, known, rest, last.first, last.before);
    RefusedByStep(world, last, past, known');
    if i < |asked| - 1 {
      RefusedIsNotUsed(world, first, known, rest, last.first, last.before, i);
    }
  }

  /** The failure came from the outside: configuring a provider, looking for a repository, or asking for a chunk. */
  ghost predicate FromOutside(world: World, first: nat, past: nat, a: Answer, f: Failure) {
    || (exists t: nat :: first <= t < past && world.configure(t) == Some(f))
    || (a.values != [] && ProbeFailed(world, first, past, a.values[0], f))
    || (exists n: nat :: n * CHUNK_SIZE < |a.values|
          && ChunkFailed(Calls(world.transport, first, past), ChunkAt(a.values, n), f))
  }

  /** A failure that stopped a whole attempt for good was answered by the outside in one of the calls of the run. */
  lemma StopsComeFromOutside(
    world: World, first: nat, known: Credentials, asked: seq<Answer>, past: nat, known': Credentials, f: Failure,
    work: seq<PullRequest>)
    returns (a: Answer)
    requires Trace(world, first, known, asked, past, known') && Stopped(world, asked, f, work)
    requires !IsFallback(f.kind)
    ensures a in asked && (forall v :: v in work ==> v in a.values) && FromOutside(world, first, past, a, f)
  {
    hide FetchedFrom, ChunkFailed, OpenOutcome;
    TraceIsGenuine(world, first, known, asked, past, known');
    a :| a in asked && Genuine(world, a) && a.failure == Some(f) && forall v :: v in work ==> v in a.values;
    if NotOpened(world, a) {
      OpenFailsFinally(world, a.first, a.candidate, a.before);
    } else if NotSeen(world, a) {
      var t: nat :| a.first <= t < a.past && world.probe(t, a.values[0].owner, a.values[0].repository) == Some(f);
    } else {
      var calls: Calls :| calls.transport == world.transport && a.first <= calls.first && calls.past <= a.past
        && FetchedFrom(calls, a.values, a.batch, a.failure);
      FailureOfFetch(calls, a.values, a.batch, f, Calls(world.transport, first, past));
    }
  }

  lemma FailureOfFetch(calls: Calls, values: seq<PullRequest>, batch: Batch, f: Failure, more: Calls)
    requires FetchedFrom(calls, values, batch, Some(f)) && Within(calls, more)
    ensures exists n: nat :: n * CHUNK_SIZE < |values| && ChunkFailed(more, ChunkAt(values, n), f)
  {
    hide ChunkFailed, ChunksAnswered, StoppedAt;
    var n: nat :| StoppedBy(calls, values, batch, n, f);
    FailedLater(calls, ChunkAt(values, n), f, more);
  }

  // ----- what a group of pull requests ends with -----

  /** The records are exactly those the answers hold, and each is about one of the values. */
  ghost predicate Recovered(
    values: seq<PullRequest>, asked: seq<Answer>, successes: map<string, PullRequest>,
    partials: map<string, PullRequest>)
  {
    && successes == Found(asked) && partials == FoundPartly(asked)
    && AllRefresh(values, successes) && AllFresh(successes) && AllRefresh(values, partials)
  }

  lemma PlusRefreshes(
    values: seq<PullRequest>, a: map<string, PullRequest>, part: seq<PullRequest>, b: map<string, PullRequest>)
    requires AllRefresh(values, a) && AllRefresh(part, b) && forall v :: v in part ==> v in values
    ensures AllRefresh(values, a + b)
  {
  }

  /** Asking again about some of the values adds what the answers hold. */
  lemma RecoveredMore(
    values: seq<PullRequest>, asked: seq<Answer>, successes: map<string, PullRequest>,
    partials: map<string, PullRequest>, part: seq<PullRequest>, asked': seq<Answer>,
    successes': map<string, PullRequest>, partials': map<string, PullRequest>)
    requires Recovered(values, asked, successes, partials) && Recovered(part, asked', successes', partials')
    requires forall v :: v in part ==> v in values
    ensures Recovered(values, asked + asked', successes + successes', partials + partials')
  {
    FoundJoin(asked, asked');
    PlusRefreshes(values, successes, part, successes');
    PlusRefreshes(values, partials, part, partials');
    MergeFresh(successes, successes');
  }

  /** Every pull request has an outcome, and no failure is one that another credential might cure. */
  ghost predicate Concluded(values: seq<PullRequest>, asked: seq<Answer>, result: SyncResult) {
    && result.successes.Keys + result.failures.Keys == TaskIds(values)
    && Recovered(values, asked, result.successes, result.partials)
    && NoFallback(result.failures)
  }

  const NO_RESULT: Failure := Failure(Other, 0, "GitHub synchronization did not produce a result")

  /** syncFailureValue: the record that is stored when no refresh succeeded, and whether it needs attention. */
  function SyncFailureValue(current: PullRequest, partial: PullRequest, failure: Option<Failure>, now: int)
    : (r: (PullRequest, bool))
    ensures r.0.stale && r.0.lastSyncedAt == Some(now) && r.0.taskId == current.taskId
    ensures r.1 <==> !IsOver(r.0.state)
    ensures !r.1 ==> r.0.syncError == ""
    ensures r.1 ==> r.0.syncError == failure.GetOr(NO_RESULT).message
    ensures r.0.state == if partial.state.UnknownState? then current.state else partial.state
  {
    var state := if partial.state.UnknownState? then current.state else partial.state;
    var value := partial.(taskId := current.taskId, lastSyncedAt := Some(now), stale := true, state := state);
    if IsOver(state) then (value.(syncError := ""), false)
    else (value.(syncError := failure.GetOr(NO_RESULT).message), true)
  }

  /** What persistSyncResult writes for one pull request. */
  predicate StoredFor(v: PullRequest, result: SyncResult, stored: PullRequest) {
    if v.taskId in result.successes then stored == result.successes[v.taskId]
    else
      stored.lastSyncedAt.Some?
      && stored == SyncFailureValue(
                     v, if v.taskId in result.partials then result.partials[v.taskId] else v,
                     if v.taskId in result.failures then Some(result.failures[v.taskId]) else None,
                     stored.lastSyncedAt.value).0
  }

  /** The outcome of one pull request: fresh exactly when some answer held it, otherwise marked as stale. */
  predicate SettledOne(v: PullRequest, found: map<string, PullRequest>, stored: PullRequest) {
    && SameIdentity(v, stored)
    && (v.taskId in found ==> stored == found[v.taskId] && IsFresh(stored))
    && (v.taskId !in found ==> stored.stale && (IsOver(stored.state) ==> stored.syncError == ""))
  }

  ghost predicate AllSettled(
    values: seq<PullRequest>, found: map<string, PullRequest>, stored: seq<PullRequest>)
  {
    && |stored| == |values|
    && (forall i {:trigger SettledOne(values[i], found, stored[i])} ::
          0 <= i < |values| ==> SettledOne(values[i], found, stored[i]))
  }

  /** A record that was not refreshed gives the reason, unless the pull request is over. */
  ghost predicate GivesReason(world: World, asked: seq<Answer>, v: PullRequest, stored: PullRequest) {
    exists f :: Cause(world, GroupKey(v).host, asked, v, f) && !IsFallback(f.kind)
      && (IsOver(stored.state) || stored.syncError == f.message)
  }

  ghost predicate AllGiveReasons(
    world: World, values: seq<PullRequest>, asked: seq<Answer>, stored: seq<PullRequest>)
  {
    && |stored| == |values|
    && (forall i {:trigger values[i]} :: 0 <= i < |values| && values[i].taskId !in Found(asked) ==>
          GivesReason(world, asked, values[i], stored[i]))
  }

  /** One stored record for each value, in order. */
  ghost predicate Settled(world: World, values: seq<PullRequest>, asked: seq<Answer>, stored: seq<PullRequest>) {
    && Found(asked).Keys <= TaskIds(values) && AllSettled(values, Found(asked), stored)
    && AllGiveReasons(world, values, asked, stored)
  }

  lemma StoredSettles(
    values: seq<PullRequest>, asked: seq<Answer>, result: SyncResult, v: PullRequest, stored: PullRequest)
    requires Concluded(values, asked, result) && DistinctTasks(values) && v in values
    requires StoredFor(v, result, stored)
    ensures SettledOne(v, Found(asked), stored)
  {
  }

  /** What a result leaves behind is reported in the records it stores. */
  lemma StoredReports(
    world: World, host: string, values: seq<PullRequest>, asked: seq<Answer>, result: SyncResult, v: PullRequest,
    stored: PullRequest)
    requires Concluded(values, asked, result) && Caused(world, host, values, asked, result.failures)
    requires v in values && GroupKey(v).host == host && StoredFor(v, result, stored)
    ensures v.taskId !in Found(asked) ==> GivesReason(world, asked, v, stored)
  {
    hide Cause, GroupKey;
    if v.taskId !in Found(asked) {
      assert v.taskId in TaskIds(values);
      var f := result.failures[v.taskId];
      assert Cause(world, host, asked, v, f) && !IsFallback(f.kind);
    }
  }

  // ----- joining groups -----

  lemma ReasonMore(world: World, asked: seq<Answer>, v: PullRequest, stored: PullRequest, asked': seq<Answer>)
    requires GivesReason(world, asked, v, stored) && forall a :: a in asked ==> a in asked'
    ensures GivesReason(world, asked', v, stored)
  {
    hide Cause;
    var f :| Cause(world, GroupKey(v).host, asked, v, f) && !IsFallback(f.kind)
      && (IsOver(stored.state) || stored.syncError == f.message);
    CauseMore(world, GroupKey(v).host, asked, v, f, asked');
  }

  lemma ReasonsJoin(
    world: World, values: seq<PullRequest>, asked: seq<Answer>, stored: seq<PullRequest>,
    values': seq<PullRequest>, asked': seq<Answer>, stored': seq<PullRequest>)
    requires AllGiveReasons(world, values, asked, stored) && AllGiveReasons(world, values', asked', stored')
    ensures AllGiveReasons(world, values + values', asked + asked', stored + stored')
  {
    FoundKeys(asked, asked');
    hide GivesReason, Found;
    forall i | 0 <= i < |values + values'| && (values + values')[i].taskId !in Found(asked + asked')
      ensures GivesReason(world, asked + asked', (values + values')[i], (stored + stored')[i])
    {
      if i < |values| {
        ReasonMore(world, asked, values[i], stored[i], asked + asked');
      } else {
        var j := i - |values|;
        ReasonMore(world, asked', values'[j], stored'[j], asked + asked');
      }
    }
  }

  lemma SettledMore(
    values: seq<PullRequest>, found: map<string, PullRequest>, stored: seq<PullRequest>,
    more: map<string, PullRequest>)
    requires AllSettled(values, found, stored)
    requires forall id :: id in TaskIds(values) ==>
               ((id in found <==> id in more) && (id in found ==> found[id] == more[id]))
    ensures AllSettled(values, more, stored)
  {
    forall i | 0 <= i < |values|
      ensures SettledOne(values[i], more, stored[i])
    {
      assert values[i].taskId in TaskIds(values);
      assert SettledOne(values[i], found, stored[i]);
    }
  }

  lemma SettledSideBySide(
    values: seq<PullRequest>, stored: seq<PullRequest>, values': seq<PullRequest>, stored': seq<PullRequest>,
    found: map<string, PullRequest>)
    requires AllSettled(values, found, stored) && AllSettled(values', found, stored')
    ensures AllSettled(values + values', found, stored + stored')
  {
  }

  lemma SettledJoin(
    world: World, values: seq<PullRequest>, asked: seq<Answer>, stored: seq<PullRequest>,
    values': seq<PullRequest>, asked': seq<Answer>, stored': seq<PullRequest>)
    requires Settled(world, values, asked, stored) && Settled(world, values', asked', stored')
    requires DistinctTasks(values + values')
    ensures Settled(world, values + values', asked + asked', stored + stored')
  {
    hide Cause, GivesReason;
    ReasonsJoin(world, values, asked, stored, values', asked', stored');
    FoundJoin(asked, asked');
    DistinctParts(values, values');
    assert TaskIds(values + values') == TaskIds(values) + TaskIds(values');
    var all := Found(asked + asked');
    assert all.Keys == Found(asked).Keys + Found(asked').Keys;
    SettledMore(values, Found(asked), stored, all);
    SettledMore(values', Found(asked'), stored', all);
    SettledSideBySide(values, stored, values', stored', all);
  }

  // ----- counting -----

  /** The record needs attention: its refresh failed and the pull request is not known to be over. */
  predicate NeedsAttention(stored: PullRequest) {
    stored.stale && !IsOver(stored.state)
  }

  /** The record is left alone: its refresh failed, but the pull request is already over. */
  predicate IsQuiet(stored: PullRequest) {
    stored.stale && IsOver(stored.state)
  }

  predicate IsRefreshedNow(stored: PullRequest) {
    !stored.stale
  }

  function Count(kind: PullRequest -> bool, stored: seq<PullRequest>): nat {
    if stored == [] then 0 else (if kind(stored[0]) then 1 else 0) + Count(kind, stored[1..])
  }

  lemma {:induction false} CountJoin(kind: PullRequest -> bool, a: seq<PullRequest>, b: seq<PullRequest>)
    ensures Count(kind, a + b) == Count(kind, a) + Count(kind, b)
  {
    if a == [] {
      assert a + b == b;
    } else {
      CountJoin(kind, a[1..], b);
      assert (a + b)[1..] == a[1..] + b;
    }
  }

  /** The counts that are reported: refreshed records, and records that need attention. */
  predicate CountedAs(stored: seq<PullRequest>, succeeded: nat, failed: nat) {
    succeeded == Count(IsRefreshedNow, stored) && failed == Count(NeedsAttention, stored)
  }

  lemma CountedTogether(a: seq<PullRequest>, b: seq<PullRequest>, s: nat, f: nat, s': nat, f': nat)
    requires CountedAs(a, s, f) && CountedAs(b, s', f')
    ensures CountedAs(a + b, s + s', f + f')
  {
    CountJoin(IsRefreshedNow, a, b);
    CountJoin(NeedsAttention, a, b);
  }

  /** Every stored record is counted as refreshed, as in need of attention, or as left alone. */
  lemma {:induction false} CountsAddUp(stored: seq<PullRequest>)
    ensures Count(IsRefreshedNow, stored) + Count(NeedsAttention, stored) + Count(IsQuiet, stored) == |stored|
  {
    if stored != [] {
      CountsAddUp(stored[1..]);
    }
  }

  // ----- grouping by repository -----

  /** The repository a record belongs to, regardless of case; a missing host means github.com. */
  function GroupKey(v: PullRequest): RepositoryKey {
    var host := Lower(Trim(v.host));
    RepositoryKey(if host == "" then "github.com" else host, Lower(v.owner), Lower(v.repository))
  }

  predicate IsSelected(v: PullRequest, taskFeature: map<string, string>, featureId: string, taskId: string) {
    && (taskId == "" || v.taskId == taskId)
    && (featureId == "" || (if v.taskId in taskFeature then taskFeature[v.taskId] else "") == featureId)
  }

  function Selected(
    values: seq<PullRequest>, taskFeature: map<string, string>, featureId: string, taskId: string)
    : (r: seq<PullRequest>)
    ensures forall v :: v in r <==> v in values && IsSelected(v, taskFeature, featureId, taskId)
  {
    if values == [] then []
    else
      Selected(values[..|values| - 1], taskFeature, featureId, taskId)
      + (if IsSelected(values[|values| - 1], taskFeature, featureId, taskId) then [values[|values| - 1]] else [])
  }

  /** When nothing is named everything is selected. */
  lemma {:induction false} SelectedAll(values: seq<PullRequest>, taskFeature: map<string, string>)
    ensures Selected(values, taskFeature, "", "") == values
  {
    if values != [] {
      var last := |values| - 1;
      SelectedAll(values[..last], taskFeature);
      assert IsSelected(values[last], taskFeature, "", "");
      assert values == values[..last] + [values[last]];
    }
  }

  lemma SelectedNext(
    values: seq<PullRequest>, i: nat, taskFeature: map<string, string>, featureId: string, taskId: string)
    requires i < |values|
    ensures Selected(values[..i + 1], taskFeature, featureId, taskId)
         == Selected(values[..i], taskFeature, featureId, taskId)
            + if IsSelected(values[i], taskFeature, featureId, taskId) then [values[i]] else []
  {
    assert values[..i + 1][..i] == values[..i];
  }

  lemma {:induction false} SelectedDistinct(
    values: seq<PullRequest>, taskFeature: map<string, string>, featureId: string, taskId: string)
    requires DistinctTasks(values)
    ensures DistinctTasks(Selected(values, taskFeature, featureId, taskId))
  {
    if values != [] {
      var last := |values| - 1;
      SelectedDistinct(values[..last], taskFeature, featureId, taskId);
      var before := Selected(values[..last], taskFeature, featureId, taskId);
      assert forall v :: v in before ==> v in values[..last];
      forall v | v in values[..last]
        ensures v.taskId != values[last].taskId
      {
      }
    }
  }

  /** The values of one repository, in their order. */
  function OfKey(values: seq<PullRequest>, key: RepositoryKey): (r: seq<PullRequest>)
    ensures forall v :: v in r <==> v in values && GroupKey(v) == key
  {
    if values == [] then []
    else
      OfKey(values[..|values| - 1], key)
      + (if GroupKey(values[|values| - 1]) == key then [values[|values| - 1]] else [])
  }

  lemma OfKeyNext(values: seq<PullRequest>, key: RepositoryKey)
    ensures values == [] ==> OfKey(values, key) == []
    ensures values != [] ==>
              OfKey(values, key)
              == OfKey(values[..|values| - 1], key)
                 + (if GroupKey(values[|values| - 1]) == key then [values[|values| - 1]] else [])
  {
    hide GroupKey;
  }

  lemma {:induction false} OfKeyCount(values: seq<PullRequest>, key: RepositoryKey, v: PullRequest)
    ensures multiset(OfKey(values, key))[v] == if GroupKey(v) == key then multiset(values)[v] else 0
  {
    hide OfKey, GroupKey;
    OfKeyNext(values, key);
    if values != [] {
      var last := |values| - 1;
      OfKeyCount(values[..last], key, v);
      assert values == values[..last] + [values[last]];
    }
  }

  /** The groups of the given keys, one after the other. */
  function Flatten(values: seq<PullRequest>, keys: seq<RepositoryKey>): seq<PullRequest> {
    if keys == [] then []
    else OfKey(values, keys[0]) + Flatten(values, keys[1..])
  }

  lemma {:induction false} FlattenJoin(values: seq<PullRequest>, a: seq<RepositoryKey>, b: seq<RepositoryKey>)
    ensures Flatten(values, a + b) == Flatten(values, a) + Flatten(values, b)
  {
    if a == [] {
      assert a + b == b;
    } else {
      hide OfKey;
      FlattenJoin(values, a[1..], b);
      assert (a + b)[0] == a[0] && (a + b)[1..] == a[1..] + b;
      JoinAssociates(OfKey(values, a[0]), Flatten(values, a[1..]), Flatten(values, b));
    }
  }

  lemma FlattenNext(values: seq<PullRequest>, keys: seq<RepositoryKey>, i: nat)
    requires i < |keys|
    ensures Flatten(values, keys[..i + 1]) == Flatten(values, keys[..i]) + OfKey(values, keys[i])
  {
    FlattenJoin(values, keys[..i], [keys[i]]);
    FlattenOne(values, keys[i]);
    assert keys[..i + 1] == keys[..i] + [keys[i]];
  }

  lemma FlattenOne(values: seq<PullRequest>, key: RepositoryKey)
    ensures Flatten(values, [key]) == OfKey(values, key)
  {
  }

  lemma {:induction false} FlattenCount(values: seq<PullRequest>, keys: seq<RepositoryKey>, v: PullRequest)
    requires Distinct(keys)
    ensures multiset(Flatten(values, keys))[v] == if GroupKey(v) in keys then multiset(values)[v] else 0
  {
    if keys != [] {
      FlattenCount(values, keys[1..], v);
      OfKeyCount(values, keys[0], v);
      assert keys == [keys[0]] + keys[1..];
      assert keys[0] !in keys[1..];
    }
  }

  /** Distinct keys never make a task appear twice. */
  lemma FlattenDistinct(values: seq<PullRequest>, keys: seq<RepositoryKey>)
    requires Distinct(keys) && DistinctTasks(values)
    ensures DistinctTasks(Flatten(values, keys))
  {
    var flat := Flatten(values, keys);
    MultisetOfDistinct(values);
    forall v | v in multiset(flat)
      ensures multiset(flat)[v] == 1 && v in values
    {
      FlattenCount(values, keys, v);
    }
    DistinctByMultiset(flat);
    forall i, j | 0 <= i < j < |flat|
      ensures flat[i].taskId != flat[j].taskId
    {
      assert flat[i] in multiset(flat) && flat[j] in multiset(flat);
      var k :| 0 <= k < |values| && values[k] == flat[i];
      var l :| 0 <= l < |values| && values[l] == flat[j];
      assert k != l;
    }
  }

  /** All repositories together hold every selected pull request once. */
  lemma FlattenIsPermutation(values: seq<PullRequest>, keys: seq<RepositoryKey>)
    requires Distinct(keys) && forall v :: v in values ==> GroupKey(v) in keys
    ensures multiset(Flatten(values, keys)) == multiset(values)
  {
    forall v
      ensures multiset(Flatten(values, keys))[v] == multiset(values)[v]
    {
      FlattenCount(values, keys, v);
      if v in multiset(values) {
        assert v in values;
      }
    }
  }

  /** Repositories are visited by host, then owner, then name. */
  predicate KeyBelow(a: RepositoryKey, b: RepositoryKey) {
    if a.host != b.host then Below(a.host, b.host)
    else if a.owner != b.owner then Below(a.owner, b.owner)
    else Below(a.repository, b.repository)
  }

  lemma KeyBelowIsOrdering()
    ensures IsOrdering(KeyBelow)
  {
    BelowIsOrdering();
    forall a, b | KeyBelow(a, b)
      ensures !KeyBelow(b, a)
    {
    }
    forall a, b, c | !KeyBelow(b, a) && !KeyBelow(c, b)
      ensures !KeyBelow(c, a)
    {
      KeyStep(a, b, c);
    }
  }

  lemma KeyStep(a: RepositoryKey, b: RepositoryKey, c: RepositoryKey)
    requires !KeyBelow(b, a) && !KeyBelow(c, b)
    ensures !KeyBelow(c, a)
  {
    BelowIsOrdering();
    BelowTotal(a.host, b.host);
    BelowTotal(b.host, c.host);
    BelowTotal(a.owner, b.owner);
    BelowTotal(b.owner, c.owner);
  }
}
