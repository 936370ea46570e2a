/** What the GitHub client hands to the synchronisation: errors, batches and updated pull requests. */
module GitHub {
  import opened Text
  import opened Status

  datatype ErrorClass = AuthUnavailable | Unauthorized | Permission | NotFound | RateLimit | Transient | Other

  /** An error as the callers see it; status is the HTTP status, 0 when there was none. */
  datatype Failure = Failure(kind: ErrorClass, status: int, message: string)

  /** The outcome of one fetch. Errors are never nil, so presence and non-nil coincide. */
  datatype Batch = Batch(
    pullRequests: map<string, PullRequest>, partials: map<string, PullRequest>, errors: map<string, Failure>)

  const EMPTY_BATCH: Batch := Batch(map[], map[], map[])

  function TaskIds(values: seq<PullRequest>): set<string> {
    set v | v in values :: v.taskId
  }

  ghost predicate DistinctTasks(values: seq<PullRequest>) {
    forall i, j :: 0 <= i < j < |values| ==> values[i].taskId != values[j].taskId
  }

  /** The fields that say which pull request a record is about. */
  predicate SameIdentity(a: PullRequest, b: PullRequest) {
    && a.taskId == b.taskId && a.host == b.host && a.owner == b.owner
    && a.repository == b.repository && a.number == b.number
  }

  /** A record that a completed refresh has just written. */
  predicate IsFresh(v: PullRequest) {
    !v.stale && v.syncError == ""
  }

  ghost predicate AllFresh(updated: map<string, PullRequest>) {
    forall id :: id in updated ==> IsFresh(updated[id])
  }

  /** The record is one of the values, with refreshed fields. */
  ghost predicate Refreshes(values: seq<PullRequest>, id: string, updated: PullRequest) {
    exists v :: v in values && v.taskId == id && SameIdentity(v, updated)
  }

  /** Every value has an answer and nobody else is mentioned; partial records come with an error. */
  ghost predicate Covers(ids: set<string>, batch: Batch) {
    && batch.pullRequests.Keys + batch.errors.Keys == ids
    && batch.partials.Keys <= batch.errors.Keys
  }

  /** Every value has exactly one kind of answer, and every record answers for the value it refreshes. */
  ghost predicate Classified(values: seq<PullRequest>, batch: Batch) {
    && Covers(TaskIds(values), batch)
    && (DistinctTasks(values) ==> batch.pullRequests.Keys !! batch.errors.Keys)
    && AllRefresh(values, batch.pullRequests) && AllRefresh(values, batch.partials)
    && AllFresh(batch.pullRequests)
  }

  lemma EmptyIsClassified()
    ensures Classified([], EMPTY_BATCH)
  {
  }

  /** Results of consecutive chunks are merged key by key, later entries winning. */
  function Merge(a: Batch, b: Batch): Batch {
    Batch(a.pullRequests + b.pullRequests, a.partials + b.partials, a.errors + b.errors)
  }

  lemma RefreshesMore(values: seq<PullRequest>, more: seq<PullRequest>, id: string, updated: PullRequest)
    requires Refreshes(values, id, updated) && forall v :: v in values ==> v in more
    ensures Refreshes(more, id, updated)
  {
  }

  lemma DistinctParts(before: seq<PullRequest>, chunk: seq<PullRequest>)
    requires DistinctTasks(before + chunk)
    ensures DistinctTasks(before) && DistinctTasks(chunk) && TaskIds(before) !! TaskIds(chunk)
  {
    var all := before + chunk;
    assert forall i :: 0 <= i < |before| ==> all[i] == before[i];
    assert forall i :: 0 <= i < |chunk| ==> all[|before| + i] == chunk[i];
    forall i, j | 0 <= i < |before| && 0 <= j < |chunk|
      ensures before[i].taskId != chunk[j].taskId
    {
      assert all[i].taskId != all[|before| + j].taskId;
    }
  }

  ghost predicate AllRefresh(values: seq<PullRequest>, updated: map<string, PullRequest>) {
    forall id :: id in updated ==> Refreshes(values, id, updated[id])
  }

  lemma MergeRefreshes(
    before: seq<PullRequest>, a: map<string, PullRequest>, chunk: seq<PullRequest>, b: map<string, PullRequest>)
    requires AllRefresh(before, a) && AllRefresh(chunk, b)
    ensures AllRefresh(before + chunk, a + b)
  {
  }

  lemma MergeFresh(a: map<string, PullRequest>, b: map<string, PullRequest>)
    requires AllFresh(a) && AllFresh(b)
    ensures AllFresh(a + b)
  {
  }

  lemma MergeCovers(ids: set<string>, a: Batch, more: set<string>, b: Batch)
    requires Covers(ids, a) && Covers(more, b)
    ensures Covers(ids + more, Merge(a, b))
    ensures ids !! more && a.pullRequests.Keys !! a.errors.Keys && b.pullRequests.Keys !! b.errors.Keys ==>
              Merge(a, b).pullRequests.Keys !! Merge(a, b).errors.Keys
  {
  }

  lemma MergeClassified(before: seq<PullRequest>, a: Batch, chunk: seq<PullRequest>, b: Batch)
    requires Classified(before, a) && Classified(chunk, b)
    ensures Classified(before + chunk, Merge(a, b))
  {
    assert TaskIds(before + chunk) == TaskIds(before) + TaskIds(chunk);
    MergeCovers(TaskIds(before), a, TaskIds(chunk), b);
    if DistinctTasks(before + chunk) {
      DistinctParts(before, chunk);
    }
    MergeRefreshes(before, a.pullRequests, chunk, b.pullRequests);
    MergeRefreshes(before, a.partials, chunk, b.partials);
    MergeFresh(a.pullRequests, b.pullRequests);
  }

  // ----- one pull request as GraphQL describes it -----

  datatype Review = Review(state: string, submittedAt: Option<int>)

  datatype Commit = Commit(committedAt: Option<int>, rollup: Option<string>)

  /** Times that do not parse are None. */
  datatype GraphPull = GraphPull(
    id: string, state: string, merged: bool, draft: bool, mergeable: string, updatedAt: Option<int>,
    reviews: seq<Review>, moreReviews: bool, reviewRequests: nat, commits: seq<Commit>)

  predicate IsTerminal(pull: GraphPull) {
    pull.merged || Lower(pull.state) == "closed"
  }

  function ParseState(text: string): PullRequestState {
    if Lower(text) == "open" then OpenState
    else if Lower(text) == "closed" then ClosedState
    else if Lower(text) == "merged" then MergedState
    else UnknownState
  }

  function ParseMergeability(text: string): Mergeability {
    if Lower(text) == "mergeable" then Mergeable
    else if Lower(text) == "conflicting" then Conflicting
    else UnknownMergeability
  }

  predicate RequestsChanges(r: Review) {
    Lower(r.state) == "changes_requested"
  }

  predicate Approves(r: Review) {
    Lower(r.state) == "approved"
  }

  /** Changes requested by anyone outweigh every approval; a pending request counts only without either. */
  method FoldReviews(pull: GraphPull) returns (state: ReviewState)
    ensures state.ChangesRequested? <==> exists r :: r in pull.reviews && RequestsChanges(r)
    ensures state.Approved? <==>
              (exists r :: r in pull.reviews && Approves(r)) && !exists r :: r in pull.reviews && RequestsChanges(r)
    ensures state.ReviewRequired? <==>
              pull.reviewRequests > 0 && forall r :: r in pull.reviews ==> !RequestsChanges(r) && !Approves(r)
    ensures !state.UnknownReview?
  {
    state := NoReview;
    for i := 0 to |pull.reviews|
      invariant state.NoReview? || state.Approved? || state.ChangesRequested?
      invariant state.ChangesRequested? <==> exists r :: r in pull.reviews[..i] && RequestsChanges(r)
      invariant state.NoReview? <==> forall r :: r in pull.reviews[..i] ==> !RequestsChanges(r) && !Approves(r)
    {
      var r := pull.reviews[i];
      assert pull.reviews[..i + 1] == pull.reviews[..i] + [r];
      if RequestsChanges(r) {
        assert r in pull.reviews[..i + 1];
        state := ChangesRequested;
      } else if Approves(r) && !state.ChangesRequested? {
        assert r in pull.reviews[..i + 1];
        state := Approved;
      }
    }
    assert pull.reviews[..|pull.reviews|] == pull.reviews;
    if state.NoReview? && pull.reviewRequests > 0 {
      state := ReviewRequired;
    }
  }

  predicate IsRequestAt(r: Review, t: int) {
    RequestsChanges(r) && r.submittedAt == Some(t)
  }

  /** The latest submission among the reviews that request changes, if there is one. */
  ghost predicate IsLatestRequest(reviews: seq<Review>, latest: Option<int>) {
    && (latest.None? <==> forall r :: r in reviews ==> !(RequestsChanges(r) && r.submittedAt.Some?))
    && (latest.Some? ==> exists r :: r in reviews && IsRequestAt(r, latest.value))
    && (latest.Some? ==> forall r, t :: r in reviews && IsRequestAt(r, t) ==> t <= latest.value)
  }

  method LatestChangesRequestedAt(reviews: seq<Review>) returns (latest: Option<int>)
    ensures IsLatestRequest(reviews, latest)
  {
    latest := None;
    for i := 0 to |reviews|
      invariant latest.None? <==> forall r :: r in reviews[..i] ==> !(RequestsChanges(r) && r.submittedAt.Some?)
      invariant latest.Some? ==> exists r :: r in reviews[..i] && IsRequestAt(r, latest.value)
      invariant latest.Some? ==> forall r, t :: r in reviews[..i] && IsRequestAt(r, t) ==> t <= latest.value
    {
      var r := reviews[i];
      assert reviews[..i + 1] == reviews[..i] + [r];
      if !RequestsChanges(r) || r.submittedAt.None? {
        continue;
      }
      if latest.None? || r.submittedAt.value > latest.value {
        latest := r.submittedAt;
        assert r in reviews[..i + 1] && IsRequestAt(r, latest.value);
      }
    }
    assert reviews[..|reviews|] == reviews;
  }

  /** The date of the first commit listed whose date can be read. */
  function LastPushedAt(commits: seq<Commit>): Option<int> {
    if commits == [] then None
    else if commits[0].committedAt.Some? then commits[0].committedAt
    else LastPushedAt(commits[1..])
  }

  function CheckStateOf(commits: seq<Commit>): CheckState {
    if commits == [] || commits[0].rollup.None? then NoCheck
    else
      var state := Lower(commits[0].rollup.value);
      if state == "success" then SuccessCheck
      else if state == "expected" || state == "pending" then PendingCheck
      else if state == "error" || state == "failure" then FailureCheck
      else UnknownCheck
  }

  predicate IsOver(state: PullRequestState) {
    state.ClosedState? || state.MergedState?
  }

  function ClearFinished(value: PullRequest): PullRequest {
    if !IsOver(value.state) then value
    else value.(reviewRequestPending := false, changesRequestedAt := None, lastPushedAt := None,
                checkState := UnknownCheck)
  }

  /** What a completed refresh leaves: identity kept, no error, not stale, nothing about review once it is over. */
  ghost predicate IsRefreshed(current: PullRequest, updated: PullRequest, now: int) {
    && SameIdentity(current, updated)
    && updated.syncError == "" && !updated.stale && updated.lastSyncedAt == Some(now)
    && (IsOver(updated.state) ==>
          !updated.reviewRequestPending && updated.changesRequestedAt.None? && updated.lastPushedAt.None?
          && updated.checkState.UnknownCheck?)
  }

  /** The review state says what the reviews and requests say. */
  ghost predicate TakesReviews(state: ReviewState, pull: GraphPull) {
    && (state.ChangesRequested? <==> exists r :: r in pull.reviews && RequestsChanges(r))
    && (state.Approved? <==>
          (exists r :: r in pull.reviews && Approves(r)) && !exists r :: r in pull.reviews && RequestsChanges(r))
    && (state.ReviewRequired? <==>
          pull.reviewRequests > 0 && forall r :: r in pull.reviews ==> !RequestsChanges(r) && !Approves(r))
  }

  ghost predicate TakesActivity(current: PullRequest, pull: GraphPull, updated: PullRequest) {
    && (if pull.moreReviews then updated.changesRequestedAt == current.changesRequestedAt
        else IsLatestRequest(pull.reviews, updated.changesRequestedAt))
    && updated.reviewRequestPending == (pull.reviewRequests > 0)
    && updated.lastPushedAt == LastPushedAt(pull.commits) && updated.checkState == CheckStateOf(pull.commits)
  }

  /** Everything a complete answer says is in the record; facts about the review only while it is not over. */
  ghost predicate IsFull(current: PullRequest, pull: GraphPull, updated: PullRequest, now: int) {
    && IsRefreshed(current, updated, now)
    && updated.state == (if pull.merged then MergedState else ParseState(pull.state))
    && TakesReviews(updated.reviewState, pull)
    && updated.nodeId == pull.id && updated.draft == pull.draft && updated.githubUpdatedAt == pull.updatedAt
    && updated.mergeability == ParseMergeability(pull.mergeable)
    && (!IsOver(updated.state) ==> TakesActivity(current, pull, updated))
  }

  /** The same of an answer with gaps: what did not arrive stays as it was. */
  ghost predicate IsCore(current: PullRequest, pull: GraphPull, updated: PullRequest, now: int) {
    && IsRefreshed(current, updated, now)
    && updated.state == (if pull.merged then MergedState
                         else if pull.state != "" then ParseState(pull.state) else current.state)
    && updated.reviewState == current.reviewState
    && updated.nodeId == (if pull.id != "" then pull.id else current.nodeId)
    && updated.draft == pull.draft && updated.githubUpdatedAt == pull.updatedAt
    && updated.mergeability == (if pull.mergeable != "" then ParseMergeability(pull.mergeable)
                                else current.mergeability)
    && (!IsOver(updated.state) ==> TakesActivity(current, pull, updated))
  }

  /** domainPullRequestFromGraphQL: a full update, or None when updatedAt does not parse. */
  method FullUpdate(current: PullRequest, pull: GraphPull, now: int) returns (updated: Option<PullRequest>)
    ensures updated.None? <==> pull.updatedAt.None?
    ensures updated.Some? ==> IsFull(current, pull, updated.value, now)
  {
    hide IsLatestRequest, CheckStateOf, LastPushedAt, ParseState, ParseMergeability;
    if pull.updatedAt.None? {
      return None;
    }
    var review := FoldReviews(pull);
    var changes := current.changesRequestedAt;
    if !pull.moreReviews {
      changes := LatestChangesRequestedAt(pull.reviews);
    }
    updated := Some(ClearFinished(current.(
      reviewRequestPending := pull.reviewRequests > 0, changesRequestedAt := changes,
      lastPushedAt := LastPushedAt(pull.commits), checkState := CheckStateOf(pull.commits), nodeId := pull.id,
      state := if pull.merged then MergedState else ParseState(pull.state), draft := pull.draft,
      mergeability := ParseMergeability(pull.mergeable), reviewState := review, githubUpdatedAt := pull.updatedAt,
      lastSyncedAt := Some(now), syncError := "", stale := false)));
  }

  /** domainPullRequestCoreFromGraphQL: what a finished pull request still yields when some fields failed. */
  method CoreUpdate(current: PullRequest, pull: GraphPull, now: int) returns (updated: Option<PullRequest>)
    ensures updated.None? <==> pull.updatedAt.None?
    ensures updated.Some? ==> IsCore(current, pull, updated.value, now)
  {
    hide IsLatestRequest, CheckStateOf, LastPushedAt, ParseState, ParseMergeability;
    if pull.updatedAt.None? {
      return None;
    }
    var changes := current.changesRequestedAt;
    if !pull.moreReviews {
      changes := LatestChangesRequestedAt(pull.reviews);
    }
    updated := Some(ClearFinished(current.(
      state := if pull.merged then MergedState else if pull.state != "" then ParseState(pull.state) else current.state,
      nodeId := if pull.id != "" then pull.id else current.nodeId,
      mergeability := if pull.mergeable != "" then ParseMergeability(pull.mergeable) else current.mergeability,
      draft := pull.draft, reviewRequestPending := pull.reviewRequests > 0, changesRequestedAt := changes,
      lastPushedAt := LastPushedAt(pull.commits), checkState := CheckStateOf(pull.commits),
      githubUpdatedAt := pull.updatedAt, lastSyncedAt := Some(now), syncError := "", stale := false)));
  }
}
