/** The stored and derived states of internal/domain: values, and how a task's display state follows from them. */
module Status {

  datatype Option<+T> = None | Some(value: T) {
    function GetOr(default: T): T {
      match this
      case Some(v) => v
      case None => default
    }
  }

  datatype TaskStatus = NotStarted | Designing | InProgress | Completed | Closed

  datatype PullRequestState = OpenState | ClosedState | MergedState | UnknownState

  datatype ReviewState = NoReview | ReviewRequired | Approved | ChangesRequested | UnknownReview

  datatype Mergeability = Mergeable | Conflicting | UnknownMergeability

  datatype CheckState = UnknownCheck | NoCheck | PendingCheck | SuccessCheck | FailureCheck

  datatype DisplayState =
    | ShowNotStarted | ShowDesigning | ShowDesigned | ShowInProgress | ShowImplemented | ShowInReview
    | ShowApproved | ShowMerged | ShowCompleted | ShowClosed | ShowUnknown

  datatype BlockLabel = DependencyUnresolved | Conflict | ChangesRequestedLabel | CIFailed

  datatype Task = Task(id: string, featureId: string, title: string, status: TaskStatus, hasPlan: bool)

  datatype PullRequest = PullRequest(
    taskId: string, host: string, owner: string, repository: string, number: int, nodeId: string,
    state: PullRequestState, draft: bool, reviewState: ReviewState, mergeability: Mergeability,
    checkState: CheckState, reviewRequestPending: bool, changesRequestedAt: Option<int>, lastPushedAt: Option<int>,
    githubUpdatedAt: Option<int>, lastSyncedAt: Option<int>, syncError: string, stale: bool)

  predicate RespondedAfterReview(pr: PullRequest) {
    pr.changesRequestedAt.Some? && pr.lastPushedAt.Some? && pr.lastPushedAt.value > pr.changesRequestedAt.value
  }

  function DisplayFromPullRequest(pr: PullRequest): DisplayState {
    if pr.state.MergedState? then ShowMerged
    else if pr.state.ClosedState? then ShowClosed
    else if pr.reviewState.Approved? then ShowApproved
    else if pr.reviewRequestPending || RespondedAfterReview(pr) then ShowInReview
    else if pr.state.OpenState? then ShowImplemented
    else ShowUnknown
  }

  function DisplayStateFor(task: Task, pr: Option<PullRequest>): DisplayState {
    if task.status.Completed? then ShowCompleted
    else if task.status.Closed? then ShowClosed
    else if pr.Some? then DisplayFromPullRequest(pr.value)
    else if task.status.InProgress? then ShowInProgress
    else if task.hasPlan then ShowDesigned
    else if task.status.Designing? then ShowDesigning
    else ShowNotStarted
  }

  predicate IsTaskFinished(display: DisplayState) {
    display.ShowCompleted? || display.ShowClosed? || display.ShowMerged?
  }

  predicate IsReadyCandidate(display: DisplayState) {
    display.ShowNotStarted? || display.ShowDesigning? || display.ShowDesigned?
  }

  predicate IsSatisfied(task: Task, pr: Option<PullRequest>) {
    || task.status.Completed? || task.status.Closed?
    || (pr.Some? && (pr.value.state.OpenState? || pr.value.state.ClosedState? || pr.value.state.MergedState?))
  }

  function BlockLabelsFor(pr: Option<PullRequest>, unresolved: bool): seq<BlockLabel> {
    (if unresolved then [DependencyUnresolved] else [])
    + (if pr.Some? && pr.value.mergeability.Conflicting? then [Conflict] else [])
    + (if pr.Some? && pr.value.reviewState.ChangesRequested? then [ChangesRequestedLabel] else [])
    + (if pr.Some? && pr.value.checkState.FailureCheck? then [CIFailed] else [])
  }

  /** The display states of work that has begun but settles no dependency yet. */
  predicate IsUnderway(display: DisplayState) {
    display.ShowInProgress? || display.ShowInReview? || display.ShowApproved? || display.ShowUnknown?
  }

  /** A task settles what waits for it exactly when it is finished or its pull request is open. */
  lemma SatisfiedMeansFinishedOrOpen(task: Task, pr: Option<PullRequest>)
    ensures IsSatisfied(task, pr) <==>
              IsTaskFinished(DisplayStateFor(task, pr)) || (pr.Some? && pr.value.state.OpenState?)
  {
  }

  /** An unsettled task is either one nobody has started or one that is underway. */
  lemma UnsatisfiedCanMove(task: Task, pr: Option<PullRequest>)
    requires !IsSatisfied(task, pr)
    ensures IsReadyCandidate(DisplayStateFor(task, pr)) || IsUnderway(DisplayStateFor(task, pr))
  {
  }
}
