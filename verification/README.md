# Next Now X: verified model of the backend

Next Now X tracks projects, features, tasks and the dependencies between tasks, attaches one GitHub pull request to
a task, and refreshes those pull requests with whatever credentials are configured. This Dafny project models the
parts of its backend where a small mistake would lose or mix up data, and proves what they promise.

- **GitHub synchronisation** (`Outcomes.dfy`, `Visits.dfy`, `Sync.dfy`, `Resolver.dfy`, `FetchBatch.dfy`,
  `GraphQL.dfy`, `GitHub.dfy`). Providers, clock, cache and store are one oracle, the record `World`; calls are told apart by their
  number, so every answer in every order is covered. The main result is `SyncLive`: without a storage error every
  selected pull request is stored exactly once, as fresh exactly when some provider answered for it without an
  error, otherwise for a reason that goes back to what the outside answered in one of the calls that were made, and
  the counts account for every record; credentials go in order, and a credential is remembered for a repository
  only where it has earned that. Its errors are errors of the store.
- **Dependencies, the store and the read-only barrier** (`Digraph.dfy`, `CyclePath.dfy`, `Topological.dfy`,
  `Readiness.dfy`, `Database.dfy`, `Operations.dfy`, `Store.dfy`, `Snapshot.dfy`, `Features.dfy`, `Archive.dfy`).
  Tables are maps by storage id with the foreign keys of the schema. Every run of operations keeps the whole
  dependency relation acyclic and inside single features although each check looks at one feature only; no deadlock
  and the barrier in front of archived work follow for every run. `Refresh.dfy` joins both: an unscoped refresh,
  from the selection of active work to the records it stores, is a step the barrier allows, and the tables refuse
  none of the records.
- **Protocols between processes and goroutines** (`Revision.dfy`, `RunState.dfy`, `SyncSchedule.dfy`,
  `DataDir.dfy`). State machines whose steps interleave in any order, with crashes where the program can crash.
- **Templates and configuration** (`Prompt.dfy`, `Config.dfy`, `Settings.dfy`). The placeholder scanner, layered
  templates, single-pass rendering, the normal form of the configuration and its stored form.

`Text.dfy` and `Status.dfy` hold what the others share. Loops and in-place updates of the program are methods with
loops or classes here; their contracts are about functions and predicates, and the lemmas are about those.

Results that differ from what the program or its documentation promises:

- A read of the run state can report a crashed server as running. `RunState.RunningIsTruthful` gives the exact
  condition, `RunState.StaleAnswerHappens` a run in which it happens.
- The GraphQL query groups by the text "owner/repository". `GraphQL.AnswersLandRight` shows that answers land on the
  right pull requests if and only if no two different repositories share that text; `GraphQL.SlashInOwnerClashes` is
  a pair that does, which URLs accepted by the program never produce (`GraphQL.SlashFreeOwnersDoNotClash`).
- `saturatedSubtract` does not saturate above: `SyncSchedule.SaturatedSubtractIsExact` says exactly when it is right.
- A sidecar of a database that is missing itself is never moved: `DataDir.SidecarPromise`.
- Reordering a configuration that leaves `auth_methods` out by an empty list of ids turns the missing list into an
  empty one, which disables the discovery of credentials: `Settings.MissingBecomesEmpty` is that case, and
  `Settings.OnlyOrderChangesIff` says that nothing but the order changes exactly when there is a list.
- `TopologicalOrder` reports a cycle for duplicate task ids; its contract says so.

`dafny verify dfyconfig.toml` checks everything.

## Model

| member | source | states |
|---|---|---|
| Syncing.Synchronizer.SyncLive | internal/app/github_sync.go:36-54 | every selected pull request is stored exactly once, fresh if and only if some provider answered for it without an error; every other record has a reason (an error about it, the failure of a whole attempt with it, or every credential of its host tried for it in vain), whose text it carries unless the pull request is over; refreshed, failed and quietly stale records add up to the number selected; the only errors are those the store answered in one of the calls, so with a store that works there is none; whatever happens only records about what was selected are stored, every attempt is one that took place, and they are made repository by repository with the credentials in order; without an error every repository is visited once, and the cache receives what the visits have earned |
| Syncing.GroupPullRequests | internal/app/github_sync.go:56-94 | the groups partition the selected pull requests by case-insensitive repository, none empty, and the keys are all of them, each once, in order |
| Outcomes.FlattenIsPermutation | internal/app/github_sync.go:56-94 | visiting every repository once visits every selected pull request once |
| Outcomes.FlattenDistinct | internal/app/github_sync.go:56-94 | no choice of different repositories makes a task appear twice |
| Outcomes.KeyBelowIsOrdering | internal/app/github_sync.go:84-92 | host, then owner, then name is an order a sort can rely on |
| Syncing.Synchronizer.SyncUncachedHostGroups | internal/app/github_sync.go:96-130 | the first pass takes the repositories of a host together exactly when there are two or more and no credential is remembered for one of them; it settles all their pull requests, and of no others, unless the store fails |
| Syncing.Synchronizer.SyncRepositoryGroups | internal/app/github_sync.go:132-168 | the second pass settles exactly the repositories the first left out, unless the store fails |
| Syncing.Synchronizer.PersistSyncResult | internal/app/github_sync.go:170-205 | one record for each value in order: the refreshed one if there is one, otherwise the partial or current one marked stale; it stops only where the store fails, with a prefix stored; the counts are those of the stored records |
| Outcomes.SyncFailureValue | internal/app/github_sync.go:207-230 | a failed refresh marks the record stale, keeps a known state, and needs attention unless the pull request is over, which also decides whether an error text is kept |
| Outcomes.StoredSettles | internal/app/github_sync.go:173-205 | what is stored keeps the pull request's identity and is fresh exactly when an answer held it |
| Outcomes.StoredReports | internal/app/github_sync.go:170-205 | a record that is not fresh has a cause in the attempts that were made |
| Outcomes.TraceIsGenuine | internal/app/github_sync.go:485-572 | every attempt of a run took place in it: the credential could not be opened for the reason the outside and the earlier attempts give, or its probe was answered with an error, or its batch is what the calls of its fetch were answered |
| Outcomes.StopsComeFromOutside | internal/app/github_sync.go:381-417 | a failure that stopped an attempt for good was answered by the outside in a call of the run: when a provider was configured, when a repository was looked for, or when a chunk was asked for |
| Outcomes.RefusedForGood | internal/github/resolver.go:103-103 | a credential is refused only after an attempt that ended unauthorized, and for good |
| Outcomes.RefusedIsNotUsed | internal/github/resolver.go:105-108 | nothing is fetched with a credential once it is refused |
| Outcomes.SettledJoin | internal/app/github_sync.go:36-54 | outcomes of separate groups do not disturb each other |
| Outcomes.CountsAddUp | internal/app/github_sync.go:173-205 | every stored record is counted as refreshed, as needing attention, or as left alone |
| Syncing.Synchronizer.HostRounds | internal/app/github_sync.go:253-346 | every pull request of the host ends refreshed or failed, never both; no success found with any credential is lost; every failure has its cause and is none that another credential might cure; credentials go in their order without probes, each knowing what the attempts before have left; each is remembered for what it refreshed; only a failing store stops it |
| Syncing.Synchronizer.HostRound | internal/app/github_sync.go:273-335 | one credential moves work to successes or final failures and leaves the rest, tried for all of it; the credential is refused if the attempt as a whole ended unauthorized |
| Syncing.Synchronizer.TakeAnswers | internal/app/github_sync.go:293-322 | each value goes by its answer: refreshed, failed for good, or kept for the next credential together with whatever was not reached; it stops only where the cache fails, and the credential is remembered for the repository of exactly what it refreshed |
| Syncing.Synchronizer.SyncRepository | internal/app/github_sync.go:348-419 | every pull request ends with an outcome whatever the credentials do, and every failure has its cause: nothing is given up while a credential of the host is untried; credentials go in their order behind exactly the one the cache names, which is used without a probe while all others are probed first; only suffixes are fetched again, and the credential to remember is the one that concluded |
| Syncing.UsesOneMore | internal/app/github_sync.go:381-417 | one more attempt keeps the order of the credentials behind the first ones, is probed first, and asks for remaining work only |
| Syncing.ProgressStep | internal/app/github_sync.go:399-415 | merging an attempt and slicing the work off keeps an outcome for everything that was sliced off |
| Syncing.Synchronizer.TryCachedRepository | internal/app/github_sync.go:421-461 | the remembered credential is tried exactly when it still exists, without a probe, and concludes the repository or leaves a suffix whose prefix is settled |
| Syncing.Synchronizer.AttemptCandidate | internal/app/github_sync.go:485-572 | an attempt with one credential: it is opened exactly when the resolver opens it, the fetch follows at once unless a probe is asked for, and then only if the probe sees the repository; everything before the failed position has exactly one outcome, a missing pull request is believed only after its repository was seen in a call of this attempt, and what ended the attempt is the error of opening, of the probe, of the fetch, of one pull request, or of its repository |
| Syncing.TakeAttempt | internal/app/github_sync.go:397-415 | taking an attempt over concludes the values, fails the rest for good, or leaves the suffix it was tried for to the next credential |
| Syncing.Synchronizer.Remember | internal/app/github_sync.go:149-159 | with a cache, the credential that concluded a repository is written to it, and without one nothing is |
| Syncing.Synchronizer.RepositoriesHaveCachedAuth | internal/app/github_sync.go:236-251 | true if and only if a credential is remembered for one of the repositories or the cache cannot tell |
| Syncing.Synchronizer.ResolveItem | internal/app/github_sync.go:533-564 | "not found" is taken at its word, replaced by the error with which the repository was answered in a call that was made, or handed to the next credential |
| Syncing.AddRemainingFailures | internal/app/github_sync.go:621-628 | everything from the position on fails with the error, and everything when the position is outside |
| Syncing.AddUnavailableFailures | internal/app/github_sync.go:470-483 | what has no failure yet gets the one about missing credentials; earlier failures stay |
| FetchBatch.UnresolvedIndex | internal/app/github_sync.go:577-591 | the first pull request the batch does not mention |
| FetchBatch.RetryStartsBehindFinishedChunks | internal/app/github_sync.go:577-591 | after a failed fetch that position is exactly behind the finished chunks |
| FetchBatch.FetchAll | internal/github/graphql.go:89-121 | without an error every pull request is in exactly one of records and errors, partial records only beside errors, each as it was answered in one of the calls: chunk by chunk, or by REST after a chunk failed with a status of 400 or above; with an error exactly the chunks of 20 before the failing one are classified, and the error is why that chunk failed |
| FetchBatch.FetchRestBatch | internal/github/graphql.go:123-142 | every pull request errs exactly when its own request failed, beside what the request had yielded, and is refreshed from it otherwise |
| FetchBatch.FetchChunk | internal/github/graphql.go:144-236 | a chunk fails as a whole exactly for a refused request, the first error under no alias or the first undecodable body; otherwise every pull request has the answer that arrived under its own aliases, under the last error that marks it |
| FetchBatch.ClassifyItems | internal/github/graphql.go:163-234 | no later item disturbs the answer of an earlier one, and the loop stops exactly at an undecodable body |
| FetchBatch.ClassifyItem | internal/github/graphql.go:176-235 | the answer for one pull request, case by case: missing, undecodable, undated, over and refreshed, partial beside the error that marks it, or what its remaining pages make of it |
| FetchBatch.MapErrors | internal/github/graphql.go:597-632 | an error fails the request if its path starts with no alias, otherwise it marks exactly the items under its alias, and the last mark of a task wins |
| FetchBatch.MergeNext | internal/github/graphql.go:106-119 | classifying goes on value by value without disturbing what is classified |
| GraphQL.BuildQuery | internal/github/graphql.go:493-562 | the items are a permutation of the pull requests, pull aliases differ, and repository aliases coincide exactly when the repository keys do |
| GraphQL.AnswersLandRight | internal/github/graphql.go:493-562 | evaluated on any case-insensitive server every item is answered with its own pull request, if and only if no two repositories share a key |
| GraphQL.SlashFreeOwnersDoNotClash | internal/github/graphql.go:493-562 | owners without a slash never share a key |
| GraphQL.SlashInOwnerClashes | internal/github/graphql.go:493-562 | an owner with a slash can |
| GitHub.FullUpdate | internal/github/graphql.go:666-724 | a complete answer keeps the identity, clears errors and staleness, and every field comes from it; the time of the latest request for changes only when all reviews are listed; facts about the review are forgotten once the pull request is over |
| GitHub.CoreUpdate | internal/github/graphql.go:242-308 | likewise for what a finished pull request still yields beside an error; the review state and whatever did not arrive stay as they were |
| GitHub.FoldReviews | internal/github/graphql.go:694-707 | requested changes outweigh approvals, and a pending request counts only without either |
| GitHub.LatestChangesRequestedAt | internal/github/graphql.go:344-362 | the latest submission among the reviews that request changes |
| Resolving.Resolver.Open | internal/github/resolver.go:105-134 | a provider for the candidate unless it is refused, has no credential or shares one with an earlier candidate of the host; opened providers are reused, and no credential serves two candidates |
| Resolving.Resolver.MarkUnauthorized | internal/github/resolver.go:103-103 | the credential is out for the rest of the run |
| CycleSearch.CyclePath | internal/domain/graph.go:8-52 | a path is returned if and only if the blocker is reachable from the blocked task, and it is a closed walk along stored edges and the new one with distinct interior tasks |
| CycleSearch.ParentPath | internal/domain/graph.go:35-47 | the chain of parents ends and, reversed, is a walk from the start |
| Digraph.NewEdgeKeepsAcyclic | internal/domain/graph.go:8-52 | adding an edge keeps a graph acyclic if and only if it closes no walk: what the cycle check decides |
| Topological.TopologicalOrder | internal/domain/graph.go:54-94 | an order is returned if and only if all endpoints are known, ids are distinct and there is no cycle; it is the lexicographically least order with every blocker first |
| Topological.LeastOrderIsUnique | internal/domain/graph.go:54-94 | the order depends on tasks and edges only, not on how they are listed |
| Topological.LeftOverMeansCycle | internal/domain/graph.go:88-93 | tasks left when the queue runs dry lie on a cycle |
| Readiness.Derive | internal/domain/graph.go:109-163 | every task is ready exactly when nobody has started it and no stored blocker is missing or unsettled; pending blockers keep their order and the first gives the reason |
| Readiness.ChainEnds | internal/domain/graph.go:109-163 | following pending blockers ends within as many steps as there are tasks |
| Readiness.WaitingLeadsToWork | internal/domain/graph.go:109-163 | from every waiting task it ends at one that is ready or under way |
| Readiness.RequirePromptBlockers | internal/app/prompt.go:139-157 | a batch passes if and only if it holds every pending blocker of its tasks; otherwise the first missing one is named |
| Readiness.BatchTasks | internal/app/prompt.go:42-87 | the accepted batch is the tasks asked for, in that order and of that feature |
| Readiness.BatchHasOrder | internal/app/prompt.go:139-157 | every accepted batch can be worked through with pending blockers first |
| Status.SatisfiedMeansFinishedOrOpen | internal/domain/status.go:91-147 | a task releases what waits for it exactly when it is finished or its pull request is open |
| Status.UnsatisfiedCanMove | internal/domain/status.go:113-153 | an unsettled task is one nobody has started or one that is under way |
| Operations.EveryOperationKeeps | internal/store/repository.go:66-713 | every operation keeps ids, foreign keys, pull requests and documents consistent and the whole dependency relation acyclic, duplicate-free and inside features |
| Operations.RunsStayConsistent | internal/store/repository.go:66-713 | so does every run from an empty store |
| Operations.PublicIdsAreNeverReused | internal/store/repository.go:24-30 | no public id is handed out twice in a run, not even after deletion |
| Operations.CreatedIsNew | internal/store/repository.go:24-30 | an id from the sequence has not been handed out, for any of the three kinds |
| Operations.LocalCycleIsGlobal | internal/store/repository.go:431-453 | a circle found among the public ids of one feature names one the new edge would close in the whole relation |
| Operations.AddsDependencyKeeps | internal/store/repository.go:402-469 | an accepted edge keeps the whole relation acyclic |
| Database.LocalCheckIsGlobal | internal/store/repository.go:417-453 | reachability among public ids inside the blocker's feature is reachability in the whole stored relation |
| Database.RenamingKeepsReach | internal/store/repository.go:431-446 | replacing storage ids by public ids keeps reachability |
| Database.WithoutKeepsConsistent | internal/store/repository.go:131-176 | removing containers with all they hold leaves nothing that refers to what is gone |
| Storing.Store.AddDependency | internal/store/repository.go:402-469 | rejects unknown tasks, other features, duplicates and exactly the edges that would close a circle anywhere, whose tasks it names in order; otherwise adds the edge and nothing else |
| Storing.Store.RemoveDependency | internal/store/repository.go:471-497 | removes exactly the edge, or reports that it is missing |
| Storing.Store.DeleteTask | internal/store/repository.go:499-544 | refuses a referenced task without cascade, otherwise removes it with all that refers to it; no foreign key is violated |
| Storing.Store.DeleteFeature | internal/store/repository.go:546-579 | likewise for a feature, its documents and its tasks |
| Storing.DeletingByBlockerSuffices | internal/store/repository.go:581-595 | deleting edges by blocker deletes them by either end, because edges stay inside a feature |
| Storing.FeatureCascade | internal/store/repository.go:581-595 | the statements never violate a foreign key and leave nothing of the feature behind |
| Storing.Store.DeleteProject | internal/store/repository.go:131-176 | removes the project with all features and everything under them, feature by feature |
| Storing.Store.CreateTask | internal/store/repository.go:272-311 | the row is added under the next public id; a failed transaction issues none |
| Storing.Store.CreateFeature | internal/store/repository.go:178-223 | likewise, in an existing project |
| Storing.Store.CreateProject | internal/store/repository.go:66-100 | likewise |
| Storing.Store.UpdateFeature | internal/store/repository.go:238-270 | moves or edits the one row and keeps every other |
| Storing.Store.UpsertPullRequest | internal/store/repository.go:637-685 | one pull request for each task, none shared by two tasks, each with a host and a number |
| Storing.Store.CreateDocument | internal/store/repository.go:834-888 | a document has one existing parent, and a task one plan |
| Snapshots.TakeSnapshot | internal/store/repository.go:968-1036 | every project, feature, task, pull request and document appears once, with public ids, and every dependency in its place |
| Snapshots.SnapshotIsSound | internal/store/repository.go:968-1036 | a snapshot of a consistent store has distinct tasks, known endpoints and no cycle |
| Snapshots.SnapshotHasOnePullRequestEach | internal/store/repository.go:968-1036 | no task has two pull requests: what the synchronisation starts from |
| Snapshots.NoDeadlockInAnyRun | internal/domain/graph.go:109-163 | in every state of every run each waiting task leads to one that can move |
| Deriving.DeriveFeatures | internal/app/service.go:764-839 | every feature counts its tasks by kind, shows its status by them, and is read-only if and only if it or its project is archived |
| Deriving.CountTasks | internal/app/service.go:786-813 | the counts are the numbers of the feature's tasks of each kind; tasks of unknown features are passed over |
| Deriving.CompletedMeansFinished | internal/domain/status.go:97-108 | a feature is completed if and only if that is stored, or it is automatic, has a task and all its tasks are finished |
| Archive.BarrierHolds | internal/app/archive.go:9-141 | in every history of guarded calls and unscoped synchronisations that select from a snapshot of the tables, tasks, edges, pull requests and documents under a read-only feature stay the same until it or its project is unarchived or deleted |
| Archive.ReadOnlyIsKept | internal/app/service.go:155-239 | one guarded call leaves a read-only feature as it is unless it deletes it |
| Archive.ReadOnlyLasts | internal/app/archive.go:43-52 | one guarded call leaves it read-only unless it unarchives or deletes it or its project |
| Archive.GuardsProtect | internal/app/service.go:307-422 | no operation that passes its guards touches a read-only feature |
| Archive.AddsElsewhere | internal/app/service.go:408-415 | guarding the blocker guards both ends |
| Archive.OperationElsewhere | internal/app/service.go:297-422 | an operation changes what is under one feature at most, deletions of projects aside |
| Archive.ArchivedProjectIsKept | internal/app/archive.go:98-125 | one guarded call leaves the documents of an archived project as they are unless it deletes the project |
| Archive.ProjectBarrierHolds | internal/app/archive.go:98-125 | in every history of guarded calls and unscoped synchronisations the documents of an archived project stay the same, and it stays archived, until it is unarchived or deleted |
| Archive.ProjectStaysArchived | internal/app/archive.go:98-125 | one guarded call leaves a project archived unless it unarchives or deletes it |
| Archive.FlagOnlyChangesTheFlag | internal/app/archive.go:22-39 | an update that passes as flag-only changes the flag and nothing else |
| Archive.SelectEligible | internal/app/service.go:867-887 | an unscoped refresh takes, in their order, exactly the pull requests of features that are neither read-only nor completed |
| Archive.EligibleIsWritable | internal/app/service.go:867-887 | nothing that is selected from a snapshot of the tables is under a read-only feature |
| Archive.SelectionIsDistinct | internal/app/service.go:867-887 | what is selected has one pull request for each task, as the synchronisation needs it |
| Archive.SyncKeepsReadOnly | internal/app/service.go:867-887 | storing records about what was selected leaves read-only features as they are |
| Refreshing.RefreshAll | internal/app/service.go:841-897 | an unscoped refresh changes the tables by a step the barrier allows, also when the store fails on the way, and otherwise settles every pull request it selected; the tables refuse none of the records, and without an error every record is in them in the end |
| Refreshing.HeldAreAccepted | internal/store/repository.go:637-685 | records about the pull requests their tasks have are all accepted, and a record stays until its task is written again |
| Refreshing.AcceptedAreStored | internal/store/repository.go:637-685 | with one such record for each task, every record is in the tables in the end |
| Revision.Run | internal/revision/revision.go:129-171 | the revision is one plus the number of adjacent differing readings within the stretches between idle rounds, failed readings skipped, and each revision is published once in order |
| Revision.StepKeepsInvariant | internal/revision/revision.go:51-107 | every step of subscribing, cancelling, publishing, closing and receiving keeps the broadcaster sound |
| Revision.LatestIsNeverLost | internal/revision/revision.go:74-93 | whenever the mutex is free each live subscriber has the current revision in its slot or was handed it |
| Revision.SendNeverFails | internal/revision/revision.go:83-92 | the send of a publish finds the slot free and the channel open |
| Revision.StreamsNeverDecrease | internal/rpc/revision.go:57-84 | the revisions one stream sends never decrease |
| Revision.ReceivingCatchesUp | internal/rpc/revision.go:69-74 | a stream that receives while no publish is under way has caught up |
| Revision.GateHolds | internal/rpc/revision.go:20-24 | one step of entering, deciding or leaving keeps the count of streams right |
| Revision.LimitHolds | internal/rpc/revision.go:20-24 | in every run, at every moment, no more streams than the limit are admitted |
| RunState.RunningIsTruthful | internal/runstate/runstate.go:155-185 | a "running" answer names an instance that held the lock at some moment between the probe and the reading if and only if it is not the case that an acquirer was between its lock and its truncation at the probe and nobody truncated before the reading |
| RunState.StaleAnswerHappens | internal/runstate/runstate.go:97-108 | a run in which a crashed instance is reported as running |
| RunState.ReadInsideWrite | internal/runstate/runstate.go:122-138 | a read between the truncation and the end of a write answers that the address is unknown |
| RunState.NotRunningIsTruthful | internal/runstate/runstate.go:170-172 | "not running" is answered only when nobody held the lock at the probe |
| RunState.OneServerAtMost | internal/runstate/runstate.go:86-120 | two instances never hold the record at once |
| RunState.RefusedAfterAllAttempts | internal/runstate/runstate.go:97-119 | an acquirer that gives up has tried exactly five times, and found the lock taken each time |
| SyncSchedule.SaturatedSubtractIsExact | internal/app/github_auto_sync.go:164-169 | equals the difference cut off below if and only if the difference does not exceed the largest 64-bit integer; always for amounts from 0 |
| SyncSchedule.SaturatedSubtractRunsOver | internal/app/github_auto_sync.go:164-169 | a negative amount can wrap around |
| SyncSchedule.SyncState.Acquire | internal/store/repository.go:729-741 | the interval is taken if and only if it is due |
| SyncSchedule.SyncState.Complete | internal/store/repository.go:750-765 | a result is recorded if and only if its run is the one the row names |
| SyncSchedule.SyncState.SyncIfDue | internal/app/github_auto_sync.go:43-114 | runs exactly when the interval has passed and then always leaves a result, also for a broken configuration |
| SyncSchedule.GrantedOneIntervalAfterLast | internal/store/repository.go:729-741 | in any interleaving an automatic run is granted if and only if the last beginning is at least an interval ago |
| SyncSchedule.OvertakenRunsLeaveNoTrace | internal/store/repository.go:750-765 | a completion that is not recorded leaves the row as it is |
| SyncSchedule.CompletionRecordedIffLatest | internal/store/repository.go:743-765 | in any interleaving a completion is recorded if and only if no run began after its own |
| DataDir.Directory.RenameDatabase | internal/datadir/datadir.go:70-88 | a call finishes if and only if looking succeeds and no rename is refused, and then has moved the whole database; it fails otherwise for the reason it met, with the database itself under its old name; no content is lost |
| DataDir.LoneCallerMovesAll | internal/datadir/datadir.go:70-88 | alone and uninterrupted, a caller has moved the whole database after six steps |
| DataDir.LoneCallerCanFinish | internal/datadir/datadir.go:70-88 | such a run exists from every directory with a database |
| DataDir.NewNameMeansNoOldSidecar | internal/datadir/datadir.go:70-88 | for all interleavings and crashes a database under the new name has no sidecar under the old one |
| DataDir.ReturnedMeansMoved | internal/datadir/datadir.go:70-88 | once any caller has returned without an error, whatever the others do or whoever has crashed, nothing of the database is left under the old name |
| DataDir.NothingIsLost | internal/datadir/datadir.go:70-88 | until somebody opens the database every file is there with its content under one name, and without a database nothing is moved |
| DataDir.RenameNeverOverwrites | internal/datadir/datadir.go:81-86 | a rename never lands on a file that is there |
| DataDir.SidecarPromise | internal/datadir/datadir.go:78-80 | the promise about sidecars holds in every run if and only if none starts without its database |
| Prompt.ScanRoundTrip | internal/prompt/prompt.go:49-51 | scanning a template loses nothing |
| Prompt.MatchHere | internal/prompt/prompt.go:49-51 | a placeholder is found exactly where the pattern matches |
| Prompt.ValidateTemplate | internal/prompt/prompt.go:492-508 | accepts exactly the templates of at most 8192 bytes that use only known placeholders and use the required one |
| Prompt.Normalize | internal/prompt/prompt.go:365-404 | blank templates become the built-in ones, and all four must be valid |
| Prompt.ApplyOverride | internal/prompt/prompt.go:339-363 | the overrides of a scope replace what it inherits, kind by kind, if all of them are valid |
| Prompt.Resolve | internal/prompt/prompt.go:295-320 | feature over project over global over built-in, kind by kind, and the result is valid |
| Prompt.ResolvedIsFixedPoint | internal/prompt/prompt.go:295-320 | normalising the result changes nothing, so rendering it cannot fail |
| Prompt.Substitute | internal/prompt/prompt.go:423-425 | the single pass equals replacing segment by segment |
| Prompt.ValueAppears | internal/prompt/prompt.go:423-425 | an inserted value stands in the body verbatim and is never expanded again |
| Prompt.Render | internal/prompt/prompt.go:406-427 | succeeds on every resolved template, and the body contains the task id |
| Prompt.RenderBatch | internal/prompt/prompt.go:429-465 | likewise, and the body lists every task asked for |
| Configuration.NormalTwice | internal/config/config.go:348-439 | what Normalize yields is normal |
| Configuration.NormalIsFixed | internal/config/config.go:348-439 | Normalize leaves a normal configuration as it is |
| Configuration.PortRoundTrip | internal/config/config.go:38-92 | a port is read back as it was written, auto included |
| Configuration.SignedPort | internal/config/config.go:38-92 | a plus sign in front of a port is read over, a minus sign is rejected |
| Configuration.SaveLoadRoundTrip | internal/config/config.go:201-239 | saving without defaults, decoding and normalising gives the configuration back, with missing and empty auth_methods kept apart |
| Settings.NormalizeConfig | internal/config/config.go:348-439 | yields a normal form if and only if there is one |
| Settings.ConfigFile.ReorderAuthMethods | internal/config/config.go:737-760 | accepts exactly the permutations of the ids; the methods are the same in the order of the ids, everything else stays, and the list is present afterwards |
| Settings.OnlyOrderChangesIff | internal/config/config.go:737-760 | nothing but the order has changed if and only if there was a list to reorder |
| Settings.MissingBecomesEmpty | internal/config/config.go:737-760 | a missing list and no ids: accepted, and the list is empty from then on |
| Settings.ConfigFile.SetLanguage | internal/config/config.go:774-800 | built-in templates follow the language, edited ones stay, and a rejected change leaves no trace |
| Settings.ConfigFile.UpdateHost | internal/config/config.go:653-685 | accepted if and only if there is such a host, the new one has a normal form, and no other host bears its name; then the host and all methods that name it change together, otherwise nothing does |

## Left out

- HTTP, protobuf, commands, rendering, the web and terminal interfaces, launchd, the installer and the updater: plumbing or presentation.
- SQL, YAML, URL and time parsing, the regular expression engine and hashing: replaced by maps, records, parameters, a scanner and an injective fingerprint.
- Schema migrations and the move of the whole directory from prx to nnx (`migrate`): one rename each.
- Resolving.Resolver.Open: does not model how credentials are read; the token is a parameter.
- The last-succeeded time of the cache, and the deletion of its entries, whose errors the program ignores.
- Syncing.Synchronizer.SyncLive: says nothing about the counts when storing fails, because the program returns them as they stand.
- FetchBatch.FetchChunk: the remaining pages of a pull request's lists are one answer of the oracle.
- GitHub.FullUpdate: does not model author, assignees and URL, which are copied.
- FetchBatch.FetchRestBatch: the fields of a REST answer are one answer of the oracle; their folding is not modelled.
- CycleSearch.CyclePath: does not say which of several paths is returned.
- Deriving.DeriveFeatures: does not model the lists of ready, waiting, conflicting and stale tasks nor label appearances, which are filters and look-ups.
- Storing.Store.CreateDocument: does not model kind, locator and content apart, which are one text here, nor their CHECK.
- The order in which rows are listed, timestamps, task label overrides and prompt overrides of rows.
- Archive.BarrierHolds: a call is one step, and so is a synchronisation from its selection to its last record; the gap between reading and writing, which the program does not close, is not modelled.
- Refreshing.RefreshAll: does not model the path that fetches one by one from a single injected provider.
- Refreshing a single named feature or task, which the program allows on archived work.
- Revision.Run: does not model the wrap-around of the 64-bit revision; a change before the first reading of a stretch is not published, by design of the loop.
- RunState.RunningIsTruthful: reading the file's content is one step.
- Prompt.ValidateTemplate: takes the texts of the built-in templates as a parameter and templates as well-formed Unicode.
- Text.Lower and Text.Trim: cover ASCII only.
- Configuration.NormalIsFixed: idempotence of host, URL, version and label syntax is assumed of the parameters.
- Settings.NormalizeConfig: of task label keys that differ in case only any may win, as in the program, whose map order is random.
- The other setters of the configuration, which set one field and normalise.
