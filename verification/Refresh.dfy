/**
  An unscoped refresh from the store and back: what syncSelected of internal/app/service.go selects goes through
  syncLive, and what is stored is a step the read-only barrier allows and the tables never refuse.
 */
module Refreshing {
  import opened Status
  import opened GitHub
  import opened Database
  import opened Operations
  import opened Snapshots
  import opened Outcomes
  import opened Syncing
  import opened Resolving
  import opened Text
  import opened Visiting
  import Archive

  // ----- what the tables answer -----

  /** The row of the record's task is about the same pull request. */
  ghost predicate Holds(db: Tables, r: PullRequest) {
    exists t :: t in db.pullRequests && SameIdentity(PullRequestFrom(db, t), r)
  }

  /** The row of the record's task is the record. */
  ghost predicate Stores(db: Tables, r: PullRequest) {
    exists t :: t in db.pullRequests && PullRequestFrom(db, t) == r
  }

  /** None of the records is refused as they are written one after the other. */
  ghost predicate AllAccepted(db: Tables, records: seq<PullRequest>)
    decreases |records|
  {
    records == []
    || (UpsertedPullRequest(db, records[0]).reply == Done
        && AllAccepted(UpsertedPullRequest(db, records[0]).db, records[1..]))
  }

  /** The tables with the record in the place of the row. */
  function WithRecord(db: Tables, t: string, r: PullRequest): Tables {
    db.(pullRequests := db.pullRequests[t := r.(taskId := t)])
  }

  /** A record about the pull request its task has is stored in its place. */
  lemma HeldIsAccepted(db: Tables, r: PullRequest, t: string)
    requires Consistent(db) && t in db.pullRequests && SameIdentity(PullRequestFrom(db, t), r)
    ensures t in db.tasks
    ensures db.tasks[t].publicId == r.taskId && UpsertedPullRequest(db, r) == Outcome(WithRecord(db, t, r), Done)
  {
    hide EdgesSound, DocumentsSound, RowOf, Placed, IssuedBefore;
    assert TaskPublicIds(db)[t] == r.taskId;
    Archive.RowOfUnique(TaskPublicIds(db), t);
    assert AsRow(r, t) == r.(taskId := t);
    forall u | u in db.pullRequests && SamePullRequest(db.pullRequests[u], AsRow(r, t))
      ensures u == t
    {
      assert SamePullRequest(db.pullRequests[u], db.pullRequests[t]);
    }
  }

  lemma RecordIsStored(db: Tables, r: PullRequest, t: string)
    requires t in db.tasks && db.tasks[t].publicId == r.taskId
    ensures Stores(WithRecord(db, t, r), r)
  {
    assert PullRequestFrom(WithRecord(db, t, r), t) == r;
  }

  /** Every row stays about its pull request. */
  lemma StaysHeld(db: Tables, r: PullRequest, t: string, q: PullRequest)
    requires t in db.pullRequests && t in db.tasks && SameIdentity(PullRequestFrom(db, t), r) && Holds(db, q)
    ensures Holds(WithRecord(db, t, r), q)
  {
    var u :| u in db.pullRequests && SameIdentity(PullRequestFrom(db, u), q);
    assert SameIdentity(PullRequestFrom(WithRecord(db, t, r), u), q);
  }

  /** The rows of other tasks stay. */
  lemma StaysStored(db: Tables, r: PullRequest, t: string, q: PullRequest)
    requires t in db.tasks && db.tasks[t].publicId == r.taskId && q.taskId != r.taskId && Stores(db, q)
    ensures Stores(WithRecord(db, t, r), q)
  {
    var u :| u in db.pullRequests && PullRequestFrom(db, u) == q;
    assert PullRequestFrom(WithRecord(db, t, r), u) == q;
  }

  /** One record is accepted, and what was held before is held afterwards. */
  lemma WriteHeld(db: Tables, r: PullRequest)
    returns (next: Tables)
    requires Consistent(db) && Holds(db, r)
    ensures UpsertedPullRequest(db, r) == Outcome(next, Done) && Consistent(next) && Stores(next, r)
    ensures forall q :: Holds(db, q) ==> Holds(next, q)
    ensures forall q :: Stores(db, q) && q.taskId != r.taskId ==> Stores(next, q)
  {
    hide Consistent, UpsertedPullRequest, PullRequestFrom, Holds, Stores, WithRecord;
    var t := RowHeld(db, r);
    HeldIsAccepted(db, r, t);
    UpsertedPullRequestKeeps(db, r);
    next := WithRecord(db, t, r);
    RecordIsStored(db, r, t);
    forall q | Holds(db, q)
      ensures Holds(next, q)
    {
      StaysHeld(db, r, t, q);
    }
    forall q | Stores(db, q) && q.taskId != r.taskId
      ensures Stores(next, q)
    {
      StaysStored(db, r, t, q);
    }
  }

  lemma RowHeld(db: Tables, r: PullRequest) returns (t: string)
    requires Holds(db, r)
    ensures t in db.pullRequests && SameIdentity(PullRequestFrom(db, t), r)
  {
    t :| t in db.pullRequests && SameIdentity(PullRequestFrom(db, t), r);
  }

  /** Records about what the tables hold are all accepted, and a record stays until its task is written again. */
  lemma {:induction false} HeldAreAccepted(db: Tables, records: seq<PullRequest>, q: PullRequest)
    requires Consistent(db) && forall r :: r in records ==> Holds(db, r)
    ensures AllAccepted(db, records)
    ensures Stores(db, q) && q.taskId !in TaskIds(records) ==> Stores(Archive.WriteAll(db, records), q)
    decreases |records|
  {
    hide Consistent, UpsertedPullRequest, Holds, Stores;
    if records != [] {
      var next := WriteHeld(db, records[0]);
      HeldAreAccepted(next, records[1..], q);
    }
  }

  /** With one record for each task, every record is in the tables in the end. */
  lemma {:induction false} AcceptedAreStored(db: Tables, records: seq<PullRequest>)
    requires Consistent(db) && DistinctTasks(records) && forall r :: r in records ==> Holds(db, r)
    ensures forall r :: r in records ==> Stores(Archive.WriteAll(db, records), r)
    decreases |records|
  {
    hide Consistent, UpsertedPullRequest, Holds, Stores;
    if records != [] {
      var first, rest := records[0], records[1..];
      var next := WriteHeld(db, first);
      AcceptedAreStored(next, rest);
      HeldAreAccepted(next, rest, first);
      assert first.taskId !in TaskIds(rest);
      assert forall r :: r in records ==> r == first || r in rest;
    }
  }

  /** What is selected is held by the tables it is selected from. */
  lemma SelectedIsHeld(db: Tables, eligible: seq<PullRequest>, stored: seq<PullRequest>)
    requires Archive.SelectedFrom(db, eligible) && OnlyAbout(eligible, stored)
    ensures forall r :: r in stored ==> Holds(db, r)
  {
    hide SameIdentity, Archive.SelectedFrom;
    forall r | r in stored
      ensures Holds(db, r)
    {
      var v :| v in eligible && SameIdentity(v, r);
      var t := Archive.SelectedIsListed(db, eligible, v);
      assert PullRequestFrom(db, t) == v;
    }
  }

  lemma SettledDistinct(
    world: World, values: seq<PullRequest>, asked: seq<Answer>, stored: seq<PullRequest>)
    requires DistinctTasks(values) && Settled(world, values, asked, stored)
    ensures DistinctTasks(stored)
  {
    hide Found, AllGiveReasons;
    forall i, j | 0 <= i < j < |stored|
      ensures stored[i].taskId != stored[j].taskId
    {
      assert SettledOne(values[i], Found(asked), stored[i]) && SettledOne(values[j], Found(asked), stored[j]);
    }
  }

  // ----- the refresh -----

  /**
    The whole of an unscoped refresh: whatever the providers answer and wherever the store fails, the tables change
    by a step of the barrier and refuse none of the records; without a failure of the store every pull request that
    was selected is settled, and the record that settles it is in the tables.
   */
  method RefreshAll(db: Tables, sync: Synchronizer)
    returns (succeeded: nat, failed: nat, err: Option<Failure>, ghost db': Tables,
      ghost eligible: seq<PullRequest>, ghost order: seq<PullRequest>, ghost asked: seq<Answer>,
      ghost stored: seq<PullRequest>)
    requires Consistent(db) && sync.resolver.Valid()
    modifies sync, sync.resolver
    ensures Archive.Takes(db, Archive.BySync(eligible, stored), db')
    ensures sync.upserts == old(sync.upserts) + stored && db' == Archive.WriteAll(db, stored)
    ensures AllAccepted(db, stored)
    ensures err.Some? ==> StorageFailed(sync.world, old(sync.tick), sync.tick, err.value)
    ensures err.None? ==>
              multiset(order) == multiset(eligible) && Settled(sync.world, order, asked, stored)
              && succeeded + failed + Count(IsQuiet, stored) == |eligible|
    ensures err.None? ==> forall r :: r in stored ==> Stores(db', r)
  {
    hide Consistent, Settled, Count, StorageFailed, Archive.SelectedFrom, Archive.WriteAll, DistinctTasks;
    hide Holds, Stores, AllAccepted, Visited, Earned, Flatten, Distinct, OnlyAbout;
    var snapshot, tasks, selection := Archive.SelectUnscoped(db);
    eligible := selection;
    var taskFeature := Archive.IndexFeaturesOfTasks(tasks);
    Archive.SelectionIsDistinct(db, selection);
    SelectedAll(selection, taskFeature);
    ghost var visits;
    succeeded, failed, err, order, asked, stored, visits := sync.SyncLive(selection, taskFeature, "", "");
    AboutIds(selection, stored);
    db' := Archive.WriteAll(db, stored);
    SelectedIsHeld(db, selection, stored);
    if stored != [] {
      HeldAreAccepted(db, stored, stored[0]);
    } else {
      NothingIsRefused(db);
    }
    if err.None? {
      FlattenDistinct(selection, KeysIn(visits));
      SettledDistinct(sync.world, order, asked, stored);
      AcceptedAreStored(db, stored);
    }
  }

  lemma NothingIsRefused(db: Tables)
    ensures AllAccepted(db, [])
  {
  }

  lemma AboutIds(selected: seq<PullRequest>, stored: seq<PullRequest>)
    requires OnlyAbout(selected, stored)
    ensures TaskIds(stored) <= TaskIds(selected)
  {
  }
}
