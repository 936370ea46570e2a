/** What the service derives for every feature of a snapshot: deriveSnapshot of internal/app/service.go. */
module Deriving {
  import opened Text
  import opened Status
  import opened Database
  import opened Readiness
  import opened Snapshots

  // ----- counting the tasks of a feature -----

  datatype Counts = Counts(tasks: nat, ready: nat, inReview: nat, conflicts: nat, merged: nat, finished: nat)

  const NO_COUNTS: Counts := Counts(0, 0, 0, 0, 0, 0)

  predicate IsTask(t: DerivedTask) {
    true
  }

  predicate IsReady(t: DerivedTask) {
    t.ready
  }

  predicate IsInReview(t: DerivedTask) {
    t.display.ShowInReview?
  }

  predicate HasConflict(t: DerivedTask) {
    Conflict in t.labels
  }

  predicate IsMerged(t: DerivedTask) {
    t.display.ShowMerged?
  }

  predicate IsFinished(t: DerivedTask) {
    IsTaskFinished(t.display)
  }

  function One(counted: bool): nat {
    if counted then 1 else 0
  }

  function CountTask(c: Counts, t: DerivedTask): Counts {
    Counts(c.tasks + 1, c.ready + One(IsReady(t)), c.inReview + One(IsInReview(t)),
      c.conflicts + One(HasConflict(t)), c.merged + One(IsMerged(t)), c.finished + One(IsFinished(t)))
  }

  /** The positions of the feature's tasks of one kind. */
  function Positions(tasks: seq<DerivedTask>, id: string, kind: DerivedTask -> bool): set<nat> {
    set k: nat | k < |tasks| && tasks[k].task.featureId == id && kind(tasks[k])
  }

  /** The counts are the numbers of the feature's tasks of each kind. */
  ghost predicate Counted(tasks: seq<DerivedTask>, id: string, c: Counts) {
    && c.tasks == |Positions(tasks, id, IsTask)| && c.ready == |Positions(tasks, id, IsReady)|
    && c.inReview == |Positions(tasks, id, IsInReview)| && c.conflicts == |Positions(tasks, id, HasConflict)|
    && c.merged == |Positions(tasks, id, IsMerged)| && c.finished == |Positions(tasks, id, IsFinished)|
  }

  lemma NobodyCounted(id: string)
    ensures Counted([], id, NO_COUNTS)
  {
    assert forall kind: DerivedTask -> bool :: Positions([], id, kind) == {};
  }

  lemma PositionsNext(tasks: seq<DerivedTask>, t: DerivedTask, id: string, kind: DerivedTask -> bool)
    ensures |Positions(tasks + [t], id, kind)|
         == |Positions(tasks, id, kind)| + One(t.task.featureId == id && kind(t))
  {
    var more := if t.task.featureId == id && kind(t) then {|tasks|} else {};
    assert Positions(tasks + [t], id, kind) == Positions(tasks, id, kind) + more;
  }

  lemma CountedNext(tasks: seq<DerivedTask>, t: DerivedTask, id: string, c: Counts)
    requires Counted(tasks, id, c)
    ensures Counted(tasks + [t], id, if t.task.featureId == id then CountTask(c, t) else c)
  {
    hide Positions;
    PositionsNext(tasks, t, id, IsTask);
    PositionsNext(tasks, t, id, IsReady);
    PositionsNext(tasks, t, id, IsInReview);
    PositionsNext(tasks, t, id, HasConflict);
    PositionsNext(tasks, t, id, IsMerged);
    PositionsNext(tasks, t, id, IsFinished);
  }

  /** No later feature has the same id: the one an index built in list order points to. */
  predicate IsLast(features: seq<Feature>, i: nat)
    requires i < |features|
  {
    forall j :: i < j < |features| ==> features[j].id != features[i].id
  }

  method IndexFeatures(features: seq<Feature>) returns (index: map<string, nat>)
    ensures forall id :: id in index <==> exists f :: f in features && f.id == id
    ensures forall id :: id in index ==>
              index[id] < |features| && features[index[id]].id == id && IsLast(features, index[id])
  {
    index := map[];
    for i := 0 to |features|
      invariant forall id :: id in index <==> exists f :: f in features[..i] && f.id == id
      invariant forall id :: id in index ==> index[id] < i && features[index[id]].id == id
      invariant forall id :: id in index ==> forall j :: index[id] < j < i ==> features[j].id != id
    {
      assert features[..i + 1] == features[..i] + [features[i]];
      index := index[features[i].id := i];
    }
    assert features[..|features|] == features;
  }

  ghost predicate CountedAt(features: seq<Feature>, tasks: seq<DerivedTask>, i: nat, c: Counts)
    requires i < |features|
  {
    if IsLast(features, i) then Counted(tasks, features[i].id, c) else c == NO_COUNTS
  }

  ghost predicate AllCounted(features: seq<Feature>, tasks: seq<DerivedTask>, counts: seq<Counts>) {
    |counts| == |features| && forall i {:trigger counts[i]} :: 0 <= i < |features| ==>
      CountedAt(features, tasks, i, counts[i])
  }

  /** A task counts for the feature its id points to, and for no other; an unknown feature is passed over. */
  lemma AllCountedNext(
    features: seq<Feature>, index: map<string, nat>, tasks: seq<DerivedTask>, t: DerivedTask, counts: seq<Counts>)
    requires AllCounted(features, tasks, counts)
    requires forall id :: id in index <==> exists f :: f in features && f.id == id
    requires forall id :: id in index ==>
               index[id] < |features| && features[index[id]].id == id && IsLast(features, index[id])
    ensures var id := t.task.featureId;
            AllCounted(features, tasks + [t],
              if id in index then counts[index[id] := CountTask(counts[index[id]], t)] else counts)
  {
    hide Counted;
    var id := t.task.featureId;
    var counts' := if id in index then counts[index[id] := CountTask(counts[index[id]], t)] else counts;
    forall i | 0 <= i < |features|
      ensures CountedAt(features, tasks + [t], i, counts'[i])
    {
      assert CountedAt(features, tasks, i, counts[i]) && features[i] in features;
      if IsLast(features, i) {
        CountedNext(tasks, t, features[i].id, counts[i]);
        if features[i].id == id {
          assert !(i < index[id]) && !(index[id] < i);
        }
      }
    }
  }

  method CountTasks(features: seq<Feature>, tasks: seq<DerivedTask>) returns (counts: seq<Counts>)
    ensures AllCounted(features, tasks, counts)
  {
    hide Counted;
    var index := IndexFeatures(features);
    counts := seq(|features|, _ => NO_COUNTS);
    forall i | 0 <= i < |features|
      ensures CountedAt(features, [], i, counts[i])
    {
      NobodyCounted(features[i].id);
    }
    assert tasks[..0] == [];
    for k := 0 to |tasks|
      invariant AllCounted(features, tasks[..k], counts)
    {
      var id := tasks[k].task.featureId;
      AllCountedNext(features, index, tasks[..k], tasks[k], counts);
      assert tasks[..k + 1] == tasks[..k] + [tasks[k]];
      if id in index {
        counts := counts[index[id] := CountTask(counts[index[id]], tasks[k])];
      }
    }
    assert tasks[..|tasks|] == tasks;
  }

  // ----- the derived features -----

  datatype DerivedFeature = DerivedFeature(
    feature: Feature, counts: Counts, displayStatus: FeatureStatus, readOnly: bool)

  function FeatureDisplayStatus(stored: FeatureStatus, taskCount: nat, finishedCount: nat): FeatureStatus {
    if !stored.AutoStatus? then stored
    else if taskCount >= 1 && finishedCount == taskCount then CompletedStatus else ActiveStatus
  }

  /** The flag of the last project with this id; an unknown project is not archived. */
  function ArchivedIn(projects: seq<Project>, id: string): bool {
    if projects == [] then false
    else if projects[|projects| - 1].id == id then projects[|projects| - 1].archived
    else ArchivedIn(projects[..|projects| - 1], id)
  }

  method ArchivedProjects(projects: seq<Project>) returns (archived: map<string, bool>)
    ensures forall id :: (id in archived && archived[id]) == ArchivedIn(projects, id)
  {
    archived := map[];
    for i := 0 to |projects|
      invariant forall id :: (id in archived && archived[id]) == ArchivedIn(projects[..i], id)
    {
      assert projects[..i + 1][..i] == projects[..i];
      archived := archived[projects[i].id := projects[i].archived];
    }
    assert projects[..|projects|] == projects;
  }

  ghost predicate IsDerivedFeature(
    projects: seq<Project>, features: seq<Feature>, tasks: seq<DerivedTask>, i: nat, r: DerivedFeature)
    requires i < |features|
  {
    && r.feature == features[i] && CountedAt(features, tasks, i, r.counts)
    && r.displayStatus == FeatureDisplayStatus(features[i].status, r.counts.tasks, r.counts.finished)
    && r.readOnly == (features[i].archived || ArchivedIn(projects, features[i].projectId))
  }

  ghost predicate AllDerivedFeatures(
    projects: seq<Project>, features: seq<Feature>, tasks: seq<DerivedTask>, r: seq<DerivedFeature>)
  {
    |r| == |features|
    && forall i {:trigger r[i]} :: 0 <= i < |features| ==> IsDerivedFeature(projects, features, tasks, i, r[i])
  }

  /** deriveSnapshot, as far as features go. */
  method DeriveFeatures(projects: seq<Project>, features: seq<Feature>, tasks: seq<DerivedTask>)
    returns (r: seq<DerivedFeature>)
    ensures AllDerivedFeatures(projects, features, tasks, r)
  {
    hide CountedAt;
    var counts := CountTasks(features, tasks);
    var archived := ArchivedProjects(projects);
    r := [];
    for i := 0 to |features|
      invariant |r| == i
      invariant forall k {:trigger r[k]} :: 0 <= k < i ==> IsDerivedFeature(projects, features, tasks, k, r[k])
    {
      var f, c := features[i], counts[i];
      r := r + [DerivedFeature(f, c, FeatureDisplayStatus(f.status, c.tasks, c.finished),
        f.archived || (f.projectId in archived && archived[f.projectId]))];
    }
  }

  /** An automatic feature is completed when it has a task and all of its tasks are finished. */
  lemma CompletedMeansFinished(
    projects: seq<Project>, features: seq<Feature>, tasks: seq<DerivedTask>, i: nat, r: DerivedFeature)
    requires i < |features| && IsLast(features, i) && IsDerivedFeature(projects, features, tasks, i, r)
    ensures r.displayStatus.CompletedStatus? <==>
              || features[i].status.CompletedStatus?
              || (features[i].status.AutoStatus?
                  && (exists t :: t in tasks && t.task.featureId == features[i].id)
                  && forall t :: t in tasks && t.task.featureId == features[i].id ==> IsFinished(t))
  {
    var id := features[i].id;
    var all, finished := Positions(tasks, id, IsTask), Positions(tasks, id, IsFinished);
    assert finished <= all;
    SubsetSize(finished, all);
    if forall t :: t in tasks && t.task.featureId == id ==> IsFinished(t) {
      assert forall k :: k in all ==> tasks[k] in tasks;
      assert all == finished;
    }
    if |all| == |finished| {
      forall t | t in tasks && t.task.featureId == id
        ensures IsFinished(t)
      {
        var k :| 0 <= k < |tasks| && tasks[k] == t;
        assert k in all;
      }
    }
    if |all| >= 1 {
      var k :| k in all;
      assert tasks[k] in tasks;
    } else if exists t :: t in tasks && t.task.featureId == id {
      var t :| t in tasks && t.task.featureId == id;
      var k :| 0 <= k < |tasks| && tasks[k] == t;
      assert k in all;
    }
  }
}
