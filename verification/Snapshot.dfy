/** Reading the store: Snapshot of internal/store/repository.go, and what derived snapshots of it can rely on. */
module Snapshots {
  import opened Text
  import opened Status
  import opened Digraph
  import opened Database
  import opened Operations
  import opened Readiness
  import GitHub

  function HasPlanFor(db: Tables, t: string): bool {
    exists k :: k in db.documents && db.documents[k].plan && db.documents[k].parent == OfTask(t)
  }

  /** domainTask: the row with public ids in place of storage ids. */
  function TaskFrom(db: Tables, t: string): Task
    requires t in db.tasks
  {
    var row := db.tasks[t];
    var feature := if row.featureId in db.features then db.features[row.featureId].publicId else "";
    Task(row.publicId, feature, row.title, row.status, HasPlanFor(db, t))
  }

  function PullRequestFrom(db: Tables, t: string): PullRequest
    requires t in db.pullRequests
  {
    db.pullRequests[t].(taskId := if t in db.tasks then db.tasks[t].publicId else "")
  }

  datatype Project = Project(id: string, title: string, description: string, archived: bool)

  function ProjectFrom(db: Tables, p: string): Project
    requires p in db.projects
  {
    var row := db.projects[p];
    Project(row.publicId, row.title, row.description, row.archived)
  }

  datatype Feature = Feature(
    id: string, projectId: string, title: string, description: string, status: FeatureStatus, archived: bool)

  function NameIn(ids: map<string, string>, k: string): string {
    if k in ids then ids[k] else ""
  }

  function FeatureFrom(db: Tables, f: string): Feature
    requires f in db.features
  {
    var row := db.features[f];
    Feature(row.publicId, NameIn(ProjectIds(db), row.projectId), row.title, row.description, row.status,
      row.archived)
  }

  /** A listed document names its parent by its public id, and its text is left out. */
  datatype Document = Document(id: string, parent: Parent, title: string, plan: bool)

  function DocumentFrom(db: Tables, k: string): Document
    requires k in db.documents
  {
    var row := db.documents[k];
    var parent := match row.parent
      case OfProject(p) => OfProject(NameIn(ProjectIds(db), p))
      case OfFeature(f) => OfFeature(NameIn(FeatureIds(db), f))
      case OfTask(t) => OfTask(NameIn(TaskPublicIds(db), t));
    Document(k, parent, row.title, row.plan)
  }

  datatype Snapshot = Snapshot(
    projects: seq<Project>, features: seq<Feature>, tasks: seq<Task>, dependencies: seq<Dependency>,
    pullRequests: seq<PullRequest>, documents: seq<Document>)

  /** The listed values are those of the rows. */
  ghost predicate ListedBy<T>(keys: set<string>, value: string --> T, rows: seq<string>, listed: seq<T>)
    requires forall k :: k in keys ==> value.requires(k)
  {
    && Distinct(rows) && Range(rows) == keys && |listed| == |rows|
    && forall i :: 0 <= i < |rows| ==> rows[i] in keys && listed[i] == value(rows[i])
  }

  /** Every row of a table appears once, in some order. */
  ghost predicate Lists<T>(keys: set<string>, value: string --> T, listed: seq<T>)
    requires forall k :: k in keys ==> value.requires(k)
  {
    exists rows :: ListedBy(keys, value, rows, listed)
  }

  function ProjectsFrom(db: Tables): (r: string --> Project)
    ensures forall p :: p in db.projects ==> r.requires(p) && r(p) == ProjectFrom(db, p)
  {
    p requires p in db.projects => ProjectFrom(db, p)
  }

  function FeaturesFrom(db: Tables): (r: string --> Feature)
    ensures forall f :: f in db.features ==> r.requires(f) && r(f) == FeatureFrom(db, f)
  {
    f requires f in db.features => FeatureFrom(db, f)
  }

  function TasksFrom(db: Tables): (r: string --> Task)
    ensures forall t :: t in db.tasks ==> r.requires(t) && r(t) == TaskFrom(db, t)
  {
    t requires t in db.tasks => TaskFrom(db, t)
  }

  function PullRequestsFrom(db: Tables): (r: string --> PullRequest)
    ensures forall t :: t in db.pullRequests ==> r.requires(t) && r(t) == PullRequestFrom(db, t)
  {
    t requires t in db.pullRequests => PullRequestFrom(db, t)
  }

  function DocumentsFrom(db: Tables): (r: string --> Document)
    ensures forall k :: k in db.documents ==> r.requires(k) && r(k) == DocumentFrom(db, k)
  {
    k requires k in db.documents => DocumentFrom(db, k)
  }

  ghost predicate IsSnapshot(db: Tables, s: Snapshot) {
    && Lists(db.projects.Keys, ProjectsFrom(db), s.projects)
    && Lists(db.features.Keys, FeaturesFrom(db), s.features)
    && Lists(db.tasks.Keys, TasksFrom(db), s.tasks)
    && s.dependencies == RenamedAll(db.dependencies, TaskPublicIds(db))
    && Lists(db.pullRequests.Keys, PullRequestsFrom(db), s.pullRequests)
    && Lists(db.documents.Keys, DocumentsFrom(db), s.documents)
  }

  /** The rows of a table in some order. */
  method ListRows<T>(keys: set<string>, value: string --> T) returns (listed: seq<T>)
    requires forall k :: k in keys ==> value.requires(k)
    ensures Lists(keys, value, listed)
  {
    listed := [];
    var remaining := keys;
    ghost var rows: seq<string> := [];
    while remaining != {}
      invariant remaining <= keys && ListedBy(keys - remaining, value, rows, listed)
      decreases remaining
    {
      var k :| k in remaining;
      assert k !in Range(rows);
      assert Range(rows + [k]) == Range(rows) + {k};
      rows := rows + [k];
      listed := listed + [value(k)];
      remaining := remaining - {k};
    }
    assert ListedBy(keys, value, rows, listed);
  }

  method RenameDependencies(deps: seq<Dependency>, ids: map<string, string>) returns (renamed: seq<Dependency>)
    ensures renamed == RenamedAll(deps, ids)
  {
    renamed := [];
    for i := 0 to |deps|
      invariant renamed == RenamedAll(deps, ids)[..i]
    {
      renamed := renamed + [Renamed(deps[i], ids)];
    }
    assert RenamedAll(deps, ids)[..|deps|] == RenamedAll(deps, ids);
  }

  method TakeSnapshot(db: Tables) returns (s: Snapshot)
    ensures IsSnapshot(db, s)
  {
    var projects := ListRows(db.projects.Keys, ProjectsFrom(db));
    var features := ListRows(db.features.Keys, FeaturesFrom(db));
    var tasks := ListRows(db.tasks.Keys, TasksFrom(db));
    var deps := RenameDependencies(db.dependencies, TaskPublicIds(db));
    var prs := ListRows(db.pullRequests.Keys, PullRequestsFrom(db));
    var documents := ListRows(db.documents.Keys, DocumentsFrom(db));
    s := Snapshot(projects, features, tasks, deps, prs, documents);
  }

  /** A circle between public ids would be one between rows. */
  lemma RenamedStaysAcyclic(deps: seq<Dependency>, ids: map<string, string>)
    requires Acyclic(deps) && EndsIn(deps, ids) && Injective(ids)
    ensures Acyclic(RenamedAll(deps, ids))
  {
    hide Names;
    forall q | IsWalk(RenamedAll(deps, ids), q) && |q| >= 2
      ensures q[0] != q[|q| - 1]
    {
      assert Dependency(q[0], q[0 + 1]) in RenamedAll(deps, ids);
      var k :| 0 <= k < |deps| && RenamedAll(deps, ids)[k] == Dependency(q[0], q[1]);
      assert deps[k] in deps;
      var p := WalkBackward(deps, ids, q, deps[k].blocker);
    }
  }

  lemma FactsOf(db: Tables)
    requires Consistent(db)
    ensures EdgesSound(db) && Injective(TaskPublicIds(db)) && db.pullRequests.Keys <= db.tasks.Keys
  {
  }

  lemma EndsAreTasks(db: Tables)
    requires EdgesSound(db)
    ensures EndsIn(db.dependencies, TaskPublicIds(db))
  {
  }

  /** The listed tasks carry exactly the public ids, each once. */
  lemma ListedIds(db: Tables, rows: seq<string>, tasks: seq<Task>)
    requires ListedBy(db.tasks.Keys, TasksFrom(db), rows, tasks) && Injective(TaskPublicIds(db))
    ensures Distinct(Ids(tasks))
    ensures forall t :: t in TaskPublicIds(db) ==> TaskPublicIds(db)[t] in Range(Ids(tasks))
  {
    var ids := TaskPublicIds(db);
    assert forall i :: 0 <= i < |rows| ==> Ids(tasks)[i] == ids[rows[i]];
    forall t | t in ids
      ensures ids[t] in Range(Ids(tasks))
    {
      assert t in Range(rows);
      var i :| 0 <= i < |rows| && rows[i] == t;
      assert Ids(tasks)[i] == ids[t];
    }
  }

  /** What Derive is given from a consistent store: distinct tasks, known endpoints, no circle. */
  lemma SnapshotIsSound(db: Tables, s: Snapshot)
    requires Consistent(db) && IsSnapshot(db, s)
    ensures Sound(s.tasks, s.dependencies)
  {
    hide Consistent, Acyclic, ListedBy, InsideFeature;
    FactsOf(db);
    EndsAreTasks(db);
    var rows :| ListedBy(db.tasks.Keys, TasksFrom(db), rows, s.tasks);
    ListedIds(db, rows, s.tasks);
    RenamedStaysAcyclic(db.dependencies, TaskPublicIds(db));
    forall d | d in s.dependencies
      ensures d.blocker in Range(Ids(s.tasks)) && d.blocked in Range(Ids(s.tasks))
    {
      var k :| 0 <= k < |s.dependencies| && s.dependencies[k] == d;
      assert db.dependencies[k] in db.dependencies;
    }
  }

  lemma ListedPullRequests(db: Tables, rows: seq<string>, prs: seq<PullRequest>)
    requires ListedBy(db.pullRequests.Keys, PullRequestsFrom(db), rows, prs)
    requires Injective(TaskPublicIds(db)) && db.pullRequests.Keys <= db.tasks.Keys
    ensures GitHub.DistinctTasks(prs)
  {
    var ids := TaskPublicIds(db);
    forall i | 0 <= i < |rows|
      ensures rows[i] in ids && prs[i].taskId == ids[rows[i]]
    {
      assert prs[i] == PullRequestFrom(db, rows[i]);
    }
    hide PullRequestFrom, TaskPublicIds;
    forall i, j | 0 <= i < j < |prs|
      ensures prs[i].taskId != prs[j].taskId
    {
      assert rows[i] != rows[j];
    }
  }

  /** No task has two pull requests in a snapshot: what the synchronisation starts from. */
  lemma SnapshotHasOnePullRequestEach(db: Tables, s: Snapshot)
    requires Consistent(db) && IsSnapshot(db, s)
    ensures GitHub.DistinctTasks(s.pullRequests)
  {
    hide Consistent, ListedBy, EdgesSound;
    FactsOf(db);
    var rows :| ListedBy(db.pullRequests.Keys, PullRequestsFrom(db), rows, s.pullRequests);
    ListedPullRequests(db, rows, s.pullRequests);
  }

  /** In every state of every run, a chain of pending blockers leads from each waiting task to one that can move. */
  lemma NoDeadlockInAnyRun(run: Run, i: nat, s: Snapshot, result: seq<DerivedTask>, waiting: nat)
    returns (chain: seq<nat>)
    requires IsRun(run) && i < |run.states| && IsSnapshot(run.states[i], s)
    requires AllDerived(s.tasks, s.dependencies, s.pullRequests, result)
    requires waiting < |result| && result[waiting].pending != []
    ensures PendingChain(result, chain) && chain[0] == waiting
    ensures result[chain[|chain| - 1]].pending == [] && CanMove(result[chain[|chain| - 1]])
  {
    hide Consistent, IsSnapshot, IsDerived, Sound, CanMove, StepOf;
    RunsStayConsistent(run, i);
    SnapshotIsSound(run.states[i], s);
    chain := WaitingLeadsToWork(s.tasks, s.dependencies, s.pullRequests, result, [waiting]);
  }
}
