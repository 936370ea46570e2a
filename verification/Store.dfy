/** The store's methods: statements inside a transaction that either commits or leaves the tables as they were. */
module Storing {
  import opened Status
  import opened Digraph
  import opened CycleSearch
  import opened Database
  import opened Operations

  // ----- statements; None stands for a violated foreign key (every one is ON DELETE RESTRICT) -----

  function DeleteDependenciesForTask(db: Tables, t: string): Tables {
    db.(dependencies := KeepIf(db.dependencies, (d: Dependency) => d.blocker != t && d.blocked != t))
  }

  function DeletePullRequestOf(db: Tables, t: string): Tables {
    db.(pullRequests := db.pullRequests - {t})
  }

  function DeleteDocumentsForTask(db: Tables, t: string): Tables {
    db.(documents := map k | k in db.documents && db.documents[k].parent != OfTask(t) :: db.documents[k])
  }

  function DeleteTaskRow(db: Tables, t: string): Option<Tables> {
    if TaskReferenced(db, t) then None else Some(db.(tasks := db.tasks - {t}))
  }

  /** Only rows whose blocker is in the feature. */
  function DeleteDependenciesForFeature(db: Tables, f: string): Tables {
    db.(dependencies := KeepIf(db.dependencies, (d: Dependency) => !BlockerIn(TasksOf(db, f))(d)))
  }

  function DeletePullRequestsForFeature(db: Tables, f: string): Tables {
    db.(pullRequests := db.pullRequests - TasksOf(db, f))
  }

  function DeleteDocumentsForFeature(db: Tables, f: string): Tables {
    db.(documents := map k | k in db.documents && db.documents[k].parent != OfFeature(f)
          && !(db.documents[k].parent.OfTask? && db.documents[k].parent.id in TasksOf(db, f)) :: db.documents[k])
  }

  function DeleteTasksForFeature(db: Tables, f: string): Option<Tables> {
    if exists t :: t in TasksOf(db, f) && TaskReferenced(db, t) then None
    else Some(db.(tasks := db.tasks - TasksOf(db, f)))
  }

  function DeleteFeatureRow(db: Tables, f: string): Option<Tables> {
    if FeatureReferenced(db, f) then None else Some(db.(features := db.features - {f}))
  }

  function DeleteDocumentsForProject(db: Tables, p: string): Tables {
    db.(documents := map k | k in db.documents && db.documents[k].parent != OfProject(p) :: db.documents[k])
  }

  function DeleteProjectRow(db: Tables, p: string): Option<Tables> {
    if ProjectReferenced(db, p) then None else Some(db.(projects := db.projects - {p}))
  }

  // ----- what the statements of a cascade amount to -----

  /** Without what refers to it, the row of a task can go. */
  lemma TaskCascade(db: Tables, t: string)
    ensures DeleteTaskRow(DeleteDocumentsForTask(DeletePullRequestOf(DeleteDependenciesForTask(db, t), t), t), t)
         == Some(Without(db, {}, {}, {t}))
  {
    KeepIfSame(db.dependencies, (d: Dependency) => d.blocker != t && d.blocked != t, Untouched({t}));
    var c := DeleteDocumentsForTask(DeletePullRequestOf(DeleteDependenciesForTask(db, t), t), t);
    assert c.documents == DocumentsWithout(db.documents, {}, {}, {t});
    assert !TaskReferenced(c, t);
    assert db.projects - {} == db.projects && db.features - {} == db.features;
  }

  lemma TaskAlone(db: Tables, t: string)
    requires !TaskReferenced(db, t)
    ensures Without(db, {}, {}, {t}) == db.(tasks := db.tasks - {t})
  {
    KeepIfAll(db.dependencies, Untouched({t}));
    assert DocumentsWithout(db.documents, {}, {}, {t}) == db.documents;
    assert db.projects - {} == db.projects && db.features - {} == db.features;
    assert db.pullRequests - {t} == db.pullRequests;
  }

  /** Edges stay inside their feature, so deleting by blocker deletes by either end. */
  lemma DeletingByBlockerSuffices(db: Tables, f: string)
    requires EdgesSound(db)
    ensures DeleteDependenciesForFeature(db, f)
         == db.(dependencies := KeepIf(db.dependencies, Untouched(TasksOf(db, f))))
  {
    forall d | d in db.dependencies
      ensures !BlockerIn(TasksOf(db, f))(d) == Untouched(TasksOf(db, f))(d)
    {
      assert InsideFeature(db, d);
    }
    KeepIfSame(db.dependencies, (d: Dependency) => !BlockerIn(TasksOf(db, f))(d), Untouched(TasksOf(db, f)));
  }

  /** deleteFeatureContents up to the statement that may fail. */
  function FeatureLeaves(db: Tables, f: string): Tables {
    DeleteDocumentsForFeature(DeletePullRequestsForFeature(DeleteDependenciesForFeature(db, f), f), f)
  }

  lemma FeatureLeavesAre(db: Tables, f: string)
    requires EdgesSound(db)
    ensures FeatureLeaves(db, f)
         == db.(dependencies := KeepIf(db.dependencies, Untouched(TasksOf(db, f))),
                pullRequests := db.pullRequests - TasksOf(db, f),
                documents := DocumentsWithout(db.documents, {}, {f}, TasksOf(db, f)))
  {
    DeletingByBlockerSuffices(db, f);
    var a := DeleteDependenciesForFeature(db, f);
    assert TasksOf(a, f) == TasksOf(db, f);
    var b := DeletePullRequestsForFeature(a, f);
    assert TasksOf(b, f) == TasksOf(db, f);
    assert DeleteDocumentsForFeature(b, f).documents == DocumentsWithout(db.documents, {}, {f}, TasksOf(db, f));
  }

  /** The statements of deleteFeatureContents never violate a foreign key, and leave nothing behind. */
  lemma FeatureCascade(db: Tables, f: string)
    requires EdgesSound(db)
    ensures DeleteTasksForFeature(FeatureLeaves(db, f), f).Some?
    ensures DeleteFeatureRow(DeleteTasksForFeature(FeatureLeaves(db, f), f).value, f)
         == Some(Without(db, {}, {f}, TasksOf(db, f)))
  {
    FeatureLeavesAre(db, f);
    var c := FeatureLeaves(db, f);
    assert TasksOf(c, f) == TasksOf(db, f);
    forall t | t in TasksOf(c, f)
      ensures !TaskReferenced(c, t)
    {
    }
    assert db.projects - {} == db.projects;
  }

  lemma FeatureAlone(db: Tables, f: string)
    requires !FeatureReferenced(db, f)
    ensures Without(db, {}, {f}, TasksOf(db, f)) == db.(features := db.features - {f})
  {
    assert TasksOf(db, f) == {};
    KeepIfAll(db.dependencies, Untouched({}));
    assert DocumentsWithout(db.documents, {}, {f}, {}) == db.documents;
    assert db.projects - {} == db.projects && db.tasks - {} == db.tasks;
    assert db.pullRequests - {} == db.pullRequests;
  }

  lemma ProjectAlone(db: Tables, p: string)
    requires !ProjectReferenced(db, p)
    ensures Without(db, {p}, FeaturesOf(db, p), TasksOfAll(db, FeaturesOf(db, p)))
         == db.(projects := db.projects - {p})
  {
    assert FeaturesOf(db, p) == {} && TasksOfAll(db, {}) == {};
    KeepIfAll(db.dependencies, Untouched({}));
    assert DocumentsWithout(db.documents, {p}, {}, {}) == db.documents;
    assert db.features - {} == db.features && db.tasks - {} == db.tasks;
    assert db.pullRequests - {} == db.pullRequests;
  }

  lemma ProjectDocumentsGone(db: Tables, p: string)
    requires Consistent(db)
    ensures Consistent(DeleteDocumentsForProject(db, p))
    ensures DeleteDocumentsForProject(db, p).documents == DocumentsWithout(db.documents, {p}, {}, {})
  {
    hide EdgesSound, IdsIssued;
    var less := DeleteDocumentsForProject(db, p);
    LeavesChangedKeeps(db, less);
  }

  lemma NothingRemoved(db: Tables)
    ensures Without(db, {}, {}, {}) == db
  {
    KeepIfAll(db.dependencies, Untouched({}));
    assert DocumentsWithout(db.documents, {}, {}, {}) == db.documents;
    assert db.projects - {} == db.projects && db.features - {} == db.features && db.tasks - {} == db.tasks;
    assert db.pullRequests - {} == db.pullRequests;
  }

  /** One more feature of a project is deleted. */
  lemma NextFeatureGone(db: Tables, removed: set<string>, f: string)
    requires Consistent(db) && f in db.features && f !in removed
    ensures var work := Without(db, {}, removed, TasksOfAll(db, removed));
            Consistent(work)
            && Without(work, {}, {f}, TasksOf(work, f)) == Without(db, {}, removed + {f}, TasksOfAll(db, removed + {f}))
  {
    hide Consistent;
    var tasks := TasksOfAll(db, removed);
    var work := Without(db, {}, removed, tasks);
    WithoutKeepsConsistent(db, {}, removed, tasks);
    WithoutTwice(db, {}, removed, tasks, {}, {f}, TasksOf(work, f));
    assert tasks + TasksOf(work, f) == TasksOfAll(db, removed + {f});
    var none: set<string> := {};
    assert none + none == none;
  }

  /** When all features of a project are gone, so is everything that referred to the project. */
  lemma ProjectCascade(db: Tables, p: string)
    requires p in db.projects
    ensures var base := DeleteDocumentsForProject(db, p);
            var features := FeaturesOf(db, p);
            DeleteProjectRow(Without(base, {}, features, TasksOfAll(base, features)), p)
            == Some(Without(db, {p}, features, TasksOfAll(db, features)))
  {
    var base := DeleteDocumentsForProject(db, p);
    var features := FeaturesOf(db, p);
    assert TasksOfAll(base, features) == TasksOfAll(db, features);
    var work := Without(base, {}, features, TasksOfAll(base, features));
    assert work.documents == DocumentsWithout(db.documents, {p}, features, TasksOfAll(db, features));
    assert !ProjectReferenced(work, p);
    assert base.projects - {} == base.projects;
  }

  /** An edge that is not among the rows of its feature is not stored at all. */
  lemma NotListedNotStored(db: Tables, a: string, b: string)
    requires a in db.tasks && Dependency(a, b) !in EdgesOf(db, db.tasks[a].featureId)
    ensures Dependency(a, b) !in db.dependencies
  {
  }

  lemma SameRowSameId(db: Tables, a: string, b: string)
    requires Injective(TaskPublicIds(db)) && a in db.tasks && b in db.tasks
    ensures db.tasks[a].publicId == db.tasks[b].publicId <==> a == b
  {
    assert TaskPublicIds(db)[a] == db.tasks[a].publicId && TaskPublicIds(db)[b] == db.tasks[b].publicId;
  }

  class Store {
    var db: Tables

    constructor ()
      ensures db == EMPTY_TABLES && Consistent(db)
    {
      EmptyIsConsistent();
      db := EMPTY_TABLES;
    }

    // ----- looking rows up -----

    method FindRow(ids: map<string, string>, id: string) returns (r: Option<string>)
      requires Injective(ids)
      ensures r == RowOf(ids, id)
    {
      var remaining := ids.Keys;
      while remaining != {}
        invariant remaining <= ids.Keys
        invariant forall s :: s in ids && s !in remaining ==> ids[s] != id
        decreases remaining
      {
        var s :| s in remaining;
        if ids[s] == id {
          return Some(s);
        }
        remaining := remaining - {s};
      }
      r := None;
    }

    method FindProject(id: string) returns (r: Option<string>)
      requires Consistent(db)
      ensures r == ProjectOf(db, id) && (r.Some? ==> r.value in db.projects)
    {
      r := FindRow(ProjectIds(db), id);
    }

    method FindFeature(id: string) returns (r: Option<string>)
      requires Consistent(db)
      ensures r == FeatureOf(db, id) && (r.Some? ==> r.value in db.features)
    {
      r := FindRow(FeatureIds(db), id);
    }

    method FindTask(id: string) returns (r: Option<string>)
      requires Consistent(db)
      ensures r == TaskOf(db, id) && (r.Some? ==> r.value in db.tasks)
    {
      r := FindRow(TaskPublicIds(db), id);
    }

    // ----- creating and updating -----

    method CreateProject(uuid: string, title: string, description: string) returns (reply: Reply)
      requires Consistent(db)
      modifies this
      ensures Consistent(db) && Outcome(db, reply) == CreatedProject(old(db), uuid, title, description)
    {
      hide Consistent, Titled;
      CreatedProjectKeeps(db, uuid, title, description);
      var publicId := PublicId("P-", db.nextProject);
      var work := db.(nextProject := db.nextProject + 1);
      if uuid in work.projects || !Titled(title) {
        return Failed(Constraint);
      }
      db := work.(projects := work.projects[uuid := ProjectRow(publicId, title, description, false)]);
      reply := Created(publicId);
    }

    method UpdateProject(id: string, title: string, description: string, archived: bool) returns (reply: Reply)
      requires Consistent(db)
      modifies this
      ensures Consistent(db) && Outcome(db, reply) == UpdatedProject(old(db), id, title, description, archived)
    {
      hide Consistent, Titled, RowOf;
      UpdatedProjectKeeps(db, id, title, description, archived);
      var found := FindProject(id);
      if found.None? {
        return Failed(MissingRow("project", id));
      }
      if !Titled(title) {
        return Failed(Constraint);
      }
      var row := db.projects[found.value].(title := title, description := description, archived := archived);
      db := db.(projects := db.projects[found.value := row]);
      reply := Done;
    }

    method CreateFeature(uuid: string, title: string, description: string, projectId: string)
      returns (reply: Reply)
      requires Consistent(db)
      modifies this
      ensures Consistent(db) && Outcome(db, reply) == CreatedFeature(old(db), uuid, title, description, projectId)
    {
      hide Consistent, Titled, RowOf;
      CreatedFeatureKeeps(db, uuid, title, description, projectId);
      var project := FindProject(projectId);
      if project.None? {
        return Failed(MissingRow("project", projectId));
      }
      var publicId := PublicId("F-", db.nextFeature);
      var work := db.(nextFeature := db.nextFeature + 1);
      if uuid in work.features || !Titled(title) {
        return Failed(Constraint);
      }
      var row := FeatureRow(publicId, project.value, title, description, AutoStatus, false);
      db := work.(features := work.features[uuid := row]);
      reply := Created(publicId);
    }

    method UpdateFeature(
      id: string, title: string, description: string, projectId: string, status: FeatureStatus, archived: bool)
      returns (reply: Reply)
      requires Consistent(db)
      modifies this
      ensures Consistent(db)
      ensures Outcome(db, reply)
           == UpdatedFeature(old(db), id, title, description, projectId, status, archived)
    {
      hide Consistent, Titled, RowOf;
      UpdatedFeatureKeeps(db, id, title, description, projectId, status, archived);
      var found := FindFeature(id);
      if found.None? {
        return Failed(MissingRow("feature", id));
      }
      var project := FindProject(projectId);
      if project.None? {
        return Failed(MissingRow("project", projectId));
      }
      if !Titled(title) {
        return Failed(Constraint);
      }
      var row := db.features[found.value].(title := title, description := description,
        projectId := project.value, status := status, archived := archived);
      db := db.(features := db.features[found.value := row]);
      reply := Done;
    }

    method CreateTask(uuid: string, featureId: string, title: string, scope: string, assignee: string)
      returns (reply: Reply)
      requires Consistent(db)
      modifies this
      ensures Consistent(db) && Outcome(db, reply) == CreatedTask(old(db), uuid, featureId, title, scope, assignee)
    {
      hide Consistent, Titled, RowOf;
      CreatedTaskKeeps(db, uuid, featureId, title, scope, assignee);
      var feature := FindFeature(featureId);
      if feature.None? {
        return Failed(MissingRow("feature", featureId));
      }
      var publicId := PublicId("T-", db.nextTask);
      var work := db.(nextTask := db.nextTask + 1);
      if uuid in work.tasks || !Titled(title) {
        return Failed(Constraint);
      }
      var row := TaskRow(publicId, feature.value, title, scope, NotStarted, assignee);
      db := work.(tasks := work.tasks[uuid := row]);
      reply := Created(publicId);
    }

    method UpdateTask(id: string, title: string, scope: string, status: TaskStatus, assignee: string)
      returns (reply: Reply)
      requires Consistent(db)
      modifies this
      ensures Consistent(db) && Outcome(db, reply) == UpdatedTask(old(db), id, title, scope, status, assignee)
    {
      hide Consistent, Titled, RowOf;
      UpdatedTaskKeeps(db, id, title, scope, status, assignee);
      var found := FindTask(id);
      if found.None? {
        return Failed(MissingRow("task", id));
      }
      if !Titled(title) {
        return Failed(Constraint);
      }
      var row := db.tasks[found.value].(title := title, scope := scope, status := status, assignee := assignee);
      db := db.(tasks := db.tasks[found.value := row]);
      reply := Done;
    }

    // ----- dependencies -----

    /** Only the blocker's feature is looked at, and in public ids; the whole relation stays free of circles. */
    method AddDependency(blocker: string, blocked: string) returns (reply: Reply)
      requires Consistent(db)
      modifies this
      ensures Consistent(db) && AddsDependency(old(db), blocker, blocked, Outcome(db, reply))
    {
      hide ShowsCycle, ClosesCycle;
      var blockerTask := FindTask(blocker);
      if blockerTask.None? {
        return Failed(MissingRow("task", blocker));
      }
      var blockedTask := FindTask(blocked);
      if blockedTask.None? {
        return Failed(MissingRow("task", blocked));
      }
      var a, b := blockerTask.value, blockedTask.value;
      var feature := db.tasks[a].featureId;
      if feature != db.tasks[b].featureId {
        return Failed(CrossFeature);
      }
      LocalCheckIsGlobal(db, a, b);
      var rows, taskIds := EdgesOf(db, feature), FeatureTaskIds(db, feature);
      var isDuplicate, deps := ListEdges(rows, taskIds, Dependency(a, b));
      if isDuplicate {
        return Failed(DuplicateDependency);
      }
      NotListedNotStored(db, a, b);
      var path := CyclePath(deps, taskIds[a], taskIds[b]);
      if |path| > 0 {
        SameRowSameId(db, a, b);
        FoundCycleIsShown(db, feature, a, b, path);
        return Failed(WouldCycle(path));
      }
      AddsDependencyKeeps(db, blocker, blocked,
        Outcome(db.(dependencies := db.dependencies + [Dependency(a, b)]), Done));
      db := db.(dependencies := db.dependencies + [Dependency(a, b)]);
      reply := Done;
    }

    /** The loop over the feature's rows: public ids, unless the new edge is among them. */
    method ListEdges(rows: seq<Dependency>, taskIds: map<string, string>, e: Dependency)
      returns (isDuplicate: bool, deps: seq<Dependency>)
      ensures isDuplicate <==> e in rows
      ensures !isDuplicate ==> deps == RenamedAll(rows, taskIds)
    {
      deps := [];
      for i := 0 to |rows|
        invariant e !in rows[..i] && deps == RenamedAll(rows, taskIds)[..i]
      {
        deps := deps + [Renamed(rows[i], taskIds)];
        if rows[i] == e {
          return true, deps;
        }
        assert rows[..i + 1] == rows[..i] + [rows[i]];
      }
      isDuplicate := false;
      assert rows[..|rows|] == rows && RenamedAll(rows, taskIds)[..|rows|] == RenamedAll(rows, taskIds);
    }

    method RemoveDependency(blocker: string, blocked: string) returns (reply: Reply)
      requires Consistent(db)
      modifies this
      ensures Consistent(db) && Outcome(db, reply) == RemovedDependency(old(db), blocker, blocked)
    {
      hide Consistent, RowOf, KeepIf;
      RemovedDependencyKeeps(db, blocker, blocked);
      var blockerTask := FindTask(blocker);
      if blockerTask.None? {
        return Failed(MissingRow("task", blocker));
      }
      var blockedTask := FindTask(blocked);
      if blockedTask.None? {
        return Failed(MissingRow("task", blocked));
      }
      var e := Dependency(blockerTask.value, blockedTask.value);
      if e !in db.dependencies {
        return Failed(MissingRow("dependency", blocker));
      }
      db := db.(dependencies := KeepIf(db.dependencies, Except(e)));
      reply := Done;
    }

    // ----- pull requests -----

    method UpsertPullRequest(value: PullRequest) returns (reply: Reply)
      requires Consistent(db)
      modifies this
      ensures Consistent(db) && Outcome(db, reply) == UpsertedPullRequest(old(db), value)
    {
      hide Consistent, RowOf, IsTaken;
      UpsertedPullRequestKeeps(db, value);
      var task := FindTask(value.taskId);
      if task.None? {
        return Failed(MissingRow("task", value.taskId));
      }
      var row := AsRow(value, task.value);
      if row.number <= 0 {
        return Failed(Constraint);
      }
      if IsTaken(db, row) {
        return Failed(DuplicatePullRequest);
      }
      db := db.(pullRequests := db.pullRequests[task.value := row]);
      reply := Done;
    }

    method DeletePullRequest(taskId: string) returns (reply: Reply)
      requires Consistent(db)
      modifies this
      ensures Consistent(db) && Outcome(db, reply) == DeletedPullRequest(old(db), taskId)
    {
      hide Consistent, RowOf;
      DeletedPullRequestKeeps(db, taskId);
      var task := FindTask(taskId);
      if task.None? {
        return Failed(MissingRow("task", taskId));
      }
      if task.value !in db.pullRequests {
        return Failed(MissingRow("pull request", taskId));
      }
      db := DeletePullRequestOf(db, task.value);
      reply := Done;
    }

    // ----- documents -----

    method FindParent(parent: Named) returns (r: Option<Parent>)
      requires Consistent(db)
      ensures r == ParentOf(db, parent)
    {
      match parent {
        case InProject(id) =>
          var p := FindProject(id);
          r := if p.None? then None else Some(OfProject(p.value));
        case InFeature(id) =>
          var f := FindFeature(id);
          r := if f.None? then None else Some(OfFeature(f.value));
        case InTask(id) =>
          var t := FindTask(id);
          r := if t.None? then None else Some(OfTask(t.value));
      }
    }

    method CreateDocument(uuid: string, parent: Named, title: string, body: string, plan: bool)
      returns (reply: Reply)
      requires Consistent(db)
      modifies this
      ensures Consistent(db) && Outcome(db, reply) == CreatedDocument(old(db), uuid, parent, title, body, plan)
    {
      hide Consistent, RowOf, HasPlan;
      CreatedDocumentKeeps(db, uuid, parent, title, body, plan);
      var stored := FindParent(parent);
      if stored.None? {
        return Failed(MissingRow(EntityOf(parent), parent.id));
      }
      if uuid in db.documents || (plan && !stored.value.OfTask?) {
        return Failed(Constraint);
      }
      if plan && HasPlan(db, stored.value.id, uuid) {
        return Failed(DuplicatePlan);
      }
      db := db.(documents := db.documents[uuid := DocumentRow(stored.value, title, body, plan)]);
      reply := Created(uuid);
    }

    method UpdateDocument(id: string, title: Option<string>, body: Option<string>, plan: Option<bool>)
      returns (reply: Reply)
      requires Consistent(db)
      modifies this
      ensures Consistent(db) && Outcome(db, reply) == UpdatedDocument(old(db), id, title, body, plan)
    {
      hide Consistent, HasPlan;
      UpdatedDocumentKeeps(db, id, title, body, plan);
      if id !in db.documents {
        return Failed(MissingRow("document", id));
      }
      var row := db.documents[id];
      if title.Some? {
        row := row.(title := title.value);
      }
      if body.Some? {
        row := row.(body := body.value);
      }
      if plan.Some? {
        row := row.(plan := plan.value);
      }
      if row.plan && !row.parent.OfTask? {
        return Failed(Constraint);
      }
      if row.plan && HasPlan(db, row.parent.id, id) {
        return Failed(DuplicatePlan);
      }
      db := db.(documents := db.documents[id := row]);
      reply := Done;
    }

    method DeleteDocument(id: string) returns (reply: Reply)
      requires Consistent(db)
      modifies this
      ensures Consistent(db) && Outcome(db, reply) == DeletedDocument(old(db), id)
    {
      hide Consistent;
      DeletedDocumentKeeps(db, id);
      if id !in db.documents {
        return Failed(MissingRow("document", id));
      }
      db := db.(documents := db.documents - {id});
      reply := Done;
    }

    method FindPlan(t: string) returns (r: Option<string>)
      ensures r.Some? ==> IsPlanOf(db, r.value, t)
      ensures r.None? ==> !exists k :: IsPlanOf(db, k, t)
    {
      var remaining := db.documents.Keys;
      while remaining != {}
        invariant remaining <= db.documents.Keys
        invariant forall k :: k in db.documents && k !in remaining ==> !IsPlanOf(db, k, t)
        decreases remaining
      {
        var k :| k in remaining;
        if IsPlanOf(db, k, t) {
          return Some(k);
        }
        remaining := remaining - {k};
      }
      r := None;
    }

    method UpsertPlan(uuid: string, taskId: string, title: string, body: string) returns (reply: Reply)
      requires Consistent(db)
      modifies this
      ensures Consistent(db) && Outcome(db, reply) == UpsertedPlan(old(db), uuid, taskId, title, body)
    {
      hide IdsIssued, EdgesSound, PullRequestsSound, RowOf;
      UpsertedPlanKeeps(db, uuid, taskId, title, body);
      var task := FindTask(taskId);
      if task.None? {
        return Failed(MissingRow("task", taskId));
      }
      if uuid in db.documents {
        return Failed(Constraint);
      }
      var plan := FindPlan(task.value);
      if plan.Some? {
        db := db.(documents := db.documents[plan.value := db.documents[plan.value].(body := body)]);
      } else {
        db := db.(documents := db.documents[uuid := DocumentRow(OfTask(task.value), title, body, true)]);
      }
      reply := Done;
    }

    method DeletePlan(taskId: string) returns (reply: Reply)
      requires Consistent(db)
      modifies this
      ensures Consistent(db) && Outcome(db, reply) == DeletedPlan(old(db), taskId)
    {
      hide Consistent, RowOf;
      DeletedPlanKeeps(db, taskId);
      var task := FindTask(taskId);
      if task.None? {
        return Failed(MissingRow("task", taskId));
      }
      var plan := FindPlan(task.value);
      if plan.None? {
        return Failed(MissingRow("implementation plan", taskId));
      }
      db := db.(documents :=
        map k | k in db.documents && !IsPlanOf(db, k, task.value) :: db.documents[k]);
      reply := Done;
    }

    // ----- deleting -----

    method DeleteTask(id: string, cascade: bool) returns (reply: Reply)
      requires Consistent(db)
      modifies this
      ensures Consistent(db) && Outcome(db, reply) == DeletedTask(old(db), id, cascade)
    {
      hide Consistent, Without, TaskReferenced;
      DeletedKeeps(db, id, cascade);
      var found := FindTask(id);
      if found.None? {
        return Failed(MissingRow("task", id));
      }
      var t, work := found.value, db;
      if !cascade {
        if TaskReferenced(work, t) {
          return Failed(ReferencesExist);
        }
        TaskAlone(work, t);
      } else {
        TaskCascade(work, t);
        work := DeleteDependenciesForTask(work, t);
        work := DeletePullRequestOf(work, t);
        work := DeleteDocumentsForTask(work, t);
      }
      var gone := DeleteTaskRow(work, t);
      assert gone.Some?;
      db := gone.value;
      reply := Done;
    }

    method DeleteFeature(id: string, cascade: bool) returns (reply: Reply)
      requires Consistent(db)
      modifies this
      ensures Consistent(db) && Outcome(db, reply) == DeletedFeature(old(db), id, cascade)
    {
      hide Without, FeatureReferenced, IdsIssued, PullRequestsSound, DocumentsSound, Placed;
      DeletedKeeps(db, id, cascade);
      var found := FindFeature(id);
      if found.None? {
        return Failed(MissingRow("feature", id));
      }
      var f, work := found.value, db;
      if FeatureReferenced(work, f) && !cascade {
        return Failed(ReferencesExist);
      }
      if cascade {
        FeatureCascade(work, f);
        work := DeleteFeatureContents(work, f);
      } else {
        FeatureAlone(work, f);
      }
      var gone := DeleteFeatureRow(work, f);
      assert gone.Some?;
      db := gone.value;
      reply := Done;
    }

    method DeleteFeatureContents(start: Tables, f: string) returns (work: Tables)
      requires EdgesSound(start)
      ensures Some(work) == DeleteTasksForFeature(FeatureLeaves(start, f), f)
    {
      FeatureCascade(start, f);
      work := DeleteDependenciesForFeature(start, f);
      work := DeletePullRequestsForFeature(work, f);
      work := DeleteDocumentsForFeature(work, f);
      var gone := DeleteTasksForFeature(work, f);
      assert gone.Some?;
      work := gone.value;
    }

    method DeleteProject(id: string, cascade: bool) returns (reply: Reply)
      requires Consistent(db)
      modifies this
      ensures Consistent(db) && Outcome(db, reply) == DeletedProject(old(db), id, cascade)
    {
      hide Consistent, Without, ProjectReferenced;
      DeletedKeeps(db, id, cascade);
      var found := FindProject(id);
      if found.None? {
        return Failed(MissingRow("project", id));
      }
      var p, work := found.value, db;
      if ProjectReferenced(work, p) && !cascade {
        return Failed(ReferencesExist);
      }
      if cascade {
        ProjectCascade(work, p);
        ProjectDocumentsGone(work, p);
        work := DeleteDocumentsForProject(work, p);
        work := DeleteFeatures(work, FeaturesOf(work, p));
      } else {
        ProjectAlone(work, p);
      }
      var gone := DeleteProjectRow(work, p);
      assert gone.Some?;
      db := gone.value;
      reply := Done;
    }

    /** The loop of DeleteProject over the features it holds. */
    method DeleteFeatures(base: Tables, features: set<string>) returns (work: Tables)
      requires Consistent(base) && features <= base.features.Keys
      ensures work == Without(base, {}, features, TasksOfAll(base, features))
    {
      hide IdsIssued, PullRequestsSound, DocumentsSound, Placed;
      work := base;
      var remaining := features;
      NothingRemoved(base);
      assert TasksOfAll(base, {}) == {} && features - remaining == {};
      while remaining != {}
        invariant remaining <= features && Consistent(work)
        invariant work == Without(base, {}, features - remaining, TasksOfAll(base, features - remaining))
        decreases remaining
      {
        hide Without;
        var f :| f in remaining;
        NextFeatureGone(base, features - remaining, f);
        FeatureCascade(work, f);
        assert features - remaining + {f} == features - (remaining - {f});
        ghost var gone := features - (remaining - {f});
        WithoutStays(base, gone);
        work := DeleteFeatureContents(work, f);
        work := DeleteFeatureRow(work, f).value;
        remaining := remaining - {f};
      }
      assert features - {} == features;
    }
  }

  lemma WithoutStays(base: Tables, features: set<string>)
    requires Consistent(base)
    ensures Consistent(Without(base, {}, features, TasksOfAll(base, features)))
  {
    hide Consistent;
    WithoutKeepsConsistent(base, {}, features, TasksOfAll(base, features));
  }
}
