/** The operations of internal/store/repository.go on the tables, and what every run of them keeps. */
module Operations {
  import opened Text
  import opened Status
  import opened Digraph
  import opened Database

  /** A document's parent as callers name it: by public id. */
  datatype Named = InProject(id: string) | InFeature(id: string) | InTask(id: string)

  datatype Operation =
    | CreateProject(uuid: string, title: string, description: string)
    | UpdateProject(id: string, title: string, description: string, archived: bool)
    | DeleteProject(id: string, cascade: bool)
    | CreateFeature(uuid: string, title: string, description: string, projectId: string)
    | UpdateFeature(id: string, title: string, description: string, projectId: string, status: FeatureStatus,
        archived: bool)
    | DeleteFeature(id: string, cascade: bool)
    | CreateTask(uuid: string, featureId: string, title: string, scope: string, assignee: string)
    | UpdateTask(id: string, title: string, scope: string, taskStatus: TaskStatus, assignee: string)
    | DeleteTask(id: string, cascade: bool)
    | AddDependency(blocker: string, blocked: string)
    | RemoveDependency(blocker: string, blocked: string)
    | UpsertPullRequest(value: PullRequest)
    | DeletePullRequest(taskId: string)
    | CreateDocument(uuid: string, parent: Named, title: string, body: string, plan: bool)
    | UpdateDocument(id: string, newTitle: Option<string>, newBody: Option<string>, newPlan: Option<bool>)
    | DeleteDocument(id: string)
    | UpsertPlan(uuid: string, taskId: string, title: string, body: string)
    | DeletePlan(taskId: string)

  datatype Reply = Done | Created(id: string) | Failed(error: StoreError)

  /** What an operation leaves, and what it answers. */
  datatype Outcome = Outcome(db: Tables, reply: Reply)

  function Refuse(db: Tables, error: StoreError): Outcome {
    Outcome(db, Failed(error))
  }

  /** CHECK(length(trim(title)) > 0); SQLite trims spaces. */
  predicate Titled(title: string) {
    exists i :: 0 <= i < |title| && title[i] != ' '
  }

  // ----- projects -----

  function CreatedProject(db: Tables, uuid: string, title: string, description: string): Outcome {
    if uuid in db.projects || !Titled(title) then Refuse(db, Constraint)
    else
      var publicId := PublicId("P-", db.nextProject);
      Outcome(
        db.(projects := db.projects[uuid := ProjectRow(publicId, title, description, false)],
          nextProject := db.nextProject + 1),
        Created(publicId))
  }

  ghost function UpdatedProject(db: Tables, id: string, title: string, description: string, archived: bool): Outcome {
    match ProjectOf(db, id)
    case None => Refuse(db, MissingRow("project", id))
    case Some(p) =>
      if !Titled(title) then Refuse(db, Constraint)
      else Outcome(
        db.(projects := db.projects[p := db.projects[p].(title := title, description := description,
              archived := archived)]),
        Done)
  }

  /** Everything a project holds goes with it. */
  ghost function DeletedProject(db: Tables, id: string, cascade: bool): Outcome {
    match ProjectOf(db, id)
    case None => Refuse(db, MissingRow("project", id))
    case Some(p) =>
      if ProjectReferenced(db, p) && !cascade then Refuse(db, ReferencesExist)
      else Outcome(Without(db, {p}, FeaturesOf(db, p), TasksOfAll(db, FeaturesOf(db, p))), Done)
  }

  // ----- features -----

  ghost function CreatedFeature(db: Tables, uuid: string, title: string, description: string, projectId: string)
    : Outcome
  {
    match ProjectOf(db, projectId)
    case None => Refuse(db, MissingRow("project", projectId))
    case Some(p) =>
      if uuid in db.features || !Titled(title) then Refuse(db, Constraint)
      else
        var publicId := PublicId("F-", db.nextFeature);
        Outcome(
          db.(features := db.features[uuid := FeatureRow(publicId, p, title, description, AutoStatus, false)],
            nextFeature := db.nextFeature + 1),
          Created(publicId))
  }

  ghost function UpdatedFeature(
    db: Tables, id: string, title: string, description: string, projectId: string, status: FeatureStatus,
    archived: bool): Outcome
  {
    match FeatureOf(db, id)
    case None => Refuse(db, MissingRow("feature", id))
    case Some(f) =>
      match ProjectOf(db, projectId)
      case None => Refuse(db, MissingRow("project", projectId))
      case Some(p) =>
        if !Titled(title) then Refuse(db, Constraint)
        else Outcome(
          db.(features := db.features[f := db.features[f].(title := title, description := description,
                projectId := p, status := status, archived := archived)]),
          Done)
  }

  ghost function DeletedFeature(db: Tables, id: string, cascade: bool): Outcome {
    match FeatureOf(db, id)
    case None => Refuse(db, MissingRow("feature", id))
    case Some(f) =>
      if FeatureReferenced(db, f) && !cascade then Refuse(db, ReferencesExist)
      else Outcome(Without(db, {}, {f}, TasksOf(db, f)), Done)
  }

  // ----- tasks -----

  ghost function CreatedTask(
    db: Tables, uuid: string, featureId: string, title: string, scope: string, assignee: string): Outcome
  {
    match FeatureOf(db, featureId)
    case None => Refuse(db, MissingRow("feature", featureId))
    case Some(f) =>
      if uuid in db.tasks || !Titled(title) then Refuse(db, Constraint)
      else
        var publicId := PublicId("T-", db.nextTask);
        Outcome(
          db.(tasks := db.tasks[uuid := TaskRow(publicId, f, title, scope, NotStarted, assignee)],
            nextTask := db.nextTask + 1),
          Created(publicId))
  }

  ghost function UpdatedTask(
    db: Tables, id: string, title: string, scope: string, status: TaskStatus, assignee: string): Outcome
  {
    match TaskOf(db, id)
    case None => Refuse(db, MissingRow("task", id))
    case Some(t) =>
      if !Titled(title) then Refuse(db, Constraint)
      else Outcome(
        db.(tasks := db.tasks[t := db.tasks[t].(title := title, scope := scope, status := status,
              assignee := assignee)]),
        Done)
  }

  ghost function DeletedTask(db: Tables, id: string, cascade: bool): Outcome {
    match TaskOf(db, id)
    case None => Refuse(db, MissingRow("task", id))
    case Some(t) =>
      if TaskReferenced(db, t) && !cascade then Refuse(db, ReferencesExist)
      else Outcome(Without(db, {}, {}, {t}), Done)
  }

  // ----- dependencies -----

  /** An edge is added exactly when it stays in one feature, is new, and closes no circle in the whole relation. */
  ghost predicate MayAdd(db: Tables, blocker: string, blocked: string) {
    && InsideFeature(db, Dependency(blocker, blocked))
    && Dependency(blocker, blocked) !in db.dependencies
    && blocker != blocked && !Reaches(db.dependencies, blocked, blocker)
  }

  /** The path names, in public ids, a circle that the edge would close in the whole relation. */
  ghost predicate ShowsCycle(db: Tables, a: string, b: string, path: seq<string>) {
    exists rows: seq<string> :: IsCycle(db, a, b, rows) && AreNames(db, rows, path)
  }

  /** From the blocked task along stored edges to the blocker and back; no task is passed twice. */
  ghost predicate IsCycle(db: Tables, a: string, b: string, rows: seq<string>) {
    if a == b then rows == [a, a] else ClosesCycle(db.dependencies, a, b, rows)
  }

  ghost predicate AreNames(db: Tables, rows: seq<string>, path: seq<string>) {
    && |path| == |rows|
    && forall i :: 0 <= i < |rows| ==> rows[i] in db.tasks && path[i] == db.tasks[rows[i]].publicId
  }

  /** A walk among public ids that passes no task twice is one among rows. */
  lemma DistinctRows(ids: map<string, string>, p: seq<string>, q: seq<string>)
    requires Names(ids, p, q) && Distinct(q)
    ensures Distinct(p)
  {
  }

  lemma WalkClosesCycle(db: Tables, a: string, b: string, p: seq<string>)
    requires a != b && WalkBetween(db.dependencies, p, b, a) && Distinct(p)
    ensures IsCycle(db, a, b, p + [b])
  {
    assert (p + [b])[..|p|] == p;
  }

  lemma CycleIsNamed(db: Tables, feature: string, p: seq<string>, b: string, path: seq<string>)
    requires path != [] && Names(FeatureTaskIds(db, feature), p, path[..|path| - 1])
    requires b in db.tasks && path[|path| - 1] == db.tasks[b].publicId
    ensures AreNames(db, p + [b], path)
  {
    forall i | 0 <= i < |p|
      ensures p[i] in db.tasks && path[i] == db.tasks[p[i]].publicId
    {
      assert path[i] == path[..|path| - 1][i];
    }
  }

  /** A circle among the public ids of one feature is one of the stored relation. */
  lemma LocalCycleIsGlobal(db: Tables, feature: string, a: string, b: string, path: seq<string>)
    requires EdgesSound(db) && Injective(TaskPublicIds(db)) && a != b
    requires a in TasksOf(db, feature) && b in TasksOf(db, feature)
    requires var ids := FeatureTaskIds(db, feature);
             ClosesCycle(RenamedAll(EdgesOf(db, feature), ids), ids[a], ids[b], path)
    ensures ShowsCycle(db, a, b, path)
  {
    hide EdgesSound, Injective, EdgesOf, Distinct, EndsIn, IsWalk, RenamedAll, IsCycle, AreNames, Names, TaskPublicIds;
    FeatureEnds(db, feature);
    var ids, deps, last := FeatureTaskIds(db, feature), EdgesOf(db, feature), |path| - 1;
    var p := WalkBackward(deps, ids, path[..last], b);
    WalkMono(deps, db.dependencies, p);
    DistinctRows(ids, p, path[..last]);
    SameRow(ids, p[last - 1], a);
    WalkClosesCycle(db, a, b, p);
    CycleIsNamed(db, feature, p, b, path);
  }

  lemma SameRow(ids: map<string, string>, a: string, b: string)
    requires Injective(ids) && a in ids && b in ids && ids[a] == ids[b]
    ensures a == b
  {
  }

  /** What the cycle check answers about one feature shows a circle. */
  lemma FoundCycleIsShown(db: Tables, feature: string, a: string, b: string, path: seq<string>)
    requires EdgesSound(db) && Injective(TaskPublicIds(db))
    requires a in TasksOf(db, feature) && b in TasksOf(db, feature)
    requires var ids := FeatureTaskIds(db, feature);
             if a == b then path == [ids[a], ids[a]]
             else ClosesCycle(RenamedAll(EdgesOf(db, feature), ids), ids[a], ids[b], path)
    ensures ShowsCycle(db, a, b, path)
  {
    if a == b {
      assert IsCycle(db, a, b, [a, a]) && AreNames(db, [a, a], path);
    } else {
      LocalCycleIsGlobal(db, feature, a, b, path);
    }
  }

  /** The answer to AddDependency; a rejected circle is shown. */
  ghost predicate AddsDependency(db: Tables, blocker: string, blocked: string, result: Outcome) {
    match TaskOf(db, blocker)
    case None => result == Refuse(db, MissingRow("task", blocker))
    case Some(a) =>
      match TaskOf(db, blocked)
      case None => result == Refuse(db, MissingRow("task", blocked))
      case Some(b) =>
        if db.tasks[a].featureId != db.tasks[b].featureId then result == Refuse(db, CrossFeature)
        else if Dependency(a, b) in db.dependencies then result == Refuse(db, DuplicateDependency)
        else if MayAdd(db, a, b) then
          result == Outcome(db.(dependencies := db.dependencies + [Dependency(a, b)]), Done)
        else
          result.db == db && result.reply.Failed? && result.reply.error.WouldCycle?
          && ShowsCycle(db, a, b, result.reply.error.path)
  }

  ghost function RemovedDependency(db: Tables, blocker: string, blocked: string): Outcome {
    match TaskOf(db, blocker)
    case None => Refuse(db, MissingRow("task", blocker))
    case Some(a) =>
      match TaskOf(db, blocked)
      case None => Refuse(db, MissingRow("task", blocked))
      case Some(b) =>
        if Dependency(a, b) !in db.dependencies then Refuse(db, MissingRow("dependency", blocker))
        else Outcome(db.(dependencies := KeepIf(db.dependencies, Except(Dependency(a, b)))), Done)
  }

  function Except(e: Dependency): Dependency -> bool {
    (d: Dependency) => d != e
  }

  // ----- pull requests -----

  function AsRow(value: PullRequest, t: string): PullRequest {
    value.(taskId := t, host := if value.host == "" then "github.com" else value.host)
  }

  /** Another task already holds the pull request. */
  predicate IsTaken(db: Tables, row: PullRequest) {
    exists u :: u in db.pullRequests && u != row.taskId && SamePullRequest(db.pullRequests[u], row)
  }

  ghost function UpsertedPullRequest(db: Tables, value: PullRequest): Outcome {
    match TaskOf(db, value.taskId)
    case None => Refuse(db, MissingRow("task", value.taskId))
    case Some(t) =>
      var row := AsRow(value, t);
      if row.number <= 0 then Refuse(db, Constraint)
      else if IsTaken(db, row) then Refuse(db, DuplicatePullRequest)
      else Outcome(db.(pullRequests := db.pullRequests[t := row]), Done)
  }

  ghost function DeletedPullRequest(db: Tables, taskId: string): Outcome {
    match TaskOf(db, taskId)
    case None => Refuse(db, MissingRow("task", taskId))
    case Some(t) =>
      if t !in db.pullRequests then Refuse(db, MissingRow("pull request", taskId))
      else Outcome(db.(pullRequests := db.pullRequests - {t}), Done)
  }

  // ----- documents -----

  ghost function ParentOf(db: Tables, parent: Named): Option<Parent> {
    match parent
    case InProject(id) => (match ProjectOf(db, id) case None => None case Some(p) => Some(OfProject(p)))
    case InFeature(id) => (match FeatureOf(db, id) case None => None case Some(f) => Some(OfFeature(f)))
    case InTask(id) => (match TaskOf(db, id) case None => None case Some(t) => Some(OfTask(t)))
  }

  function EntityOf(parent: Named): string {
    match parent
    case InProject(_) => "project"
    case InFeature(_) => "feature"
    case InTask(_) => "task"
  }

  predicate HasPlan(db: Tables, t: string, other: string) {
    exists k :: k in db.documents && k != other && db.documents[k].plan && db.documents[k].parent == OfTask(t)
  }

  ghost function CreatedDocument(db: Tables, uuid: string, parent: Named, title: string, body: string, plan: bool)
    : Outcome
  {
    match ParentOf(db, parent)
    case None => Refuse(db, MissingRow(EntityOf(parent), parent.id))
    case Some(stored) =>
      if uuid in db.documents || (plan && !stored.OfTask?) then Refuse(db, Constraint)
      else if plan && HasPlan(db, stored.id, uuid) then Refuse(db, DuplicatePlan)
      else Outcome(
        db.(documents := db.documents[uuid := DocumentRow(stored, title, body, plan)]), Created(uuid))
  }

  function UpdatedDocument(
    db: Tables, id: string, title: Option<string>, body: Option<string>, plan: Option<bool>): Outcome
  {
    if id !in db.documents then Refuse(db, MissingRow("document", id))
    else
      var row := db.documents[id];
      var row' := row.(title := title.GetOr(row.title), body := body.GetOr(row.body), plan := plan.GetOr(row.plan));
      if row'.plan && !row'.parent.OfTask? then Refuse(db, Constraint)
      else if row'.plan && HasPlan(db, row'.parent.id, id) then Refuse(db, DuplicatePlan)
      else Outcome(db.(documents := db.documents[id := row']), Done)
  }

  function DeletedDocument(db: Tables, id: string): Outcome {
    if id !in db.documents then Refuse(db, MissingRow("document", id))
    else Outcome(db.(documents := db.documents - {id}), Done)
  }

  predicate IsPlanOf(db: Tables, k: string, t: string) {
    k in db.documents && db.documents[k].plan && db.documents[k].parent == OfTask(t)
  }

  /** The plan keeps its title when it is written again. */
  ghost function UpsertedPlan(db: Tables, uuid: string, taskId: string, title: string, body: string): Outcome {
    match TaskOf(db, taskId)
    case None => Refuse(db, MissingRow("task", taskId))
    case Some(t) =>
      if uuid in db.documents then Refuse(db, Constraint)
      else if exists k :: IsPlanOf(db, k, t) then
        var k :| IsPlanOf(db, k, t);
        Outcome(db.(documents := db.documents[k := db.documents[k].(body := body)]), Done)
      else Outcome(db.(documents := db.documents[uuid := DocumentRow(OfTask(t), title, body, true)]), Done)
  }

  ghost function DeletedPlan(db: Tables, taskId: string): Outcome {
    match TaskOf(db, taskId)
    case None => Refuse(db, MissingRow("task", taskId))
    case Some(t) =>
      if !exists k :: IsPlanOf(db, k, t) then Refuse(db, MissingRow("implementation plan", taskId))
      else Outcome(
        db.(documents := map k | k in db.documents && !IsPlanOf(db, k, t) :: db.documents[k]), Done)
  }

  // ----- one operation -----

  ghost predicate Applies(db: Tables, op: Operation, result: Outcome) {
    match op
    case CreateProject(uuid, title, description) => result == CreatedProject(db, uuid, title, description)
    case UpdateProject(id, title, description, archived) =>
      result == UpdatedProject(db, id, title, description, archived)
    case DeleteProject(id, cascade) => result == DeletedProject(db, id, cascade)
    case CreateFeature(uuid, title, description, projectId) =>
      result == CreatedFeature(db, uuid, title, description, projectId)
    case UpdateFeature(id, title, description, projectId, status, archived) =>
      result == UpdatedFeature(db, id, title, description, projectId, status, archived)
    case DeleteFeature(id, cascade) => result == DeletedFeature(db, id, cascade)
    case CreateTask(uuid, featureId, title, scope, assignee) =>
      result == CreatedTask(db, uuid, featureId, title, scope, assignee)
    case UpdateTask(id, title, scope, status, assignee) =>
      result == UpdatedTask(db, id, title, scope, status, assignee)
    case DeleteTask(id, cascade) => result == DeletedTask(db, id, cascade)
    case AddDependency(blocker, blocked) => AddsDependency(db, blocker, blocked, result)
    case RemoveDependency(blocker, blocked) => result == RemovedDependency(db, blocker, blocked)
    case UpsertPullRequest(value) => result == UpsertedPullRequest(db, value)
    case DeletePullRequest(taskId) => result == DeletedPullRequest(db, taskId)
    case CreateDocument(uuid, parent, title, body, plan) =>
      result == CreatedDocument(db, uuid, parent, title, body, plan)
    case UpdateDocument(id, title, body, plan) => result == UpdatedDocument(db, id, title, body, plan)
    case DeleteDocument(id) => result == DeletedDocument(db, id)
    case UpsertPlan(uuid, taskId, title, body) => result == UpsertedPlan(db, uuid, taskId, title, body)
    case DeletePlan(taskId) => result == DeletedPlan(db, taskId)
  }

  // ----- every operation keeps the tables consistent -----

  /** Rows are added or rewritten; what refers to them is not. */
  ghost predicate OnlyRows(db: Tables, more: Tables) {
    && more.dependencies == db.dependencies && more.pullRequests == db.pullRequests
    && more.documents == db.documents
    && db.projects.Keys <= more.projects.Keys && db.features.Keys <= more.features.Keys
    && (forall t :: t in db.tasks ==> t in more.tasks && more.tasks[t].featureId == db.tasks[t].featureId)
  }

  lemma MoreTasksKeepEdges(db: Tables, more: Tables)
    requires EdgesSound(db) && more.dependencies == db.dependencies
    requires forall t :: t in db.tasks ==> t in more.tasks && more.tasks[t].featureId == db.tasks[t].featureId
    ensures EdgesSound(more)
  {
    forall d | d in more.dependencies
      ensures InsideFeature(more, d)
    {
      assert InsideFeature(db, d);
    }
  }

  lemma RowsKeep(db: Tables, more: Tables)
    requires Consistent(db) && OnlyRows(db, more) && IdsIssued(more) && Placed(more)
    ensures Consistent(more)
  {
    hide IdsIssued, Placed;
    MoreTasksKeepEdges(db, more);
  }

  ghost predicate SameIds(db: Tables, more: Tables) {
    && ProjectIds(more) == ProjectIds(db) && FeatureIds(more) == FeatureIds(db)
    && TaskPublicIds(more) == TaskPublicIds(db)
    && more.nextProject == db.nextProject && more.nextFeature == db.nextFeature && more.nextTask == db.nextTask
  }

  lemma CreatedProjectKeeps(db: Tables, uuid: string, title: string, description: string)
    requires Consistent(db)
    ensures Consistent(CreatedProject(db, uuid, title, description).db)
  {
    hide EdgesSound, PullRequestsSound, DocumentsSound, Issued, Titled;
    if uuid !in db.projects && Titled(title) {
      var more := CreatedProject(db, uuid, title, description).db;
      IssueNext(ProjectIds(db), "P-", db.nextProject, uuid);
      assert ProjectIds(more) == ProjectIds(db)[uuid := PublicId("P-", db.nextProject)];
      assert FeatureIds(more) == FeatureIds(db) && TaskPublicIds(more) == TaskPublicIds(db);
      RowsKeep(db, more);
    }
  }

  lemma CreatedFeatureKeeps(db: Tables, uuid: string, title: string, description: string, projectId: string)
    requires Consistent(db)
    ensures Consistent(CreatedFeature(db, uuid, title, description, projectId).db)
  {
    hide EdgesSound, PullRequestsSound, DocumentsSound, Issued, Titled, RowOf;
    if ProjectOf(db, projectId).Some? && uuid !in db.features && Titled(title) {
      var more := CreatedFeature(db, uuid, title, description, projectId).db;
      IssueNext(FeatureIds(db), "F-", db.nextFeature, uuid);
      assert FeatureIds(more) == FeatureIds(db)[uuid := PublicId("F-", db.nextFeature)];
      assert ProjectIds(more) == ProjectIds(db) && TaskPublicIds(more) == TaskPublicIds(db);
      RowsKeep(db, more);
    }
  }

  lemma CreatedTaskKeeps(
    db: Tables, uuid: string, featureId: string, title: string, scope: string, assignee: string)
    requires Consistent(db)
    ensures Consistent(CreatedTask(db, uuid, featureId, title, scope, assignee).db)
  {
    hide EdgesSound, PullRequestsSound, DocumentsSound, Issued, Titled, RowOf;
    if FeatureOf(db, featureId).Some? && uuid !in db.tasks && Titled(title) {
      var more := CreatedTask(db, uuid, featureId, title, scope, assignee).db;
      IssueNext(TaskPublicIds(db), "T-", db.nextTask, uuid);
      assert TaskPublicIds(more) == TaskPublicIds(db)[uuid := PublicId("T-", db.nextTask)];
      assert ProjectIds(more) == ProjectIds(db) && FeatureIds(more) == FeatureIds(db);
      RowsKeep(db, more);
    }
  }

  lemma UpdatedKeeps(db: Tables, more: Tables)
    requires Consistent(db) && OnlyRows(db, more) && SameIds(db, more) && Placed(more)
    ensures Consistent(more)
  {
    hide Issued, Placed, EdgesSound, PullRequestsSound, DocumentsSound;
    RowsKeep(db, more);
  }

  lemma UpdatedProjectKeeps(db: Tables, id: string, title: string, description: string, archived: bool)
    requires Consistent(db)
    ensures Consistent(UpdatedProject(db, id, title, description, archived).db)
  {
    hide EdgesSound, PullRequestsSound, DocumentsSound, IdsIssued, Titled, RowOf;
    if ProjectOf(db, id).Some? && Titled(title) {
      var more := UpdatedProject(db, id, title, description, archived).db;
      assert ProjectIds(more) == ProjectIds(db);
      assert FeatureIds(more) == FeatureIds(db) && TaskPublicIds(more) == TaskPublicIds(db);
      UpdatedKeeps(db, more);
    }
  }

  lemma FeatureRewritten(db: Tables, f: string, row: FeatureRow)
    requires Consistent(db) && f in db.features
    requires row.publicId == db.features[f].publicId && row.projectId in db.projects
    ensures Consistent(db.(features := db.features[f := row]))
  {
    hide EdgesSound, PullRequestsSound, DocumentsSound, IdsIssued;
    var more := db.(features := db.features[f := row]);
    assert FeatureIds(more) == FeatureIds(db);
    assert ProjectIds(more) == ProjectIds(db) && TaskPublicIds(more) == TaskPublicIds(db);
    UpdatedKeeps(db, more);
  }

  lemma UpdatedFeatureKeeps(
    db: Tables, id: string, title: string, description: string, projectId: string, status: FeatureStatus,
    archived: bool)
    requires Consistent(db)
    ensures Consistent(UpdatedFeature(db, id, title, description, projectId, status, archived).db)
  {
    hide Consistent, Titled, RowOf;
    if FeatureOf(db, id).Some? && ProjectOf(db, projectId).Some? {
      var f, p := FeatureOf(db, id).value, ProjectOf(db, projectId).value;
      FeatureRewritten(db, f, db.features[f].(title := title, description := description, projectId := p,
        status := status, archived := archived));
    }
  }

  lemma UpdatedTaskKeeps(
    db: Tables, id: string, title: string, scope: string, status: TaskStatus, assignee: string)
    requires Consistent(db)
    ensures Consistent(UpdatedTask(db, id, title, scope, status, assignee).db)
  {
    hide EdgesSound, PullRequestsSound, DocumentsSound, IdsIssued, Titled, RowOf;
    if TaskOf(db, id).Some? && Titled(title) {
      var more := UpdatedTask(db, id, title, scope, status, assignee).db;
      assert TaskPublicIds(more) == TaskPublicIds(db);
      assert ProjectIds(more) == ProjectIds(db) && FeatureIds(more) == FeatureIds(db);
      UpdatedKeeps(db, more);
    }
  }

  lemma DeletedKeeps(db: Tables, id: string, cascade: bool)
    requires Consistent(db)
    ensures Consistent(DeletedProject(db, id, cascade).db)
    ensures Consistent(DeletedFeature(db, id, cascade).db)
    ensures Consistent(DeletedTask(db, id, cascade).db)
  {
    hide Consistent, Without, ProjectReferenced, FeatureReferenced, TaskReferenced;
    if ProjectOf(db, id).Some? {
      var p := ProjectOf(db, id).value;
      WithoutKeepsConsistent(db, {p}, FeaturesOf(db, p), TasksOfAll(db, FeaturesOf(db, p)));
    }
    if FeatureOf(db, id).Some? {
      WithoutKeepsConsistent(db, {}, {FeatureOf(db, id).value}, TasksOf(db, FeatureOf(db, id).value));
    }
    if TaskOf(db, id).Some? {
      WithoutKeepsConsistent(db, {}, {}, {TaskOf(db, id).value});
    }
  }

  /** Only the edges change. */
  lemma EdgesChangedKeeps(db: Tables, deps: seq<Dependency>)
    requires Consistent(db) && EdgesSound(db.(dependencies := deps))
    ensures Consistent(db.(dependencies := deps))
  {
  }

  /** A new edge inside a feature that closes no circle keeps the whole relation free of circles. */
  lemma AddsDependencyKeeps(db: Tables, blocker: string, blocked: string, result: Outcome)
    requires Consistent(db) && AddsDependency(db, blocker, blocked, result)
    ensures Consistent(result.db)
  {
    if result.db != db {
      var a, b := TaskOf(db, blocker).value, TaskOf(db, blocked).value;
      var e := Dependency(a, b);
      var more := db.dependencies + [e];
      NewEdgeKeepsAcyclic(db.dependencies, more, e);
      EdgesChangedKeeps(db, more);
    }
  }

  lemma RemovedDependencyKeeps(db: Tables, blocker: string, blocked: string)
    requires Consistent(db)
    ensures Consistent(RemovedDependency(db, blocker, blocked).db)
  {
    var result := RemovedDependency(db, blocker, blocked);
    if result.db != db {
      var e := Dependency(TaskOf(db, blocker).value, TaskOf(db, blocked).value);
      KeepIfDistinct(db.dependencies, Except(e));
      KeepsAcyclic(db.dependencies, KeepIf(db.dependencies, Except(e)));
      forall d | d in KeepIf(db.dependencies, Except(e))
        ensures InsideFeature(db.(dependencies := KeepIf(db.dependencies, Except(e))), d)
      {
        assert InsideFeature(db, d);
      }
      EdgesChangedKeeps(db, KeepIf(db.dependencies, Except(e)));
    }
  }

  lemma LeavesChangedKeeps(db: Tables, more: Tables)
    requires Consistent(db)
    requires more == db.(pullRequests := more.pullRequests, documents := more.documents)
    requires PullRequestsSound(more) && DocumentsSound(more)
    ensures Consistent(more)
  {
  }

  lemma DocumentsStay(db: Tables, rows: map<string, PullRequest>)
    requires DocumentsSound(db)
    ensures DocumentsSound(db.(pullRequests := rows))
  {
  }

  lemma RowStored(db: Tables, t: string, row: PullRequest)
    requires PullRequestsSound(db) && t in db.tasks && row.taskId == t && row.host != "" && row.number > 0
    requires !IsTaken(db, row)
    ensures PullRequestsSound(db.(pullRequests := db.pullRequests[t := row]))
  {
    hide Lower;
  }

  lemma PullRequestStored(db: Tables, t: string, row: PullRequest)
    requires Consistent(db) && t in db.tasks && row.taskId == t && row.host != "" && row.number > 0
    requires !IsTaken(db, row)
    ensures Consistent(db.(pullRequests := db.pullRequests[t := row]))
  {
    hide IdsIssued, EdgesSound, DocumentsSound, Placed, PullRequestsSound, IsTaken;
    DocumentsStay(db, db.pullRequests[t := row]);
    RowStored(db, t, row);
    LeavesChangedKeeps(db, db.(pullRequests := db.pullRequests[t := row]));
  }

  lemma UpsertedPullRequestKeeps(db: Tables, value: PullRequest)
    requires Consistent(db)
    ensures Consistent(UpsertedPullRequest(db, value).db)
  {
    hide Consistent, RowOf, IsTaken;
    if TaskOf(db, value.taskId).Some? {
      var t := TaskOf(db, value.taskId).value;
      if value.number > 0 && !IsTaken(db, AsRow(value, t)) {
        PullRequestStored(db, t, AsRow(value, t));
      }
    }
  }

  lemma DeletedPullRequestKeeps(db: Tables, taskId: string)
    requires Consistent(db)
    ensures Consistent(DeletedPullRequest(db, taskId).db)
  {
    hide IdsIssued, EdgesSound, RowOf;
    LeavesChangedKeeps(db, DeletedPullRequest(db, taskId).db);
  }

  lemma DocumentStored(db: Tables, uuid: string, row: DocumentRow)
    requires Consistent(db) && HasParent(db, row.parent)
    requires row.plan ==> row.parent.OfTask? && !HasPlan(db, row.parent.id, uuid)
    ensures Consistent(db.(documents := db.documents[uuid := row]))
  {
    hide IdsIssued, EdgesSound;
    LeavesChangedKeeps(db, db.(documents := db.documents[uuid := row]));
  }

  lemma CreatedDocumentKeeps(db: Tables, uuid: string, parent: Named, title: string, body: string, plan: bool)
    requires Consistent(db)
    ensures Consistent(CreatedDocument(db, uuid, parent, title, body, plan).db)
  {
    hide Consistent, RowOf, HasPlan;
    if ParentOf(db, parent).Some? {
      var stored := ParentOf(db, parent).value;
      if !(plan && !stored.OfTask?) && !(plan && HasPlan(db, stored.id, uuid)) {
        DocumentStored(db, uuid, DocumentRow(stored, title, body, plan));
      }
    }
  }

  lemma UpdatedDocumentKeeps(
    db: Tables, id: string, title: Option<string>, body: Option<string>, plan: Option<bool>)
    requires Consistent(db)
    ensures Consistent(UpdatedDocument(db, id, title, body, plan).db)
  {
    hide IdsIssued, EdgesSound, PullRequestsSound, HasPlan;
    var result := UpdatedDocument(db, id, title, body, plan);
    if result.reply.Done? {
      DocumentStored(db, id, result.db.documents[id]);
    }
  }

  lemma DeletedDocumentKeeps(db: Tables, id: string)
    requires Consistent(db)
    ensures Consistent(DeletedDocument(db, id).db)
  {
    hide IdsIssued, EdgesSound, RowOf;
    LeavesChangedKeeps(db, DeletedDocument(db, id).db);
  }

  lemma UpsertedPlanKeeps(db: Tables, uuid: string, taskId: string, title: string, body: string)
    requires Consistent(db)
    ensures Consistent(UpsertedPlan(db, uuid, taskId, title, body).db)
  {
    hide IdsIssued, EdgesSound, PullRequestsSound, RowOf;
    if TaskOf(db, taskId).Some? && uuid !in db.documents {
      var t := TaskOf(db, taskId).value;
      if exists k :: IsPlanOf(db, k, t) {
        var k :| IsPlanOf(db, k, t) && UpsertedPlan(db, uuid, taskId, title, body).db
                                    == db.(documents := db.documents[k := db.documents[k].(body := body)]);
        OnePlan(db, k, t);
        DocumentStored(db, k, db.documents[k].(body := body));
      } else {
        NoPlan(db, t);
        DocumentStored(db, uuid, DocumentRow(OfTask(t), title, body, true));
      }
    }
  }

  lemma OnePlan(db: Tables, k: string, t: string)
    requires DocumentsSound(db) && IsPlanOf(db, k, t)
    ensures !HasPlan(db, t, k)
  {
  }

  lemma NoPlan(db: Tables, t: string)
    requires !exists k :: IsPlanOf(db, k, t)
    ensures forall other :: !HasPlan(db, t, other)
  {
    forall other
      ensures !HasPlan(db, t, other)
    {
      if HasPlan(db, t, other) {
        var k :| k in db.documents && k != other && db.documents[k].plan && db.documents[k].parent == OfTask(t);
        assert IsPlanOf(db, k, t);
      }
    }
  }

  lemma DeletedPlanKeeps(db: Tables, taskId: string)
    requires Consistent(db)
    ensures Consistent(DeletedPlan(db, taskId).db)
  {
    hide IdsIssued, EdgesSound, RowOf;
    LeavesChangedKeeps(db, DeletedPlan(db, taskId).db);
  }

  /** Every operation, whatever it answers, leaves the tables consistent. */
  lemma EveryOperationKeeps(db: Tables, op: Operation, result: Outcome)
    requires Consistent(db) && Applies(db, op, result)
    ensures Consistent(result.db)
  {
    hide Consistent;
    match op
    case CreateProject(uuid, title, description) => CreatedProjectKeeps(db, uuid, title, description);
    case UpdateProject(id, title, description, archived) =>
      UpdatedProjectKeeps(db, id, title, description, archived);
    case DeleteProject(id, cascade) => DeletedKeeps(db, id, cascade);
    case CreateFeature(uuid, title, description, projectId) =>
      CreatedFeatureKeeps(db, uuid, title, description, projectId);
    case UpdateFeature(id, title, description, projectId, status, archived) =>
      UpdatedFeatureKeeps(db, id, title, description, projectId, status, archived);
    case DeleteFeature(id, cascade) => DeletedKeeps(db, id, cascade);
    case CreateTask(uuid, featureId, title, scope, assignee) =>
      CreatedTaskKeeps(db, uuid, featureId, title, scope, assignee);
    case UpdateTask(id, title, scope, status, assignee) => UpdatedTaskKeeps(db, id, title, scope, status, assignee);
    case DeleteTask(id, cascade) => DeletedKeeps(db, id, cascade);
    case AddDependency(blocker, blocked) => AddsDependencyKeeps(db, blocker, blocked, result);
    case RemoveDependency(blocker, blocked) => RemovedDependencyKeeps(db, blocker, blocked);
    case UpsertPullRequest(value) => UpsertedPullRequestKeeps(db, value);
    case DeletePullRequest(taskId) => DeletedPullRequestKeeps(db, taskId);
    case CreateDocument(uuid, parent, title, body, plan) =>
      CreatedDocumentKeeps(db, uuid, parent, title, body, plan);
    case UpdateDocument(id, title, body, plan) => UpdatedDocumentKeeps(db, id, title, body, plan);
    case DeleteDocument(id) => DeletedDocumentKeeps(db, id);
    case UpsertPlan(uuid, taskId, title, body) => UpsertedPlanKeeps(db, uuid, taskId, title, body);
    case DeletePlan(taskId) => DeletedPlanKeeps(db, taskId);
  }

  // ----- runs -----

  datatype Run = Run(ops: seq<Operation>, states: seq<Tables>, replies: seq<Reply>)

  /** A run from an empty store: each state is what its operation leaves of the one before. */
  ghost predicate IsRun(run: Run) {
    && |run.states| == |run.ops| + 1 && |run.replies| == |run.ops|
    && run.states[0] == EMPTY_TABLES
    && forall i {:trigger StepOf(run, i)} :: 0 <= i < |run.ops| ==> StepOf(run, i)
  }

  ghost predicate StepOf(run: Run, i: nat)
    requires i < |run.ops| && |run.states| == |run.ops| + 1 && |run.replies| == |run.ops|
  {
    Applies(run.states[i], run.ops[i], Outcome(run.states[i + 1], run.replies[i]))
  }

  /** Every state of every run is consistent. */
  lemma {:induction false} RunsStayConsistent(run: Run, i: nat)
    requires IsRun(run) && i < |run.states|
    ensures Consistent(run.states[i])
  {
    hide Consistent, Applies;
    if i == 0 {
      EmptyIsConsistent();
    } else {
      RunsStayConsistent(run, i - 1);
      assert StepOf(run, i - 1);
      EveryOperationKeeps(run.states[i - 1], run.ops[i - 1], Outcome(run.states[i], run.replies[i - 1]));
    }
  }

  predicate CreatesNode(op: Operation) {
    op.CreateProject? || op.CreateFeature? || op.CreateTask?
  }

  /** The number a public id of this state was made from is below the sequence. */
  ghost predicate WasIssued(db: Tables, id: string) {
    || IssuedBefore(id, "P-", db.nextProject)
    || IssuedBefore(id, "F-", db.nextFeature)
    || IssuedBefore(id, "T-", db.nextTask)
  }

  lemma IssuedLater(id: string, prefix: string, next: nat, next': nat)
    requires IssuedBefore(id, prefix, next) && next <= next'
    ensures IssuedBefore(id, prefix, next')
  {
  }

  lemma SequencesGrow(db: Tables, op: Operation, result: Outcome)
    requires Applies(db, op, result)
    ensures db.nextProject <= result.db.nextProject && db.nextFeature <= result.db.nextFeature
    ensures db.nextTask <= result.db.nextTask
  {
    hide RowOf, Titled, MayAdd, ShowsCycle, IsTaken, HasPlan, KeepIf;
  }

  /** An id handed out is new, and counts as issued from then on. */
  lemma CreatedIsNew(db: Tables, op: Operation, result: Outcome)
    requires Applies(db, op, result) && CreatesNode(op) && result.reply.Created?
    ensures !WasIssued(db, result.reply.id) && WasIssued(result.db, result.reply.id)
  {
    hide RowOf, Titled, PublicId;
    var id := result.reply.id;
    NextIsNew("P-", db.nextProject);
    NextIsNew("F-", db.nextFeature);
    NextIsNew("T-", db.nextTask);
    if op.CreateProject? {
      OtherPrefix("P-", "F-", db.nextProject, db.nextFeature);
      OtherPrefix("P-", "T-", db.nextProject, db.nextTask);
      assert IssuedBefore(id, "P-", result.db.nextProject);
    } else if op.CreateFeature? {
      OtherPrefix("F-", "P-", db.nextFeature, db.nextProject);
      OtherPrefix("F-", "T-", db.nextFeature, db.nextTask);
      assert IssuedBefore(id, "F-", result.db.nextFeature);
    } else {
      OtherPrefix("T-", "P-", db.nextTask, db.nextProject);
      OtherPrefix("T-", "F-", db.nextTask, db.nextFeature);
      assert IssuedBefore(id, "T-", result.db.nextTask);
    }
  }

  lemma OtherPrefix(prefix: string, other: string, m: nat, next: nat)
    requires |prefix| == 2 && |other| == 2 && prefix[0] != other[0]
    ensures !IssuedBefore(PublicId(prefix, m), other, next)
  {
    forall n: nat | n < next
      ensures PublicId(prefix, m) != PublicId(other, n)
    {
      assert PublicId(prefix, m)[0] == prefix[0];
      assert PublicId(other, n)[0] == other[0];
    }
  }

  lemma {:induction false} StaysIssued(run: Run, i: nat, j: nat, id: string)
    requires IsRun(run) && i <= j < |run.states| && WasIssued(run.states[i], id)
    ensures WasIssued(run.states[j], id)
    decreases j - i
  {
    hide Applies;
    if i < j {
      assert StepOf(run, i);
      var db, next := run.states[i], run.states[i + 1];
      SequencesGrow(db, run.ops[i], Outcome(next, run.replies[i]));
      if IssuedBefore(id, "P-", db.nextProject) {
        IssuedLater(id, "P-", db.nextProject, next.nextProject);
      } else if IssuedBefore(id, "F-", db.nextFeature) {
        IssuedLater(id, "F-", db.nextFeature, next.nextFeature);
      } else {
        IssuedLater(id, "T-", db.nextTask, next.nextTask);
      }
      StaysIssued(run, i + 1, j, id);
    }
  }

  /** No public id is handed out twice, not even after its row has been deleted. */
  lemma PublicIdsAreNeverReused(run: Run, i: nat, j: nat)
    requires IsRun(run) && i < j < |run.ops|
    requires CreatesNode(run.ops[i]) && CreatesNode(run.ops[j])
    requires run.replies[i].Created? && run.replies[j].Created?
    ensures run.replies[i].id != run.replies[j].id
  {
    hide Applies, WasIssued;
    assert StepOf(run, i) && StepOf(run, j);
    CreatedIsNew(run.states[i], run.ops[i], Outcome(run.states[i + 1], run.replies[i]));
    CreatedIsNew(run.states[j], run.ops[j], Outcome(run.states[j + 1], run.replies[j]));
    StaysIssued(run, i + 1, j, run.replies[i].id);
  }
}
