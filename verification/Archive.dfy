/**
  The read-only barrier: the guards of internal/app/archive.go in front of the store's operations, as the
  service of internal/app/service.go and internal/app/project.go composes them, each call as one step.
 */
module Archive {
  import opened Text
  import opened Status
  import opened Digraph
  import opened Database
  import opened Operations
  import opened Readiness
  import opened Snapshots
  import opened Deriving

  // ----- requests -----

  /** Fields that are not given are None; overrides stands for the prompt and label overrides. */
  datatype FeatureUpdate = FeatureUpdate(
    projectId: Option<string>, title: Option<string>, description: Option<string>, overrides: Option<string>,
    status: Option<FeatureStatus>, archived: Option<bool>)

  const NO_FEATURE_UPDATE: FeatureUpdate := FeatureUpdate(None, None, None, None, None, None)

  datatype ProjectUpdate = ProjectUpdate(
    title: Option<string>, description: Option<string>, overrides: Option<string>, archived: Option<bool>)

  const NO_PROJECT_UPDATE: ProjectUpdate := ProjectUpdate(None, None, None, None)

  datatype Call =
    | CallCreateProject(uuid: string, title: string, description: string)
    | CallUpdateProject(id: string, projectUpdate: ProjectUpdate)
    | CallDeleteProject(id: string, cascade: bool)
    | CallCreateFeature(uuid: string, title: string, description: string, projectId: string)
    | CallUpdateFeature(id: string, featureUpdate: FeatureUpdate)
    | CallDeleteFeature(id: string, cascade: bool)
    | CallCreateTask(uuid: string, featureId: string, title: string, scope: string, assignee: string)
    | CallUpdateTask(id: string, newTitle: Option<string>, newScope: Option<string>, newStatus: Option<TaskStatus>,
        newAssignee: Option<string>)
    | CallDeleteTask(id: string, cascade: bool)
    | CallAddDependency(blocker: string, blocked: string)
    | CallRemoveDependency(blocker: string, blocked: string)
    | CallAttachPullRequest(taskId: string, host: string, owner: string, repository: string, number: int)
    | CallDetachPullRequest(taskId: string)
    | CallAddDocument(uuid: string, parent: Named, title: string, body: string, plan: bool)
    | CallUpdateDocument(id: string, docTitle: Option<string>, docBody: Option<string>, docPlan: Option<bool>)
    | CallDeleteDocument(id: string)
    | CallUpsertPlan(uuid: string, taskId: string, title: string, body: string)
    | CallDeletePlan(taskId: string)

  /** archivedFeatureFlagOnly. */
  predicate FeatureFlagOnly(update: FeatureUpdate) {
    update.archived.Some? && update.(archived := None) == NO_FEATURE_UPDATE
  }

  /** archivedProjectFlagOnly. */
  predicate ProjectFlagOnly(update: ProjectUpdate) {
    update.archived.Some? && update.(archived := None) == NO_PROJECT_UPDATE
  }

  // ----- guards -----

  predicate ProjectArchived(db: Tables, p: string) {
    p in db.projects && db.projects[p].archived
  }

  /** featureReadOnly: archived itself, or in an archived project. */
  predicate ReadOnly(db: Tables, f: string) {
    f in db.features && (db.features[f].archived || ProjectArchived(db, db.features[f].projectId))
  }

  ghost predicate ProjectGuard(db: Tables, id: string) {
    ProjectOf(db, id).Some? && !ProjectArchived(db, ProjectOf(db, id).value)
  }

  ghost predicate FeatureGuard(db: Tables, id: string) {
    FeatureOf(db, id).Some? && !ReadOnly(db, FeatureOf(db, id).value)
  }

  ghost predicate TaskGuard(db: Tables, id: string) {
    TaskOf(db, id).Some? && !ReadOnly(db, db.tasks[TaskOf(db, id).value].featureId)
  }

  ghost predicate ParentGuard(db: Tables, parent: Named) {
    match parent
    case InProject(id) => ProjectGuard(db, id)
    case InFeature(id) => FeatureGuard(db, id)
    case InTask(id) => TaskGuard(db, id)
  }

  /** guardDocument: the guard of whatever the document hangs on. */
  predicate DocumentGuard(db: Tables, k: string) {
    && k in db.documents
    && match db.documents[k].parent
       case OfProject(p) => !ProjectArchived(db, p)
       case OfFeature(f) => !ReadOnly(db, f)
       case OfTask(t) => t in db.tasks && !ReadOnly(db, db.tasks[t].featureId)
  }

  // ----- calls as guarded operations -----

  function FeatureWith(row: FeatureRow, update: FeatureUpdate): FeatureRow {
    row.(title := if update.title.Some? then Trim(update.title.value) else row.title,
      description := update.description.GetOr(row.description),
      status := update.status.GetOr(row.status), archived := update.archived.GetOr(row.archived))
  }

  function ProjectWith(row: ProjectRow, update: ProjectUpdate): ProjectRow {
    row.(title := if update.title.Some? then Trim(update.title.value) else row.title,
      description := update.description.GetOr(row.description), archived := update.archived.GetOr(row.archived))
  }

  ghost function UpdateProjectOperation(db: Tables, id: string, update: ProjectUpdate): Option<Operation> {
    if ProjectOf(db, id).None? || !(ProjectFlagOnly(update) || ProjectGuard(db, id)) then None
    else
      var row := ProjectWith(db.projects[ProjectOf(db, id).value], update);
      if row.title == "" then None
      else Some(UpdateProject(id, row.title, row.description, row.archived))
  }

  ghost function UpdateFeatureOperation(db: Tables, id: string, update: FeatureUpdate): Option<Operation> {
    if FeatureOf(db, id).None? || !(FeatureFlagOnly(update) || FeatureGuard(db, id)) then None
    else if update.projectId.Some? && !ProjectGuard(db, Trim(update.projectId.value)) then None
    else
      var stored := db.features[FeatureOf(db, id).value];
      var row := FeatureWith(stored, update);
      var project :=
        if update.projectId.Some? then Trim(update.projectId.value)
        else if stored.projectId in db.projects then db.projects[stored.projectId].publicId else "";
      Some(UpdateFeature(id, row.title, row.description, project, row.status, row.archived))
  }

  ghost function UpdateTaskOperation(
    db: Tables, id: string, title: Option<string>, scope: Option<string>, status: Option<TaskStatus>,
    assignee: Option<string>): Option<Operation>
  {
    if !TaskGuard(db, id) then None
    else
      var row := db.tasks[TaskOf(db, id).value];
      var newTitle := if title.Some? then Trim(title.value) else row.title;
      if newTitle == "" then None
      else Some(UpdateTask(id, newTitle, scope.GetOr(row.scope), status.GetOr(row.status),
                           assignee.GetOr(row.assignee)))
  }

  function Attached(taskId: string, host: string, owner: string, repository: string, number: int): PullRequest {
    PullRequest(taskId, host, owner, repository, number, "", UnknownState, false, UnknownReview,
      UnknownMergeability, UnknownCheck, false, None, None, None, None, "", true)
  }

  /** The operation a call ends in, when its guards let it through. */
  ghost function Guarded(db: Tables, call: Call): Option<Operation> {
    match call
    case CallCreateProject(uuid, title, description) =>
      if Trim(title) == "" then None else Some(CreateProject(uuid, Trim(title), Trim(description)))
    case CallUpdateProject(id, update) => UpdateProjectOperation(db, id, update)
    case CallDeleteProject(id, cascade) => Some(DeleteProject(id, cascade))
    case CallCreateFeature(uuid, title, description, projectId) =>
      if Trim(title) == "" || !ProjectGuard(db, Trim(projectId)) then None
      else Some(CreateFeature(uuid, Trim(title), Trim(description), Trim(projectId)))
    case CallUpdateFeature(id, update) => UpdateFeatureOperation(db, id, update)
    case CallDeleteFeature(id, cascade) => Some(DeleteFeature(id, cascade))
    case CallCreateTask(uuid, featureId, title, scope, assignee) =>
      if !FeatureGuard(db, featureId) || Trim(title) == "" then None
      else Some(CreateTask(uuid, featureId, Trim(title), Trim(scope), Trim(assignee)))
    case CallUpdateTask(id, title, scope, status, assignee) =>
      UpdateTaskOperation(db, id, title, scope, status, assignee)
    case CallDeleteTask(id, cascade) => if TaskGuard(db, id) then Some(DeleteTask(id, cascade)) else None
    case CallAddDependency(blocker, blocked) =>
      if TaskGuard(db, blocker) then Some(AddDependency(blocker, blocked)) else None
    case CallRemoveDependency(blocker, blocked) =>
      if TaskGuard(db, blocker) then Some(RemoveDependency(blocker, blocked)) else None
    case CallAttachPullRequest(taskId, host, owner, repository, number) =>
      if TaskGuard(db, taskId) then Some(UpsertPullRequest(Attached(taskId, host, owner, repository, number)))
      else None
    case CallDetachPullRequest(taskId) => if TaskGuard(db, taskId) then Some(DeletePullRequest(taskId)) else None
    case CallAddDocument(uuid, parent, title, body, plan) =>
      if ParentGuard(db, parent) then Some(CreateDocument(uuid, parent, Trim(title), body, plan)) else None
    case CallUpdateDocument(id, title, body, plan) =>
      if DocumentGuard(db, id) then
        Some(UpdateDocument(id, if title.Some? then Some(Trim(title.value)) else None, body, plan))
      else None
    case CallDeleteDocument(id) => if DocumentGuard(db, id) then Some(DeleteDocument(id)) else None
    case CallUpsertPlan(uuid, taskId, title, body) =>
      if TaskGuard(db, taskId) then Some(UpsertPlan(uuid, taskId, title, body)) else None
    case CallDeletePlan(taskId) => if TaskGuard(db, taskId) then Some(DeletePlan(taskId)) else None
  }

  /** A call either stops at its guards or runs its operation. */
  ghost predicate Serves(db: Tables, call: Call, db': Tables) {
    match Guarded(db, call)
    case None => db' == db
    case Some(op) => exists reply :: Applies(db, op, Outcome(db', reply))
  }

  // ----- what is protected -----

  /** The tasks, edges, pull requests and documents under a feature. */
  datatype View = View(
    tasks: map<string, TaskRow>, edges: seq<Dependency>, pullRequests: map<string, PullRequest>,
    documents: map<string, DocumentRow>)

  function Touching(tasks: set<string>): Dependency -> bool {
    (d: Dependency) => d.blocker in tasks || d.blocked in tasks
  }

  predicate IsUnder(parent: Parent, f: string, tasks: set<string>) {
    parent == OfFeature(f) || (parent.OfTask? && parent.id in tasks)
  }

  function DocumentsUnder(documents: map<string, DocumentRow>, f: string, tasks: set<string>)
    : map<string, DocumentRow>
  {
    map k | k in documents && IsUnder(documents[k].parent, f, tasks) :: documents[k]
  }

  function Only<T>(rows: map<string, T>, keys: set<string>): map<string, T> {
    map k | k in rows && k in keys :: rows[k]
  }

  function Under(db: Tables, f: string): View {
    var tasks := TasksOf(db, f);
    View(Only(db.tasks, tasks), KeepIf(db.dependencies, Touching(tasks)), Only(db.pullRequests, tasks),
      DocumentsUnder(db.documents, f, tasks))
  }

  /** The documents of a project itself. */
  function ProjectDocuments(db: Tables, p: string): map<string, DocumentRow> {
    map k | k in db.documents && db.documents[k].parent == OfProject(p) :: db.documents[k]
  }

  // ----- which feature an operation touches -----

  ghost predicate TaskIn(db: Tables, id: string, f: string) {
    TaskOf(db, id).Some? && db.tasks[TaskOf(db, id).value].featureId == f
  }

  ghost predicate ParentIn(db: Tables, parent: Named, f: string) {
    match parent
    case InProject(_) => false
    case InFeature(id) => FeatureOf(db, id) == Some(f)
    case InTask(id) => TaskIn(db, id, f)
  }

  predicate DocumentIn(db: Tables, k: string, f: string) {
    k in db.documents && IsUnder(db.documents[k].parent, f, TasksOf(db, f))
  }

  /** The operation may change what is under the feature; of an edge only the blocker is looked at. */
  ghost predicate Touches(db: Tables, op: Operation, f: string) {
    match op
    case CreateProject(_, _, _) => false
    case UpdateProject(_, _, _, _) => false
    case DeleteProject(id, _) => ProjectOf(db, id).Some? && f in FeaturesOf(db, ProjectOf(db, id).value)
    case CreateFeature(_, _, _, _) => false
    case UpdateFeature(_, _, _, _, _, _) => false
    case DeleteFeature(id, _) => FeatureOf(db, id) == Some(f)
    case CreateTask(_, featureId, _, _, _) => FeatureOf(db, featureId) == Some(f)
    case UpdateTask(id, _, _, _, _) => TaskIn(db, id, f)
    case DeleteTask(id, _) => TaskIn(db, id, f)
    case AddDependency(blocker, _) => TaskIn(db, blocker, f)
    case RemoveDependency(blocker, _) => TaskIn(db, blocker, f)
    case UpsertPullRequest(value) => TaskIn(db, value.taskId, f)
    case DeletePullRequest(taskId) => TaskIn(db, taskId, f)
    case CreateDocument(_, parent, _, _, _) => ParentIn(db, parent, f)
    case UpdateDocument(id, _, _, _) => DocumentIn(db, id, f)
    case DeleteDocument(id) => DocumentIn(db, id, f)
    case UpsertPlan(_, taskId, _, _) => TaskIn(db, taskId, f)
    case DeletePlan(taskId) => TaskIn(db, taskId, f)
  }

  lemma EdgesKept(deps: seq<Dependency>, tasks: set<string>, keep: Dependency -> bool)
    requires forall d :: d in deps && Touching(tasks)(d) ==> keep(d)
    ensures KeepIf(KeepIf(deps, keep), Touching(tasks)) == KeepIf(deps, Touching(tasks))
  {
    var both := (d: Dependency) => keep(d) && Touching(tasks)(d);
    KeepIfTwice(deps, keep, Touching(tasks), both);
    KeepIfSame(deps, both, Touching(tasks));
  }

  lemma {:induction false} EdgeElsewhere(deps: seq<Dependency>, tasks: set<string>, e: Dependency)
    requires e.blocker !in tasks && e.blocked !in tasks
    ensures KeepIf(deps + [e], Touching(tasks)) == KeepIf(deps, Touching(tasks))
  {
    if deps == [] {
      assert [] + [e] == [e];
    } else {
      EdgeElsewhere(deps[1..], tasks, e);
      assert (deps + [e])[1..] == deps[1..] + [e];
    }
  }

  lemma OnlyWithout<T>(rows: map<string, T>, gone: set<string>, keys: set<string>)
    requires gone !! keys
    ensures Only(rows - gone, keys) == Only(rows, keys)
  {
  }

  lemma DocumentsUnderWithout(
    documents: map<string, DocumentRow>, projects: set<string>, features: set<string>, tasks: set<string>, f: string,
    mine: set<string>)
    requires f !in features && tasks !! mine
    ensures DocumentsUnder(DocumentsWithout(documents, projects, features, tasks), f, mine)
         == DocumentsUnder(documents, f, mine)
  {
  }

  /** Removing rows elsewhere leaves a feature alone, because no edge leads out of it. */
  lemma WithoutElsewhere(db: Tables, projects: set<string>, features: set<string>, tasks: set<string>, f: string)
    requires EdgesSound(db) && f !in features && tasks !! TasksOf(db, f)
    ensures Under(Without(db, projects, features, tasks), f) == Under(db, f)
  {
    var less := Without(db, projects, features, tasks);
    var mine := TasksOf(db, f);
    assert TasksOf(less, f) == mine;
    forall d | d in db.dependencies && Touching(mine)(d)
      ensures Untouched(tasks)(d)
    {
      assert InsideFeature(db, d);
    }
    hide EdgesSound, Only, DocumentsUnder, DocumentsWithout;
    EdgesKept(db.dependencies, mine, Untouched(tasks));
    OnlyWithout(db.tasks, tasks, mine);
    OnlyWithout(db.pullRequests, tasks, mine);
    DocumentsUnderWithout(db.documents, projects, features, tasks, f, mine);
  }

  lemma DeletesElsewhere(db: Tables, id: string, cascade: bool, f: string)
    requires Consistent(db) && f in db.features
    ensures !Touches(db, DeleteProject(id, cascade), f) ==> Under(DeletedProject(db, id, cascade).db, f) == Under(db, f)
    ensures !Touches(db, DeleteFeature(id, cascade), f) ==> Under(DeletedFeature(db, id, cascade).db, f) == Under(db, f)
    ensures !Touches(db, DeleteTask(id, cascade), f) ==> Under(DeletedTask(db, id, cascade).db, f) == Under(db, f)
  {
    hide Without, Under, ProjectReferenced, FeatureReferenced, TaskReferenced, RowOf, EdgesSound, IdsIssued;
    hide Placed, PullRequestsSound, DocumentsSound;
    if ProjectOf(db, id).Some? && !Touches(db, DeleteProject(id, cascade), f) {
      var p := ProjectOf(db, id).value;
      WithoutElsewhere(db, {p}, FeaturesOf(db, p), TasksOfAll(db, FeaturesOf(db, p)), f);
    }
    if FeatureOf(db, id).Some? && !Touches(db, DeleteFeature(id, cascade), f) {
      WithoutElsewhere(db, {}, {FeatureOf(db, id).value}, TasksOf(db, FeatureOf(db, id).value), f);
    }
    if TaskOf(db, id).Some? && !Touches(db, DeleteTask(id, cascade), f) {
      WithoutElsewhere(db, {}, {}, {TaskOf(db, id).value}, f);
    }
  }

  /** Neither end of a new edge is under a feature its blocker is not in. */
  lemma AddsElsewhere(db: Tables, blocker: string, blocked: string, result: Outcome, f: string)
    requires Consistent(db) && AddsDependency(db, blocker, blocked, result)
    requires !Touches(db, AddDependency(blocker, blocked), f)
    ensures Under(result.db, f) == Under(db, f)
  {
    hide Consistent, RowOf;
    if result.db != db {
      var e := Dependency(TaskOf(db, blocker).value, TaskOf(db, blocked).value);
      EdgeElsewhere(db.dependencies, TasksOf(db, f), e);
      assert TasksOf(result.db, f) == TasksOf(db, f);
    }
  }

  lemma RemovesElsewhere(db: Tables, blocker: string, blocked: string, f: string)
    requires Consistent(db) && !Touches(db, RemoveDependency(blocker, blocked), f)
    ensures Under(RemovedDependency(db, blocker, blocked).db, f) == Under(db, f)
  {
    hide IdsIssued, PullRequestsSound, DocumentsSound, RowOf;
    var less := RemovedDependency(db, blocker, blocked).db;
    if less != db {
      var e := Dependency(TaskOf(db, blocker).value, TaskOf(db, blocked).value);
      assert InsideFeature(db, e);
      EdgesKept(db.dependencies, TasksOf(db, f), Except(e));
      assert TasksOf(less, f) == TasksOf(db, f);
    }
  }

  /** Rows of other features change at most. */
  lemma RowsElsewhere(db: Tables, more: Tables, f: string)
    requires more.dependencies == db.dependencies
    requires Only(more.tasks, TasksOf(more, f)) == Only(db.tasks, TasksOf(db, f))
    requires Only(more.pullRequests, TasksOf(db, f)) == Only(db.pullRequests, TasksOf(db, f))
    requires DocumentsUnder(more.documents, f, TasksOf(db, f)) == DocumentsUnder(db.documents, f, TasksOf(db, f))
    ensures Under(more, f) == Under(db, f)
  {
    assert TasksOf(db, f) == Only(db.tasks, TasksOf(db, f)).Keys;
    assert TasksOf(more, f) == Only(more.tasks, TasksOf(more, f)).Keys;
  }

  /** An operation that does not touch a feature leaves everything under it as it was. */
  lemma OperationElsewhere(db: Tables, op: Operation, result: Outcome, f: string)
    requires Consistent(db) && Applies(db, op, result) && f in db.features && !Touches(db, op, f)
    ensures Under(result.db, f) == Under(db, f)
  {
    hide Under, Consistent, Applies, Touches;
    match op
    case DeleteProject(_, _) => RemovalsElsewhere(db, op, result, f);
    case DeleteFeature(_, _) => RemovalsElsewhere(db, op, result, f);
    case DeleteTask(_, _) => RemovalsElsewhere(db, op, result, f);
    case AddDependency(_, _) => RemovalsElsewhere(db, op, result, f);
    case RemoveDependency(_, _) => RemovalsElsewhere(db, op, result, f);
    case CreateProject(_, _, _) => ContainersElsewhere(db, op, result, f);
    case UpdateProject(_, _, _, _) => ContainersElsewhere(db, op, result, f);
    case CreateFeature(_, _, _, _) => ContainersElsewhere(db, op, result, f);
    case UpdateFeature(_, _, _, _, _, _) => ContainersElsewhere(db, op, result, f);
    case CreateTask(_, _, _, _, _) => TasksElsewhere(db, op, result, f);
    case UpdateTask(_, _, _, _, _) => TasksElsewhere(db, op, result, f);
    case UpsertPullRequest(_) => PullRequestsElsewhere(db, op, result, f);
    case DeletePullRequest(_) => PullRequestsElsewhere(db, op, result, f);
    case CreateDocument(_, _, _, _, _) => DocumentsElsewhere(db, op, result, f);
    case UpdateDocument(_, _, _, _) => DocumentsElsewhere(db, op, result, f);
    case DeleteDocument(_) => DocumentsElsewhere(db, op, result, f);
    case UpsertPlan(_, _, _, _) => DocumentsElsewhere(db, op, result, f);
    case DeletePlan(_) => DocumentsElsewhere(db, op, result, f);
  }

  lemma RemovalsElsewhere(db: Tables, op: Operation, result: Outcome, f: string)
    requires op.DeleteProject? || op.DeleteFeature? || op.DeleteTask? || op.AddDependency? || op.RemoveDependency?
    requires Consistent(db) && Applies(db, op, result) && f in db.features && !Touches(db, op, f)
    ensures Under(result.db, f) == Under(db, f)
  {
    hide Under, Consistent, RowOf, Without, KeepIf, AddsDependency, DeletedProject, DeletedFeature, DeletedTask;
    match op
    case DeleteProject(id, cascade) => DeletesElsewhere(db, id, cascade, f);
    case DeleteFeature(id, cascade) => DeletesElsewhere(db, id, cascade, f);
    case DeleteTask(id, cascade) => DeletesElsewhere(db, id, cascade, f);
    case AddDependency(blocker, blocked) => AddsElsewhere(db, blocker, blocked, result, f);
    case RemoveDependency(blocker, blocked) => RemovesElsewhere(db, blocker, blocked, f);
  }

  lemma SameLeaves(db: Tables, more: Tables, f: string)
    requires more.tasks == db.tasks && more.dependencies == db.dependencies
    requires more.pullRequests == db.pullRequests && more.documents == db.documents
    ensures Under(more, f) == Under(db, f)
  {
  }

  lemma ContainersElsewhere(db: Tables, op: Operation, result: Outcome, f: string)
    requires op.CreateProject? || op.UpdateProject? || op.CreateFeature? || op.UpdateFeature?
    requires Applies(db, op, result)
    ensures Under(result.db, f) == Under(db, f)
  {
    hide Under, RowOf, Titled;
    SameLeaves(db, result.db, f);
  }

  lemma TaskRowElsewhere(db: Tables, t: string, row: TaskRow, next: nat, f: string)
    requires row.featureId != f && (t in db.tasks ==> db.tasks[t].featureId != f)
    ensures Under(db.(tasks := db.tasks[t := row], nextTask := next), f) == Under(db, f)
  {
    hide Under;
    var more := db.(tasks := db.tasks[t := row], nextTask := next);
    assert Only(more.tasks, TasksOf(more, f)) == Only(db.tasks, TasksOf(db, f));
    RowsElsewhere(db, more, f);
  }

  lemma TasksElsewhere(db: Tables, op: Operation, result: Outcome, f: string)
    requires op.CreateTask? || op.UpdateTask?
    requires Consistent(db) && Applies(db, op, result) && f in db.features && !Touches(db, op, f)
    ensures Under(result.db, f) == Under(db, f)
  {
    hide Under, RowOf, Consistent, Titled;
    if result.db != db {
      match op
      case CreateTask(uuid, _, _, _, _) => TaskRowElsewhere(db, uuid, result.db.tasks[uuid], result.db.nextTask, f);
      case UpdateTask(id, _, _, _, _) =>
        var t := TaskOf(db, id).value;
        TaskRowElsewhere(db, t, result.db.tasks[t], db.nextTask, f);
    }
  }

  lemma PullRequestRowsElsewhere(db: Tables, rows: map<string, PullRequest>, f: string)
    requires Only(rows, TasksOf(db, f)) == Only(db.pullRequests, TasksOf(db, f))
    ensures Under(db.(pullRequests := rows), f) == Under(db, f)
  {
    hide Under;
    assert TasksOf(db.(pullRequests := rows), f) == TasksOf(db, f);
    RowsElsewhere(db, db.(pullRequests := rows), f);
  }

  lemma PullRequestsElsewhere(db: Tables, op: Operation, result: Outcome, f: string)
    requires op.UpsertPullRequest? || op.DeletePullRequest?
    requires Consistent(db) && Applies(db, op, result) && f in db.features && !Touches(db, op, f)
    ensures Under(result.db, f) == Under(db, f)
  {
    hide Under, RowOf, Consistent, IsTaken;
    if result.db != db {
      assert Only(result.db.pullRequests, TasksOf(db, f)) == Only(db.pullRequests, TasksOf(db, f));
      PullRequestRowsElsewhere(db, result.db.pullRequests, f);
    }
  }

  lemma DocumentRowsElsewhere(db: Tables, rows: map<string, DocumentRow>, f: string)
    requires DocumentsUnder(rows, f, TasksOf(db, f)) == DocumentsUnder(db.documents, f, TasksOf(db, f))
    ensures Under(db.(documents := rows), f) == Under(db, f)
  {
    hide Under;
    assert TasksOf(db.(documents := rows), f) == TasksOf(db, f);
    RowsElsewhere(db, db.(documents := rows), f);
  }

  /** One document that is not under the feature is written. */
  lemma DocumentElsewhere(db: Tables, k: string, row: DocumentRow, f: string)
    requires !IsUnder(row.parent, f, TasksOf(db, f)) && !DocumentIn(db, k, f)
    ensures Under(db.(documents := db.documents[k := row]), f) == Under(db, f)
  {
    var mine, rows := TasksOf(db, f), db.documents[k := row];
    assert DocumentsUnder(rows, f, mine) == DocumentsUnder(db.documents, f, mine);
    DocumentRowsElsewhere(db, rows, f);
  }

  lemma DocumentsElsewhere(db: Tables, op: Operation, result: Outcome, f: string)
    requires op.CreateDocument? || op.UpdateDocument? || op.DeleteDocument? || op.UpsertPlan? || op.DeletePlan?
    requires Consistent(db) && Applies(db, op, result) && f in db.features && !Touches(db, op, f)
    ensures Under(result.db, f) == Under(db, f)
  {
    hide Under, RowOf, Consistent, HasPlan;
    if result.db != db {
      match op
      case CreateDocument(uuid, _, _, _, _) => DocumentElsewhere(db, uuid, result.db.documents[uuid], f);
      case UpdateDocument(id, _, _, _) => DocumentElsewhere(db, id, result.db.documents[id], f);
      case UpsertPlan(uuid, taskId, title, body) => PlanElsewhere(db, uuid, taskId, title, body, f);
      case DeleteDocument(_) => DocumentDeletionsElsewhere(db, op, result, f);
      case DeletePlan(_) => DocumentDeletionsElsewhere(db, op, result, f);
    }
  }

  lemma DocumentDeletionsElsewhere(db: Tables, op: Operation, result: Outcome, f: string)
    requires op.DeleteDocument? || op.DeletePlan?
    requires Applies(db, op, result) && !Touches(db, op, f)
    ensures Under(result.db, f) == Under(db, f)
  {
    hide Under, RowOf;
    if result.db != db {
      assert DocumentsUnder(result.db.documents, f, TasksOf(db, f)) == DocumentsUnder(db.documents, f, TasksOf(db, f));
      DocumentRowsElsewhere(db, result.db.documents, f);
    }
  }

  lemma PlanElsewhere(db: Tables, uuid: string, taskId: string, title: string, body: string, f: string)
    requires !TaskIn(db, taskId, f)
    ensures Under(UpsertedPlan(db, uuid, taskId, title, body).db, f) == Under(db, f)
  {
    hide Under, RowOf;
    if TaskOf(db, taskId).Some? && uuid !in db.documents {
      var t := TaskOf(db, taskId).value;
      if exists k :: IsPlanOf(db, k, t) {
        var k :| IsPlanOf(db, k, t) && UpsertedPlan(db, uuid, taskId, title, body).db
                                    == db.(documents := db.documents[k := db.documents[k].(body := body)]);
        DocumentElsewhere(db, k, db.documents[k].(body := body), f);
      } else {
        DocumentElsewhere(db, uuid, DocumentRow(OfTask(t), title, body, true), f);
      }
    }
  }

  // ----- the barrier -----

  /** The call discards the feature or its project. */
  ghost predicate Discards(db: Tables, call: Call, f: string) {
    || (call.CallDeleteFeature? && FeatureOf(db, call.id) == Some(f))
    || (call.CallDeleteProject? && ProjectOf(db, call.id).Some? && f in FeaturesOf(db, ProjectOf(db, call.id).value))
  }

  /** The call takes the archived flag from the feature or from its project. */
  ghost predicate Unarchives(db: Tables, call: Call, f: string) {
    || (call.CallUpdateFeature? && FeatureOf(db, call.id) == Some(f) && call.featureUpdate.archived == Some(false))
    || (call.CallUpdateProject? && ProjectOf(db, call.id).Some? && f in FeaturesOf(db, ProjectOf(db, call.id).value)
        && call.projectUpdate.archived == Some(false))
  }

  lemma GuardsProtectFromContainers(db: Tables, call: Call, f: string)
    requires IsContainerCall(call) && Guarded(db, call).Some? && !Discards(db, call, f)
    ensures !Touches(db, Guarded(db, call).value, f)
  {
    hide RowOf, Trim, ReadOnly;
  }

  lemma GuardsProtectFromDocuments(db: Tables, call: Call, f: string)
    requires call.CallAddDocument? || call.CallDeleteDocument? || call.CallUpdateDocument?
    requires ReadOnly(db, f) && Guarded(db, call).Some?
    ensures !Touches(db, Guarded(db, call).value, f)
  {
    hide RowOf, Trim;
    if !call.CallAddDocument? {
      assert DocumentGuard(db, call.id) && !DocumentIn(db, call.id, f);
    }
  }

  predicate IsDocumentCall(call: Call) {
    call.CallAddDocument? || call.CallDeleteDocument? || call.CallUpdateDocument?
  }

  /** What passes the guards does not touch a read-only feature, unless it discards it. */
  lemma GuardsProtect(db: Tables, call: Call, f: string)
    requires ReadOnly(db, f) && Guarded(db, call).Some? && !Discards(db, call, f)
    ensures !Touches(db, Guarded(db, call).value, f)
  {
    if IsContainerCall(call) {
      GuardsProtectFromContainers(db, call, f);
    } else if IsDocumentCall(call) {
      GuardsProtectFromDocuments(db, call, f);
    } else {
      hide RowOf, Trim;
    }
  }

  /** The barrier: whatever call is served, what is under a read-only feature stays as it is. */
  lemma ReadOnlyIsKept(db: Tables, call: Call, db': Tables, f: string)
    requires Consistent(db) && Serves(db, call, db') && ReadOnly(db, f) && !Discards(db, call, f)
    ensures Under(db', f) == Under(db, f)
  {
    hide Consistent, Applies, Guarded, Under, Discards, Touches;
    if Guarded(db, call).Some? {
      var op := Guarded(db, call).value;
      var reply :| Applies(db, op, Outcome(db', reply));
      GuardsProtect(db, call, f);
      OperationElsewhere(db, op, Outcome(db', reply), f);
    }
  }

  lemma RowOfUnique(ids: map<string, string>, s: string)
    requires Injective(ids) && s in ids
    ensures RowOf(ids, ids[s]) == Some(s)
  {
  }

  /** Flag-only updates change nothing but the flag. */
  lemma FlagOnlyChangesTheFlag(row: FeatureRow, update: FeatureUpdate, project: ProjectRow, other: ProjectUpdate)
    ensures FeatureFlagOnly(update) ==> FeatureWith(row, update) == row.(archived := update.archived.value)
    ensures FeatureFlagOnly(update) ==> update.projectId.None?
    ensures ProjectFlagOnly(other) ==> ProjectWith(project, other) == project.(archived := other.archived.value)
  {
  }

  /** The feature's place and its own flag, and its project's flag. */
  predicate SamePlace(db: Tables, db': Tables, f: string)
    requires f in db.features
  {
    && f in db'.features && db'.features[f].projectId == db.features[f].projectId
    && (db.features[f].archived ==> db'.features[f].archived)
    && (ProjectArchived(db, db.features[f].projectId) ==> ProjectArchived(db', db.features[f].projectId))
  }

  lemma WithoutStaysReadOnly(
    db: Tables, projects: set<string>, features: set<string>, tasks: set<string>, f: string)
    requires f in db.features && f !in features && db.features[f].projectId !in projects
    ensures SamePlace(db, Without(db, projects, features, tasks), f)
  {
  }

  lemma DeletesKeepPlace(db: Tables, call: Call, db': Tables, f: string)
    requires call.CallDeleteProject? || call.CallDeleteFeature? || call.CallDeleteTask?
    requires Consistent(db) && Serves(db, call, db') && ReadOnly(db, f) && !Discards(db, call, f)
    ensures SamePlace(db, db', f)
  {
    hide Consistent, RowOf, Without, ProjectReferenced, FeatureReferenced, TaskReferenced;
    if db' != db {
      match call
      case CallDeleteProject(id, _) =>
        var p := ProjectOf(db, id).value;
        WithoutStaysReadOnly(db, {p}, FeaturesOf(db, p), TasksOfAll(db, FeaturesOf(db, p)), f);
      case CallDeleteFeature(id, _) =>
        var g := FeatureOf(db, id).value;
        WithoutStaysReadOnly(db, {}, {g}, TasksOf(db, g), f);
      case CallDeleteTask(id, _) =>
        WithoutStaysReadOnly(db, {}, {}, {TaskOf(db, id).value}, f);
    }
  }

  /** A flag-only update of a read-only feature leaves it in its project. */
  lemma UpdateFeatureKeepsPlace(db: Tables, id: string, update: FeatureUpdate, db': Tables, f: string)
    requires Consistent(db) && Serves(db, CallUpdateFeature(id, update), db') && ReadOnly(db, f)
    requires !Unarchives(db, CallUpdateFeature(id, update), f)
    ensures SamePlace(db, db', f)
  {
    hide EdgesSound, PullRequestsSound, DocumentsSound, IssuedBefore, RowOf, Titled, Trim;
    if db' != db && FeatureOf(db, id) == Some(f) {
      assert FeatureFlagOnly(update);
      FlagOnlyChangesTheFlag(db.features[f], update, ProjectRow("", "", "", false), NO_PROJECT_UPDATE);
      RowOfUnique(ProjectIds(db), db.features[f].projectId);
    }
  }

  lemma ContainerCallsKeepPlace(db: Tables, call: Call, db': Tables, f: string)
    requires call.CallCreateProject? || call.CallUpdateProject? || call.CallCreateFeature?
    requires Serves(db, call, db') && ReadOnly(db, f) && !Unarchives(db, call, f)
    ensures SamePlace(db, db', f)
  {
    hide RowOf, Titled, Trim;
  }

  predicate IsContainerCall(call: Call) {
    || call.CallCreateProject? || call.CallUpdateProject? || call.CallDeleteProject?
    || call.CallCreateFeature? || call.CallUpdateFeature? || call.CallDeleteFeature?
  }

  predicate IsContainerOperation(op: Operation) {
    || op.CreateProject? || op.UpdateProject? || op.DeleteProject?
    || op.CreateFeature? || op.UpdateFeature? || op.DeleteFeature?
  }

  lemma LeafOperationsKeepContainers(db: Tables, op: Operation, result: Outcome)
    requires !IsContainerOperation(op) && !op.DeleteTask? && Applies(db, op, result)
    ensures result.db.projects == db.projects && result.db.features == db.features
  {
    hide RowOf, Titled, MayAdd, IsTaken, HasPlan, KeepIf, IsPlanOf;
  }

  lemma LeafCallsKeepPlace(db: Tables, call: Call, db': Tables, f: string)
    requires !IsContainerCall(call) && !call.CallDeleteTask? && Serves(db, call, db') && ReadOnly(db, f)
    ensures SamePlace(db, db', f)
  {
    hide Applies;
    if Guarded(db, call).Some? {
      var op := Guarded(db, call).value;
      var reply :| Applies(db, op, Outcome(db', reply));
      LeafOperationsKeepContainers(db, op, Outcome(db', reply));
    }
  }

  /** A read-only feature stays one until it, or its project, is unarchived or discarded. */
  lemma ReadOnlyLasts(db: Tables, call: Call, db': Tables, f: string)
    requires Consistent(db) && Serves(db, call, db') && ReadOnly(db, f)
    requires !Discards(db, call, f) && !Unarchives(db, call, f)
    ensures ReadOnly(db', f)
  {
    hide Consistent, Serves, Discards, Unarchives;
    if call.CallDeleteProject? || call.CallDeleteFeature? || call.CallDeleteTask? {
      DeletesKeepPlace(db, call, db', f);
    } else if call.CallUpdateFeature? {
      UpdateFeatureKeepsPlace(db, call.id, call.featureUpdate, db', f);
    } else if IsContainerCall(call) {
      ContainerCallsKeepPlace(db, call, db', f);
    } else {
      LeafCallsKeepPlace(db, call, db', f);
    }
  }

  /** Documents of an archived project stay as they are until the project is unarchived or deleted. */
  lemma ArchivedProjectIsKept(db: Tables, call: Call, db': Tables, p: string)
    requires Consistent(db) && Serves(db, call, db') && ProjectArchived(db, p)
    requires !(call.CallDeleteProject? && ProjectOf(db, call.id) == Some(p))
    ensures ProjectDocuments(db', p) == ProjectDocuments(db, p)
  {
    hide Consistent, Applies, Guarded, ProjectDocuments;
    if Guarded(db, call).Some? {
      var op := Guarded(db, call).value;
      var reply :| Applies(db, op, Outcome(db', reply));
      GuardsProtectProject(db, call, p);
      OperationKeepsProject(db, op, Outcome(db', reply), p);
    }
  }

  /** The operation writes or deletes a document of the project itself, or the project. */
  ghost predicate TouchesProject(db: Tables, op: Operation, p: string) {
    match op
    case DeleteProject(id, _) => ProjectOf(db, id) == Some(p)
    case CreateDocument(_, parent, _, _, _) => parent.InProject? && ProjectOf(db, parent.id) == Some(p)
    case UpdateDocument(id, _, _, _) => id in db.documents && db.documents[id].parent == OfProject(p)
    case DeleteDocument(id) => id in db.documents && db.documents[id].parent == OfProject(p)
    case _ => false
  }

  lemma GuardsProtectProject(db: Tables, call: Call, p: string)
    requires ProjectArchived(db, p) && Guarded(db, call).Some?
    requires !(call.CallDeleteProject? && ProjectOf(db, call.id) == Some(p))
    ensures !TouchesProject(db, Guarded(db, call).value, p)
  {
    hide RowOf, Trim;
  }

  predicate IsDocumentOperation(op: Operation) {
    op.CreateDocument? || op.UpdateDocument? || op.DeleteDocument? || op.UpsertPlan? || op.DeletePlan?
  }

  predicate IsDeletion(op: Operation) {
    op.DeleteProject? || op.DeleteFeature? || op.DeleteTask?
  }

  lemma DeletionsKeepProject(db: Tables, op: Operation, result: Outcome, p: string)
    requires IsDeletion(op) && Applies(db, op, result) && !TouchesProject(db, op, p)
    ensures ProjectDocuments(result.db, p) == ProjectDocuments(db, p)
  {
    hide RowOf, KeepIf, ProjectReferenced, FeatureReferenced, TaskReferenced;
  }

  lemma DocumentWritten(db: Tables, k: string, row: DocumentRow, p: string)
    requires row.parent != OfProject(p) && (k in db.documents ==> db.documents[k].parent != OfProject(p))
    ensures ProjectDocuments(db.(documents := db.documents[k := row]), p) == ProjectDocuments(db, p)
  {
  }

  lemma PlanKeepsProject(db: Tables, uuid: string, taskId: string, title: string, body: string, p: string)
    ensures ProjectDocuments(UpsertedPlan(db, uuid, taskId, title, body).db, p) == ProjectDocuments(db, p)
  {
    hide RowOf, ProjectDocuments;
    if TaskOf(db, taskId).Some? && uuid !in db.documents {
      var t := TaskOf(db, taskId).value;
      if exists k :: IsPlanOf(db, k, t) {
        var k :| IsPlanOf(db, k, t) && UpsertedPlan(db, uuid, taskId, title, body).db
                                    == db.(documents := db.documents[k := db.documents[k].(body := body)]);
        DocumentWritten(db, k, db.documents[k].(body := body), p);
      } else {
        DocumentWritten(db, uuid, DocumentRow(OfTask(t), title, body, true), p);
      }
    }
  }

  lemma WrittenDocumentKeepsProject(db: Tables, op: Operation, result: Outcome, p: string)
    requires op.CreateDocument? || op.UpdateDocument?
    requires Applies(db, op, result) && !TouchesProject(db, op, p)
    ensures ProjectDocuments(result.db, p) == ProjectDocuments(db, p)
  {
    hide RowOf, HasPlan, UpsertedPlan, ProjectDocuments;
    match op
    case CreateDocument(uuid, _, _, _, _) =>
      if result.db != db {
        DocumentWritten(db, uuid, result.db.documents[uuid], p);
      }
    case UpdateDocument(id, _, _, _) =>
      if result.db != db {
        DocumentWritten(db, id, result.db.documents[id], p);
      }
  }

  lemma DocumentOperationsKeepProject(db: Tables, op: Operation, result: Outcome, p: string)
    requires IsDocumentOperation(op) && Applies(db, op, result) && !TouchesProject(db, op, p)
    ensures ProjectDocuments(result.db, p) == ProjectDocuments(db, p)
  {
    hide RowOf, HasPlan, UpsertedPlan;
    match op
    case CreateDocument(_, _, _, _, _) => WrittenDocumentKeepsProject(db, op, result, p);
    case UpdateDocument(_, _, _, _) => WrittenDocumentKeepsProject(db, op, result, p);
    case UpsertPlan(uuid, taskId, title, body) => PlanKeepsProject(db, uuid, taskId, title, body, p);
    case _ =>
  }

  lemma OtherOperationsKeepDocuments(db: Tables, op: Operation, result: Outcome)
    requires !IsDocumentOperation(op) && !IsDeletion(op) && Applies(db, op, result)
    ensures result.db.documents == db.documents
  {
    hide RowOf, Titled, MayAdd, IsTaken, KeepIf;
  }

  lemma OperationKeepsProject(db: Tables, op: Operation, result: Outcome, p: string)
    requires Applies(db, op, result) && !TouchesProject(db, op, p)
    ensures ProjectDocuments(result.db, p) == ProjectDocuments(db, p)
  {
    hide Applies, TouchesProject;
    if IsDeletion(op) {
      DeletionsKeepProject(db, op, result, p);
    } else if IsDocumentOperation(op) {
      DocumentOperationsKeepProject(db, op, result, p);
    } else {
      OtherOperationsKeepDocuments(db, op, result);
    }
  }

  // ----- unscoped synchronisation -----

  /** What the index of active features says of an id: the last feature with it decides, and none is not active. */
  function ActiveIn(features: seq<DerivedFeature>, id: string): bool {
    if features == [] then false
    else
      var f := features[|features| - 1];
      if f.feature.id == id then !f.readOnly && !f.displayStatus.CompletedStatus?
      else ActiveIn(features[..|features| - 1], id)
  }

  /** The feature of a task by the index of a snapshot's tasks; an unknown task reads as no feature. */
  function FeatureNamed(tasks: seq<DerivedTask>, id: string): string {
    if tasks == [] then ""
    else if tasks[|tasks| - 1].task.id == id then tasks[|tasks| - 1].task.featureId
    else FeatureNamed(tasks[..|tasks| - 1], id)
  }

  /** The pull requests of active features, in their order. */
  function Eligible(prs: seq<PullRequest>, tasks: seq<DerivedTask>, features: seq<DerivedFeature>)
    : (r: seq<PullRequest>)
    ensures forall v :: v in r <==> v in prs && ActiveIn(features, FeatureNamed(tasks, v.taskId))
  {
    if prs == [] then []
    else
      var v := prs[|prs| - 1];
      Eligible(prs[..|prs| - 1], tasks, features)
      + (if ActiveIn(features, FeatureNamed(tasks, v.taskId)) then [v] else [])
  }

  method IndexFeaturesOfTasks(tasks: seq<DerivedTask>) returns (taskFeature: map<string, string>)
    ensures forall id :: (if id in taskFeature then taskFeature[id] else "") == FeatureNamed(tasks, id)
  {
    taskFeature := map[];
    for i := 0 to |tasks|
      invariant forall id :: (if id in taskFeature then taskFeature[id] else "") == FeatureNamed(tasks[..i], id)
    {
      assert tasks[..i + 1][..i] == tasks[..i];
      taskFeature := taskFeature[tasks[i].task.id := tasks[i].task.featureId];
    }
    assert tasks[..|tasks|] == tasks;
  }

  method IndexActive(features: seq<DerivedFeature>) returns (active: map<string, bool>)
    ensures forall id :: (id in active && active[id]) == ActiveIn(features, id)
  {
    active := map[];
    for i := 0 to |features|
      invariant forall id :: (id in active && active[id]) == ActiveIn(features[..i], id)
    {
      assert features[..i + 1][..i] == features[..i];
      active := active[features[i].feature.id := !features[i].readOnly && !features[i].displayStatus.CompletedStatus?];
    }
    assert features[..|features|] == features;
  }

  /** The part of syncSelected that leaves out read-only and completed features when nothing is named. */
  method SelectEligible(prs: seq<PullRequest>, tasks: seq<DerivedTask>, features: seq<DerivedFeature>)
    returns (eligible: seq<PullRequest>)
    ensures eligible == Eligible(prs, tasks, features)
  {
    var taskFeature := IndexFeaturesOfTasks(tasks);
    var active := IndexActive(features);
    eligible := [];
    for i := 0 to |prs|
      invariant eligible == Eligible(prs[..i], tasks, features)
    {
      assert prs[..i + 1][..i] == prs[..i];
      var feature := if prs[i].taskId in taskFeature then taskFeature[prs[i].taskId] else "";
      if feature in active && active[feature] {
        eligible := eligible + [prs[i]];
      }
    }
    assert prs[..|prs|] == prs;
  }

  /** The pull requests an unscoped synchronisation of these tables takes on. */
  ghost predicate IsSelection(
    db: Tables, s: Snapshot, tasks: seq<DerivedTask>, features: seq<DerivedFeature>, eligible: seq<PullRequest>)
  {
    && IsSnapshot(db, s) && AllDerived(s.tasks, s.dependencies, s.pullRequests, tasks)
    && AllDerivedFeatures(s.projects, s.features, tasks, features)
    && eligible == Eligible(s.pullRequests, tasks, features)
  }

  ghost predicate SelectedFrom(db: Tables, eligible: seq<PullRequest>) {
    exists s, tasks, features :: IsSelection(db, s, tasks, features, eligible)
  }

  /** What syncSelected does before it talks to GitHub, when nothing is named. */
  method SelectUnscoped(db: Tables) returns (s: Snapshot, tasks: seq<DerivedTask>, eligible: seq<PullRequest>)
    ensures IsSnapshot(db, s) && AllDerived(s.tasks, s.dependencies, s.pullRequests, tasks)
    ensures SelectedFrom(db, eligible)
  {
    hide IsSnapshot, AllDerived, AllDerivedFeatures;
    s := TakeSnapshot(db);
    tasks := Derive(s.tasks, s.dependencies, s.pullRequests);
    var features := DeriveFeatures(s.projects, s.features, tasks);
    eligible := SelectEligible(s.pullRequests, tasks, features);
    assert IsSelection(db, s, tasks, features, eligible);
  }

  lemma {:induction false} EligibleDistinct(
    prs: seq<PullRequest>, tasks: seq<DerivedTask>, features: seq<DerivedFeature>)
    requires GitHub.DistinctTasks(prs)
    ensures GitHub.DistinctTasks(Eligible(prs, tasks, features))
  {
    if prs != [] {
      EligibleDistinct(prs[..|prs| - 1], tasks, features);
    }
  }

  /** What is selected has one pull request for each task: what the synchronisation asks of its caller. */
  lemma SelectionIsDistinct(db: Tables, eligible: seq<PullRequest>)
    requires Consistent(db) && SelectedFrom(db, eligible)
    ensures GitHub.DistinctTasks(eligible)
  {
    hide Consistent, IsSnapshot, AllDerived, AllDerivedFeatures;
    var s, tasks, features :| IsSelection(db, s, tasks, features, eligible);
    SnapshotHasOnePullRequestEach(db, s);
    EligibleDistinct(s.pullRequests, tasks, features);
  }

  lemma {:induction false} NamedFeature(tasks: seq<DerivedTask>, i: nat)
    requires i < |tasks| && forall j :: 0 <= j < |tasks| && tasks[j].task.id == tasks[i].task.id ==> j == i
    ensures FeatureNamed(tasks, tasks[i].task.id) == tasks[i].task.featureId
  {
    if i < |tasks| - 1 {
      assert tasks[|tasks| - 1].task.id != tasks[i].task.id;
      NamedFeature(tasks[..|tasks| - 1], i);
    }
  }

  lemma NamesOf(db: Tables)
    requires Consistent(db)
    ensures Injective(ProjectIds(db)) && Injective(FeatureIds(db)) && Injective(TaskPublicIds(db)) && Placed(db)
  {
    hide EdgesSound, PullRequestsSound, DocumentsSound, IssuedBefore;
  }

  /** The listed values of different rows have different names. */
  ghost predicate NamedApart<T>(keys: set<string>, value: string --> T, name: T -> string)
    requires forall x :: x in keys ==> value.requires(x)
  {
    forall x, y :: x in keys && y in keys && name(value(x)) == name(value(y)) ==> x == y
  }

  /** Where a row is listed: nothing else listed has its name. */
  lemma ListedAt<T>(
    keys: set<string>, value: string --> T, rows: seq<string>, listed: seq<T>, name: T -> string, k: string)
    returns (i: nat)
    requires (forall x :: x in keys ==> value.requires(x)) && ListedBy(keys, value, rows, listed) && k in keys
    requires NamedApart(keys, value, name)
    ensures i < |listed| && listed[i] == value(k)
    ensures forall j :: 0 <= j < |listed| && name(listed[j]) == name(listed[i]) ==> j == i
  {
    assert k in Range(rows);
    i :| 0 <= i < |rows| && rows[i] == k;
    forall j | 0 <= j < |listed| && name(listed[j]) == name(listed[i])
      ensures j == i
    {
      assert rows[j] in keys && listed[j] == value(rows[j]);
    }
  }

  lemma TasksNamedApart(db: Tables)
    requires Injective(TaskPublicIds(db))
    ensures NamedApart(db.tasks.Keys, TasksFrom(db), (t: Task) => t.id)
  {
    forall x, y | x in db.tasks && y in db.tasks && TasksFrom(db)(x).id == TasksFrom(db)(y).id
      ensures x == y
    {
      assert x in TaskPublicIds(db) && y in TaskPublicIds(db);
    }
  }

  lemma ProjectsNamedApart(db: Tables)
    requires Injective(ProjectIds(db))
    ensures NamedApart(db.projects.Keys, ProjectsFrom(db), (p: Project) => p.id)
  {
    forall x, y | x in db.projects && y in db.projects && ProjectsFrom(db)(x).id == ProjectsFrom(db)(y).id
      ensures x == y
    {
      assert x in ProjectIds(db) && y in ProjectIds(db);
    }
  }

  lemma ListedFor<T>(keys: set<string>, value: string --> T, rows: seq<string>, listed: seq<T>, i: nat)
    returns (k: string)
    requires (forall x :: x in keys ==> value.requires(x)) && ListedBy(keys, value, rows, listed) && i < |listed|
    ensures i < |rows| && k == rows[i] && k in keys && listed[i] == value(k)
  {
    k := rows[i];
  }

  /** The index of a snapshot's tasks names the feature of every task. */
  lemma TaskIsNamed(db: Tables, s: Snapshot, tasks: seq<DerivedTask>, t: string)
    requires Consistent(db) && IsSnapshot(db, s) && t in db.tasks
    requires AllDerived(s.tasks, s.dependencies, s.pullRequests, tasks)
    ensures db.tasks[t].featureId in db.features
    ensures FeatureNamed(tasks, db.tasks[t].publicId) == db.features[db.tasks[t].featureId].publicId
  {
    hide Consistent, AllDerived, ListedBy, HasPlanFor, FeatureNamed, NamedApart, Injective;
    NamesOf(db);
    TasksNamedApart(db);
    DerivedTaskIs(s, tasks);
    var rows :| ListedBy(db.tasks.Keys, TasksFrom(db), rows, s.tasks);
    hide IsSnapshot, Lists;
    var i := ListedAt(db.tasks.Keys, TasksFrom(db), rows, s.tasks, (t: Task) => t.id, t);
    NamedFeature(tasks, i);
  }

  lemma DerivedTaskIs(s: Snapshot, tasks: seq<DerivedTask>)
    requires AllDerived(s.tasks, s.dependencies, s.pullRequests, tasks)
    ensures |tasks| == |s.tasks| && forall i :: 0 <= i < |tasks| ==> tasks[i].task == s.tasks[i]
  {
    forall i | 0 <= i < |tasks|
      ensures tasks[i].task == s.tasks[i]
    {
      assert IsDerived(s.tasks, s.dependencies, s.pullRequests, s.tasks[i], tasks[i]);
    }
  }

  lemma {:induction false} ArchivedInList(projects: seq<Project>, i: nat)
    requires i < |projects| && forall j :: 0 <= j < |projects| && projects[j].id == projects[i].id ==> j == i
    ensures ArchivedIn(projects, projects[i].id) == projects[i].archived
  {
    if i < |projects| - 1 {
      assert projects[|projects| - 1].id != projects[i].id;
      ArchivedInList(projects[..|projects| - 1], i);
    }
  }

  /** The snapshot's projects say which projects are archived. */
  lemma ProjectIsListed(db: Tables, s: Snapshot, p: string)
    requires Consistent(db) && IsSnapshot(db, s) && p in db.projects
    ensures ArchivedIn(s.projects, db.projects[p].publicId) == ProjectArchived(db, p)
  {
    hide Consistent, ListedBy, ArchivedIn, NamedApart, Injective;
    NamesOf(db);
    ProjectsNamedApart(db);
    var rows :| ListedBy(db.projects.Keys, ProjectsFrom(db), rows, s.projects);
    hide IsSnapshot, Lists;
    var i := ListedAt(db.projects.Keys, ProjectsFrom(db), rows, s.projects, (p: Project) => p.id, p);
    ArchivedInList(s.projects, i);
  }

  lemma {:induction false} ActiveIsListed(features: seq<DerivedFeature>, id: string)
    requires ActiveIn(features, id)
    ensures exists f :: f in features && f.feature.id == id && !f.readOnly && !f.displayStatus.CompletedStatus?
  {
    if features[|features| - 1].feature.id != id {
      ActiveIsListed(features[..|features| - 1], id);
    }
  }

  lemma FeatureIsListed(db: Tables, s: Snapshot, i: nat, f: string)
    requires Consistent(db) && IsSnapshot(db, s) && i < |s.features|
    requires f in db.features && s.features[i].id == db.features[f].publicId
    ensures s.features[i] == FeatureFrom(db, f)
  {
    hide Consistent, ListedBy, Placed, NameIn;
    NamesOf(db);
    var rows :| ListedBy(db.features.Keys, FeaturesFrom(db), rows, s.features);
    hide IsSnapshot, Lists;
    var g := ListedFor(db.features.Keys, FeaturesFrom(db), rows, s.features, i);
    assert s.features[i] == FeatureFrom(db, g);
    assert g in FeatureIds(db) && f in FeatureIds(db) && FeatureIds(db)[g] == FeatureIds(db)[f];
  }

  /** A derived feature is read-only exactly when its row is. */
  lemma DerivedReadOnly(
    db: Tables, s: Snapshot, tasks: seq<DerivedTask>, features: seq<DerivedFeature>, d: DerivedFeature, f: string)
    requires Consistent(db) && IsSnapshot(db, s) && AllDerivedFeatures(s.projects, s.features, tasks, features)
    requires d in features && f in db.features && d.feature.id == db.features[f].publicId
    ensures d.readOnly <==> ReadOnly(db, f)
  {
    hide Consistent, CountedAt, ArchivedIn, IsSnapshot;
    NamesOf(db);
    var i :| 0 <= i < |features| && features[i] == d;
    assert IsDerivedFeature(s.projects, s.features, tasks, i, features[i]);
    FeatureIsListed(db, s, i, f);
    ProjectIsListed(db, s, db.features[f].projectId);
  }

  /** What an unscoped synchronisation may write to. */
  ghost predicate Writable(db: Tables, id: string) {
    TaskOf(db, id).Some? ==> !ReadOnly(db, db.tasks[TaskOf(db, id).value].featureId)
  }

  /** No pull request that is selected is under a read-only feature. */
  lemma EligibleIsWritable(db: Tables, eligible: seq<PullRequest>, v: PullRequest)
    requires Consistent(db) && SelectedFrom(db, eligible) && v in eligible
    ensures Writable(db, v.taskId)
  {
    hide Consistent, IsSnapshot, AllDerived, AllDerivedFeatures, RowOf, ReadOnly;
    if TaskOf(db, v.taskId).Some? {
      var s, tasks, features :| IsSelection(db, s, tasks, features, eligible);
      var t := TaskOf(db, v.taskId).value;
      assert t in TaskPublicIds(db) && t in db.tasks && db.tasks[t].publicId == v.taskId;
      TaskIsNamed(db, s, tasks, t);
      ActiveIsListed(features, FeatureNamed(tasks, v.taskId));
      var d: DerivedFeature :| d in features && d.feature.id == FeatureNamed(tasks, v.taskId) && !d.readOnly;
      DerivedReadOnly(db, s, tasks, features, d, db.tasks[t].featureId);
    }
  }

  /** Everything that is selected is a row of the tables. */
  lemma SelectedIsListed(db: Tables, eligible: seq<PullRequest>, v: PullRequest)
    returns (t: string)
    requires SelectedFrom(db, eligible) && v in eligible
    ensures t in db.pullRequests && PullRequestFrom(db, t) == v
  {
    hide AllDerived, AllDerivedFeatures, PullRequestFrom;
    var s, tasks, features :| IsSelection(db, s, tasks, features, eligible);
    var rows :| ListedBy(db.pullRequests.Keys, PullRequestsFrom(db), rows, s.pullRequests);
    var i :| 0 <= i < |s.pullRequests| && s.pullRequests[i] == v;
    t := rows[i];
  }

  /** The records a synchronisation stores, one after the other. */
  ghost function WriteAll(db: Tables, records: seq<PullRequest>): Tables
    decreases |records|
  {
    if records == [] then db else WriteAll(UpsertedPullRequest(db, records[0]).db, records[1..])
  }

  ghost predicate AllWritable(db: Tables, records: seq<PullRequest>) {
    forall r :: r in records ==> Writable(db, r.taskId)
  }

  lemma WriteOne(db: Tables, value: PullRequest)
    ensures UpsertedPullRequest(db, value).db == db.(pullRequests := UpsertedPullRequest(db, value).db.pullRequests)
  {
    hide RowOf, IsTaken;
  }

  lemma StaysWritable(db: Tables, rows: map<string, PullRequest>, records: seq<PullRequest>)
    requires AllWritable(db, records)
    ensures AllWritable(db.(pullRequests := rows), records)
  {
    hide RowOf;
    var more := db.(pullRequests := rows);
    assert TaskPublicIds(more) == TaskPublicIds(db);
    forall r | r in records
      ensures Writable(more, r.taskId)
    {
      assert Writable(db, r.taskId);
    }
  }

  lemma {:induction false} WritingKeepsReadOnly(db: Tables, records: seq<PullRequest>, f: string)
    requires Consistent(db) && ReadOnly(db, f) && AllWritable(db, records)
    ensures Under(WriteAll(db, records), f) == Under(db, f)
    ensures ReadOnly(WriteAll(db, records), f) && Consistent(WriteAll(db, records))
    decreases |records|
  {
    hide Consistent, Under, UpsertedPullRequest, RowOf;
    if records != [] {
      var next := UpsertedPullRequest(db, records[0]).db;
      WriteOne(db, records[0]);
      UpsertedPullRequestKeeps(db, records[0]);
      assert Writable(db, records[0].taskId);
      assert !Touches(db, UpsertPullRequest(records[0]), f);
      OperationElsewhere(db, UpsertPullRequest(records[0]), UpsertedPullRequest(db, records[0]), f);
      StaysWritable(db, next.pullRequests, records[1..]);
      WritingKeepsReadOnly(next, records[1..], f);
    }
  }

  lemma SelectionIsWritable(db: Tables, eligible: seq<PullRequest>, records: seq<PullRequest>)
    requires Consistent(db) && SelectedFrom(db, eligible) && GitHub.TaskIds(records) <= GitHub.TaskIds(eligible)
    ensures AllWritable(db, records)
  {
    hide Consistent, SelectedFrom, Writable;
    forall r | r in records
      ensures Writable(db, r.taskId)
    {
      assert r.taskId in GitHub.TaskIds(records);
      var v :| v in eligible && v.taskId == r.taskId;
      EligibleIsWritable(db, eligible, v);
    }
  }

  /** Storing records about what was selected changes nothing under a read-only feature. */
  lemma SyncKeepsReadOnly(db: Tables, eligible: seq<PullRequest>, records: seq<PullRequest>, f: string)
    requires Consistent(db) && ReadOnly(db, f) && SelectedFrom(db, eligible)
    requires GitHub.TaskIds(records) <= GitHub.TaskIds(eligible)
    ensures Under(WriteAll(db, records), f) == Under(db, f) && ReadOnly(WriteAll(db, records), f)
  {
    hide Consistent, SelectedFrom, AllWritable, Under, ReadOnly, WriteAll;
    SelectionIsWritable(db, eligible, records);
    WritingKeepsReadOnly(db, records, f);
  }

  // ----- runs -----

  /** A guarded call, or an unscoped synchronisation that stores records about what it selected. */
  datatype Step = ByCall(call: Call) | BySync(eligible: seq<PullRequest>, records: seq<PullRequest>)

  ghost predicate Takes(db: Tables, step: Step, db': Tables) {
    match step
    case ByCall(call) => Serves(db, call, db')
    case BySync(eligible, records) =>
      SelectedFrom(db, eligible) && GitHub.TaskIds(records) <= GitHub.TaskIds(eligible)
      && db' == WriteAll(db, records)
  }

  datatype History = History(steps: seq<Step>, states: seq<Tables>)

  /** Guarded calls and unscoped synchronisations, from a consistent store. */
  ghost predicate IsHistory(h: History) {
    && |h.states| == |h.steps| + 1 && Consistent(h.states[0])
    && forall i {:trigger StepAt(h, i)} :: 0 <= i < |h.steps| ==> StepAt(h, i)
  }

  ghost predicate StepAt(h: History, i: nat)
    requires i < |h.steps| && |h.states| == |h.steps| + 1
  {
    Takes(h.states[i], h.steps[i], h.states[i + 1])
  }

  /** The step lifts the barrier: it unarchives the container or discards it. */
  ghost predicate Lifts(db: Tables, step: Step, f: string) {
    step.ByCall? && (Discards(db, step.call, f) || Unarchives(db, step.call, f))
  }

  ghost predicate KeptUpBetween(h: History, i: nat, j: nat, f: string)
    requires |h.states| == |h.steps| + 1 && j <= |h.steps|
  {
    forall k :: i <= k < j ==> !Lifts(h.states[k], h.steps[k], f)
  }

  lemma ServedStaysConsistent(db: Tables, call: Call, db': Tables)
    requires Consistent(db) && Serves(db, call, db')
    ensures Consistent(db')
  {
    hide Consistent, Applies, Guarded;
    if Guarded(db, call).Some? {
      var op := Guarded(db, call).value;
      var reply :| Applies(db, op, Outcome(db', reply));
      EveryOperationKeeps(db, op, Outcome(db', reply));
    }
  }

  lemma {:induction false} WriteAllKeeps(db: Tables, records: seq<PullRequest>)
    requires Consistent(db)
    ensures Consistent(WriteAll(db, records))
    decreases |records|
  {
    hide Consistent, UpsertedPullRequest;
    if records != [] {
      UpsertedPullRequestKeeps(db, records[0]);
      WriteAllKeeps(UpsertedPullRequest(db, records[0]).db, records[1..]);
    }
  }

  lemma {:induction false} HistoryStaysConsistent(h: History, i: nat)
    requires IsHistory(h) && i < |h.states|
    ensures Consistent(h.states[i])
  {
    hide Consistent, Serves, WriteAll, SelectedFrom;
    if i > 0 {
      HistoryStaysConsistent(h, i - 1);
      assert StepAt(h, i - 1);
      match h.steps[i - 1]
      case ByCall(call) => ServedStaysConsistent(h.states[i - 1], call, h.states[i]);
      case BySync(_, records) => WriteAllKeeps(h.states[i - 1], records);
    }
  }

  lemma OneStepHolds(db: Tables, step: Step, db': Tables, f: string)
    requires Consistent(db) && Takes(db, step, db') && ReadOnly(db, f) && !Lifts(db, step, f)
    ensures Under(db', f) == Under(db, f) && ReadOnly(db', f)
  {
    hide Consistent, Serves, WriteAll, Under, Discards, Unarchives, SelectedFrom;
    match step
    case ByCall(call) =>
      ReadOnlyIsKept(db, call, db', f);
      ReadOnlyLasts(db, call, db', f);
    case BySync(eligible, records) => SyncKeepsReadOnly(db, eligible, records, f);
  }

  /**
    In every history of guarded calls and unscoped synchronisations, what is under a read-only feature stays the
    same until the feature or its project is unarchived or discarded.
   */
  lemma {:induction false} BarrierHolds(h: History, i: nat, j: nat, f: string)
    requires IsHistory(h) && i <= j < |h.states|
    requires ReadOnly(h.states[i], f) && KeptUpBetween(h, i, j, f)
    ensures Under(h.states[j], f) == Under(h.states[i], f) && ReadOnly(h.states[j], f)
    decreases j
  {
    hide Consistent, Under, Takes, Lifts;
    if i < j {
      BarrierHolds(h, i, j - 1, f);
      HistoryStaysConsistent(h, j - 1);
      assert StepAt(h, j - 1) && !Lifts(h.states[j - 1], h.steps[j - 1], f);
      OneStepHolds(h.states[j - 1], h.steps[j - 1], h.states[j], f);
    }
  }

  // ----- the documents of an archived project -----

  /** The call discards the project, or takes its archived flag. */
  ghost predicate LiftsProject(db: Tables, step: Step, p: string) {
    && step.ByCall?
    && ((step.call.CallDeleteProject? && ProjectOf(db, step.call.id) == Some(p))
        || (step.call.CallUpdateProject? && ProjectOf(db, step.call.id) == Some(p)
            && step.call.projectUpdate.archived == Some(false)))
  }

  lemma OperationKeepsProjectFlag(db: Tables, op: Operation, result: Outcome, p: string)
    requires Applies(db, op, result) && ProjectArchived(db, p)
    requires op.DeleteProject? ==> ProjectOf(db, op.id) != Some(p)
    requires op.UpdateProject? && ProjectOf(db, op.id) == Some(p) ==> op.archived
    ensures ProjectArchived(result.db, p)
  {
    hide RowOf, Titled, MayAdd, IsTaken, HasPlan, KeepIf, IsPlanOf, ProjectReferenced, FeatureReferenced,
      TaskReferenced;
  }

  lemma ProjectStaysArchived(db: Tables, call: Call, db': Tables, p: string)
    requires Serves(db, call, db') && ProjectArchived(db, p) && !LiftsProject(db, ByCall(call), p)
    ensures ProjectArchived(db', p)
  {
    hide Applies, RowOf, Trim;
    if Guarded(db, call).Some? {
      var op := Guarded(db, call).value;
      var reply :| Applies(db, op, Outcome(db', reply));
      OperationKeepsProjectFlag(db, op, Outcome(db', reply), p);
    }
  }

  /** A synchronisation writes pull requests and nothing else. */
  lemma {:induction false} WriteAllWritesPullRequests(db: Tables, records: seq<PullRequest>)
    ensures WriteAll(db, records) == db.(pullRequests := WriteAll(db, records).pullRequests)
    decreases |records|
  {
    hide UpsertedPullRequest;
    if records != [] {
      WriteOne(db, records[0]);
      WriteAllWritesPullRequests(UpsertedPullRequest(db, records[0]).db, records[1..]);
    }
  }

  lemma OneStepKeepsProject(db: Tables, step: Step, db': Tables, p: string)
    requires Consistent(db) && Takes(db, step, db') && ProjectArchived(db, p) && !LiftsProject(db, step, p)
    ensures ProjectDocuments(db', p) == ProjectDocuments(db, p) && ProjectArchived(db', p)
  {
    hide Consistent, Serves, WriteAll, SelectedFrom;
    match step
    case ByCall(call) =>
      ArchivedProjectIsKept(db, call, db', p);
      ProjectStaysArchived(db, call, db', p);
    case BySync(_, records) => WriteAllWritesPullRequests(db, records);
  }

  ghost predicate ProjectKeptUpBetween(h: History, i: nat, j: nat, p: string)
    requires |h.states| == |h.steps| + 1 && j <= |h.steps|
  {
    forall k :: i <= k < j ==> !LiftsProject(h.states[k], h.steps[k], p)
  }

  /**
    In every history of guarded calls and unscoped synchronisations, the documents of an archived project stay the
    same until the project is unarchived or discarded.
   */
  lemma {:induction false} ProjectBarrierHolds(h: History, i: nat, j: nat, p: string)
    requires IsHistory(h) && i <= j < |h.states|
    requires ProjectArchived(h.states[i], p) && ProjectKeptUpBetween(h, i, j, p)
    ensures ProjectDocuments(h.states[j], p) == ProjectDocuments(h.states[i], p) && ProjectArchived(h.states[j], p)
    decreases j
  {
    hide Consistent, ProjectDocuments, Takes, LiftsProject;
    if i < j {
      ProjectBarrierHolds(h, i, j - 1, p);
      HistoryStaysConsistent(h, j - 1);
      assert StepAt(h, j - 1) && !LiftsProject(h.states[j - 1], h.steps[j - 1], p);
      OneStepKeepsProject(h.states[j - 1], h.steps[j - 1], h.states[j], p);
    }
  }
}
