/**
  The tables of the store (internal/store/migrations) as values, the operations of internal/store/repository.go
  as functions on them, and what every operation keeps.
 */
module Database {
  import opened Text
  import opened Status
  import opened Digraph

  datatype FeatureStatus = AutoStatus | ActiveStatus | PausedStatus | CompletedStatus | CancelledStatus

  datatype ProjectRow = ProjectRow(publicId: string, title: string, description: string, archived: bool)

  datatype FeatureRow = FeatureRow(
    publicId: string, projectId: string, title: string, description: string, status: FeatureStatus, archived: bool)

  datatype TaskRow = TaskRow(
    publicId: string, featureId: string, title: string, scope: string, status: TaskStatus, assignee: string)

  /** A row refers to its parents by their storage ids, like every foreign key. */
  datatype Parent = OfProject(id: string) | OfFeature(id: string) | OfTask(id: string)

  datatype DocumentRow = DocumentRow(parent: Parent, title: string, body: string, plan: bool)

  /** Tables by storage id; a pull request by the storage id of its task. */
  datatype Tables = Tables(
    projects: map<string, ProjectRow>, features: map<string, FeatureRow>, tasks: map<string, TaskRow>,
    dependencies: seq<Dependency>, pullRequests: map<string, PullRequest>, documents: map<string, DocumentRow>,
    nextProject: nat, nextFeature: nat, nextTask: nat)

  datatype StoreError =
    | MissingRow(entity: string, id: string)
    | ReferencesExist
    | CrossFeature
    | DuplicateDependency
    | WouldCycle(path: seq<string>)
    | DuplicatePullRequest
    | DuplicatePlan
    | Constraint
    | ForeignKey

  // ----- public ids -----

  function ProjectIds(db: Tables): map<string, string> {
    map s | s in db.projects :: db.projects[s].publicId
  }

  function FeatureIds(db: Tables): map<string, string> {
    map s | s in db.features :: db.features[s].publicId
  }

  function TaskPublicIds(db: Tables): map<string, string> {
    map s | s in db.tasks :: db.tasks[s].publicId
  }

  function PublicId(prefix: string, n: nat): string {
    prefix + Decimal(n)
  }

  ghost predicate IssuedBefore(id: string, prefix: string, next: nat) {
    exists n: nat :: n < next && id == PublicId(prefix, n)
  }

  /** Public ids come from the sequence and belong to one row each. */
  ghost predicate Issued(ids: map<string, string>, prefix: string, next: nat) {
    && (forall s :: s in ids ==> IssuedBefore(ids[s], prefix, next))
    && Injective(ids)
  }

  ghost predicate Injective(ids: map<string, string>) {
    forall s, t :: s in ids && t in ids && ids[s] == ids[t] ==> s == t
  }

  lemma PublicIdInjective(prefix: string, m: nat, n: nat)
    requires PublicId(prefix, m) == PublicId(prefix, n)
    ensures m == n
  {
    assert PublicId(prefix, m)[|prefix|..] == Decimal(m);
    assert PublicId(prefix, n)[|prefix|..] == Decimal(n);
    DecimalInjective(m, n);
  }

  /** The next number of a sequence has never been given out. */
  lemma NextIsNew(prefix: string, next: nat)
    ensures !IssuedBefore(PublicId(prefix, next), prefix, next)
  {
    if IssuedBefore(PublicId(prefix, next), prefix, next) {
      var n: nat :| n < next && PublicId(prefix, next) == PublicId(prefix, n);
      PublicIdInjective(prefix, next, n);
    }
  }

  lemma IssueNext(ids: map<string, string>, prefix: string, next: nat, s: string)
    requires Issued(ids, prefix, next) && s !in ids
    ensures Issued(ids[s := PublicId(prefix, next)], prefix, next + 1)
    ensures forall t :: t in ids ==> ids[t] != PublicId(prefix, next)
  {
    NextIsNew(prefix, next);
    var more := ids[s := PublicId(prefix, next)];
    forall t | t in more
      ensures IssuedBefore(more[t], prefix, next + 1)
    {
      if t != s {
        assert IssuedBefore(ids[t], prefix, next);
        var n: nat :| n < next && ids[t] == PublicId(prefix, n);
        assert n < next + 1;
      }
    }
    forall t | t in ids
      ensures ids[t] != PublicId(prefix, next)
    {
      assert IssuedBefore(ids[t], prefix, next);
    }
  }

  lemma IssuedPart(ids: map<string, string>, part: map<string, string>, prefix: string, next: nat)
    requires Issued(ids, prefix, next)
    requires forall s :: s in part ==> s in ids && part[s] == ids[s]
    ensures Issued(part, prefix, next)
  {
    forall s | s in part
      ensures IssuedBefore(part[s], prefix, next)
    {
      assert IssuedBefore(ids[s], prefix, next);
    }
  }

  /** The row with a public id. */
  ghost function RowOf(ids: map<string, string>, id: string): (r: Option<string>)
    ensures r.Some? ==> r.value in ids && ids[r.value] == id
    ensures r.None? ==> forall s :: s in ids ==> ids[s] != id
  {
    if exists s :: s in ids && ids[s] == id then
      var s :| s in ids && ids[s] == id;
      Some(s)
    else None
  }

  ghost function ProjectOf(db: Tables, id: string): Option<string> {
    RowOf(ProjectIds(db), id)
  }

  ghost function FeatureOf(db: Tables, id: string): Option<string> {
    RowOf(FeatureIds(db), id)
  }

  ghost function TaskOf(db: Tables, id: string): Option<string> {
    RowOf(TaskPublicIds(db), id)
  }

  // ----- what every run keeps -----

  ghost predicate IdsIssued(db: Tables) {
    && Issued(ProjectIds(db), "P-", db.nextProject)
    && Issued(FeatureIds(db), "F-", db.nextFeature)
    && Issued(TaskPublicIds(db), "T-", db.nextTask)
  }

  /** Every feature has its project and every task its feature. */
  ghost predicate Placed(db: Tables) {
    && (forall f :: f in db.features ==> db.features[f].projectId in db.projects)
    && (forall t :: t in db.tasks ==> db.tasks[t].featureId in db.features)
  }

  predicate InsideFeature(db: Tables, d: Dependency) {
    && d.blocker in db.tasks && d.blocked in db.tasks
    && db.tasks[d.blocker].featureId == db.tasks[d.blocked].featureId
  }

  /** The whole relation: stored tasks, one feature per edge, no repetition, no cycle. */
  ghost predicate EdgesSound(db: Tables) {
    && (forall d :: d in db.dependencies ==> InsideFeature(db, d))
    && Distinct(db.dependencies)
    && Acyclic(db.dependencies)
  }

  predicate SamePullRequest(a: PullRequest, b: PullRequest) {
    && Lower(a.host) == Lower(b.host) && Lower(a.owner) == Lower(b.owner)
    && Lower(a.repository) == Lower(b.repository) && a.number == b.number
  }

  /** Pull requests belong to stored tasks, name a host and a number, and no two tasks share one. */
  ghost predicate PullRequestsSound(db: Tables) {
    && db.pullRequests.Keys <= db.tasks.Keys
    && (forall t :: t in db.pullRequests ==>
          db.pullRequests[t].taskId == t && db.pullRequests[t].host != "" && db.pullRequests[t].number > 0)
    && (forall t, u ::
          (t in db.pullRequests && u in db.pullRequests && SamePullRequest(db.pullRequests[t], db.pullRequests[u]))
          ==> t == u)
  }

  predicate HasParent(db: Tables, parent: Parent) {
    match parent
    case OfProject(p) => p in db.projects
    case OfFeature(f) => f in db.features
    case OfTask(t) => t in db.tasks
  }

  /** Documents have their parent; plans belong to tasks, one for each. */
  ghost predicate DocumentsSound(db: Tables) {
    && (forall k :: k in db.documents ==> HasParent(db, db.documents[k].parent))
    && (forall k :: k in db.documents && db.documents[k].plan ==> db.documents[k].parent.OfTask?)
    && (forall k, l ::
          (k in db.documents && l in db.documents && db.documents[k].plan && db.documents[l].plan
           && db.documents[k].parent == db.documents[l].parent)
          ==> k == l)
  }

  ghost predicate Consistent(db: Tables) {
    IdsIssued(db) && Placed(db) && EdgesSound(db) && PullRequestsSound(db) && DocumentsSound(db)
  }

  const EMPTY_TABLES: Tables := Tables(map[], map[], map[], [], map[], map[], 1, 1, 1)

  lemma EmptyIsConsistent()
    ensures Consistent(EMPTY_TABLES)
  {
    OrderedMeansAcyclic([], []);
  }

  // ----- removing rows -----

  function KeepIf(deps: seq<Dependency>, keep: Dependency -> bool): (r: seq<Dependency>)
    ensures forall d :: d in r <==> d in deps && keep(d)
    ensures |r| <= |deps|
  {
    if deps == [] then []
    else (if keep(deps[0]) then [deps[0]] else []) + KeepIf(deps[1..], keep)
  }

  lemma {:induction false} KeepIfDistinct(deps: seq<Dependency>, keep: Dependency -> bool)
    requires Distinct(deps)
    ensures Distinct(KeepIf(deps, keep))
  {
    if deps != [] {
      KeepIfDistinct(deps[1..], keep);
      assert deps[0] !in deps[1..];
    }
  }

  lemma {:induction false} KeepIfSame(deps: seq<Dependency>, keep: Dependency -> bool, other: Dependency -> bool)
    requires forall d :: d in deps ==> keep(d) == other(d)
    ensures KeepIf(deps, keep) == KeepIf(deps, other)
  {
    if deps != [] {
      KeepIfSame(deps[1..], keep, other);
    }
  }

  lemma {:induction false} KeepIfAll(deps: seq<Dependency>, keep: Dependency -> bool)
    requires forall d :: d in deps ==> keep(d)
    ensures KeepIf(deps, keep) == deps
  {
    if deps != [] {
      KeepIfAll(deps[1..], keep);
    }
  }

  lemma {:induction false} KeepIfTwice(
    deps: seq<Dependency>, keep: Dependency -> bool, other: Dependency -> bool, both: Dependency -> bool)
    requires forall d :: both(d) == (keep(d) && other(d))
    ensures KeepIf(KeepIf(deps, keep), other) == KeepIf(deps, both)
  {
    if deps != [] {
      KeepIfTwice(deps[1..], keep, other, both);
      var rest := KeepIf(deps[1..], keep);
      if keep(deps[0]) {
        assert ([deps[0]] + rest)[1..] == rest;
      } else {
        assert [] + rest == rest;
      }
    }
  }

  lemma KeepsAcyclic(deps: seq<Dependency>, part: seq<Dependency>)
    requires Acyclic(deps) && forall d :: d in part ==> d in deps
    ensures Acyclic(part)
  {
    forall p | IsWalk(part, p) && |p| >= 2
      ensures p[0] != p[|p| - 1]
    {
      WalkMono(part, deps, p);
    }
  }

  function Untouched(tasks: set<string>): Dependency -> bool {
    (d: Dependency) => d.blocker !in tasks && d.blocked !in tasks
  }

  /** The document hangs on one of the removed rows. */
  predicate HangsOn(parent: Parent, projects: set<string>, features: set<string>, tasks: set<string>) {
    match parent
    case OfProject(p) => p in projects
    case OfFeature(f) => f in features
    case OfTask(t) => t in tasks
  }

  function DocumentsWithout(
    documents: map<string, DocumentRow>, projects: set<string>, features: set<string>, tasks: set<string>)
    : map<string, DocumentRow>
  {
    map k | k in documents && !HangsOn(documents[k].parent, projects, features, tasks) :: documents[k]
  }

  /** The tables without these rows and without everything that refers to them. */
  function Without(db: Tables, projects: set<string>, features: set<string>, tasks: set<string>): Tables {
    db.(projects := db.projects - projects, features := db.features - features, tasks := db.tasks - tasks,
      dependencies := KeepIf(db.dependencies, Untouched(tasks)), pullRequests := db.pullRequests - tasks,
      documents := DocumentsWithout(db.documents, projects, features, tasks))
  }

  /** Removed projects take their features with them, and removed features their tasks. */
  predicate TakesAll(db: Tables, projects: set<string>, features: set<string>, tasks: set<string>) {
    && (forall f :: f in db.features && db.features[f].projectId in projects ==> f in features)
    && (forall t :: t in db.tasks && db.tasks[t].featureId in features ==> t in tasks)
  }

  lemma WithoutIds(db: Tables, projects: set<string>, features: set<string>, tasks: set<string>)
    requires IdsIssued(db)
    ensures IdsIssued(Without(db, projects, features, tasks))
  {
    var less := Without(db, projects, features, tasks);
    IssuedPart(ProjectIds(db), ProjectIds(less), "P-", db.nextProject);
    IssuedPart(FeatureIds(db), FeatureIds(less), "F-", db.nextFeature);
    IssuedPart(TaskPublicIds(db), TaskPublicIds(less), "T-", db.nextTask);
  }

  lemma WithoutEdges(db: Tables, projects: set<string>, features: set<string>, tasks: set<string>)
    requires EdgesSound(db)
    ensures EdgesSound(Without(db, projects, features, tasks))
  {
    KeepIfDistinct(db.dependencies, Untouched(tasks));
    KeepsAcyclic(db.dependencies, KeepIf(db.dependencies, Untouched(tasks)));
  }

  /** Cascading deletion leaves nothing that refers to what is gone. */
  lemma WithoutKeepsConsistent(db: Tables, projects: set<string>, features: set<string>, tasks: set<string>)
    requires Consistent(db) && TakesAll(db, projects, features, tasks)
    ensures Consistent(Without(db, projects, features, tasks))
  {
    WithoutIds(db, projects, features, tasks);
    WithoutEdges(db, projects, features, tasks);
  }

  /** Removing in two steps is removing at once. */
  lemma WithoutTwice(
    db: Tables, projects: set<string>, features: set<string>, tasks: set<string>,
    projects': set<string>, features': set<string>, tasks': set<string>)
    ensures Without(Without(db, projects, features, tasks), projects', features', tasks')
         == Without(db, projects + projects', features + features', tasks + tasks')
  {
    KeepIfTwice(db.dependencies, Untouched(tasks), Untouched(tasks'), Untouched(tasks + tasks'));
    var a := Without(Without(db, projects, features, tasks), projects', features', tasks');
    var b := Without(db, projects + projects', features + features', tasks + tasks');
    assert a.documents == b.documents;
    assert a.projects == b.projects && a.features == b.features && a.tasks == b.tasks;
    assert a.pullRequests == b.pullRequests;
  }

  function TasksOf(db: Tables, feature: string): (r: set<string>) {
    set t | t in db.tasks && db.tasks[t].featureId == feature
  }

  function FeaturesOf(db: Tables, project: string): (r: set<string>) {
    set f | f in db.features && db.features[f].projectId == project
  }

  function TasksOfAll(db: Tables, features: set<string>): (r: set<string>) {
    set t | t in db.tasks && db.tasks[t].featureId in features
  }

  // ----- references, as the foreign keys see them -----

  predicate TaskReferenced(db: Tables, t: string) {
    || (exists d :: d in db.dependencies && (d.blocker == t || d.blocked == t))
    || t in db.pullRequests
    || (exists k :: k in db.documents && db.documents[k].parent == OfTask(t))
  }

  predicate FeatureReferenced(db: Tables, f: string) {
    || (exists t :: t in db.tasks && db.tasks[t].featureId == f)
    || (exists k :: k in db.documents && db.documents[k].parent == OfFeature(f))
  }

  predicate ProjectReferenced(db: Tables, p: string) {
    || (exists f :: f in db.features && db.features[f].projectId == p)
    || (exists k :: k in db.documents && db.documents[k].parent == OfProject(p))
  }

  // ----- the dependency graph inside a feature and as a whole -----

  /** The rows ListDependenciesByFeature yields: those whose blocker is in the feature. */
  function EdgesOf(db: Tables, feature: string): seq<Dependency> {
    KeepIf(db.dependencies, BlockerIn(TasksOf(db, feature)))
  }

  function BlockerIn(tasks: set<string>): Dependency -> bool {
    (d: Dependency) => d.blocker in tasks
  }

  /** Edges never leave a feature, so a walk that starts in it uses its rows only. */
  lemma {:induction false} WalkStaysInFeature(db: Tables, feature: string, p: seq<string>)
    requires EdgesSound(db) && IsWalk(db.dependencies, p)
    requires p[0] in db.tasks && db.tasks[p[0]].featureId == feature
    ensures IsWalk(EdgesOf(db, feature), p)
    ensures forall i :: 0 <= i < |p| ==> p[i] in TasksOf(db, feature)
    decreases |p|
  {
    if |p| >= 2 {
      var last := |p| - 1;
      WalkPart(db.dependencies, p, 0, last);
      assert p[0..last] == p[..last];
      WalkStaysInFeature(db, feature, p[..last]);
      assert p[..last][last - 1] == p[last - 1];
      assert Dependency(p[last - 1], p[last]) in db.dependencies;
      assert Dependency(p[last - 1], p[last]) in EdgesOf(db, feature);
      forall i | 0 <= i < |p| - 1
        ensures Dependency(p[i], p[i + 1]) in EdgesOf(db, feature)
      {
        if i < last - 1 {
          assert p[..last][i] == p[i] && p[..last][i + 1] == p[i + 1];
        }
      }
      forall i | 0 <= i < |p|
        ensures p[i] in TasksOf(db, feature)
      {
        if i < last {
          assert p[..last][i] == p[i];
        }
      }
    }
  }

  lemma FeatureDecidesReach(db: Tables, feature: string, a: string, b: string)
    requires EdgesSound(db) && a in db.tasks && db.tasks[a].featureId == feature
    ensures Reaches(db.dependencies, a, b) <==> Reaches(EdgesOf(db, feature), a, b)
  {
    if Reaches(db.dependencies, a, b) {
      var p :| WalkBetween(db.dependencies, p, a, b);
      WalkStaysInFeature(db, feature, p);
      assert WalkBetween(EdgesOf(db, feature), p, a, b);
    }
    if Reaches(EdgesOf(db, feature), a, b) {
      var p :| WalkBetween(EdgesOf(db, feature), p, a, b);
      WalkMono(EdgesOf(db, feature), db.dependencies, p);
      assert WalkBetween(db.dependencies, p, a, b);
    }
  }

  /** domainDependency: the edge between public ids; a missing id reads as empty. */
  function Renamed(d: Dependency, ids: map<string, string>): Dependency {
    Dependency(
      if d.blocker in ids then ids[d.blocker] else "", if d.blocked in ids then ids[d.blocked] else "")
  }

  function RenamedAll(deps: seq<Dependency>, ids: map<string, string>): (r: seq<Dependency>)
    ensures |r| == |deps| && forall i :: 0 <= i < |deps| ==> r[i] == Renamed(deps[i], ids)
  {
    seq(|deps|, i requires 0 <= i < |deps| => Renamed(deps[i], ids))
  }

  function RenamedWalk(p: seq<string>, ids: map<string, string>): (r: seq<string>)
    requires forall i :: 0 <= i < |p| ==> p[i] in ids
    ensures |r| == |p| && forall i :: 0 <= i < |p| ==> r[i] == ids[p[i]]
  {
    seq(|p|, i requires 0 <= i < |p| => ids[p[i]])
  }

  ghost predicate EndsIn(deps: seq<Dependency>, ids: map<string, string>) {
    forall d :: d in deps ==> d.blocker in ids && d.blocked in ids
  }

  lemma WalkForward(deps: seq<Dependency>, ids: map<string, string>, p: seq<string>)
    requires EndsIn(deps, ids) && IsWalk(deps, p) && forall i :: 0 <= i < |p| ==> p[i] in ids
    ensures IsWalk(RenamedAll(deps, ids), RenamedWalk(p, ids))
  {
    var q := RenamedWalk(p, ids);
    forall i | 0 <= i < |q| - 1
      ensures Dependency(q[i], q[i + 1]) in RenamedAll(deps, ids)
    {
      var d := Dependency(p[i], p[i + 1]);
      var k :| 0 <= k < |deps| && deps[k] == d;
      assert RenamedAll(deps, ids)[k] == Dependency(q[i], q[i + 1]);
    }
  }

  /** The second walk gives the names of the rows on the first. */
  ghost predicate Names(ids: map<string, string>, p: seq<string>, q: seq<string>) {
    |p| == |q| && forall i :: 0 <= i < |p| ==> p[i] in ids && ids[p[i]] == q[i]
  }

  /** A walk between public ids is one between rows, because public ids name one row each. */
  lemma {:induction false} WalkBackward(
    deps: seq<Dependency>, ids: map<string, string>, q: seq<string>, a: string)
    returns (p: seq<string>)
    requires EndsIn(deps, ids) && Injective(ids) && IsWalk(RenamedAll(deps, ids), q)
    requires a in ids && ids[a] == q[0]
    ensures IsWalk(deps, p) && |p| == |q| && p[0] == a && Names(ids, p, q)
    ensures p[|p| - 1] in ids && ids[p[|p| - 1]] == q[|q| - 1]
    decreases |q|
  {
    if |q| == 1 {
      return [a];
    }
    var last := |q| - 1;
    WalkPart(RenamedAll(deps, ids), q, 0, last);
    assert q[0..last] == q[..last];
    p := WalkBackward(deps, ids, q[..last], a);
    assert Dependency(q[last - 1], q[last]) in RenamedAll(deps, ids);
    var k :| 0 <= k < |deps| && RenamedAll(deps, ids)[k] == Dependency(q[last - 1], q[last]);
    assert deps[k] in deps && ids[deps[k].blocker] == q[last - 1];
    assert deps[k].blocker == p[|p| - 1];
    var longer := p + [deps[k].blocked];
    forall i | 0 <= i < |longer| - 1
      ensures Dependency(longer[i], longer[i + 1]) in deps
    {
      if i < |p| - 1 {
        assert longer[i] == p[i] && longer[i + 1] == p[i + 1];
      }
    }
    p := longer;
  }

  lemma RenamingKeepsReach(deps: seq<Dependency>, ids: map<string, string>, a: string, b: string)
    requires EndsIn(deps, ids) && Injective(ids) && a in ids && b in ids
    ensures Reaches(deps, a, b) <==> Reaches(RenamedAll(deps, ids), ids[a], ids[b])
  {
    hide Names;
    if Reaches(deps, a, b) {
      var p :| WalkBetween(deps, p, a, b);
      WalkInside(deps, ids, p);
      WalkForward(deps, ids, p);
      assert WalkBetween(RenamedAll(deps, ids), RenamedWalk(p, ids), ids[a], ids[b]);
    }
    if Reaches(RenamedAll(deps, ids), ids[a], ids[b]) {
      var q :| WalkBetween(RenamedAll(deps, ids), q, ids[a], ids[b]);
      var p := WalkBackward(deps, ids, q, a);
      assert WalkBetween(deps, p, a, b);
    }
  }

  lemma WalkInside(deps: seq<Dependency>, ids: map<string, string>, p: seq<string>)
    requires EndsIn(deps, ids) && IsWalk(deps, p) && p[0] in ids
    ensures forall i :: 0 <= i < |p| ==> p[i] in ids
  {
    forall i | 0 <= i < |p|
      ensures p[i] in ids
    {
      if i > 0 {
        assert Dependency(p[i - 1], p[i - 1 + 1]) in deps;
      }
    }
  }

  /** The edges of one feature end in its tasks, whose public ids name them. */
  lemma FeatureEnds(db: Tables, feature: string)
    requires EdgesSound(db) && Injective(TaskPublicIds(db))
    ensures EndsIn(EdgesOf(db, feature), FeatureTaskIds(db, feature)) && Injective(FeatureTaskIds(db, feature))
    ensures forall d :: d in EdgesOf(db, feature) ==> d in db.dependencies
  {
    var ids := FeatureTaskIds(db, feature);
    forall d | d in EdgesOf(db, feature)
      ensures d.blocker in ids && d.blocked in ids
    {
      assert InsideFeature(db, d);
    }
    assert forall s :: s in ids ==> ids[s] == TaskPublicIds(db)[s];
  }

  /** The check that sees only the blocker's feature, in public ids, decides for the whole stored relation. */
  lemma LocalCheckIsGlobal(db: Tables, blocker: string, blocked: string)
    requires EdgesSound(db) && Injective(TaskPublicIds(db))
    requires blocker in db.tasks && blocked in TasksOf(db, db.tasks[blocker].featureId)
    ensures var feature := db.tasks[blocker].featureId;
            var ids := FeatureTaskIds(db, feature);
            blocker in ids && blocked in ids
            && (Reaches(db.dependencies, blocked, blocker)
                <==> Reaches(RenamedAll(EdgesOf(db, feature), ids), ids[blocked], ids[blocker]))
  {
    var feature := db.tasks[blocker].featureId;
    var ids := FeatureTaskIds(db, feature);
    FeatureEnds(db, feature);
    FeatureDecidesReach(db, feature, blocked, blocker);
    RenamingKeepsReach(EdgesOf(db, feature), ids, blocked, blocker);
  }

  /** publicTaskIDs of the tasks of one feature. */
  function FeatureTaskIds(db: Tables, feature: string): map<string, string> {
    map t | t in db.tasks && db.tasks[t].featureId == feature :: db.tasks[t].publicId
  }
}
