/**
  How the credentials of a synchronisation are used and which of them are remembered: one visit for each repository,
  or for each host whose repositories internal/app/github_sync.go takes together.
 */
module Visiting {
  import opened Status
  import opened GitHub
  import opened FetchBatch
  import opened Resolving
  import opened Outcomes

  // ----- the order of the credentials -----

  function CandidatesOf(asked: seq<Answer>): (r: seq<Candidate>)
    ensures |r| == |asked| && forall i :: 0 <= i < |r| ==> r[i] == asked[i].candidate
  {
    seq(|asked|, i requires 0 <= i < |asked| => asked[i].candidate)
  }

  /** The first candidate with this id, if there is one. */
  function WithId(candidates: seq<Candidate>, id: string): (r: seq<Candidate>)
    ensures r != [] ==> r == [r[0]] && r[0] in candidates && r[0].id == id
    ensures r == [] <==> forall c :: c in candidates ==> c.id != id
  {
    if candidates == [] then []
    else if candidates[0].id == id then [candidates[0]]
    else WithId(candidates[1..], id)
  }

  /** The credential that the look-up at a call names for the repository, if it still exists. */
  function RememberedFor(world: World, key: RepositoryKey, t: nat): seq<Candidate> {
    if !world.hasCache then []
    else
      match world.cached(t, key)
      case Cached(authId) => WithId(world.candidates(key.host), authId)
      case _ => []
  }

  /** The calls of the fetch begin with this one. */
  ghost predicate FetchedSince(world: World, a: Answer, t: nat) {
    && a.fetched
    && exists past: nat :: past <= a.past
         && FetchedFrom(Calls(world.transport, t, past), a.values, a.batch, a.failure)
  }

  /** Once the credential is open, nothing precedes the fetch. */
  ghost predicate Straight(world: World, a: Answer) {
    OpenOutcome(world, a.first, a.candidate, a.before).None? ==> FetchedSince(world, a, a.first + 1)
  }

  /** Once the credential is open, the repository is looked for, and nothing is fetched unless it is seen. */
  ghost predicate ProbedFirst(world: World, a: Answer) {
    a.values != [] && OpenOutcome(world, a.first, a.candidate, a.before).None? ==>
      match world.probe(a.first + 1, a.values[0].owner, a.values[0].repository)
      case Some(f) => !a.fetched && a.failure == Some(f)
      case None => FetchedSince(world, a, a.first + 2)
  }

  /** Only remaining values are fetched again. */
  ghost predicate AsksSuffixes(values: seq<PullRequest>, asked: seq<Answer>) {
    forall i :: 0 <= i < |asked| ==> IsSuffix(values, asked[i].values)
  }

  ghost predicate IsSuffix(values: seq<PullRequest>, part: seq<PullRequest>) {
    exists k: nat :: k <= |values| && part == values[k..]
  }

  /** The first n attempts are made without a probe, all others behind one. */
  ghost predicate ProbesBehind(world: World, n: nat, asked: seq<Answer>) {
    forall i :: 0 <= i < |asked| ==> if i < n then Straight(world, asked[i]) else ProbedFirst(world, asked[i])
  }

  /** The credentials of a host go in their order behind the remembered one, each for remaining work only. */
  ghost predicate UsesCredentials(
    world: World, candidates: seq<Candidate>, first: seq<Candidate>, values: seq<PullRequest>, asked: seq<Answer>)
  {
    && first <= CandidatesOf(asked) <= first + candidates
    && AsksSuffixes(values, asked) && ProbesBehind(world, |first|, asked)
  }

  /** The credential that concluded the repository is the one that is remembered for it. */
  ghost predicate Remembers(candidates: seq<Candidate>, asked: seq<Answer>, authId: string) {
    authId != "" ==>
      && asked != [] && asked[|asked| - 1].failure.None?
      && asked[|asked| - 1].candidate in candidates && asked[|asked| - 1].candidate.id == authId
  }

  // ----- what is remembered -----

  /** A credential that refreshed a pull request is remembered for its repository. */
  function CreditedBy(values: seq<PullRequest>, batch: Batch, authId: string): seq<CacheEntry> {
    if values == [] then []
    else
      var last := |values| - 1;
      CreditedBy(values[..last], batch, authId) + CreditFor(values[last], batch, authId)
  }

  function CreditFor(v: PullRequest, batch: Batch, authId: string): seq<CacheEntry> {
    if v.taskId in Clean(batch) then [CacheEntry(GroupKey(v), authId)] else []
  }

  /** What is written to the cache, if there is one. */
  function Credits(world: World, values: seq<PullRequest>, batch: Batch, authId: string): seq<CacheEntry> {
    if world.hasCache then CreditedBy(values, batch, authId) else []
  }

  function CreditedAll(world: World, asked: seq<Answer>): seq<CacheEntry> {
    if asked == [] then []
    else
      var last := asked[|asked| - 1];
      CreditedAll(world, asked[..|asked| - 1]) + Credits(world, last.values, last.batch, last.candidate.id)
  }

  lemma NoValuesCredited(world: World, batch: Batch, authId: string)
    ensures Credits(world, [], batch, authId) == []
  {
  }

  lemma CreditedNext(world: World, values: seq<PullRequest>, i: nat, batch: Batch, authId: string)
    requires i < |values|
    ensures Credits(world, values[..i + 1], batch, authId)
         == Credits(world, values[..i], batch, authId)
            + (if world.hasCache then CreditFor(values[i], batch, authId) else [])
  {
    assert values[..i + 1][..i] == values[..i];
  }

  lemma {:induction false} NothingCredited(values: seq<PullRequest>, authId: string)
    ensures CreditedBy(values, EMPTY_BATCH, authId) == []
  {
    if values != [] {
      NothingCredited(values[..|values| - 1], authId);
    }
  }

  lemma NothingProbed(world: World)
    ensures ProbesBehind(world, 0, []) && CreditedAll(world, []) == []
  {
  }

  lemma StraightMore(world: World, asked: seq<Answer>, a: Answer)
    requires ProbesBehind(world, |asked|, asked) && Straight(world, a)
    ensures ProbesBehind(world, |asked + [a]|, asked + [a])
  {
    hide Straight, ProbedFirst;
  }

  lemma CreditedMore(world: World, asked: seq<Answer>, a: Answer)
    ensures CreditedAll(world, asked + [a])
         == CreditedAll(world, asked) + Credits(world, a.values, a.batch, a.candidate.id)
  {
    assert (asked + [a])[..|asked|] == asked;
  }

  // ----- visits -----

  /** The repositories of one visit, its first call, the attempts it made and the credentials it remembered. */
  datatype Visit = Visit(keys: seq<RepositoryKey>, first: nat, asked: seq<Answer>, written: seq<CacheEntry>)

  /** One repository by itself, or several of one host together and without probes. */
  ghost predicate GoesInOrder(world: World, selected: seq<PullRequest>, v: Visit) {
    && v.keys != []
    && var candidates := world.candidates(v.keys[0].host);
       if |v.keys| == 1 then
         UsesCredentials(
           world, candidates, RememberedFor(world, v.keys[0], v.first), OfKey(selected, v.keys[0]), v.asked)
       else CandidatesOf(v.asked) <= candidates && ProbesBehind(world, |v.asked|, v.asked)
  }

  /** What a visit leaves in the cache. */
  ghost predicate Keeps(world: World, v: Visit) {
    if |v.keys| == 1 then
      v.written != [] ==>
        && world.hasCache && v.written == [CacheEntry(v.keys[0], v.written[0].authId)]
        && v.written[0].authId != "" && Remembers(world.candidates(v.keys[0].host), v.asked, v.written[0].authId)
    else v.written == CreditedAll(world, v.asked)
  }

  function KeysIn(visits: seq<Visit>): seq<RepositoryKey> {
    if visits == [] then [] else KeysIn(visits[..|visits| - 1]) + visits[|visits| - 1].keys
  }

  function AskedIn(visits: seq<Visit>): seq<Answer> {
    if visits == [] then [] else AskedIn(visits[..|visits| - 1]) + visits[|visits| - 1].asked
  }

  function WrittenIn(visits: seq<Visit>): seq<CacheEntry> {
    if visits == [] then [] else WrittenIn(visits[..|visits| - 1]) + visits[|visits| - 1].written
  }

  /** The attempts of a synchronisation are those of its visits, and each visit uses the credentials in order. */
  ghost predicate Visited(
    world: World, selected: seq<PullRequest>, first: nat, past: nat, visits: seq<Visit>, asked: seq<Answer>)
  {
    asked == AskedIn(visits)
    && forall v :: v in visits ==> first <= v.first <= past && GoesInOrder(world, selected, v)
  }

  /** Every repository of the order is visited once, and what was remembered is what the visits have earned. */
  ghost predicate Earned(
    world: World, visits: seq<Visit>, order: seq<RepositoryKey>, before: seq<CacheEntry>, after: seq<CacheEntry>)
  {
    order == KeysIn(visits) && after == before + WrittenIn(visits) && forall v :: v in visits ==> Keeps(world, v)
  }

  lemma {:induction false} VisitsJoin(a: seq<Visit>, b: seq<Visit>)
    ensures KeysIn(a + b) == KeysIn(a) + KeysIn(b) && AskedIn(a + b) == AskedIn(a) + AskedIn(b)
    ensures WrittenIn(a + b) == WrittenIn(a) + WrittenIn(b)
  {
    if b == [] {
      assert a + b == a;
    } else {
      var last := |b| - 1;
      VisitsJoin(a, b[..last]);
      LastOfJoin(a, b);
      JoinAssociates(KeysIn(a), KeysIn(b[..last]), b[last].keys);
      JoinAssociates(AskedIn(a), AskedIn(b[..last]), b[last].asked);
      JoinAssociates(WrittenIn(a), WrittenIn(b[..last]), b[last].written);
    }
  }

  lemma OneVisit(v: Visit)
    ensures KeysIn([v]) == v.keys && AskedIn([v]) == v.asked && WrittenIn([v]) == v.written
  {
    assert [v][..0] == [];
    assert KeysIn([v]) == [] + v.keys && AskedIn([v]) == [] + v.asked && WrittenIn([v]) == [] + v.written;
  }

  lemma VisitedNothing(world: World, selected: seq<PullRequest>, t: nat, cache: seq<CacheEntry>)
    ensures Visited(world, selected, t, t, [], []) && Earned(world, [], [], cache, cache)
  {
  }

  lemma VisitedOne(world: World, selected: seq<PullRequest>, v: Visit, past: nat)
    requires GoesInOrder(world, selected, v) && v.first <= past
    ensures Visited(world, selected, v.first, past, [v], v.asked)
  {
    hide GoesInOrder, AskedIn;
    OneVisit(v);
  }

  lemma EarnedOne(world: World, v: Visit, before: seq<CacheEntry>, after: seq<CacheEntry>)
    requires Keeps(world, v) && after == before + v.written
    ensures Earned(world, [v], v.keys, before, after)
  {
    hide Keeps, KeysIn, WrittenIn;
    OneVisit(v);
  }

  /** A repository by itself, whose credentials went in order and the last of which may be remembered. */
  lemma RepositoryVisited(world: World, selected: seq<PullRequest>, v: Visit, past: nat)
    requires |v.keys| == 1 && v.first <= past
    requires var key := v.keys[0];
             UsesCredentials(
               world, world.candidates(key.host), RememberedFor(world, key, v.first), OfKey(selected, key), v.asked)
    ensures Visited(world, selected, v.first, past, [v], v.asked)
  {
    hide UsesCredentials, RememberedFor;
    VisitedOne(world, selected, v, past);
  }

  lemma RepositoryEarned(
    world: World, v: Visit, authId: string, before: seq<CacheEntry>, after: seq<CacheEntry>)
    requires |v.keys| == 1 && Remembers(world.candidates(v.keys[0].host), v.asked, authId)
    requires v.written == (if world.hasCache && authId != "" then [CacheEntry(v.keys[0], authId)] else [])
    requires after == before + v.written
    ensures Earned(world, [v], v.keys, before, after)
  {
    hide Remembers;
    EarnedOne(world, v, before, after);
  }

  lemma VisitedLater(
    world: World, selected: seq<PullRequest>, first: nat, past: nat, visits: seq<Visit>, asked: seq<Answer>,
    earlier: nat, later: nat)
    requires Visited(world, selected, first, past, visits, asked) && earlier <= first && past <= later
    ensures Visited(world, selected, earlier, later, visits, asked)
  {
    hide GoesInOrder;
  }

  lemma VisitedMore(
    world: World, selected: seq<PullRequest>, first: nat, middle: nat, past: nat, visits: seq<Visit>,
    asked: seq<Answer>, visits': seq<Visit>, asked': seq<Answer>)
    requires Visited(world, selected, first, middle, visits, asked)
    requires Visited(world, selected, middle, past, visits', asked') && first <= middle <= past
    ensures Visited(world, selected, first, past, visits + visits', asked + asked')
  {
    hide GoesInOrder, AskedIn;
    VisitsJoin(visits, visits');
  }

  lemma EarnedMore(
    world: World, visits: seq<Visit>, order: seq<RepositoryKey>, before: seq<CacheEntry>, middle: seq<CacheEntry>,
    visits': seq<Visit>, order': seq<RepositoryKey>, after: seq<CacheEntry>)
    requires Earned(world, visits, order, before, middle) && Earned(world, visits', order', middle, after)
    ensures Earned(world, visits + visits', order + order', before, after)
  {
    hide Keeps, KeysIn, WrittenIn;
    VisitsJoin(visits, visits');
    JoinAssociates(before, WrittenIn(visits), WrittenIn(visits'));
  }
}
