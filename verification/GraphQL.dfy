/** The batch query of internal/github/graphql.go: aliases out, aliased answers and error paths back. */
module GraphQL {
  import opened Text
  import opened Status

  /** One pull request of the batch and the aliases under which its answer comes back. */
  datatype Item = Item(current: PullRequest, repositoryAlias: string, pullAlias: string)

  datatype PullField = PullField(alias: string, number: int)

  /** `alias:repository(owner:$owner,name:$name){pulls}`, its variables filled in. */
  datatype RepositoryField = RepositoryField(alias: string, owner: string, name: string, pulls: seq<PullField>)

  type Query = seq<RepositoryField>

  /** How the builder tells repositories apart. */
  function Key(v: PullRequest): string {
    Lower(v.owner + "/" + v.repository)
  }

  predicate QueryBelow(a: PullRequest, b: PullRequest) {
    Below(Key(a), Key(b)) || (Key(a) == Key(b) && a.number < b.number)
  }

  lemma QueryBelowIsOrdering()
    ensures IsOrdering(QueryBelow)
  {
    BelowIsOrdering();
    forall a, b | QueryBelow(a, b)
      ensures !QueryBelow(b, a)
    {
      BelowIrreflexive(Key(a));
    }
    forall a, b, c | !QueryBelow(b, a) && !QueryBelow(c, b)
      ensures !QueryBelow(c, a)
    {
      BelowTotal(Key(a), Key(b));
      BelowTotal(Key(b), Key(c));
      BelowTotal(Key(a), Key(c));
      BelowIrreflexive(Key(a));
      assert !Below(Key(b), Key(a)) && !Below(Key(c), Key(b)) ==> !Below(Key(c), Key(a));
    }
  }

  function RepositoryAlias(index: nat): string {
    "r" + Decimal(index)
  }

  function PullAlias(index: nat): string {
    "p" + Decimal(index)
  }

  lemma AliasesDiffer(m: nat, n: nat)
    ensures RepositoryAlias(m) == RepositoryAlias(n) <==> m == n
    ensures PullAlias(m) == PullAlias(n) <==> m == n
    ensures '/' !in RepositoryAlias(m) && '/' !in PullAlias(m)
  {
    if RepositoryAlias(m) == RepositoryAlias(n) {
      assert RepositoryAlias(m)[1..] == Decimal(m) && RepositoryAlias(n)[1..] == Decimal(n);
      DecimalInjective(m, n);
    }
    if PullAlias(m) == PullAlias(n) {
      assert PullAlias(m)[1..] == Decimal(m) && PullAlias(n)[1..] == Decimal(n);
      DecimalInjective(m, n);
    }
  }

  // ----- building the query -----

  /** What the builder has laid out for the first values: keys[r] is the key of field r. */
  ghost predicate LaidOut(
    ordered: seq<PullRequest>, keys: seq<string>, repositories: map<string, nat>, query: Query, items: seq<Item>)
  {
    && |items| == |ordered| && |query| == |keys|
    && (forall r :: 0 <= r < |keys| ==> keys[r] in repositories && repositories[keys[r]] == r)
    && (forall k :: k in repositories ==> repositories[k] < |keys| && keys[repositories[k]] == k)
    && (forall i :: 0 <= i < |ordered| ==> ItemFor(ordered, repositories, items, i))
    && (forall i :: 0 <= i < |ordered| ==> Requested(ordered, repositories, query, i))
    && (forall r :: 0 <= r < |keys| ==> FieldFor(ordered, keys, query, r))
  }

  ghost predicate ItemFor(ordered: seq<PullRequest>, repositories: map<string, nat>, items: seq<Item>, i: nat)
    requires i < |ordered| == |items|
  {
    && Key(ordered[i]) in repositories
    && items[i] == Item(ordered[i], RepositoryAlias(repositories[Key(ordered[i])]), PullAlias(i))
  }

  ghost predicate Requested(ordered: seq<PullRequest>, repositories: map<string, nat>, query: Query, i: nat)
    requires i < |ordered|
  {
    && Key(ordered[i]) in repositories && repositories[Key(ordered[i])] < |query|
    && PullField(PullAlias(i), ordered[i].number) in query[repositories[Key(ordered[i])]].pulls
  }

  /** Field r names the repository as one of its values spells it, and asks for nothing but its values. */
  ghost predicate FieldFor(ordered: seq<PullRequest>, keys: seq<string>, query: Query, r: nat)
    requires r < |keys| == |query|
  {
    && query[r].alias == RepositoryAlias(r)
    && (exists v :: v in ordered && Key(v) == keys[r] && query[r].owner == v.owner && query[r].name == v.repository)
    && (forall f :: f in query[r].pulls ==> OneOf(ordered, keys[r], f))
  }

  ghost predicate OneOf(ordered: seq<PullRequest>, key: string, f: PullField) {
    exists i :: 0 <= i < |ordered| && Key(ordered[i]) == key && f == PullField(PullAlias(i), ordered[i].number)
  }

  lemma LayOutOne(
    ordered: seq<PullRequest>, keys: seq<string>, repositories: map<string, nat>, query: Query, items: seq<Item>,
    v: PullRequest)
    requires LaidOut(ordered, keys, repositories, query, items) && Key(v) in repositories
    ensures LaidOut(
              ordered + [v], keys, repositories,
              query[repositories[Key(v)] := query[repositories[Key(v)]].(
                pulls := query[repositories[Key(v)]].pulls + [PullField(PullAlias(|ordered|), v.number)])],
              items + [Item(v, RepositoryAlias(repositories[Key(v)]), PullAlias(|ordered|))])
  {
    var r := repositories[Key(v)];
    var field := PullField(PullAlias(|ordered|), v.number);
    var query' := query[r := query[r].(pulls := query[r].pulls + [field])];
    var ordered', items' := ordered + [v], items + [Item(v, RepositoryAlias(r), PullAlias(|ordered|))];
    forall i | 0 <= i < |ordered'|
      ensures ItemFor(ordered', repositories, items', i) && Requested(ordered', repositories, query', i)
    {
      if i < |ordered| {
        assert ItemFor(ordered, repositories, items, i) && Requested(ordered, repositories, query, i);
      }
    }
    forall q | 0 <= q < |keys|
      ensures FieldFor(ordered', keys, query', q)
    {
      assert FieldFor(ordered, keys, query, q);
      forall f | f in query'[q].pulls
        ensures OneOf(ordered', keys[q], f)
      {
        if f in query[q].pulls {
          OneOfMore(ordered, v, keys[q], f);
        } else {
          assert ordered'[|ordered|] == v && f == field;
        }
      }
    }
  }

  lemma OneOfMore(ordered: seq<PullRequest>, v: PullRequest, key: string, f: PullField)
    requires OneOf(ordered, key, f)
    ensures OneOf(ordered + [v], key, f)
  {
  }

  /** A new key opens a field; the value that brought it is laid out right after. */
  lemma OpenField(
    ordered: seq<PullRequest>, keys: seq<string>, repositories: map<string, nat>, query: Query, items: seq<Item>,
    v: PullRequest)
    requires LaidOut(ordered, keys, repositories, query, items) && Key(v) !in repositories
    ensures LaidOut(
              ordered + [v], keys + [Key(v)], repositories[Key(v) := |keys|],
              query + [RepositoryField(RepositoryAlias(|keys|), v.owner, v.repository,
                [PullField(PullAlias(|ordered|), v.number)])],
              items + [Item(v, RepositoryAlias(|keys|), PullAlias(|ordered|))])
  {
    var field := PullField(PullAlias(|ordered|), v.number);
    var keys', repositories' := keys + [Key(v)], repositories[Key(v) := |keys|];
    var query' := query + [RepositoryField(RepositoryAlias(|keys|), v.owner, v.repository, [field])];
    var ordered', items' := ordered + [v], items + [Item(v, RepositoryAlias(|keys|), PullAlias(|ordered|))];
    forall i | 0 <= i < |ordered'|
      ensures ItemFor(ordered', repositories', items', i) && Requested(ordered', repositories', query', i)
    {
      if i < |ordered| {
        assert ItemFor(ordered, repositories, items, i) && Requested(ordered, repositories, query, i);
      }
    }
    forall q | 0 <= q < |keys'|
      ensures FieldFor(ordered', keys', query', q)
    {
      if q < |keys| {
        assert FieldFor(ordered, keys, query, q);
        forall f | f in query'[q].pulls
          ensures OneOf(ordered', keys'[q], f)
        {
          OneOfMore(ordered, v, keys[q], f);
        }
      } else {
        assert v in ordered' && ordered'[|ordered|] == v;
      }
    }
  }

  /** What the rest of the program relies on: the items are the batch, and the query asks for each under its aliases. */
  ghost predicate Plan(current: seq<PullRequest>, query: Query, items: seq<Item>) {
    exists ordered, keys, repositories ::
      multiset(ordered) == multiset(current) && LaidOut(ordered, keys, repositories, query, items)
  }

  method BuildQuery(current: seq<PullRequest>) returns (query: Query, items: seq<Item>)
    ensures Plan(current, query, items)
    ensures forall i, j :: 0 <= i < j < |items| ==> !QueryBelow(items[j].current, items[i].current)
  {
    var ordered := SortedBy(QueryBelow, current);
    QueryBelowIsOrdering();
    SortedByAscending(QueryBelow, current);
    var repositories: map<string, nat> := map[];
    ghost var keys: seq<string> := [];
    query, items := [], [];
    for index := 0 to |ordered|
      invariant LaidOut(ordered[..index], keys, repositories, query, items)
      invariant forall i :: 0 <= i < index ==> items[i].current == ordered[i]
    {
      var value := ordered[index];
      var key := Key(value);
      assert ordered[..index + 1] == ordered[..index] + [value];
      if key !in repositories {
        OpenField(ordered[..index], keys, repositories, query, items, value);
        keys := keys + [key];
        var next := |query|;
        repositories := repositories[key := next];
        query := query + [RepositoryField(RepositoryAlias(next), value.owner, value.repository,
          [PullField(PullAlias(index), value.number)])];
      } else {
        LayOutOne(ordered[..index], keys, repositories, query, items, value);
        var r := repositories[key];
        query := query[r := query[r].(pulls := query[r].pulls + [PullField(PullAlias(index), value.number)])];
      }
      items := items + [Item(value, RepositoryAlias(repositories[key]), PullAlias(index))];
    }
    assert ordered[..|ordered|] == ordered;
  }

  // ----- what a server answers -----

  /** A server's repositories: owner and name to a table of pull requests by number. */
  type Server<!P> = (string, string) -> Option<int -> Option<P>>

  function Lookup<P>(server: Server<P>, owner: string, name: string, number: int): Option<P> {
    match server(owner, name)
    case None => None
    case Some(repository) => repository(number)
  }

  /** GitHub looks repositories up without regard to case. */
  ghost predicate CaseInsensitive<P(!new)>(server: Server<P>) {
    forall owner, name, number ::
      Lookup(server, owner, name, number) == Lookup(server, Lower(owner), Lower(name), number)
  }

  function EvaluatePulls<P>(repository: int -> Option<P>, pulls: seq<PullField>): map<string, Option<P>> {
    if pulls == [] then map[]
    else
      var last := pulls[|pulls| - 1];
      EvaluatePulls(repository, pulls[..|pulls| - 1])[last.alias := repository(last.number)]
  }

  /** The response data: every field's answer under its alias, null where there is no such repository. */
  function Evaluate<P>(server: Server<P>, query: Query): map<string, Option<map<string, Option<P>>>> {
    if query == [] then map[]
    else
      var last := query[|query| - 1];
      var answer := match server(last.owner, last.name)
        case None => None
        case Some(repository) => Some(EvaluatePulls(repository, last.pulls));
      Evaluate(server, query[..|query| - 1])[last.alias := answer]
  }

  lemma {:induction false} PullAnswered<P>(repository: int -> Option<P>, pulls: seq<PullField>, f: PullField)
    requires f in pulls && forall g :: g in pulls && g.alias == f.alias ==> g == f
    ensures f.alias in EvaluatePulls(repository, pulls)
    ensures EvaluatePulls(repository, pulls)[f.alias] == repository(f.number)
  {
    var last := |pulls| - 1;
    assert pulls == pulls[..last] + [pulls[last]];
    if pulls[last].alias != f.alias {
      PullAnswered(repository, pulls[..last], f);
    }
  }

  lemma {:induction false} FieldAnswered<P>(server: Server<P>, query: Query, r: nat)
    requires r < |query| && forall q :: 0 <= q < |query| && query[q].alias == query[r].alias ==> q == r
    ensures query[r].alias in Evaluate(server, query)
    ensures Evaluate(server, query)[query[r].alias] ==
              match server(query[r].owner, query[r].name)
              case None => None
              case Some(repository) => Some(EvaluatePulls(repository, query[r].pulls))
  {
    var last := |query| - 1;
    if r < last {
      FieldAnswered(server, query[..last], r);
    }
  }

  /** What arrives for an item: the record under its pull alias, inside the one under its repository alias. */
  function AnswerFor<P>(server: Server<P>, query: Query, item: Item): Option<P> {
    var data := Evaluate(server, query);
    if item.repositoryAlias !in data || data[item.repositoryAlias].None? then None
    else
      var repository := data[item.repositoryAlias].value;
      if item.pullAlias in repository then repository[item.pullAlias] else None
  }

  /** The pull request the item is about. */
  function Wanted<P>(server: Server<P>, v: PullRequest): Option<P> {
    Lookup(server, v.owner, v.repository, v.number)
  }

  /** The value whose spelling of the repository went into the query for an item. */
  ghost predicate Spelled(current: seq<PullRequest>, v: PullRequest, speller: PullRequest) {
    speller in current && Key(speller) == Key(v)
  }

  /** Each item is answered by the repository that some value with its key spells. */
  lemma AnsweredBySpeller(current: seq<PullRequest>, query: Query, items: seq<Item>, i: nat)
    returns (speller: PullRequest)
    requires Plan(current, query, items) && i < |items|
    ensures items[i].current in current && Spelled(current, items[i].current, speller)
    ensures forall server: Server<string> :: AnswerFor(server, query, items[i]) ==
              Wanted(server, items[i].current.(owner := speller.owner, repository := speller.repository))
    ensures forall j :: 0 <= j < |items| && Key(items[j].current) == Key(items[i].current) ==>
              forall server: Server<string> :: AnswerFor(server, query, items[j]) ==
                Wanted(server, items[j].current.(owner := speller.owner, repository := speller.repository))
  {
    var ordered, keys, repositories :|
      multiset(ordered) == multiset(current) && LaidOut(ordered, keys, repositories, query, items);
    SameElements(ordered, current);
    assert ItemFor(ordered, repositories, items, i) && Requested(ordered, repositories, query, i);
    var r := repositories[Key(items[i].current)];
    assert FieldFor(ordered, keys, query, r);
    speller :| speller in ordered && Key(speller) == keys[r]
      && query[r].owner == speller.owner && query[r].name == speller.repository;
    forall j, server: Server<string> | 0 <= j < |items| && Key(items[j].current) == Key(items[i].current)
      ensures AnswerFor(server, query, items[j]) ==
                Wanted(server, items[j].current.(owner := speller.owner, repository := speller.repository))
    {
      assert ItemFor(ordered, repositories, items, j);
      AnswerThroughField(server, ordered, keys, repositories, query, items, j, r);
    }
  }

  lemma SameElements(a: seq<PullRequest>, b: seq<PullRequest>)
    requires multiset(a) == multiset(b)
    ensures forall x :: x in a <==> x in b
  {
    assert forall x :: x in a <==> x in multiset(a);
    assert forall x :: x in b <==> x in multiset(b);
  }

  lemma AnswerThroughField<P>(
    server: Server<P>, ordered: seq<PullRequest>, keys: seq<string>, repositories: map<string, nat>, query: Query,
    items: seq<Item>, i: nat, r: nat)
    requires LaidOut(ordered, keys, repositories, query, items) && i < |items| && r < |query|
    requires Key(ordered[i]) == keys[r]
    ensures AnswerFor(server, query, items[i]) ==
              Wanted(server, items[i].current.(owner := query[r].owner, repository := query[r].name))
  {
    assert ItemFor(ordered, repositories, items, i) && Requested(ordered, repositories, query, i);
    forall q | 0 <= q < |query| && query[q].alias == query[r].alias
      ensures q == r
    {
      assert FieldFor(ordered, keys, query, q) && FieldFor(ordered, keys, query, r);
      AliasesDiffer(q, r);
    }
    assert FieldFor(ordered, keys, query, r);
    FieldAnswered(server, query, r);
    var f := PullField(PullAlias(i), ordered[i].number);
    forall g | g in query[r].pulls && g.alias == f.alias
      ensures g == f
    {
      assert OneOf(ordered, keys[r], g);
      var k :| 0 <= k < |ordered| && g == PullField(PullAlias(k), ordered[k].number);
      AliasesDiffer(k, i);
    }
    match server(query[r].owner, query[r].name) {
      case None =>
      case Some(repository) =>
        PullAnswered(repository, query[r].pulls, f);
    }
  }

  /** No two values are taken for the same repository although their owners differ. */
  ghost predicate NoClash(current: seq<PullRequest>) {
    forall a, b :: a in current && b in current && Key(a) == Key(b) ==> Lower(a.owner) == Lower(b.owner)
  }

  lemma KeyParts(a: PullRequest, b: PullRequest)
    ensures Key(a) == Lower(a.owner) + ['/'] + Lower(a.repository)
    ensures Key(a) == Key(b) && Lower(a.owner) == Lower(b.owner) ==> Lower(a.repository) == Lower(b.repository)
    ensures Key(a) == Key(b) && '/' !in a.owner && '/' !in b.owner ==> Lower(a.owner) == Lower(b.owner)
  {
    forall v: PullRequest
      ensures Key(v) == Lower(v.owner) + ['/'] + Lower(v.repository)
    {
      LowerJoin(v.owner + "/", v.repository);
      LowerJoin(v.owner, "/");
      assert Lower("/") == "/";
    }
    if Key(a) == Key(b) && Lower(a.owner) == Lower(b.owner) {
      var n := |Lower(a.owner)| + 1;
      assert Key(a)[n..] == Lower(a.repository) && Key(b)[n..] == Lower(b.repository);
    }
    if Key(a) == Key(b) && '/' !in a.owner && '/' !in b.owner {
      JoinInjective(Lower(a.owner), Lower(a.repository), Lower(b.owner), Lower(b.repository), '/');
    }
  }

  /** Owners taken from pull request URLs never contain a slash, and then there is no clash. */
  lemma SlashFreeOwnersDoNotClash(current: seq<PullRequest>)
    requires forall v :: v in current ==> '/' !in v.owner
    ensures NoClash(current)
  {
    forall a, b | a in current && b in current && Key(a) == Key(b)
      ensures Lower(a.owner) == Lower(b.owner)
    {
      KeyParts(a, b);
    }
  }

  /** Every case-insensitive server answers every item with the pull request the item is about. */
  ghost predicate AlwaysAnswersRight(query: Query, items: seq<Item>) {
    forall server: Server<string>, i :: CaseInsensitive(server) && 0 <= i < |items| ==>
      AnswerFor(server, query, items[i]) == Wanted(server, items[i].current)
  }

  lemma SpellingDoesNotMatter(server: Server<string>, v: PullRequest, speller: PullRequest)
    requires CaseInsensitive(server)
    requires Lower(v.owner) == Lower(speller.owner) && Lower(v.repository) == Lower(speller.repository)
    ensures Wanted(server, v) == Wanted(server, v.(owner := speller.owner, repository := speller.repository))
  {
    assert Lookup(server, v.owner, v.repository, v.number)
        == Lookup(server, Lower(v.owner), Lower(v.repository), v.number);
    assert Lookup(server, speller.owner, speller.repository, v.number)
        == Lookup(server, Lower(speller.owner), Lower(speller.repository), v.number);
  }

  lemma NoClashAnswersRight(current: seq<PullRequest>, query: Query, items: seq<Item>)
    requires Plan(current, query, items) && NoClash(current)
    ensures AlwaysAnswersRight(query, items)
  {
    forall server: Server<string>, i | CaseInsensitive(server) && 0 <= i < |items|
      ensures AnswerFor(server, query, items[i]) == Wanted(server, items[i].current)
    {
      var speller := AnsweredBySpeller(current, query, items, i);
      KeyParts(items[i].current, speller);
      SpellingDoesNotMatter(server, items[i].current, speller);
    }
  }

  /** A server on which every pull request carries its owner's name. */
  function OwnerTaggedServer(): Server<string> {
    (owner, name) => Some(number => Some(Lower(owner)))
  }

  /** The answers always land on the right pull request exactly when no two repositories share a key. */
  lemma AnswersLandRight(current: seq<PullRequest>, query: Query, items: seq<Item>)
    requires Plan(current, query, items)
    ensures AlwaysAnswersRight(query, items) <==> NoClash(current)
  {
    if NoClash(current) {
      NoClashAnswersRight(current, query, items);
    } else {
      var a, b :| a in current && b in current && Key(a) == Key(b) && Lower(a.owner) != Lower(b.owner);
      var i := ItemOf(current, query, items, a);
      var j := ItemOf(current, query, items, b);
      var speller := AnsweredBySpeller(current, query, items, i);
      var server := OwnerTaggedServer();
      LowerTwiceServer();
      assert AnswerFor(server, query, items[i]) == Some(Lower(speller.owner));
      assert AnswerFor(server, query, items[j]) == Some(Lower(speller.owner));
      assert Wanted(server, a) == Some(Lower(a.owner)) && Wanted(server, b) == Some(Lower(b.owner));
    }
  }

  lemma LowerTwiceServer()
    ensures CaseInsensitive(OwnerTaggedServer())
  {
    var server := OwnerTaggedServer();
    forall owner, name, number
      ensures Lookup(server, owner, name, number) == Lookup(server, Lower(owner), Lower(name), number)
    {
      LowerTwice(owner);
    }
  }

  lemma ItemOf(current: seq<PullRequest>, query: Query, items: seq<Item>, v: PullRequest) returns (i: nat)
    requires Plan(current, query, items) && v in current
    ensures i < |items| && items[i].current == v
  {
    var ordered, keys, repositories :|
      multiset(ordered) == multiset(current) && LaidOut(ordered, keys, repositories, query, items);
    SameElements(ordered, current);
    i :| 0 <= i < |ordered| && ordered[i] == v;
    assert ItemFor(ordered, repositories, items, i);
  }

  /** An owner with a slash is such a clash: a/b with repository c reads like a with repository b/c. */
  lemma SlashInOwnerClashes(v: PullRequest, w: PullRequest)
    requires v.owner == "a/b" && v.repository == "c" && w.owner == "a" && w.repository == "b/c"
    ensures !NoClash([v, w])
  {
  }
}
