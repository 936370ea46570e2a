/** Credentials of one synchronisation: internal/github/resolver.go. */
module Resolving {
  import opened Text
  import opened Status
  import opened GitHub
  import opened FetchBatch

  datatype Candidate = Candidate(id: string, host: string)

  datatype RepositoryKey = RepositoryKey(host: string, owner: string, repository: string)

  /** What reading a credential yields. */
  datatype TokenReply = Token(text: string) | NoToken(message: string)

  /** A row of the cache: the credential that is remembered for a repository. */
  datatype CacheEntry = CacheEntry(key: RepositoryKey, authId: string)

  datatype CacheReply = Cached(authId: string) | NotCached | CacheFailed(failure: Failure)

  /** Everything the synchronisation asks of the outside. Calls are told apart by their number. */
  datatype World = World(
    candidates: string -> seq<Candidate>, token: (nat, Candidate) -> TokenReply, configure: nat -> Option<Failure>,
    probe: (nat, string, string) -> Option<Failure>, transport: Transport, hasCache: bool,
    cached: (nat, RepositoryKey) -> CacheReply, cachePut: nat -> Option<Failure>, upsert: nat -> Option<Failure>,
    now: nat -> int)

  /** Stands for the hash of host and token. */
  datatype Fingerprint = Fingerprint(host: string, token: string)

  function Unavailable(message: string): Failure {
    Failure(AuthUnavailable, 0, message)
  }

  function FingerprintOf(candidate: Candidate, reply: TokenReply): Fingerprint
    requires reply.Token?
  {
    Fingerprint(candidate.host, Trim(reply.text))
  }

  /** There is a credential, it is not blank, and no candidate of this host has tried it. */
  predicate IsNew(fingerprints: set<Fingerprint>, candidate: Candidate, reply: TokenReply) {
    reply.Token? && Trim(reply.text) != "" && FingerprintOf(candidate, reply) !in fingerprints
  }

  /** What a resolver holds: refused credentials, credentials that were read, and open providers. */
  datatype Credentials = Credentials(
    unauthorized: set<string>, fingerprints: set<Fingerprint>, providers: map<string, Fingerprint>)

  /** How opening a provider ends, as far as the outside and what was learnt before decide it. */
  function OpenOutcome(world: World, tick: nat, candidate: Candidate, known: Credentials): Option<Failure> {
    if candidate.id in known.unauthorized then
      Some(Unavailable("authentication method is unavailable for this sync"))
    else if candidate.id in known.providers then None
    else
      match world.token(tick, candidate)
      case NoToken(message) => Some(Unavailable(message))
      case Token(text) =>
        if Trim(text) == "" then Some(Unavailable("the configured GitHub credential is empty"))
        else if FingerprintOf(candidate, Token(text)) in known.fingerprints then
          Some(Unavailable("the same credential was already tried for this host"))
        else world.configure(tick)
  }

  /** What is known once a provider was opened, or was not. */
  function AfterOpen(world: World, tick: nat, candidate: Candidate, known: Credentials): (r: Credentials)
    ensures r.unauthorized == known.unauthorized && known.fingerprints <= r.fingerprints
  {
    if candidate.id in known.unauthorized || candidate.id in known.providers
       || !IsNew(known.fingerprints, candidate, world.token(tick, candidate)) then known
    else
      var fingerprint := FingerprintOf(candidate, world.token(tick, candidate));
      known.(fingerprints := known.fingerprints + {fingerprint},
      providers := if world.configure(tick).None? then known.providers[candidate.id := fingerprint]
        else known.providers)
  }

  /** Only the configuration of a provider can fail in a way that no other credential might cure. */
  lemma OpenFailsFinally(world: World, tick: nat, candidate: Candidate, known: Credentials)
    ensures var failure := OpenOutcome(world, tick, candidate, known);
            failure.Some? && !failure.value.kind.AuthUnavailable? ==> world.configure(tick) == failure
  {
  }

  class Resolver {
    var unauthorized: set<string>
    var fingerprints: set<Fingerprint>
    var providers: map<string, Fingerprint>

    /** No credential serves two candidates. */
    ghost predicate Valid()
      reads this
    {
      && (forall id :: id in providers ==> providers[id] in fingerprints)
      && (forall a, b :: a in providers && b in providers && providers[a] == providers[b] ==> a == b)
    }

    function Known(): Credentials
      reads this
    {
      Credentials(unauthorized, fingerprints, providers)
    }

    constructor ()
      ensures Valid() && unauthorized == {} && fingerprints == {} && providers == map[]
    {
      unauthorized, fingerprints, providers := {}, {}, map[];
    }

    method MarkUnauthorized(id: string)
      requires Valid()
      modifies this`unauthorized
      ensures Valid() && unauthorized == old(unauthorized) + {id}
    {
      unauthorized := unauthorized + {id};
    }

    /** A provider for the candidate, unless its credential was refused, is missing, or is already in use. */
    method Open(world: World, tick: nat, candidate: Candidate) returns (failure: Option<Failure>)
      requires Valid()
      modifies this`fingerprints, this`providers
      ensures Valid()
      ensures failure == OpenOutcome(world, tick, candidate, old(Known()))
      ensures Known() == AfterOpen(world, tick, candidate, old(Known()))
      ensures candidate.id in unauthorized ==>
                failure.Some? && failure.value.kind.AuthUnavailable?
                && fingerprints == old(fingerprints) && providers == old(providers)
      ensures failure.None? ==> candidate.id in providers && candidate.id !in unauthorized
      ensures failure.Some? ==> providers == old(providers)
      ensures old(providers.Keys) <= providers.Keys <= old(providers.Keys) + {candidate.id}
      ensures forall id :: id in old(providers) ==> providers[id] == old(providers)[id]
      ensures candidate.id !in unauthorized && candidate.id in old(providers) ==>
                failure.None? && fingerprints == old(fingerprints) && providers == old(providers)
      ensures candidate.id !in unauthorized && candidate.id !in old(providers) ==>
                if IsNew(old(fingerprints), candidate, world.token(tick, candidate)) then
                  var fingerprint := FingerprintOf(candidate, world.token(tick, candidate));
                  && failure == world.configure(tick) && fingerprints == old(fingerprints) + {fingerprint}
                  && (failure.None? ==> providers == old(providers)[candidate.id := fingerprint])
                else failure.Some? && failure.value.kind.AuthUnavailable? && fingerprints == old(fingerprints)
    {
      if candidate.id in unauthorized {
        return Some(Unavailable("authentication method is unavailable for this sync"));
      }
      if candidate.id in providers {
        return None;
      }
      match world.token(tick, candidate) {
        case NoToken(message) =>
          return Some(Unavailable(message));
        case Token(text) =>
          var token := Trim(text);
          if token == "" {
            return Some(Unavailable("the configured GitHub credential is empty"));
          }
          var fingerprint := Fingerprint(candidate.host, token);
          if fingerprint in fingerprints {
            return Some(Unavailable("the same credential was already tried for this host"));
          }
          fingerprints := fingerprints + {fingerprint};
          failure := world.configure(tick);
          if failure.Some? {
            return;
          }
          providers := providers[candidate.id := fingerprint];
      }
    }
  }
}
