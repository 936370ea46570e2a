/** Normalising and editing the configuration in place: the setters of internal/config/config.go. */
module Settings {
  import opened Text
  import opened Status
  import opened Prompt
  import opened Configuration

  /** The hosts whose normal forms are done, all with different names. */
  predicate HostsSoFar(env: Environment, given: seq<Host>, done: seq<Host>) {
    && |done| <= |given| && Distinct(HostNames(done))
    && (forall k :: 0 <= k < |done| ==> NormalHostConfig(env, given[k]) == Some(done[k]))
  }

  lemma NextHost(env: Environment, given: seq<Host>, done: seq<Host>, next: Host)
    requires HostsSoFar(env, given, done) && |done| < |given|
    requires NormalHostConfig(env, given[|done|]) == Some(next) && next.host !in Range(HostNames(done))
    ensures HostsSoFar(env, given, done + [next])
    ensures Range(HostNames(done + [next])) == Range(HostNames(done)) + {next.host}
  {
    hide NormalHostConfig;
    assert HostNames(done + [next]) == HostNames(done) + [next.host];
    OneMoreName(HostNames(done), next.host);
  }

  lemma AllHostsDone(env: Environment, hosts: seq<Host>, done: seq<Host>)
    requires var given := if hosts == [] then [DEFAULT_HOST] else hosts;
             HostsSoFar(env, given, done) && |done| == |given|
    ensures HostsNormal(env, hosts, done)
  {
    hide NormalHostConfig;
  }

  /** The hosts loop of Normalize. */
  method NormalizeHosts(env: Environment, hosts: seq<Host>) returns (r: Option<seq<Host>>)
    ensures r.Some? ==> HostsNormal(env, hosts, r.value)
    ensures r.None? ==> forall x :: !HostsNormal(env, hosts, x)
  {
    var given := if |hosts| == 0 then [DEFAULT_HOST] else hosts;
    var names: set<string> := {};
    var done: seq<Host> := [];
    assert HostsSoFar(env, given, done);
    hide NormalHostConfig, HostsSoFar, HostsNormal;
    for i := 0 to |given|
      invariant |done| == i && names == Range(HostNames(done)) && HostsSoFar(env, given, done)
    {
      var host := NormalHostConfig(env, given[i]);
      if host.None? {
        BadHost(env, hosts, i);
        return None;
      }
      if host.value.host in names {
        DuplicateHost(env, hosts, done, host.value);
        return None;
      }
      NextHost(env, given, done, host.value);
      names := names + {host.value.host};
      done := done + [host.value];
    }
    AllHostsDone(env, hosts, done);
    r := Some(done);
  }

  lemma OneMoreName(names: seq<string>, name: string)
    requires Distinct(names) && name !in Range(names)
    ensures Distinct(names + [name]) && Range(names + [name]) == Range(names) + {name}
  {
  }

  lemma BadHost(env: Environment, hosts: seq<Host>, i: nat)
    requires var given := if hosts == [] then [DEFAULT_HOST] else hosts;
             i < |given| && NormalHostConfig(env, given[i]).None?
    ensures forall x :: !HostsNormal(env, hosts, x)
  {
    hide NormalHostConfig;
    forall x
      ensures !HostsNormal(env, hosts, x)
    {
      if HostsNormal(env, hosts, x) {
        HostAt(env, hosts, x, i);
      }
    }
  }

  lemma HostAt(env: Environment, hosts: seq<Host>, x: seq<Host>, i: nat)
    requires HostsNormal(env, hosts, x) && i < |if hosts == [] then [DEFAULT_HOST] else hosts|
    ensures i < |x|
    ensures NormalHostConfig(env, (if hosts == [] then [DEFAULT_HOST] else hosts)[i]) == Some(x[i])
  {
    hide NormalHostConfig;
  }

  lemma DuplicateHost(env: Environment, hosts: seq<Host>, done: seq<Host>, next: Host)
    requires var given := if hosts == [] then [DEFAULT_HOST] else hosts;
             |done| < |given| && NormalHostConfig(env, given[|done|]) == Some(next)
             && HostsSoFar(env, given, done)
    requires next.host in Range(HostNames(done))
    ensures forall x :: !HostsNormal(env, hosts, x)
  {
    hide NormalHostConfig;
    var k :| 0 <= k < |done| && HostNames(done)[k] == next.host;
    forall x
      ensures !HostsNormal(env, hosts, x)
    {
      if HostsNormal(env, hosts, x) {
        HostAt(env, hosts, x, k);
        HostAt(env, hosts, x, |done|);
      }
    }
  }

  /** The authentication methods loop of Normalize. */
  method NormalizeMethods(env: Environment, hosts: set<string>, methods: seq<AuthMethod>)
    returns (r: Option<seq<AuthMethod>>)
    ensures r.Some? ==> MethodsNormal(env, hosts, Some(methods), r)
    ensures r.None? ==> forall x :: !MethodsNormal(env, hosts, Some(methods), x)
  {
    var ids: set<string> := {};
    var done: seq<AuthMethod> := [];
    for i := 0 to |methods|
      invariant |done| == i && ids == Range(MethodIds(done)) && Distinct(MethodIds(done))
      invariant forall k :: 0 <= k < i ==> NormalMethod(env, hosts, methods[k]) == Some(done[k])
    {
      var next := NormalMethod(env, hosts, methods[i]);
      if next.None? {
        return None;
      }
      if next.value.id in ids {
        DuplicateMethod(env, hosts, methods, done, next.value);
        return None;
      }
      assert MethodIds(done + [next.value]) == MethodIds(done) + [next.value.id];
      OneMoreName(MethodIds(done), next.value.id);
      ids := ids + {next.value.id};
      done := done + [next.value];
    }
    r := Some(done);
  }

  lemma DuplicateMethod(
    env: Environment, hosts: set<string>, methods: seq<AuthMethod>, done: seq<AuthMethod>, next: AuthMethod)
    requires |done| < |methods| && NormalMethod(env, hosts, methods[|done|]) == Some(next)
    requires forall k :: 0 <= k < |done| ==> NormalMethod(env, hosts, methods[k]) == Some(done[k])
    requires next.id in Range(MethodIds(done))
    ensures forall x :: !MethodsNormal(env, hosts, Some(methods), x)
  {
  }

  /** normalizeTaskLabelOverrides: keys in no particular order. */
  method NormalizeLabels(env: Environment, labels: map<string, string>) returns (r: Option<map<string, string>>)
    ensures r.Some? ==> LabelsNormal(env, Some(labels), r)
    ensures r.None? ==> forall x :: !LabelsNormal(env, Some(labels), x)
  {
    var done: map<string, string> := map[];
    var remaining := labels.Keys;
    while remaining != {}
      invariant remaining <= labels.Keys
      invariant forall k :: k in labels && k !in remaining ==>
                  LabelKey(k) in env.labelKeys && env.labelText(labels[k]).Some?
                  && (env.labelText(labels[k]).value != "" ==> LabelKey(k) in done)
      invariant forall key :: key in done ==> done[key] != "" && LabelFrom(env, labels, key, done[key])
      decreases remaining
    {
      var k :| k in remaining;
      var text := env.labelText(labels[k]);
      if text.None? || LabelKey(k) !in env.labelKeys {
        assert k in labels;
        return None;
      }
      if text.value != "" {
        assert LabelFrom(env, labels, LabelKey(k), text.value);
        done := done[LabelKey(k) := text.value];
      }
      remaining := remaining - {k};
    }
    r := Some(done);
  }

  /** Config.Normalize: the first thing that is wrong rejects the configuration. */
  method NormalizeConfig(env: Environment, c: Config) returns (r: Option<Config>)
    ensures r.Some? ==> IsNormal(env, c, r.value)
    ensures r.None? ==> forall x :: !IsNormal(env, c, x)
  {
    hide HostsNormal, MethodsNormal, LabelsNormal, NormalLanguage, AllValid, WithDefaults;
    if c.version != CURRENT_VERSION {
      return None;
    }
    var language := NormalLanguage(c.language);
    if language.None? {
      return None;
    }
    var prompts := Prompt.Normalize(c.prompts, env.defaults(Effective(env, language.value)));
    if prompts.Rejected? {
      return None;
    }
    var labels := None;
    if c.labels.Some? {
      labels := NormalizeLabels(env, c.labels.value);
      if labels.None? {
        assert c.labels == Some(c.labels.value);
        return None;
      }
    } else {
      NoLabels(env);
    }
    var interval := FilledInterval(c.interval);
    if !(0 <= c.port <= 65535) {
      return None;
    }
    var skipped := NormalSkipped(env, c.skipped);
    if skipped.None? || interval < MINIMUM_INTERVAL {
      return None;
    }
    var hosts := NormalizeHosts(env, c.hosts);
    if hosts.None? {
      return None;
    }
    var names := Range(HostNames(hosts.value));
    var methods := None;
    if c.authMethods.Some? {
      methods := NormalizeMethods(env, names, c.authMethods.value);
      if methods.None? {
        NoNormalForm(env, c, hosts.value);
        return None;
      }
    } else {
      NoMethods(env, names);
    }
    r := Some(Config(c.version, language.value, hosts.value, methods, interval, c.port, skipped.value,
      prompts.value, labels));
  }

  lemma NoLabels(env: Environment)
    ensures LabelsNormal(env, None, None)
  {
  }

  lemma NoMethods(env: Environment, names: set<string>)
    ensures MethodsNormal(env, names, None, None)
  {
  }

  lemma HostsAreDetermined(env: Environment, hosts: seq<Host>, a: seq<Host>, b: seq<Host>)
    requires HostsNormal(env, hosts, a) && HostsNormal(env, hosts, b)
    ensures a == b
  {
  }

  lemma NoNormalForm(env: Environment, c: Config, hosts: seq<Host>)
    requires HostsNormal(env, c.hosts, hosts) && c.authMethods.Some?
    requires forall x :: !MethodsNormal(env, Range(HostNames(hosts)), c.authMethods, x)
    ensures forall x :: !IsNormal(env, c, x)
  {
    hide HostsNormal, MethodsNormal;
    forall x
      ensures !IsNormal(env, c, x)
    {
      if IsNormal(env, c, x) {
        HostsAreDetermined(env, c.hosts, x.hosts, hosts);
      }
    }
  }

  // ----- editing -----

  function Methods(c: Config): seq<AuthMethod> {
    c.authMethods.GetOr([])
  }

  /** Every known id once, in the wanted order, means a permutation. */
  lemma KnownAndDistinct(ids: seq<string>, known: seq<string>)
    requires Distinct(known) && |ids| == |known|
    ensures multiset(ids) == multiset(known) <==> Distinct(ids) && forall id :: id in ids ==> id in known
  {
    if multiset(ids) == multiset(known) {
      MultisetOfDistinct(known);
      DistinctByMultiset(ids);
      forall id | id in ids
        ensures id in known
      {
        assert id in multiset(ids);
      }
    } else if Distinct(ids) && forall id :: id in ids ==> id in known {
      RangeSize(ids);
      RangeSize(known);
      SubsetSize(Range(ids), Range(known));
      SameRangeSameMultiset(ids, known);
    }
  }

  lemma SameRangeSameMultiset(a: seq<string>, b: seq<string>)
    requires Distinct(a) && Distinct(b) && Range(a) == Range(b)
    ensures multiset(a) == multiset(b)
  {
    MultisetOfDistinct(a);
    MultisetOfDistinct(b);
    forall x
      ensures multiset(a)[x] == multiset(b)[x]
    {
      assert x in multiset(a) <==> x in Range(a);
      assert x in multiset(b) <==> x in Range(b);
    }
  }

  /** The methods in the order of the ids. */
  method OrderMethods(methods: seq<AuthMethod>, ids: seq<string>) returns (ordered: Option<seq<AuthMethod>>)
    requires Distinct(MethodIds(methods)) && |ids| == |methods|
    ensures ordered.Some? <==> multiset(ids) == multiset(MethodIds(methods))
    ensures ordered.Some? ==> MethodIds(ordered.value) == ids && forall m :: m in ordered.value ==> m in methods
  {
    KnownAndDistinct(ids, MethodIds(methods));
    var byId: map<string, AuthMethod> := map[];
    for i := 0 to |methods|
      invariant forall id :: id in byId <==> id in MethodIds(methods)[..i]
      invariant forall id :: id in byId ==> byId[id] in methods && byId[id].id == id
    {
      assert MethodIds(methods)[..i + 1] == MethodIds(methods)[..i] + [methods[i].id];
      byId := byId[methods[i].id := methods[i]];
    }
    assert MethodIds(methods)[..|methods|] == MethodIds(methods);
    var seen: set<string> := {};
    var result: seq<AuthMethod> := [];
    for i := 0 to |ids|
      invariant |result| == i && seen == Range(ids[..i]) && Distinct(ids[..i])
      invariant MethodIds(result) == ids[..i] && forall m :: m in result ==> m in methods
      invariant forall id :: id in ids[..i] ==> id in byId
    {
      assert ids[..i + 1] == ids[..i] + [ids[i]];
      if ids[i] !in byId {
        assert ids[i] in ids;
        return None;
      }
      if ids[i] in seen {
        var k :| 0 <= k < i && ids[..i][k] == ids[i];
        assert !Distinct(ids);
        return None;
      }
      seen := seen + {ids[i]};
      assert MethodIds(result + [byId[ids[i]]]) == MethodIds(result) + [ids[i]];
      result := result + [byId[ids[i]]];
    }
    assert ids[..|ids|] == ids;
    ordered := Some(result);
  }

  /** The result of a reordering: the same methods in the order of the ids, and everything else as it was. */
  ghost predicate IsReordering(c: Config, ids: seq<string>, r: Config) {
    && r == c.(authMethods := Some(Methods(r)))
    && MethodIds(Methods(r)) == ids && multiset(Methods(r)) == multiset(Methods(c))
  }

  lemma SameMethods(methods: seq<AuthMethod>, ordered: seq<AuthMethod>)
    requires Distinct(MethodIds(methods)) && multiset(MethodIds(ordered)) == multiset(MethodIds(methods))
    requires forall m :: m in ordered ==> m in methods
    ensures multiset(ordered) == multiset(methods)
  {
    assert |multiset(MethodIds(ordered))| == |multiset(MethodIds(methods))|;
    KnownAndDistinct(MethodIds(ordered), MethodIds(methods));
    DistinctValues(methods);
    DistinctValues(ordered);
    RangeSize(methods);
    RangeSize(ordered);
    SubsetSize(Range(ordered), Range(methods));
    MultisetOfDistinct(methods);
    MultisetOfDistinct(ordered);
    forall m
      ensures multiset(ordered)[m] == multiset(methods)[m]
    {
      assert m in multiset(ordered) <==> m in Range(ordered);
      assert m in multiset(methods) <==> m in Range(methods);
    }
  }

  lemma DistinctValues(methods: seq<AuthMethod>)
    requires Distinct(MethodIds(methods))
    ensures Distinct(methods)
  {
    forall i, j | 0 <= i < j < |methods|
      ensures methods[i] != methods[j]
    {
      assert MethodIds(methods)[i] != MethodIds(methods)[j];
    }
  }

  /** Nothing but the order of the methods has changed; a missing list is not an empty one. */
  ghost predicate OnlyOrderChanged(c: Config, r: Config) {
    && r == c.(authMethods := r.authMethods) && (r.authMethods.Some? <==> c.authMethods.Some?)
    && multiset(Methods(r)) == multiset(Methods(c))
  }

  /** Reordering changes nothing but the order exactly when there is a list to reorder. */
  lemma OnlyOrderChangesIff(c: Config, ids: seq<string>, r: Config)
    requires IsReordering(c, ids, r)
    ensures OnlyOrderChanged(c, r) <==> c.authMethods.Some?
  {
  }

  /** Reordering a missing list by no ids is accepted, and leaves an empty list: credentials are no more discovered. */
  lemma MissingBecomesEmpty(c: Config, r: Config)
    requires c.authMethods.None? && IsReordering(c, [], r)
    ensures multiset([]) == multiset(MethodIds(Methods(c)))
    ensures r == c.(authMethods := Some([])) && r != c
  {
    assert Methods(r) == [] && MethodIds(Methods(c)) == [];
  }

  lemma ReorderedIsNormal(env: Environment, c: Config, ordered: seq<AuthMethod>)
    requires Sane(env) && IsNormal(env, c, c) && forall m :: m in ordered ==> m in Methods(c)
    requires Distinct(MethodIds(ordered))
    ensures var next := c.(authMethods := Some(ordered)); IsNormal(env, next, next)
  {
    hide HostsNormal, LabelsNormal, PromptsNormal, NormalMethod;
    var names := Range(HostNames(c.hosts));
    forall i | 0 <= i < |ordered|
      ensures NormalMethod(env, names, ordered[i]) == Some(ordered[i])
    {
      assert ordered[i] in Methods(c);
      var k :| 0 <= k < |Methods(c)| && Methods(c)[k] == ordered[i];
    }
  }

  class ConfigFile {
    const env: Environment
    var config: Config

    constructor (env: Environment, config: Config)
      ensures this.env == env && this.config == config
    {
      this.env, this.config := env, config;
    }

    /** normalizeInPlace. */
    method NormalizeInPlace() returns (ok: bool)
      modifies this
      ensures ok ==> IsNormal(env, old(config), config)
      ensures !ok ==> config == old(config) && forall x :: !IsNormal(env, old(config), x)
    {
      var normalized := NormalizeConfig(env, config);
      ok := normalized.Some?;
      if ok {
        config := normalized.value;
      }
    }

    /**
      ReorderAuthMethods accepts exactly the permutations of the ids that are there. Reordering a missing list
      by no ids makes it an empty one.
     */
    method ReorderAuthMethods(ids: seq<string>) returns (ok: bool)
      requires Sane(env) && IsNormal(env, config, config)
      modifies this
      ensures IsNormal(env, config, config)
      ensures ok <==> multiset(ids) == multiset(MethodIds(Methods(old(config))))
      ensures ok ==> IsReordering(old(config), ids, config)
      ensures !ok ==> config == old(config)
    {
      var methods := Methods(config);
      if |ids| != |methods| {
        assert |multiset(ids)| != |multiset(MethodIds(methods))|;
        return false;
      }
      var ordered := OrderMethods(methods, ids);
      if ordered.None? {
        return false;
      }
      KnownAndDistinct(ids, MethodIds(methods));
      SameMethods(methods, ordered.value);
      ReorderedIsNormal(env, config, ordered.value);
      var next := config.(authMethods := ordered);
      config := next;
      ok := NormalizeInPlace();
      assert ok;
      NormalIsFixed(env, next, config);
    }

    /** SetLanguage: built-in templates follow the language, edited ones stay; a rejected change leaves no trace. */
    method SetLanguage(value: string) returns (ok: bool)
      requires Sane(env) && IsNormal(env, config, config)
      modifies this
      ensures IsNormal(env, config, config)
      ensures !ok ==> config == old(config)
      ensures ok ==> NormalLanguage(value) == Some(config.language)
      ensures ok ==>
                config.prompts == Followed(old(config).prompts, env.defaults(Effective(env, old(config).language)),
                                           env.defaults(Effective(env, config.language)))
      ensures ok ==> config == old(config).(language := config.language, prompts := config.prompts)
      ensures NormalLanguage(value).None? ==> !ok
      ensures (NormalLanguage(value).Some?
               && AllValid(Followed(old(config).prompts, env.defaults(Effective(env, old(config).language)),
                                    env.defaults(Effective(env, NormalLanguage(value).value)))))
              ==> ok
    {
      var previous := config;
      var defaults := env.defaults(Effective(env, config.language));
      config := config.(language := value, prompts := Reset(config.prompts, defaults));
      var changed := config;
      EditedStay(env, previous, defaults, value);
      ok := NormalizeInPlace();
      if ok {
        NormalTwice(env, changed, config);
        OtherFieldsStay(env, previous, changed, config);
      } else {
        config := previous;
      }
    }

    /** UpdateHost: the host and every method that named it change together, or nothing does. */
    method UpdateHost(existing: string, value: Host) returns (ok: bool)
      requires Sane(env) && IsNormal(env, config, config)
      modifies this
      ensures IsNormal(env, config, config)
      ensures ok <==> MayReplace(env, old(config), existing, value)
      ensures !ok ==> config == old(config)
      ensures ok ==>
                env.normalHost(existing).Some? && env.normalHost(value.host).Some?
                && HostReplaced(env, old(config), config, env.normalHost(existing).value,
                     value.(host := env.normalHost(value.host).value))
    {
      hide IsNormal, NormalHostConfig, HostReplaced, Sane;
      var found := env.normalHost(existing);
      if found.None? {
        return false;
      }
      var index := FindHost(config.hosts, found.value);
      if index.None? {
        return false;
      }
      var name := env.normalHost(value.host);
      if name.None? {
        return false;
      }
      var updated := config.(hosts := config.hosts[index.value := value.(host := name.value)],
        authMethods := RenamedMethods(config.authMethods, found.value, name.value));
      var normalized := NormalizeConfig(env, updated);
      TwiceNamed(env, value.host);
      ReplaceableIff(env, config, updated, found.value, value.(host := name.value), index.value);
      if normalized.None? {
        return false;
      }
      assert IsNormal(env, updated, normalized.value);
      NormalTwice(env, updated, normalized.value);
      ReplacedHost(env, config, updated, normalized.value, found.value, value.(host := name.value), index.value);
      config := normalized.value;
      ok := true;
    }
  }

  /** Templates that are still the built-in ones are cleared, so that Normalize fills them anew. */
  function Reset(t: Templates, defaults: Templates): Templates {
    Templates(if t.design == defaults.design then "" else t.design,
      if t.implementation == defaults.implementation then "" else t.implementation,
      if t.batch == defaults.batch then "" else t.batch,
      if t.batchDesign == defaults.batchDesign then "" else t.batchDesign)
  }

  function Followed(t: Templates, before: Templates, after: Templates): Templates {
    Templates(if t.design == before.design then after.design else t.design,
      if t.implementation == before.implementation then after.implementation else t.implementation,
      if t.batch == before.batch then after.batch else t.batch,
      if t.batchDesign == before.batchDesign then after.batchDesign else t.batchDesign)
  }

  lemma ResetFollows(t: Templates, before: Templates, after: Templates)
    requires AllValid(t)
    ensures WithDefaults(Reset(t, before), after) == Followed(t, before, after)
  {
    hide IsValid;
    ValidIsNotBlank(t.design, false);
    ValidIsNotBlank(t.implementation, false);
    ValidIsNotBlank(t.batch, true);
    ValidIsNotBlank(t.batchDesign, true);
    ShortWords();
  }

  lemma EditedStay(env: Environment, c: Config, defaults: Templates, value: string)
    requires Sane(env) && IsNormal(env, c, c) && defaults == env.defaults(Effective(env, c.language))
    ensures var changed := c.(language := value, prompts := Reset(c.prompts, defaults));
            && (forall x :: IsNormal(env, changed, x) ==>
                  NormalLanguage(value) == Some(x.language)
                  && x.prompts == Followed(c.prompts, defaults, env.defaults(Effective(env, x.language))))
            && (NormalLanguage(value).Some?
                && AllValid(Followed(c.prompts, defaults, env.defaults(Effective(env, NormalLanguage(value).value))))
                ==> exists x :: IsNormal(env, changed, x))
  {
    hide Sane, HostsNormal, MethodsNormal, LabelsNormal, NormalLanguage, AllValid, WithDefaults, Followed;
    var changed := c.(language := value, prompts := Reset(c.prompts, defaults));
    forall x | IsNormal(env, changed, x)
      ensures x.prompts == Followed(c.prompts, defaults, env.defaults(Effective(env, x.language)))
    {
      ResetFollows(c.prompts, defaults, env.defaults(Effective(env, x.language)));
    }
    if NormalLanguage(value).Some? {
      var after := env.defaults(Effective(env, NormalLanguage(value).value));
      if AllValid(Followed(c.prompts, defaults, after)) {
        ResetFollows(c.prompts, defaults, after);
        assert IsNormal(env, changed,
            c.(language := NormalLanguage(value).value, prompts := Followed(c.prompts, defaults, after)));
      }
    }
  }

  lemma OtherFieldsStay(env: Environment, c: Config, changed: Config, r: Config)
    requires Sane(env) && IsNormal(env, c, c) && IsNormal(env, changed, r)
    requires changed == c.(language := changed.language, prompts := changed.prompts)
    ensures r == c.(language := r.language, prompts := r.prompts)
  {
    hide Sane, HostsNormal, MethodsNormal, LabelsNormal, NormalLanguage, AllValid, WithDefaults, NormalSkipped;
    var plain := r.(language := c.language, prompts := c.prompts);
    assert IsNormal(env, c, plain);
    NormalIsFixed(env, c, plain);
  }

  method FindHost(hosts: seq<Host>, name: string) returns (index: Option<nat>)
    ensures index.Some? ==> index.value < |hosts| && hosts[index.value].host == name
    ensures index.None? ==> forall h :: h in hosts ==> h.host != name
  {
    for i := 0 to |hosts|
      invariant forall k :: 0 <= k < i ==> hosts[k].host != name
    {
      if hosts[i].host == name {
        return Some(i);
      }
    }
    index := None;
  }

  function RenamedMethod(m: AuthMethod, existing: string, name: string): AuthMethod {
    if m.host == existing then m.(host := name) else m
  }

  function RenamedMethods(methods: Option<seq<AuthMethod>>, existing: string, name: string)
    : (r: Option<seq<AuthMethod>>)
    ensures r.Some? <==> methods.Some?
    ensures r.Some? ==>
              |r.value| == |methods.value|
              && forall i :: 0 <= i < |r.value| ==> r.value[i] == RenamedMethod(methods.value[i], existing, name)
  {
    match methods
    case None => None
    case Some(ms) => Some(seq(|ms|, i requires 0 <= i < |ms| => RenamedMethod(ms[i], existing, name)))
  }

  /** The host is replaced by the normal form of the given one; its methods follow, and nothing else changes. */
  ghost predicate HostReplaced(env: Environment, before: Config, after: Config, existing: string, value: Host) {
    && |after.hosts| == |before.hosts|
    && (forall i :: 0 <= i < |before.hosts| ==>
          (Some(after.hosts[i]) == if before.hosts[i].host == existing then NormalHostConfig(env, value)
                                   else Some(before.hosts[i])))
    && after.authMethods == RenamedMethods(before.authMethods, existing, value.host)
    && after == before.(hosts := after.hosts, authMethods := after.authMethods)
  }

  /** There is such a host, the new one has a normal form, and no other host has its name. */
  ghost predicate MayReplace(env: Environment, c: Config, existing: string, value: Host) {
    && env.normalHost(existing).Some? && env.normalHost(value.host).Some?
    && (exists h :: h in c.hosts && h.host == env.normalHost(existing).value)
    && NormalHostConfig(env, value.(host := env.normalHost(value.host).value)).Some?
    && forall h :: h in c.hosts && h.host == env.normalHost(value.host).value ==>
         h.host == env.normalHost(existing).value
  }

  lemma TwiceNamed(env: Environment, name: string)
    requires Sane(env) && env.normalHost(name).Some?
    ensures env.normalHost(env.normalHost(name).value) == env.normalHost(name)
  {
    var n := env.normalHost(name).value;
    assert env.normalHost(name) == Some(n);
  }

  lemma NormalName(env: Environment, h: Host)
    requires NormalHostConfig(env, h).Some?
    ensures env.normalHost(h.host) == Some(NormalHostConfig(env, h).value.host)
  {
  }

  /** The replaced hosts have a normal form exactly when the new one has, under a name no other host bears. */
  lemma ReplaceableHosts(env: Environment, hosts: seq<Host>, index: nat, value: Host, replaced: seq<Host>)
    requires HostsNormal(env, hosts, hosts) && index < |hosts| && env.normalHost(value.host) == Some(value.host)
    requires replaced == hosts[index := value]
    ensures (exists x :: HostsNormal(env, replaced, x)) <==>
              NormalHostConfig(env, value).Some?
              && forall i :: 0 <= i < |hosts| && i != index ==> hosts[i].host != value.host
  {
    hide NormalHostConfig;
    if exists x :: HostsNormal(env, replaced, x) {
      var x :| HostsNormal(env, replaced, x);
      assert NormalHostConfig(env, replaced[index]) == Some(x[index]);
      NormalName(env, value);
      forall i | 0 <= i < |hosts| && i != index
        ensures hosts[i].host != value.host
      {
        assert NormalHostConfig(env, replaced[i]) == Some(x[i]) && x[i] == hosts[i];
        assert HostNames(x)[i] != HostNames(x)[index];
      }
    }
    if NormalHostConfig(env, value).Some?
       && forall i :: 0 <= i < |hosts| && i != index ==> hosts[i].host != value.host
    {
      NormalName(env, value);
      var x := hosts[index := NormalHostConfig(env, value).value];
      forall i, j | 0 <= i < j < |x|
        ensures HostNames(x)[i] != HostNames(x)[j]
      {
        assert HostNames(hosts)[i] != HostNames(hosts)[j];
      }
      assert HostsNormal(env, replaced, x);
    }
  }

  /** Methods that follow their host stay normal. */
  lemma FollowingIsNormal(
    env: Environment, names: set<string>, after: set<string>, methods: Option<seq<AuthMethod>>, existing: string,
    name: string)
    requires MethodsNormal(env, names, methods, methods) && env.normalHost(name) == Some(name)
    requires name in after && names - {existing} <= after
    ensures MethodsNormal(env, after, RenamedMethods(methods, existing, name),
              RenamedMethods(methods, existing, name))
  {
    if methods.Some? {
      var renamed := RenamedMethods(methods, existing, name).value;
      forall i | 0 <= i < |renamed|
        ensures NormalMethod(env, after, renamed[i]) == Some(renamed[i])
      {
        assert NormalMethod(env, names, methods.value[i]) == Some(methods.value[i]);
      }
      assert MethodIds(renamed) == MethodIds(methods.value);
    }
  }

  lemma NamesAfter(hosts: seq<Host>, x: seq<Host>, index: nat, name: string)
    requires index < |hosts| == |x| && Distinct(HostNames(hosts)) && x[index].host == name
    requires forall i :: 0 <= i < |hosts| && i != index ==> x[i] == hosts[i]
    ensures name in Range(HostNames(x)) && Range(HostNames(hosts)) - {hosts[index].host} <= Range(HostNames(x))
  {
    assert HostNames(x)[index] == name;
    forall n | n in Range(HostNames(hosts)) && n != hosts[index].host
      ensures n in Range(HostNames(x))
    {
      var i :| 0 <= i < |hosts| && HostNames(hosts)[i] == n;
      assert HostNames(x)[i] == n;
    }
  }

  /** The updated configuration has a normal form exactly when its hosts have one. */
  lemma UpdatedIsNormalIff(
    env: Environment, c: Config, updated: Config, existing: string, value: Host, index: nat)
    requires Sane(env) && IsNormal(env, c, c) && index < |c.hosts| && c.hosts[index].host == existing
    requires env.normalHost(value.host) == Some(value.host)
    requires updated == c.(hosts := c.hosts[index := value],
                       authMethods := RenamedMethods(c.authMethods, existing, value.host))
    ensures (exists x :: IsNormal(env, updated, x)) <==> exists x :: HostsNormal(env, updated.hosts, x)
  {
    hide Sane, LabelsNormal, PromptsNormal, NormalSkipped, NormalLanguage, MethodsNormal, NormalHostConfig;
    if exists x :: HostsNormal(env, updated.hosts, x) {
      var x :| HostsNormal(env, updated.hosts, x);
      assert NormalHostConfig(env, updated.hosts[index]) == Some(x[index]);
      NormalName(env, value);
      assert forall i :: 0 <= i < |c.hosts| && i != index ==> updated.hosts[i] == c.hosts[i];
      NamesAfter(c.hosts, x, index, value.host);
      FollowingIsNormal(env, Range(HostNames(c.hosts)), Range(HostNames(x)), c.authMethods, existing, value.host);
      assert IsNormal(env, updated, updated.(hosts := x));
    }
  }

  lemma ReplaceableIff(
    env: Environment, c: Config, updated: Config, existing: string, value: Host, index: nat)
    requires Sane(env) && IsNormal(env, c, c) && index < |c.hosts| && c.hosts[index].host == existing
    requires env.normalHost(value.host) == Some(value.host)
    requires updated == c.(hosts := c.hosts[index := value],
                       authMethods := RenamedMethods(c.authMethods, existing, value.host))
    ensures (exists x :: IsNormal(env, updated, x)) <==>
              NormalHostConfig(env, value).Some?
              && forall h :: h in c.hosts && h.host == value.host ==> h.host == existing
  {
    hide IsNormal, NormalHostConfig, Sane;
    UpdatedIsNormalIff(env, c, updated, existing, value, index);
    HostsOfNormal(env, c);
    ReplaceableHosts(env, c.hosts, index, value, updated.hosts);
    assert forall i :: 0 <= i < |c.hosts| ==> c.hosts[i] in c.hosts;
    forall i | 0 <= i < |c.hosts| && i != index
      ensures c.hosts[i].host != existing
    {
      assert HostNames(c.hosts)[i] != HostNames(c.hosts)[index];
    }
  }

  lemma HostsOfNormal(env: Environment, c: Config)
    requires IsNormal(env, c, c)
    ensures HostsNormal(env, c.hosts, c.hosts) && Distinct(HostNames(c.hosts))
  {
  }

  lemma ReplacedHosts(
    env: Environment, before: seq<Host>, after: seq<Host>, existing: string, value: Host, index: nat)
    requires HostsNormal(env, before, before) && index < |before| && before[index].host == existing
    requires HostsNormal(env, before[index := value], after)
    ensures |after| == |before|
    ensures forall i :: 0 <= i < |before| ==>
              (Some(after[i]) == if before[i].host == existing then NormalHostConfig(env, value) else Some(before[i]))
  {
  }

  lemma RenamedAreNormal(
    env: Environment, names: set<string>, after: set<string>, methods: Option<seq<AuthMethod>>,
    r: Option<seq<AuthMethod>>, existing: string, name: string)
    requires MethodsNormal(env, names, methods, methods) && env.normalHost(name) == Some(name)
    requires MethodsNormal(env, after, RenamedMethods(methods, existing, name), r)
    ensures r == RenamedMethods(methods, existing, name)
  {
    if r.Some? {
      var renamed := RenamedMethods(methods, existing, name).value;
      forall i | 0 <= i < |r.value|
        ensures r.value[i] == renamed[i]
      {
        assert NormalMethod(env, names, methods.value[i]) == Some(methods.value[i]);
        assert NormalMethod(env, after, renamed[i]) == Some(r.value[i]);
      }
      assert r.value == renamed;
    }
  }

  lemma ReplacedHost(
    env: Environment, before: Config, updated: Config, after: Config, existing: string, value: Host, index: nat)
    requires Sane(env) && IsNormal(env, before, before) && IsNormal(env, updated, after)
    requires index < |before.hosts| && before.hosts[index].host == existing
    requires env.normalHost(value.host) == Some(value.host)
    requires updated == before.(hosts := before.hosts[index := value],
                       authMethods := RenamedMethods(before.authMethods, existing, value.host))
    ensures HostReplaced(env, before, after, existing, value)
  {
    ReplacedHosts(env, before.hosts, after.hosts, existing, value, index);
    RenamedAreNormal(env, Range(HostNames(before.hosts)), Range(HostNames(after.hosts)), before.authMethods,
      after.authMethods, existing, value.host);
    LabelsFixed(env, before.labels, after.labels);
  }
}
