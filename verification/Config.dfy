/**
  The configuration of internal/config/config.go: its normal form, and the stored form that leaves defaults out.
  URL parsing, host and version syntax and the locale are parameters.
 */
module Configuration {
  import opened Text
  import opened Status
  import opened Prompt

  datatype Host = Host(host: string, webUrl: string, apiUrl: string, uploadUrl: string, graphqlUrl: string)

  datatype AuthMethod = AuthMethod(
    id: string, host: string, kind: string, account: string, service: string, variable: string, token: string,
    user: string)

  /** authMethods is None when the key is missing: credentials are then discovered; an empty list disables that. */
  datatype Config = Config(
    version: int, language: string, hosts: seq<Host>, authMethods: Option<seq<AuthMethod>>, interval: int,
    port: int, skipped: string, prompts: Templates, labels: Option<map<string, string>>)

  /** What the program takes from elsewhere; a normaliser yields None for what it rejects. */
  datatype Environment = Environment(
    locale: string, defaults: string -> Templates, normalHost: string -> Option<string>,
    normalUrl: (string, bool) -> Option<string>, urlHost: string -> string, version: string -> Option<string>,
    labelText: string -> Option<string>, labelKeys: set<string>, isAuthId: string -> bool, isVariable: string -> bool)

  /** Normalising twice is normalising once, and nothing normal is empty. */
  ghost predicate Sane(env: Environment) {
    && (forall h, n :: env.normalHost(h) == Some(n) ==> env.normalHost(n) == Some(n))
    && (forall u, s, n :: env.normalUrl(u, s) == Some(n) ==> n != "" && env.normalUrl(n, s) == Some(n))
    && (forall v, n :: env.version(v) == Some(n) ==> n != "" && Trim(n) == n && env.version(n) == Some(n))
    && (forall v, n :: env.labelText(v) == Some(n) ==> env.labelText(n) == Some(n))
    && (forall k :: k in env.labelKeys ==> Lower(Trim(k)) == k)
  }

  const CURRENT_VERSION: int := 1
  const DEFAULT_INTERVAL: int := 3600
  const MINIMUM_INTERVAL: int := 600

  const DEFAULT_HOST: Host := Host("github.com", "https://github.com", "https://api.github.com/",
                                  "https://uploads.github.com/", "https://api.github.com/graphql")

  // ----- language -----

  /** ParseLanguage. */
  function ParseLanguage(value: string): Option<string> {
    var v := Lower(Trim(value));
    if v == "en" then Some("en") else if v == "ja" then Some("ja") else None
  }

  /** normalizeLanguage: a missing key means auto. */
  function NormalLanguage(value: string): Option<string> {
    var v := Lower(Trim(value));
    if v == "" || v == "auto" then Some("auto") else ParseLanguage(v)
  }

  function Effective(env: Environment, setting: string): string {
    ParseLanguage(setting).GetOr(env.locale)
  }

  lemma ShortWords()
    ensures Trim("auto") == "auto" && Lower("auto") == "auto" && Trim("en") == "en" && Lower("en") == "en"
    ensures Trim("ja") == "ja" && Lower("ja") == "ja" && Trim("") == "" && Lower("") == ""
  {
    assert Lower("auto") == "auto" && Lower("en") == "en" && Lower("ja") == "ja" && Lower("") == "";
  }

  lemma LanguageTwice(value: string)
    ensures NormalLanguage(value).Some? ==> NormalLanguage(NormalLanguage(value).value) == NormalLanguage(value)
    ensures NormalLanguage(value).Some? ==> NormalLanguage(value).value in {"auto", "en", "ja"}
  {
    ShortWords();
    if NormalLanguage(value).Some? {
      var v := Lower(Trim(value));
      if v != "" && v != "auto" {
        assert ParseLanguage(v) == Some("en") || ParseLanguage(v) == Some("ja");
      }
    }
  }

  // ----- hosts -----

  function OrElse(value: string, default: string): string {
    if value == "" then default else value
  }

  /** Missing URLs follow from the host name. */
  function FilledHost(h: Host, name: string): Host {
    if name == "github.com" then
      Host(name, OrElse(h.webUrl, DEFAULT_HOST.webUrl), OrElse(h.apiUrl, DEFAULT_HOST.apiUrl),
        OrElse(h.uploadUrl, DEFAULT_HOST.uploadUrl), OrElse(h.graphqlUrl, DEFAULT_HOST.graphqlUrl))
    else
      Host(name, OrElse(h.webUrl, "https://" + name), OrElse(h.apiUrl, "https://" + name + "/api/v3/"),
        OrElse(h.uploadUrl, "https://" + name + "/api/uploads/"),
        OrElse(h.graphqlUrl, "https://" + name + "/api/graphql"))
  }

  predicate OnOrigins(env: Environment, h: Host) {
    var at := (u: string) => Lower(env.urlHost(u));
    && at(h.webUrl) == h.host
    && (if h.host == "github.com" then
          at(h.apiUrl) in {"api.github.com", "github.com"} && at(h.uploadUrl) in {"uploads.github.com", "github.com"}
          && at(h.graphqlUrl) in {"api.github.com", "github.com"}
        else at(h.apiUrl) == h.host && at(h.uploadUrl) == h.host && at(h.graphqlUrl) == h.host)
  }

  /** normalizeHostConfig. */
  function NormalHostConfig(env: Environment, h: Host): Option<Host> {
    match env.normalHost(h.host)
    case None => None
    case Some(name) =>
      var f := FilledHost(h, name);
      var web, api := env.normalUrl(f.webUrl, false), env.normalUrl(f.apiUrl, true);
      var upload, graphql := env.normalUrl(f.uploadUrl, true), env.normalUrl(f.graphqlUrl, false);
      if web.None? || api.None? || upload.None? || graphql.None? then None
      else
        var n := Host(name, web.value, api.value, upload.value, graphql.value);
        if OnOrigins(env, n) then Some(n) else None
  }

  lemma HostTwice(env: Environment, h: Host)
    requires Sane(env) && NormalHostConfig(env, h).Some?
    ensures NormalHostConfig(env, NormalHostConfig(env, h).value) == NormalHostConfig(env, h)
  {
    var n := NormalHostConfig(env, h).value;
    assert env.normalHost(n.host) == Some(n.host);
    assert FilledHost(n, n.host) == n;
  }

  // ----- authentication methods -----

  predicate IsKind(kind: string) {
    kind in {"keychain", "environment", "inline", "gh_cli"}
  }

  /** validateAuthMethod. */
  predicate ValidMethod(env: Environment, m: AuthMethod) {
    && (m.kind == "inline" || Trim(m.token) == "")
    && IsKind(m.kind)
    && (m.kind == "keychain" ==> Trim(m.account) != "" && Trim(m.service) != "")
    && (m.kind == "environment" ==> env.isVariable(Trim(m.variable)))
    && (m.kind == "inline" ==> Trim(m.token) != "")
  }

  function NormalMethod(env: Environment, hosts: set<string>, m: AuthMethod): Option<AuthMethod> {
    match env.normalHost(m.host)
    case None => None
    case Some(name) =>
      var n := m.(id := Trim(m.id), host := name, kind := Lower(Trim(m.kind)));
      if !env.isAuthId(n.id) || name !in hosts || !ValidMethod(env, n) then None
      else Some(n.(token := Trim(n.token)))
  }

  lemma KindTwice(kind: string)
    requires IsKind(kind)
    ensures Lower(Trim(kind)) == kind
  {
    assert Lower("keychain") == "keychain" && Lower("environment") == "environment";
    assert Lower("inline") == "inline" && Lower("gh_cli") == "gh_cli";
    assert Trim("keychain") == "keychain" && Trim("environment") == "environment";
    assert Trim("inline") == "inline" && Trim("gh_cli") == "gh_cli";
  }

  lemma MethodTwice(env: Environment, hosts: set<string>, m: AuthMethod)
    requires Sane(env) && NormalMethod(env, hosts, m).Some?
    ensures NormalMethod(env, hosts, NormalMethod(env, hosts, m).value) == NormalMethod(env, hosts, m)
  {
    var n := NormalMethod(env, hosts, m).value;
    TrimTwice(m.id);
    TrimTwice(m.token);
    KindTwice(n.kind);
    assert env.normalHost(n.host) == Some(n.host);
  }

  // ----- the normal form -----

  function HostNames(hosts: seq<Host>): (r: seq<string>)
    ensures |r| == |hosts| && forall i :: 0 <= i < |hosts| ==> r[i] == hosts[i].host
  {
    seq(|hosts|, i requires 0 <= i < |hosts| => hosts[i].host)
  }

  function MethodIds(methods: seq<AuthMethod>): (r: seq<string>)
    ensures |r| == |methods| && forall i :: 0 <= i < |methods| ==> r[i] == methods[i].id
  {
    seq(|methods|, i requires 0 <= i < |methods| => methods[i].id)
  }

  predicate HostsNormal(env: Environment, hosts: seq<Host>, r: seq<Host>) {
    var given := if hosts == [] then [DEFAULT_HOST] else hosts;
    && |r| == |given|
    && (forall i :: 0 <= i < |given| ==> NormalHostConfig(env, given[i]) == Some(r[i]))
    && Distinct(HostNames(r))
  }

  predicate MethodsNormal(
    env: Environment, hosts: set<string>, methods: Option<seq<AuthMethod>>, r: Option<seq<AuthMethod>>)
  {
    && (r.Some? <==> methods.Some?)
    && (methods.Some? ==>
          && |r.value| == |methods.value|
          && (forall i :: 0 <= i < |methods.value| ==>
                NormalMethod(env, hosts, methods.value[i]) == Some(r.value[i]))
          && Distinct(MethodIds(r.value)))
  }

  function LabelKey(key: string): string {
    Lower(Trim(key))
  }

  predicate LabelFrom(env: Environment, labels: map<string, string>, key: string, value: string) {
    exists k :: k in labels && LabelKey(k) == key && env.labelText(labels[k]) == Some(value)
  }

  /** Of keys that differ in case only, any may win; empty overrides are dropped. */
  predicate LabelsNormal(env: Environment, labels: Option<map<string, string>>, r: Option<map<string, string>>) {
    && (r.Some? <==> labels.Some?)
    && (labels.Some? ==>
          && (forall k :: k in labels.value ==>
                LabelKey(k) in env.labelKeys && env.labelText(labels.value[k]).Some?
                && (env.labelText(labels.value[k]).value != "" ==> LabelKey(k) in r.value))
          && (forall key :: key in r.value ==>
                r.value[key] != "" && LabelFrom(env, labels.value, key, r.value[key])))
  }

  function FilledInterval(interval: int): int {
    if interval == 0 then DEFAULT_INTERVAL else interval
  }

  function NormalSkipped(env: Environment, skipped: string): Option<string> {
    if Trim(skipped) == "" then Some("") else env.version(Trim(skipped))
  }

  predicate PromptsNormal(env: Environment, language: string, prompts: Templates, r: Templates) {
    r == WithDefaults(prompts, env.defaults(Effective(env, language))) && AllValid(r)
  }

  /** Normalize turns c into r. */
  predicate IsNormal(env: Environment, c: Config, r: Config) {
    && c.version == CURRENT_VERSION && r.version == c.version
    && NormalLanguage(c.language) == Some(r.language)
    && PromptsNormal(env, r.language, c.prompts, r.prompts)
    && LabelsNormal(env, c.labels, r.labels)
    && HostsNormal(env, c.hosts, r.hosts)
    && MethodsNormal(env, Range(HostNames(r.hosts)), c.authMethods, r.authMethods)
    && FilledInterval(c.interval) == r.interval && r.interval >= MINIMUM_INTERVAL
    && 0 <= c.port <= 65535 && r.port == c.port
    && NormalSkipped(env, c.skipped) == Some(r.skipped)
  }

  lemma LabelsTwice(env: Environment, labels: Option<map<string, string>>, r: Option<map<string, string>>)
    requires Sane(env) && LabelsNormal(env, labels, r)
    ensures LabelsNormal(env, r, r)
  {
    if r.Some? {
      forall key | key in r.value
        ensures LabelKey(key) == key && key in env.labelKeys && env.labelText(r.value[key]) == Some(r.value[key])
      {
        var k :| k in labels.value && LabelKey(k) == key && env.labelText(labels.value[k]) == Some(r.value[key]);
      }
    }
  }

  /** Normal labels have no keys that differ in case only, so normalising them again changes nothing. */
  /** A label of a normal map keeps its key and its text. */
  lemma LabelFixed(env: Environment, labels: map<string, string>, key: string)
    requires Sane(env) && LabelsNormal(env, Some(labels), Some(labels)) && key in labels
    ensures LabelKey(key) == key && env.labelText(labels[key]) == Some(labels[key])
  {
    assert LabelFrom(env, labels, key, labels[key]);
  }

  lemma LabelOrigin(env: Environment, labels: map<string, string>, key: string, value: string)
    requires Sane(env) && LabelsNormal(env, Some(labels), Some(labels)) && LabelFrom(env, labels, key, value)
    ensures key in labels && labels[key] == value
  {
    hide Sane, LabelsNormal;
    var k :| k in labels && LabelKey(k) == key && env.labelText(labels[k]) == Some(value);
    LabelFixed(env, labels, k);
  }

  lemma LabelsFixed(env: Environment, r: Option<map<string, string>>, again: Option<map<string, string>>)
    requires Sane(env) && LabelsNormal(env, r, r) && LabelsNormal(env, r, again)
    ensures again == r
  {
    hide Sane, LabelFrom;
    if r.Some? {
      forall key | key in again.value
        ensures key in r.value && again.value[key] == r.value[key]
      {
        LabelOrigin(env, r.value, key, again.value[key]);
      }
      forall key | key in r.value
        ensures key in again.value
      {
        LabelFixed(env, r.value, key);
      }
      assert again.value == r.value;
    }
  }

  lemma HostsTwice(env: Environment, hosts: seq<Host>, r: seq<Host>)
    requires Sane(env) && HostsNormal(env, hosts, r)
    ensures HostsNormal(env, r, r)
  {
    var given := if hosts == [] then [DEFAULT_HOST] else hosts;
    forall i | 0 <= i < |r|
      ensures NormalHostConfig(env, r[i]) == Some(r[i])
    {
      assert 0 <= i < |given| && NormalHostConfig(env, given[i]) == Some(r[i]);
      HostTwice(env, given[i]);
    }
  }

  lemma MethodsTwice(
    env: Environment, hosts: set<string>, methods: Option<seq<AuthMethod>>, r: Option<seq<AuthMethod>>)
    requires Sane(env) && MethodsNormal(env, hosts, methods, r)
    ensures MethodsNormal(env, hosts, r, r)
  {
    if r.Some? {
      forall i | 0 <= i < |r.value|
        ensures NormalMethod(env, hosts, r.value[i]) == Some(r.value[i])
      {
        MethodTwice(env, hosts, methods.value[i]);
      }
    }
  }

  lemma SkippedTwice(env: Environment, skipped: string)
    requires Sane(env) && NormalSkipped(env, skipped).Some?
    ensures NormalSkipped(env, NormalSkipped(env, skipped).value) == NormalSkipped(env, skipped)
  {
    ShortWords();
    if Trim(skipped) != "" {
      var n := env.version(Trim(skipped)).value;
      assert env.version(Trim(skipped)) == Some(n);
    }
  }

  /** What Normalize yields is normal. */
  lemma NormalTwice(env: Environment, c: Config, r: Config)
    requires Sane(env) && IsNormal(env, c, r)
    ensures IsNormal(env, r, r)
  {
    hide Sane, LabelsNormal, HostsNormal, MethodsNormal, NormalSkipped, AllValid, WithDefaults, NormalLanguage;
    LanguageTwice(c.language);
    ResolvedIsFixedPoint(r.prompts, env.defaults(Effective(env, r.language)));
    LabelsTwice(env, c.labels, r.labels);
    HostsTwice(env, c.hosts, r.hosts);
    MethodsTwice(env, Range(HostNames(r.hosts)), c.authMethods, r.authMethods);
    SkippedTwice(env, c.skipped);
  }

  /** Normalize leaves a normal configuration as it is. */
  lemma NormalIsFixed(env: Environment, r: Config, again: Config)
    requires Sane(env) && IsNormal(env, r, r) && IsNormal(env, r, again)
    ensures again == r
  {
    LabelsFixed(env, r.labels, again.labels);
    hide Sane, LabelsNormal, NormalSkipped, AllValid, WithDefaults, NormalLanguage, NormalHostConfig, NormalMethod;
    assert again.hosts == r.hosts;
    assert again.authMethods == r.authMethods by {
      if r.authMethods.Some? {
        assert again.authMethods.value == r.authMethods.value;
      }
    }
  }

  // ----- the stored form -----

  /** The file: a missing key is None. */
  datatype Stored = Stored(
    version: int, language: Option<string>, hosts: seq<Host>, authMethods: Option<seq<AuthMethod>>, interval: int,
    port: string, skipped: Option<string>, design: Option<string>, implementation: Option<string>,
    batch: Option<string>, batchDesign: Option<string>, labels: Option<map<string, string>>)

  function PortText(port: int): string
    requires port >= 0
  {
    if port == 0 then "auto" else Decimal(port)
  }

  predicate IsDigit(c: char) {
    '0' <= c <= '9'
  }

  /** strconv.Atoi of digits after an optional plus sign; what has a minus sign is never a port. */
  function ParseNumber(s: string): Option<nat> {
    if s != "" && s[0] == '+' then ParseDecimal(s[1..]) else ParseDecimal(s)
  }

  function ParseDecimal(s: string): Option<nat> {
    if s == "" || !IsDigit(s[|s| - 1]) then None
    else if |s| == 1 then Some(s[0] as int - '0' as int)
    else
      match ParseDecimal(s[..|s| - 1])
      case None => None
      case Some(n) => Some(10 * n + (s[|s| - 1] as int - '0' as int))
  }

  /** ParseServerPort. */
  function ParsePort(value: string): Option<int> {
    var v := Lower(Trim(value));
    if v == "" || v == "auto" || v == "null" || v == "~" then Some(0)
    else
      match ParseNumber(v)
      case None => None
      case Some(n) => if 1 <= n <= 65535 then Some(n) else None
  }

  lemma {:induction false} DecimalParses(n: nat)
    ensures ParseDecimal(Decimal(n)) == Some(n)
    decreases n
  {
    if n >= 10 {
      DecimalParses(n / 10);
      var s := Decimal(n);
      assert s[..|s| - 1] == Decimal(n / 10) && s[|s| - 1] == Digit(n % 10);
    }
  }

  lemma {:induction false} DecimalIsDigits(n: nat)
    ensures forall i :: 0 <= i < |Decimal(n)| ==> IsDigit(Decimal(n)[i])
    decreases n
  {
    if n >= 10 {
      DecimalIsDigits(n / 10);
    }
  }

  lemma DigitsStay(s: string)
    requires s != "" && forall i :: 0 <= i < |s| ==> IsDigit(s[i])
    ensures Lower(Trim(s)) == s
  {
    assert TrimLeft(s) == s && TrimRight(s) == s;
    assert Lower(s) == s;
  }

  /** A port is read back as it was written; auto never turns into a number. */
  lemma PortRoundTrip(port: int)
    requires 0 <= port <= 65535
    ensures ParsePort(PortText(port)) == Some(port)
  {
    ShortWords();
    if port > 0 {
      DecimalIsDigits(port);
      DecimalParses(port);
      DigitsStay(Decimal(port));
      assert IsDigit(Decimal(port)[0]);
    }
  }

  lemma {:induction false} MinusIsNoDigit(n: nat)
    ensures ParseDecimal(['-'] + Decimal(n)) == None
    decreases n
  {
    var s := ['-'] + Decimal(n);
    assert |Decimal(n)| >= 1 && s[|s| - 1] == Decimal(n)[|Decimal(n)| - 1];
    if n >= 10 {
      MinusIsNoDigit(n / 10);
      assert s[..|s| - 1] == ['-'] + Decimal(n / 10);
    } else {
      assert s[..|s| - 1] == ['-'];
    }
  }

  /** Text with a sign in front is none of the words for an automatic port, and is taken as it stands. */
  lemma SignStays(sign: char, s: string)
    requires (sign == '+' || sign == '-') && s != "" && forall i :: 0 <= i < |s| ==> IsDigit(s[i])
    ensures Lower(Trim([sign] + s)) == [sign] + s
    ensures [sign] + s != "" && [sign] + s != "auto" && [sign] + s != "null" && [sign] + s != "~"
  {
    var v := [sign] + s;
    assert v[0] == sign;
    assert TrimLeft(v) == v && TrimRight(v) == v;
    assert Lower(v) == v;
  }

  /** A plus sign in front of a port is read over; with a minus sign it is rejected. */
  lemma SignedPort(port: int)
    requires 0 < port <= 65535
    ensures ParsePort(['+'] + Decimal(port)) == Some(port) && ParsePort(['-'] + Decimal(port)) == None
  {
    hide ParseDecimal, Decimal, Lower, Trim, IsDigit;
    DecimalIsDigits(port);
    DecimalParses(port);
    MinusIsNoDigit(port);
    SignStays('+', Decimal(port));
    SignStays('-', Decimal(port));
    assert (['+'] + Decimal(port))[1..] == Decimal(port);
  }

  function Unless(value: string, default: string): Option<string> {
    if value == default || value == "" then None else Some(value)
  }

  /** MarshalYAML: what a missing key would mean is not written. */
  function Save(env: Environment, c: Config): Stored
    requires c.port >= 0
  {
    var defaults := env.defaults(Effective(env, c.language));
    Stored(c.version, if c.language == "" || c.language == "auto" then None else Some(c.language), c.hosts,
      c.authMethods, c.interval, PortText(c.port), if c.skipped == "" then None else Some(c.skipped),
      Unless(c.prompts.design, defaults.design), Unless(c.prompts.implementation, defaults.implementation),
      Unless(c.prompts.batch, defaults.batch), Unless(c.prompts.batchDesign, defaults.batchDesign),
      if c.labels.Some? && c.labels.value != map[] then c.labels else None)
  }

  /** Decoding: a missing key reads as its zero value. */
  function Decode(s: Stored): Option<Config> {
    match ParsePort(s.port)
    case None => None
    case Some(port) =>
      Some(Config(s.version, s.language.GetOr(""), s.hosts, s.authMethods, s.interval, port, s.skipped.GetOr(""),
        Templates(s.design.GetOr(""), s.implementation.GetOr(""), s.batch.GetOr(""), s.batchDesign.GetOr("")),
        s.labels))
  }

  /** An empty label map is written as a missing one. */
  function WithoutEmptyLabels(c: Config): Config {
    if c.labels == Some(map[]) then c.(labels := None) else c
  }

  lemma PromptRefilled(value: string, default: string)
    requires !IsBlank(value)
    ensures OrDefault(Unless(value, default).GetOr(""), default) == value
  {
    ShortWords();
  }

  lemma PromptsRefilled(env: Environment, c: Config, d: Config)
    requires IsNormal(env, c, c) && Decode(Save(env, c)) == Some(d)
    ensures PromptsNormal(env, c.language, d.prompts, c.prompts)
  {
    hide HostsNormal, MethodsNormal, LabelsNormal, IsValid;
    var defaults := env.defaults(Effective(env, c.language));
    ValidIsNotBlank(c.prompts.design, false);
    ValidIsNotBlank(c.prompts.implementation, false);
    ValidIsNotBlank(c.prompts.batch, true);
    ValidIsNotBlank(c.prompts.batchDesign, true);
    PromptRefilled(c.prompts.design, defaults.design);
    PromptRefilled(c.prompts.implementation, defaults.implementation);
    PromptRefilled(c.prompts.batch, defaults.batch);
    PromptRefilled(c.prompts.batchDesign, defaults.batchDesign);
  }

  lemma DecodedIs(env: Environment, c: Config)
    requires IsNormal(env, c, c)
    ensures Decode(Save(env, c)).Some?
    ensures var d := Decode(Save(env, c)).value;
            d == WithoutEmptyLabels(c).(language := d.language, prompts := d.prompts)
            && NormalLanguage(d.language) == Some(c.language)
  {
    hide HostsNormal, MethodsNormal, LabelsNormal, PromptsNormal;
    PortRoundTrip(c.port);
    hide ParsePort, PortText;
    ShortWords();
    LanguageTwice(c.language);
  }

  lemma EmptyLabelsDropped(env: Environment, c: Config)
    requires IsNormal(env, c, c)
    ensures IsNormal(env, WithoutEmptyLabels(c), WithoutEmptyLabels(c))
  {
    hide HostsNormal, MethodsNormal, PromptsNormal;
  }

  /** Saving and loading a normal configuration gives it back, with missing and empty auth_methods kept apart. */
  lemma SaveLoadRoundTrip(env: Environment, c: Config)
    requires Sane(env) && IsNormal(env, c, c)
    ensures var d := Decode(Save(env, c));
            d.Some? && IsNormal(env, d.value, WithoutEmptyLabels(c))
            && forall r :: IsNormal(env, d.value, r) ==> r == WithoutEmptyLabels(c)
  {
    hide Sane, LabelsNormal, HostsNormal, MethodsNormal, NormalSkipped, PromptsNormal, NormalLanguage, Decode, Save;
    DecodedIs(env, c);
    var d, plain := Decode(Save(env, c)).value, WithoutEmptyLabels(c);
    PromptsRefilled(env, c, d);
    EmptyLabelsDropped(env, c);
    assert IsNormal(env, d, plain);
    forall r | IsNormal(env, d, r)
      ensures r == plain
    {
      SameButPrompts(env, plain, d, r);
    }
  }

  lemma SameButPrompts(env: Environment, plain: Config, d: Config, r: Config)
    requires Sane(env) && IsNormal(env, plain, plain) && IsNormal(env, d, plain) && IsNormal(env, d, r)
    requires d == plain.(language := d.language, prompts := d.prompts)
    ensures r == plain
  {
    hide Sane, LabelsNormal, HostsNormal, MethodsNormal, NormalSkipped, AllValid, WithDefaults, NormalLanguage;
    assert r.language == plain.language && r.prompts == plain.prompts;
    assert IsNormal(env, plain, r);
    NormalIsFixed(env, plain, r);
  }
}
