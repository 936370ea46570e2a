/** Prompt templates: the placeholder scanner, validation, layering and rendering of internal/prompt/prompt.go. */
module Prompt {
  import opened Text
  import opened Status

  // ----- scanning -----

  /** A template is read as single characters and placeholders; inner is what stands between the braces. */
  datatype Segment = Plain(c: char) | Token(inner: string)

  predicate IsBrace(c: char) {
    c == '{' || c == '}'
  }

  /** The number of characters before the first brace. */
  function RunLength(s: string): (n: nat)
    ensures n <= |s| && (forall i :: 0 <= i < n ==> !IsBrace(s[i])) && (n < |s| ==> IsBrace(s[n]))
  {
    if s == "" || IsBrace(s[0]) then 0 else 1 + RunLength(s[1..])
  }

  /** The pattern matches here: two opening braces, no brace, two closing braces. */
  ghost predicate MatchesWith(s: string, n: nat) {
    && n + 4 <= |s| && s[0] == '{' && s[1] == '{' && s[n + 2] == '}' && s[n + 3] == '}'
    && forall i :: 2 <= i < n + 2 ==> !IsBrace(s[i])
  }

  /** A match ends where the first brace after its opening is. */
  lemma OneMatch(s: string, n: nat)
    requires |s| >= 4 && n == RunLength(s[2..])
    ensures forall m: nat :: MatchesWith(s, m) ==> m == n
    ensures forall i :: 2 <= i < n + 2 ==> !IsBrace(s[i])
  {
  }

  /** The text between the braces of a match at the start of s, if there is one. */
  function MatchHere(s: string): (r: Option<string>)
    ensures r.Some? ==> MatchesWith(s, |r.value|) && r.value == s[2..|r.value| + 2]
    ensures r.None? ==> forall n: nat :: !MatchesWith(s, n)
  {
    if |s| < 4 || s[0] != '{' || s[1] != '{' then None
    else
      var n := RunLength(s[2..]);
      OneMatch(s, n);
      if n + 4 <= |s| && s[n + 2] == '}' && s[n + 3] == '}' then Some(s[2..n + 2]) else None
  }

  /** Leftmost matches that do not overlap, and everything between them. */
  function Scan(s: string): (r: seq<Segment>)
    decreases |s|
  {
    if s == "" then []
    else
      match MatchHere(s)
      case Some(inner) => [Token(inner)] + Scan(s[|inner| + 4..])
      case None => [Plain(s[0])] + Scan(s[1..])
  }

  function TextOf(segment: Segment): string {
    match segment
    case Plain(c) => [c]
    case Token(inner) => "{{" + inner + "}}"
  }

  function Unscan(segments: seq<Segment>): string {
    if segments == [] then "" else TextOf(segments[0]) + Unscan(segments[1..])
  }

  lemma MatchedText(s: string, inner: string)
    requires MatchesWith(s, |inner|) && inner == s[2..|inner| + 2]
    ensures s == TextOf(Token(inner)) + s[|inner| + 4..]
  {
  }

  /** Nothing of a template is lost or made up by scanning it. */
  lemma {:induction false} ScanRoundTrip(s: string)
    ensures Unscan(Scan(s)) == s
    decreases |s|
  {
    if s != "" {
      match MatchHere(s)
      case Some(inner) =>
        var rest := s[|inner| + 4..];
        MatchedText(s, inner);
        hide MatchHere, MatchesWith, TextOf;
        ScanRoundTrip(rest);
        assert Scan(s)[1..] == Scan(rest);
      case None =>
        hide MatchHere, MatchesWith;
        ScanRoundTrip(s[1..]);
        assert Scan(s)[1..] == Scan(s[1..]);
    }
  }

  /** placeholderName: what stands between the braces, trimmed. */
  function NameOf(inner: string): string {
    Trim(inner)
  }

  function Names(segments: seq<Segment>): set<string> {
    set t | t in segments && t.Token? :: NameOf(t.inner)
  }

  // ----- validation -----

  datatype Kind = Design | Implementation | BatchKind | BatchDesign | Unspecified

  datatype TemplateError = TooLong(field: string) | Unsupported(field: string, inner: string) | Missing(field: string)
    | UnsupportedKind(field: string)

  /** The bytes a character takes in UTF-8 (section 3 of RFC 3629). */
  function Utf8Size(c: char): nat {
    if c as int < 0x80 then 1 else if c as int < 0x800 then 2 else if c as int < 0x1_0000 then 3 else 4
  }

  /** The length of a text in bytes, which is what its limit is about. */
  function ByteLength(s: string): (n: nat)
    ensures |s| <= n <= 4 * |s|
  {
    if s == "" then 0 else Utf8Size(s[0]) + ByteLength(s[1..])
  }

  const MAXIMUM_TEMPLATE_BYTES: nat := 8192

  const TASK_PLACEHOLDERS: seq<string> := ["task_id", "feature_id", "task_title", "task_scope"]

  const BATCH_PLACEHOLDERS: seq<string> := ["task_list", "feature_id"]

  predicate IsBatch(kind: Kind) {
    kind.BatchKind? || kind.BatchDesign?
  }

  function Supported(batch: bool): seq<string> {
    if batch then BATCH_PLACEHOLDERS else TASK_PLACEHOLDERS
  }

  function Required(batch: bool): string {
    if batch then "task_list" else "task_id"
  }

  /** Short enough, nothing unknown to be left standing, and aimed at its task or tasks. */
  predicate IsValid(value: string, batch: bool) {
    && ByteLength(value) <= MAXIMUM_TEMPLATE_BYTES
    && (forall n :: n in Names(Scan(value)) ==> n in Supported(batch))
    && Required(batch) in Names(Scan(value))
  }

  lemma NamesNext(segments: seq<Segment>, i: nat)
    requires i < |segments|
    ensures Names(segments[..i + 1])
         == Names(segments[..i]) + if segments[i].Token? then {NameOf(segments[i].inner)} else {}
  {
  }

  /** The first placeholder of the template that is not known. */
  ghost predicate FirstUnsupported(segments: seq<Segment>, batch: bool, inner: string) {
    exists k :: 0 <= k < |segments| && segments[k] == Token(inner) && NameOf(inner) !in Supported(batch)
      && forall n :: n in Names(segments[..k]) ==> n in Supported(batch)
  }

  /** validateTemplate. */
  method ValidateTemplate(field: string, value: string, batch: bool) returns (failure: Option<TemplateError>)
    ensures failure.None? <==> IsValid(value, batch)
    ensures failure.Some? ==> failure.value.field == field
    ensures failure.Some? && failure.value.TooLong? <==> ByteLength(value) > MAXIMUM_TEMPLATE_BYTES
    ensures failure.Some? && failure.value.Unsupported? ==>
              FirstUnsupported(Scan(value), batch, failure.value.inner)
    ensures failure.Some? && failure.value.Missing? ==>
              Required(batch) !in Names(Scan(value)) && forall n :: n in Names(Scan(value)) ==> n in Supported(batch)
    ensures failure.Some? ==> !failure.value.UnsupportedKind?
  {
    if ByteLength(value) > MAXIMUM_TEMPLATE_BYTES {
      return Some(TooLong(field));
    }
    var segments := Scan(value);
    var found: set<string> := {};
    for i := 0 to |segments|
      invariant found == Names(segments[..i])
      invariant forall n :: n in found ==> n in Supported(batch)
    {
      NamesNext(segments, i);
      if segments[i].Token? {
        var name := NameOf(segments[i].inner);
        if name !in Supported(batch) {
          assert name in Names(segments);
          assert segments[i] == Token(segments[i].inner);
          return Some(Unsupported(field, segments[i].inner));
        }
        found := found + {name};
      }
    }
    assert segments[..|segments|] == segments;
    if Required(batch) !in found {
      return Some(Missing(field));
    }
    failure := None;
  }

  // ----- blank templates -----

  predicate IsBlank(s: string) {
    Trim(s) == ""
  }

  lemma {:induction false} TrimLeftKeeps(s: string, i: nat)
    requires i < |s| && !IsSpace(s[i])
    ensures s[i] in TrimLeft(s)
  {
    if IsSpace(s[0]) {
      TrimLeftKeeps(s[1..], i - 1);
    }
  }

  lemma {:induction false} TrimRightKeeps(s: string, c: char)
    requires c in s && !IsSpace(c)
    ensures c in TrimRight(s)
    decreases |s|
  {
    var last := |s| - 1;
    if IsSpace(s[last]) {
      assert s == s[..last] + [s[last]];
      TrimRightKeeps(s[..last], c);
    }
  }

  lemma {:induction false} TokenNeedsBrace(s: string, inner: string)
    requires Token(inner) in Scan(s)
    ensures '{' in s
    decreases |s|
  {
    if s != "" && MatchHere(s).None? {
      TokenNeedsBrace(s[1..], inner);
    }
  }

  /** A valid template is never blank, so it is never replaced by a default. */
  lemma ValidIsNotBlank(value: string, batch: bool)
    requires IsValid(value, batch)
    ensures !IsBlank(value)
  {
    var t :| t in Scan(value) && t.Token? && NameOf(t.inner) == Required(batch);
    TokenNeedsBrace(value, t.inner);
    var i :| 0 <= i < |value| && value[i] == '{';
    TrimLeftKeeps(value, i);
    TrimRightKeeps(TrimLeft(value), '{');
  }

  // ----- layering -----

  datatype Templates = Templates(design: string, implementation: string, batch: string, batchDesign: string)

  datatype Result = Normalized(value: Templates) | Rejected(error: TemplateError)

  predicate AllValid(t: Templates) {
    IsValid(t.design, false) && IsValid(t.implementation, false) && IsValid(t.batch, true)
    && IsValid(t.batchDesign, true)
  }

  function OrDefault(value: string, default: string): string {
    if IsBlank(value) then default else value
  }

  function WithDefaults(t: Templates, defaults: Templates): Templates {
    Templates(OrDefault(t.design, defaults.design), OrDefault(t.implementation, defaults.implementation),
      OrDefault(t.batch, defaults.batch), OrDefault(t.batchDesign, defaults.batchDesign))
  }

  /** The field of the first template that is not valid. */
  function FirstInvalid(t: Templates): Option<string> {
    if !IsValid(t.design, false) then Some("prompts.design")
    else if !IsValid(t.implementation, false) then Some("prompts.implementation")
    else if !IsValid(t.batch, true) then Some("prompts.batch")
    else if !IsValid(t.batchDesign, true) then Some("prompts.batch_design")
    else None
  }

  /** Normalize: blank templates become the built-in ones, and all are checked. */
  method Normalize(t: Templates, defaults: Templates) returns (r: Result)
    ensures r.Normalized? <==> AllValid(WithDefaults(t, defaults))
    ensures r.Normalized? ==> r.value == WithDefaults(t, defaults)
    ensures r.Rejected? ==> Some(r.error.field) == FirstInvalid(WithDefaults(t, defaults))
  {
    hide IsValid;
    var result := t;
    if IsBlank(result.design) {
      result := result.(design := defaults.design);
    }
    if IsBlank(result.implementation) {
      result := result.(implementation := defaults.implementation);
    }
    if IsBlank(result.batch) {
      result := result.(batch := defaults.batch);
    }
    if IsBlank(result.batchDesign) {
      result := result.(batchDesign := defaults.batchDesign);
    }
    var failure := ValidateTemplate("prompts.design", result.design, false);
    if failure.Some? {
      return Rejected(failure.value);
    }
    failure := ValidateTemplate("prompts.implementation", result.implementation, false);
    if failure.Some? {
      return Rejected(failure.value);
    }
    failure := ValidateTemplate("prompts.batch", result.batch, true);
    if failure.Some? {
      return Rejected(failure.value);
    }
    failure := ValidateTemplate("prompts.batch_design", result.batchDesign, true);
    if failure.Some? {
      return Rejected(failure.value);
    }
    r := Normalized(result);
  }

  function KindName(kind: Kind): string {
    match kind
    case Design => "design"
    case Implementation => "implementation"
    case BatchKind => "batch"
    case BatchDesign => "batch_design"
    case Unspecified => ""
  }

  function OverrideField(kind: Kind): string {
    "prompt_overrides." + KindName(kind)
  }

  /** ValidateOverride: the empty text inherits. */
  method ValidateOverride(kind: Kind, value: string) returns (failure: Option<TemplateError>)
    ensures failure.None? <==> value == "" || (!kind.Unspecified? && IsValid(value, IsBatch(kind)))
    ensures failure.Some? && !kind.Unspecified? ==> failure.value.field == OverrideField(kind)
  {
    if value == "" {
      return None;
    }
    if kind.Unspecified? {
      return Some(UnsupportedKind("prompt_overrides"));
    }
    failure := ValidateTemplate(OverrideField(kind), value, IsBatch(kind));
  }

  const OVERRIDE_ORDER: seq<Kind> := [Design, Implementation, BatchKind, BatchDesign]

  function Of(t: Templates, kind: Kind): string {
    match kind
    case Design => t.design
    case Implementation => t.implementation
    case BatchKind => t.batch
    case BatchDesign => t.batchDesign
    case Unspecified => t.design
  }

  function Set(t: Templates, kind: Kind, value: string): Templates {
    match kind
    case Design => t.(design := value)
    case Implementation => t.(implementation := value)
    case BatchKind => t.(batch := value)
    case BatchDesign => t.(batchDesign := value)
    case Unspecified => t.(design := value)
  }

  function Or(value: string, inherited: string): string {
    if value == "" then inherited else value
  }

  /** The templates of a scope, where it has any, over those it inherits. */
  function Over(overrides: Templates, inherited: Templates): Templates {
    Templates(Or(overrides.design, inherited.design), Or(overrides.implementation, inherited.implementation),
      Or(overrides.batch, inherited.batch), Or(overrides.batchDesign, inherited.batchDesign))
  }

  predicate OverridesValid(t: Templates) {
    forall k :: k in OVERRIDE_ORDER ==> OverrideValid(t, k)
  }

  predicate OverrideValid(t: Templates, kind: Kind) {
    Of(t, kind) == "" || IsValid(Of(t, kind), IsBatch(kind))
  }

  /** The error names the scope and the first kind whose override is invalid. */
  ghost predicate NamesFirstInvalid(overrides: Templates, scope: string, field: string) {
    exists i :: 0 <= i < |OVERRIDE_ORDER| && field == scope + "." + OverrideField(OVERRIDE_ORDER[i])
      && !OverrideValid(overrides, OVERRIDE_ORDER[i])
      && forall k :: k in OVERRIDE_ORDER[..i] ==> OverrideValid(overrides, k)
  }

  lemma FirstInvalidAt(overrides: Templates, scope: string, i: nat)
    requires i < |OVERRIDE_ORDER| && !OverrideValid(overrides, OVERRIDE_ORDER[i])
    requires forall k :: k in OVERRIDE_ORDER[..i] ==> OverrideValid(overrides, k)
    ensures NamesFirstInvalid(overrides, scope, scope + "." + OverrideField(OVERRIDE_ORDER[i]))
  {
  }

  /** The first i kinds are those of the scope, where it has any; the others are as inherited. */
  ghost predicate DoneUpTo(overrides: Templates, inherited: Templates, i: nat, result: Templates) {
    forall k: nat :: k < |OVERRIDE_ORDER| ==>
      var kind := OVERRIDE_ORDER[k];
      Of(result, kind) == if k < i then Or(Of(overrides, kind), Of(inherited, kind)) else Of(inherited, kind)
  }

  lemma DoNext(overrides: Templates, inherited: Templates, i: nat, result: Templates)
    requires i < |OVERRIDE_ORDER| && DoneUpTo(overrides, inherited, i, result)
    ensures var value := Of(overrides, OVERRIDE_ORDER[i]);
            DoneUpTo(overrides, inherited, i + 1, if value == "" then result else Set(result, OVERRIDE_ORDER[i], value))
  {
  }

  lemma AllDone(overrides: Templates, inherited: Templates, result: Templates)
    requires DoneUpTo(overrides, inherited, |OVERRIDE_ORDER|, result)
    ensures result == Over(overrides, inherited)
  {
    hide Or;
    assert Of(result, OVERRIDE_ORDER[0]) == result.design && Of(result, OVERRIDE_ORDER[1]) == result.implementation;
    assert Of(result, OVERRIDE_ORDER[2]) == result.batch && Of(result, OVERRIDE_ORDER[3]) == result.batchDesign;
  }

  /** applyOverride: kind by kind, the first invalid override is reported. */
  method ApplyOverride(inherited: Templates, scope: string, overrides: Templates) returns (r: Result)
    ensures r.Normalized? <==> OverridesValid(overrides)
    ensures r.Normalized? ==> r.value == Over(overrides, inherited)
    ensures r.Rejected? ==> NamesFirstInvalid(overrides, scope, r.error.field)
  {
    var result := inherited;
    assert DoneUpTo(overrides, inherited, 0, result);
    hide IsValid, IsBatch, KindName, NamesFirstInvalid, OverrideField, Over, DoneUpTo;
    for i := 0 to |OVERRIDE_ORDER|
      invariant forall k :: k in OVERRIDE_ORDER[..i] ==> OverrideValid(overrides, k)
      invariant DoneUpTo(overrides, inherited, i, result)
    {
      var kind := OVERRIDE_ORDER[i];
      assert OVERRIDE_ORDER[..i + 1] == OVERRIDE_ORDER[..i] + [kind];
      var value := Of(overrides, kind);
      assert kind in OVERRIDE_ORDER;
      DoNext(overrides, inherited, i, result);
      if value == "" {
        continue;
      }
      var failure := ValidateOverride(kind, value);
      if failure.Some? {
        FirstInvalidAt(overrides, scope, i);
        return Rejected(failure.value.(field := scope + "." + failure.value.field));
      }
      result := Set(result, kind, value);
    }
    assert OVERRIDE_ORDER[..|OVERRIDE_ORDER|] == OVERRIDE_ORDER;
    AllDone(overrides, inherited, result);
    r := Normalized(result);
  }

  /** Resolve: feature over project over global over built-in, kind by kind. */
  method Resolve(defaults: Templates, global: Templates, project: Templates, feature: Templates)
    returns (r: Result)
    ensures r.Normalized? <==>
              AllValid(WithDefaults(global, defaults)) && OverridesValid(project) && OverridesValid(feature)
    ensures r.Normalized? ==> r.value == Over(feature, Over(project, WithDefaults(global, defaults)))
    ensures r.Normalized? ==> AllValid(r.value)
    ensures r.Rejected? ==>
              if !AllValid(WithDefaults(global, defaults)) then
                Some(r.error.field) == FirstInvalid(WithDefaults(global, defaults))
              else if !OverridesValid(project) then NamesFirstInvalid(project, "project", r.error.field)
              else NamesFirstInvalid(feature, "feature", r.error.field)
  {
    hide IsValid, WithDefaults;
    r := Normalize(global, defaults);
    if r.Rejected? {
      return;
    }
    OverKeepsValid(project, r.value);
    r := ApplyOverride(r.value, "project", project);
    if r.Rejected? {
      return;
    }
    OverKeepsValid(feature, r.value);
    r := ApplyOverride(r.value, "feature", feature);
  }

  lemma OverKeepsValid(overrides: Templates, inherited: Templates)
    requires AllValid(inherited)
    ensures OverridesValid(overrides) ==> AllValid(Over(overrides, inherited))
  {
    hide IsValid;
    assert Design in OVERRIDE_ORDER && Implementation in OVERRIDE_ORDER;
    assert BatchKind in OVERRIDE_ORDER && BatchDesign in OVERRIDE_ORDER;
  }

  /** What Resolve yields is left as it is by Normalize, whatever the built-in templates: rendering cannot fail. */
  lemma ResolvedIsFixedPoint(resolved: Templates, defaults: Templates)
    requires AllValid(resolved)
    ensures WithDefaults(resolved, defaults) == resolved
  {
    ValidIsNotBlank(resolved.design, false);
    ValidIsNotBlank(resolved.implementation, false);
    ValidIsNotBlank(resolved.batch, true);
    ValidIsNotBlank(resolved.batchDesign, true);
  }

  // ----- rendering -----

  function ValueOf(segment: Segment, values: map<string, string>): string {
    match segment
    case Plain(c) => [c]
    case Token(inner) => if NameOf(inner) in values then values[NameOf(inner)] else ""
  }

  /** Every segment's own text or value, in order: no value is scanned again. */
  function Filled(segments: seq<Segment>, values: map<string, string>): string {
    if segments == [] then "" else ValueOf(segments[0], values) + Filled(segments[1..], values)
  }

  lemma FilledStep(segments: seq<Segment>, values: map<string, string>)
    ensures segments == [] ==> Filled(segments, values) == ""
    ensures segments != [] ==>
              Filled(segments, values) == ValueOf(segments[0], values) + Filled(segments[1..], values)
  {
  }

  lemma Associates(a: string, b: string, c: string)
    ensures a + (b + c) == a + b + c
  {
  }

  lemma {:induction false} FilledJoin(a: seq<Segment>, b: seq<Segment>, values: map<string, string>)
    ensures Filled(a + b, values) == Filled(a, values) + Filled(b, values)
  {
    hide Filled, ValueOf;
    FilledStep(a, values);
    if a == [] {
      assert a + b == b;
    } else {
      FilledStep(a + b, values);
      assert (a + b)[1..] == a[1..] + b;
      FilledJoin(a[1..], b, values);
      Associates(ValueOf(a[0], values), Filled(a[1..], values), Filled(b, values));
    }
  }

  /** The text appears in the body as it stands. */
  ghost predicate Contains(body: string, text: string) {
    exists before, after :: body == before + text + after
  }

  /** The value of a placeholder appears verbatim, even if it looks like a placeholder itself. */
  lemma ValueAppears(segments: seq<Segment>, values: map<string, string>, k: nat)
    requires k < |segments|
    ensures Filled(segments, values)
         == Filled(segments[..k], values) + ValueOf(segments[k], values) + Filled(segments[k + 1..], values)
    ensures Contains(Filled(segments, values), ValueOf(segments[k], values))
  {
    FilledJoin(segments[..k], segments[k..], values);
    assert segments == segments[..k] + segments[k..];
    assert segments[k..][1..] == segments[k + 1..];
    assert Filled(segments[k..], values) == ValueOf(segments[k], values) + Filled(segments[k + 1..], values);
    hide Filled, ValueOf;
    Associates(Filled(segments[..k], values), ValueOf(segments[k], values), Filled(segments[k + 1..], values));
  }

  /** ReplaceAllStringFunc: one pass over the template, match by match. */
  method Substitute(template: string, values: map<string, string>) returns (body: string)
    ensures body == Filled(Scan(template), values)
  {
    hide Filled, ValueOf, Scan;
    body := "";
    var rest := template;
    while rest != ""
      invariant body + Filled(Scan(rest), values) == Filled(Scan(template), values)
      decreases |rest|
    {
      FilledFirst(rest, values);
      match MatchHere(rest) {
        case Some(inner) =>
          var piece := ValueOf(Token(inner), values);
          Associates(body, piece, Filled(Scan(rest[|inner| + 4..]), values));
          body := body + piece;
          rest := rest[|inner| + 4..];
        case None =>
          Associates(body, [rest[0]], Filled(Scan(rest[1..]), values));
          body := body + [rest[0]];
          rest := rest[1..];
      }
    }
    NothingFilled(values);
  }

  lemma NothingFilled(values: map<string, string>)
    ensures Filled(Scan(""), values) == ""
  {
  }

  lemma FilledFirst(s: string, values: map<string, string>)
    requires s != ""
    ensures MatchHere(s).Some? ==>
              Filled(Scan(s), values)
              == ValueOf(Token(MatchHere(s).value), values) + Filled(Scan(s[|MatchHere(s).value| + 4..]), values)
    ensures MatchHere(s).None? ==> Filled(Scan(s), values) == [s[0]] + Filled(Scan(s[1..]), values)
  {
  }

  lemma RequiredAppears(template: string, batch: bool, values: map<string, string>)
    requires IsValid(template, batch) && Required(batch) in values
    ensures Contains(Filled(Scan(template), values), values[Required(batch)])
  {
    var t :| t in Scan(template) && t.Token? && NameOf(t.inner) == Required(batch);
    var k :| 0 <= k < |Scan(template)| && Scan(template)[k] == t;
    ValueAppears(Scan(template), values, k);
  }

  datatype PromptTask = PromptTask(id: string, featureId: string, title: string, scope: string, hasPlan: bool)

  const UNSPECIFIED_SCOPE: string := "(not specified)"

  function DescribedScope(scope: string): (r: string)
    ensures !IsBlank(scope) ==> r == scope
    ensures IsBlank(scope) ==> r == UNSPECIFIED_SCOPE
  {
    if IsBlank(scope) then UNSPECIFIED_SCOPE else scope
  }

  function KindFor(task: PromptTask): Kind {
    if task.hasPlan then Implementation else Design
  }

  function TaskValues(task: PromptTask): map<string, string> {
    map["task_id" := task.id, "feature_id" := task.featureId, "task_title" := task.title,
        "task_scope" := DescribedScope(task.scope)]
  }

  datatype Rendered = Rendered(kind: Kind, body: string) | Unrendered(error: TemplateError)

  /** Render: never fails on what Resolve yields, and the prompt names its task. */
  method Render(task: PromptTask, kind: Kind, templates: Templates, defaults: Templates) returns (r: Rendered)
    ensures r.Rendered? <==> AllValid(WithDefaults(templates, defaults))
    ensures AllValid(templates) ==> r.Rendered?
    ensures r.Rendered? ==> (r.kind == if kind.Design? || kind.Implementation? then kind else KindFor(task))
    ensures r.Rendered? ==>
              r.body == Filled(Scan(Of(WithDefaults(templates, defaults), r.kind)), TaskValues(task))
    ensures r.Rendered? ==> Contains(r.body, task.id)
  {
    if AllValid(templates) {
      ResolvedIsFixedPoint(templates, defaults);
    }
    var normalized := Normalize(templates, defaults);
    if normalized.Rejected? {
      return Unrendered(normalized.error);
    }
    var chosen := if kind.Design? || kind.Implementation? then kind else KindFor(task);
    var body := Substitute(Of(normalized.value, chosen), TaskValues(task));
    RequiredAppears(Of(normalized.value, chosen), false, TaskValues(task));
    r := Rendered(chosen, body);
  }

  function ListLine(task: PromptTask): string {
    "- " + task.id + ": " + task.title
  }

  function TaskList(tasks: seq<PromptTask>): string {
    if tasks == [] then ""
    else if |tasks| == 1 then ListLine(tasks[0])
    else ListLine(tasks[0]) + "\n" + TaskList(tasks[1..])
  }

  lemma ContainsInside(body: string, middle: string, text: string)
    requires Contains(body, middle) && Contains(middle, text)
    ensures Contains(body, text)
  {
    var b, a :| body == b + middle + a;
    var b', a' :| middle == b' + text + a';
    assert body == (b + b') + text + (a' + a);
  }

  lemma {:induction false} ListNamesTask(tasks: seq<PromptTask>, k: nat)
    requires k < |tasks|
    ensures Contains(TaskList(tasks), ListLine(tasks[k]))
  {
    if k == 0 {
      assert TaskList(tasks) == "" + ListLine(tasks[0]) + if |tasks| == 1 then "" else "\n" + TaskList(tasks[1..]);
    } else {
      ListNamesTask(tasks[1..], k - 1);
      var b, a :| TaskList(tasks[1..]) == b + ListLine(tasks[k]) + a;
      assert TaskList(tasks) == (ListLine(tasks[0]) + "\n" + b) + ListLine(tasks[k]) + a;
    }
  }

  function BatchValues(featureId: string, tasks: seq<PromptTask>): map<string, string> {
    map["feature_id" := featureId, "task_list" := TaskList(tasks)]
  }

  /** RenderBatch: the prompt names every task it was asked for. */
  method RenderBatch(
    featureId: string, tasks: seq<PromptTask>, kind: Kind, templates: Templates, defaults: Templates)
    returns (r: Rendered)
    ensures r.Rendered? <==> AllValid(WithDefaults(templates, defaults))
    ensures AllValid(templates) ==> r.Rendered?
    ensures r.Rendered? ==> (r.kind == if IsBatch(kind) then kind else BatchKind)
    ensures r.Rendered? ==>
              r.body == Filled(Scan(Of(WithDefaults(templates, defaults), r.kind)), BatchValues(featureId, tasks))
    ensures r.Rendered? ==> forall k :: 0 <= k < |tasks| ==> Contains(r.body, ListLine(tasks[k]))
  {
    if AllValid(templates) {
      ResolvedIsFixedPoint(templates, defaults);
    }
    var normalized := Normalize(templates, defaults);
    if normalized.Rejected? {
      return Unrendered(normalized.error);
    }
    var chosen := if IsBatch(kind) then kind else BatchKind;
    var body := Substitute(Of(normalized.value, chosen), BatchValues(featureId, tasks));
    RequiredAppears(Of(normalized.value, chosen), true, BatchValues(featureId, tasks));
    forall k | 0 <= k < |tasks|
      ensures Contains(body, ListLine(tasks[k]))
    {
      ListNamesTask(tasks, k);
      ContainsInside(body, TaskList(tasks), ListLine(tasks[k]));
    }
    r := Rendered(chosen, body);
  }
}
