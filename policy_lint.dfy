/** The ring- and telemetry-aware linter (examples/tools/policy_lint.py):
    `lint_policy` checks one parsed policy document. A missing top-level
    field ends validation at once; otherwise every check runs and adds at
    most one violation (one per out-of-range telemetry key). Each group of
    checks below takes the list built so far and returns it extended, as
    the source's `_expect` appends to one shared list. */
module PolicyLint {
  import opened Json
  import opened Policy
  import Semver

  predicate NameOk(name: JSON)
  {
    name.JStr? && Strip(name.s) != ""
  }

  predicate VersionOk(version: JSON)
  {
    version.JStr? && Semver.Matches(version.s)
  }

  predicate TypeKind(x: LintError)
  {
    x.NameNotNonEmptyString? || x.PlatformNotAllowed? || x.VersionNotSemver? || x.MetadataNotObject? || x.SettingsNotObject?
  }

  predicate MetadataKind(x: LintError)
  {
    x.MissingMetadata? || x.RiskLevelNotAllowed? || x.RolloutStrategyNotAllowed? || x.ApproverGroupsNotNonEmptyList?
  }

  predicate ScopeKind(x: LintError)
  {
    x.SupportedRingsNotNonEmptyList? || x.UnknownRings?
  }

  predicate BreakGlassKind(x: LintError)
  {
    x.BreakGlassRollout? || x.BreakGlassRisk? || x.BreakGlassEmergency? || x.BreakGlassAutoExpire? || x.BreakGlassMaxDuration?
  }

  /** The name, platform, version, metadata and settings checks, given the
      verdicts of the first three: `NameOk(name)`, `platform in
      ALLOWED_PLATFORMS` (which raises for a list or dict) and
      `VersionOk(version)`. */
  function TypeChecks(errors: seq<LintError>, nameOk: bool, platformOk: Py<bool>, versionOk: bool, metadata: JSON, settings: JSON): (r: LintResult)
    ensures r.Raised? <==> platformOk.Raise?
    ensures r.Reported? ==> |r.errors| <= |errors| + 5 && errors <= r.errors
    ensures r.Reported? ==> forall x :: x in r.errors ==> x in errors || TypeKind(x)
  {
    match platformOk
    case Raise(e) => Raised(e)
    case Ok(inPlatforms) =>
      var e1 := Expect(errors, nameOk, NameNotNonEmptyString);
      var e2 := Expect(e1, inPlatforms, PlatformNotAllowed);
      var e3 := Expect(e2, versionOk, VersionNotSemver);
      var e4 := Expect(e3, metadata.JObj?, MetadataNotObject);
      Reported(Expect(e4, settings.JObj?, SettingsNotObject))
  }

  /** `risk_level` and `rollout_strategy`, each checked only when present;
      a list or dict value raises, being unhashable. */
  function EnumChecks(errors: seq<LintError>, md: Fields): (r: LintResult)
    ensures r.Raised? <==>
      ("risk_level" in Keys(md) && (Get(md, "risk_level").JArr? || Get(md, "risk_level").JObj?)) ||
      ("rollout_strategy" in Keys(md) && (Get(md, "rollout_strategy").JArr? || Get(md, "rollout_strategy").JObj?))
    ensures r.Reported? ==> |r.errors| <= |errors| + 2 && errors <= r.errors
    ensures r.Reported? ==> forall x :: x in r.errors ==> x in errors || x == RiskLevelNotAllowed || x == RolloutStrategyNotAllowed
  {
    var riskOk := if "risk_level" in Keys(md) then InStrings(Get(md, "risk_level"), AllowedRisk) else Ok(true);
    var rolloutOk := if "rollout_strategy" in Keys(md) then InStrings(Get(md, "rollout_strategy"), AllowedRollout) else Ok(true);
    if riskOk.Raise? then Raised(riskOk.exc)
    else if rolloutOk.Raise? then Raised(rolloutOk.exc)
    else Reported(Expect(Expect(errors, riskOk.value, RiskLevelNotAllowed), rolloutOk.value, RolloutStrategyNotAllowed))
  }

  /** `approver_groups`, checked only when present: a non-empty list. */
  function ApproverGroupsCheck(errors: seq<LintError>, md: Fields): (r: seq<LintError>)
    ensures |r| <= |errors| + 1 && errors <= r
    ensures forall x :: x in r ==> x in errors || x == ApproverGroupsNotNonEmptyList
  {
    var groups := Get(md, "approver_groups");
    if "approver_groups" in Keys(md) then Expect(errors, groups.JArr? && groups.items != [], ApproverGroupsNotNonEmptyList) else errors
  }

  /** Required metadata keys and, for keys that are present, their values. */
  function MetadataChecks(errors: seq<LintError>, md: Fields): (r: LintResult)
    ensures r.Raised? <==> EnumChecks(errors, md).Raised?
    ensures r.Reported? ==> |r.errors| <= |errors| + 4 && errors <= r.errors
    ensures r.Reported? ==> forall x :: x in r.errors ==> x in errors || MetadataKind(x)
  {
    var missing := RequiredMetadata - Keys(md);
    var e1 := Expect(errors, missing == {}, MissingMetadata(missing));
    match EnumChecks(e1, md)
    case Raised(e) => Raised(e)
    case Reported(e3) => Reported(ApproverGroupsCheck(e3, md))
  }

  /** `scope.supported_rings` when `scope` is a truthy dict and the key holds
      something other than `null`. */
  function SupportedRings(scope: JSON): Option<JSON>
  {
    if Truthy(scope) && scope.JObj? && !Get(scope.fields, "supported_rings").JNull? then
      Some(Get(scope.fields, "supported_rings"))
    else None
  }

  /** `scope.supported_rings`, checked only when `scope` is truthy. */
  function ScopeChecks(errors: seq<LintError>, scope: JSON): (r: LintResult)
    ensures r.Raised? <==> (Truthy(scope) && (!scope.JObj? ||
      (SupportedRings(scope).Some? && SupportedRings(scope).value.JArr? && UnknownRingsOf(SupportedRings(scope).value.items).Raise?)))
    ensures r.Reported? ==> |r.errors| <= |errors| + 2 && errors <= r.errors
    ensures r.Reported? ==> forall x :: x in r.errors ==> x in errors || ScopeKind(x)
  {
    if !Truthy(scope) then Reported(errors)
    else if !scope.JObj? then Raised(AttributeError("get"))
    else
      var rings := Get(scope.fields, "supported_rings");
      if rings.JNull? then Reported(errors)
      else
        var shaped := Expect(errors, rings.JArr? && rings.items != [], SupportedRingsNotNonEmptyList);
        if !rings.JArr? then Reported(shaped)
        else
          match UnknownRingsOf(rings.items)
          case Raise(e) => Raised(e)
          case Ok(unknown) => Reported(Expect(shaped, unknown == [], UnknownRings(unknown)))
  }

  /** How many entries the telemetry loop visits. */
  function TelemetryCount(telemetry: JSON): nat
  {
    if telemetry.JObj? then |telemetry.fields| else 0
  }

  /** Whether one telemetry value is a number outside [0, 1]. */
  predicate OutOfRange(v: JSON)
  {
    IsPyNumber(v) && !(0.0 <= NumValue(v) <= 1.0)
  }

  /** Some entry with key `k` holds a number outside [0, 1]. */
  predicate OutOfRangeAt(entries: Fields, k: string)
  {
    exists i :: 0 <= i < |entries| && entries[i].0 == k && OutOfRange(entries[i].1)
  }

  /** One `TelemetryOutOfRange` per numeric entry outside [0, 1], in order;
      values of other types are ignored. */
  function TelemetryErrors(errors: seq<LintError>, entries: Fields): (r: seq<LintError>)
    ensures |r| <= |errors| + |entries| && errors <= r
    ensures forall x :: x in r ==> x in errors || x.TelemetryOutOfRange?
    ensures forall k :: TelemetryOutOfRange(k) in r <==>
      TelemetryOutOfRange(k) in errors || OutOfRangeAt(entries, k)
  {
    if entries == [] then errors
    else
      var last := entries[|entries| - 1];
      var front := entries[..|entries| - 1];
      assert forall i :: 0 <= i < |front| ==> front[i] == entries[i];
      Expect(TelemetryErrors(errors, front), !OutOfRange(last.1), TelemetryOutOfRange(last.0))
  }

  /** The errors of one more entry. */
  lemma TelemetryErrorsStep(errors: seq<LintError>, entries: Fields, i: nat)
    requires i < |entries|
    ensures TelemetryErrors(errors, entries[..i + 1]) ==
      Expect(TelemetryErrors(errors, entries[..i]), !OutOfRange(entries[i].1), TelemetryOutOfRange(entries[i].0))
  {
    assert entries[..i + 1][..i] == entries[..i];
  }

  /** The telemetry loop, run when `telemetry` is truthy. */
  function TelemetryChecks(errors: seq<LintError>, telemetry: JSON): (r: LintResult)
    ensures r.Raised? <==> Truthy(telemetry) && !telemetry.JObj?
    ensures r.Reported? ==> |r.errors| <= |errors| + TelemetryCount(telemetry) && errors <= r.errors
    ensures r.Reported? ==> forall x :: x in r.errors ==> x in errors || x.TelemetryOutOfRange?
  {
    if !Truthy(telemetry) then Reported(errors)
    else if !telemetry.JObj? then Raised(AttributeError("items"))
    else Reported(TelemetryErrors(errors, telemetry.fields))
  }

  /** `isinstance(m, int) and 1 <= m <= 240`; `True` counts as the int 1. */
  predicate MinutesOk(m: JSON)
  {
    IsPyInt(m) && 1 <= IntValue(m) <= 240
  }

  /** The break-glass requirements on metadata: manual-only rollout,
      critical risk and `emergency_use_only` set to exactly `true`. */
  function MetadataGuardrails(errors: seq<LintError>, md: Fields): (r: seq<LintError>)
    ensures |r| <= |errors| + 3 && errors <= r
    ensures BreakGlassRollout in r <==> (BreakGlassRollout in errors || Get(md, "rollout_strategy") != JStr("manual-only"))
    ensures BreakGlassRisk in r <==> (BreakGlassRisk in errors || Get(md, "risk_level") != JStr("critical"))
    ensures BreakGlassEmergency in r <==> (BreakGlassEmergency in errors || !IsTrue(Get(md, "emergency_use_only")))
  {
    var e1 := Expect(errors, Get(md, "rollout_strategy") == JStr("manual-only"), BreakGlassRollout);
    var e2 := Expect(e1, Get(md, "risk_level") == JStr("critical"), BreakGlassRisk);
    Expect(e2, IsTrue(Get(md, "emergency_use_only")), BreakGlassEmergency)
  }

  /** The guardrails for a policy named as the break-glass exception. */
  function BreakGlassChecks(errors: seq<LintError>, name: JSON, md: Fields, tc: JSON): (r: LintResult)
    ensures !(name.JStr? && name.s in BreakGlassNames) ==> r == Reported(errors)
    ensures r.Raised? <==> name.JStr? && name.s in BreakGlassNames && !tc.JObj?
    ensures r.Reported? ==> |r.errors| <= |errors| + 5 && errors <= r.errors
    ensures r.Reported? ==> forall x :: x in r.errors ==> x in errors || BreakGlassKind(x)
  {
    if !(name.JStr? && name.s in BreakGlassNames) then Reported(errors)
    else
      var checked := Expect(MetadataGuardrails(errors, md), tc.JObj? && IsTrue(Get(tc.fields, "auto_expire")), BreakGlassAutoExpire);
      if !tc.JObj? then Raised(AttributeError("get"))
      else
        var minutes := Get(tc.fields, "max_duration_minutes");
        Reported(Expect(checked, MinutesOk(minutes), BreakGlassMaxDuration))
  }

  /** A policy object holding every required top-level field. */
  predicate Complete(policy: JSON)
  {
    policy.JObj? && RequiredTopLevel - Keys(policy.fields) == {}
  }

  /** `policy.get(k)`. */
  function Field(policy: JSON, k: string): JSON
    requires policy.JObj?
  {
    Get(policy.fields, k)
  }

  /** `policy.get(k) or {}`, as the source reads metadata, settings, scope,
      telemetry expectations and time constraints. */
  function Section(policy: JSON, k: string): JSON
    requires policy.JObj?
  {
    OrEmpty(Get(policy.fields, k))
  }

  /** The type checks of a complete policy, on the empty list. */
  function TypesOf(policy: JSON): LintResult
    requires policy.JObj?
  {
    TypeChecks([], NameOk(Field(policy, "name")), InStrings(Field(policy, "platform"), AllowedPlatforms),
      VersionOk(Field(policy, "version")), Section(policy, "metadata"), Section(policy, "settings"))
  }

  /** The metadata dict of a policy (empty when it is not a dict). */
  function MetadataOf(policy: JSON): Fields
    requires policy.JObj?
  {
    var md := Section(policy, "metadata");
    if md.JObj? then md.fields else []
  }

  /** The `time_constraints` dict of a policy (empty when it is not a dict). */
  function TimeConstraintsOf(policy: JSON): Fields
    requires policy.JObj?
  {
    var tc := Section(policy, "time_constraints");
    if tc.JObj? then tc.fields else []
  }

  predicate IsBreakGlass(policy: JSON)
    requires policy.JObj?
  {
    Field(policy, "name").JStr? && Field(policy, "name").s in BreakGlassNames
  }

  /** `lint_policy(path, policy)` as a value. */
  function Lint(policy: JSON): LintResult
  {
    if !policy.JObj? then Raised(AttributeError("keys"))
    else if !Complete(policy) then Reported([MissingTopLevel(RequiredTopLevel - Keys(policy.fields))])
    else
      var md := Section(policy, "metadata");
      match TypesOf(policy)
      case Raised(e) => Raised(e)
      case Reported(e1) =>
        if !md.JObj? then Raised(AttributeError("keys"))
        else
          match MetadataChecks(e1, md.fields)
          case Raised(e) => Raised(e)
          case Reported(e2) =>
            match ScopeChecks(e2, Section(policy, "scope"))
            case Raised(e) => Raised(e)
            case Reported(e3) =>
              match TelemetryChecks(e3, Section(policy, "telemetry_expectations"))
              case Raised(e) => Raised(e)
              case Reported(e4) => BreakGlassChecks(e4, Field(policy, "name"), md.fields, Section(policy, "time_constraints"))
  }

  /** The intermediate lists of a complete policy that lints without
      raising: each error kind ends up in the result exactly when the group
      of checks that owns it put it there. */
  lemma Stages(policy: JSON) returns (e1: seq<LintError>, e2: seq<LintError>, e3: seq<LintError>, e4: seq<LintError>)
    requires Complete(policy) && Lint(policy).Reported?
    ensures Section(policy, "metadata").JObj?
    ensures TypesOf(policy) == Reported(e1)
    ensures MetadataChecks(e1, Section(policy, "metadata").fields) == Reported(e2)
    ensures ScopeChecks(e2, Section(policy, "scope")) == Reported(e3)
    ensures TelemetryChecks(e3, Section(policy, "telemetry_expectations")) == Reported(e4)
    ensures BreakGlassChecks(e4, Field(policy, "name"), Section(policy, "metadata").fields, Section(policy, "time_constraints")) == Lint(policy)
    ensures forall x :: x in e1 ==> TypeKind(x)
    ensures forall x :: TypeKind(x) ==> (x in Lint(policy).errors <==> x in e1)
    ensures forall x :: MetadataKind(x) ==> (x in Lint(policy).errors <==> x in e2)
    ensures forall x :: ScopeKind(x) ==> (x in Lint(policy).errors <==> x in e3)
    ensures forall x: LintError :: x.TelemetryOutOfRange? ==> (x in Lint(policy).errors <==> x in e4)
    ensures forall x :: x in e1 ==> !MetadataKind(x)
    ensures forall x :: x in e2 ==> !ScopeKind(x)
    ensures forall x: LintError :: x in e3 ==> !x.TelemetryOutOfRange?
    ensures forall x :: x in e4 ==> !BreakGlassKind(x)
    ensures forall x :: x in Lint(policy).errors ==> TypeKind(x) || MetadataKind(x) || ScopeKind(x) || x.TelemetryOutOfRange? || BreakGlassKind(x)
  {
    var md := Section(policy, "metadata").fields;
    e1 := TypesOf(policy).errors;
    e2 := MetadataChecks(e1, md).errors;
    e3 := ScopeChecks(e2, Section(policy, "scope")).errors;
    e4 := TelemetryChecks(e3, Section(policy, "telemetry_expectations")).errors;
    KindsFlow(e1, e2, e3, e4, Lint(policy).errors);
  }

  /** Five lists, each extending the one before by errors of one group. */
  lemma KindsFlow(e1: seq<LintError>, e2: seq<LintError>, e3: seq<LintError>, e4: seq<LintError>, final: seq<LintError>)
    requires e1 <= e2 && e2 <= e3 && e3 <= e4 && e4 <= final
    requires forall x :: x in e1 ==> TypeKind(x)
    requires forall x :: x in e2 ==> x in e1 || MetadataKind(x)
    requires forall x :: x in e3 ==> x in e2 || ScopeKind(x)
    requires forall x :: x in e4 ==> x in e3 || x.TelemetryOutOfRange?
    requires forall x :: x in final ==> x in e4 || BreakGlassKind(x)
    ensures forall x :: TypeKind(x) ==> (x in final <==> x in e1)
    ensures forall x :: MetadataKind(x) ==> (x in final <==> x in e2)
    ensures forall x :: ScopeKind(x) ==> (x in final <==> x in e3)
    ensures forall x: LintError :: x.TelemetryOutOfRange? ==> (x in final <==> x in e4)
    ensures forall x :: x in e1 ==> !MetadataKind(x)
    ensures forall x :: x in e2 ==> !ScopeKind(x)
    ensures forall x: LintError :: x in e3 ==> !x.TelemetryOutOfRange?
    ensures forall x :: x in e4 ==> !BreakGlassKind(x)
    ensures forall x :: x in final ==> TypeKind(x) || MetadataKind(x) || ScopeKind(x) || x.TelemetryOutOfRange? || BreakGlassKind(x)
  {
    PrefixMembers(e1, e2);
    PrefixMembers(e2, e3);
    PrefixMembers(e3, e4);
    PrefixMembers(e4, final);
  }

  /** A present `risk_level` outside the allowed values. */
  predicate RiskLevelBad(md: Fields)
  {
    "risk_level" in Keys(md) && !(Get(md, "risk_level").JStr? && Get(md, "risk_level").s in AllowedRisk)
  }

  /** A present `rollout_strategy` outside the allowed values. */
  predicate RolloutStrategyBad(md: Fields)
  {
    "rollout_strategy" in Keys(md) && !(Get(md, "rollout_strategy").JStr? && Get(md, "rollout_strategy").s in AllowedRollout)
  }

  /** A present `approver_groups` that is not a non-empty list. */
  predicate ApproverGroupsBad(md: Fields)
  {
    "approver_groups" in Keys(md) && !(Get(md, "approver_groups").JArr? && Get(md, "approver_groups").items != [])
  }

  /** What the type checks add, one error kind at a time. */
  lemma TypeChecksReport(errors: seq<LintError>, nameOk: bool, platformOk: Py<bool>, versionOk: bool, metadata: JSON, settings: JSON, x: LintError)
    requires TypeChecks(errors, nameOk, platformOk, versionOk, metadata, settings).Reported? && TypeKind(x)
    ensures x in TypeChecks(errors, nameOk, platformOk, versionOk, metadata, settings).errors <==> (x in errors ||
      (x == NameNotNonEmptyString && !nameOk) || (x == PlatformNotAllowed && platformOk == Ok(false)) ||
      (x == VersionNotSemver && !versionOk) || (x == MetadataNotObject && !metadata.JObj?) ||
      (x == SettingsNotObject && !settings.JObj?))
  {
  }

  /** What the metadata checks add, one error kind at a time. */
  lemma MetadataChecksReport(errors: seq<LintError>, md: Fields, x: LintError)
    requires MetadataChecks(errors, md).Reported? && MetadataKind(x)
    ensures x in MetadataChecks(errors, md).errors <==> (x in errors ||
      (x == MissingMetadata(RequiredMetadata - Keys(md)) && RequiredMetadata - Keys(md) != {}) ||
      (x == RiskLevelNotAllowed && RiskLevelBad(md)) || (x == RolloutStrategyNotAllowed && RolloutStrategyBad(md)) ||
      (x == ApproverGroupsNotNonEmptyList && ApproverGroupsBad(md)))
  {
  }

  /** What the ring checks add, one error kind at a time. */
  lemma ScopeChecksReport(errors: seq<LintError>, scope: JSON, x: LintError)
    requires ScopeChecks(errors, scope).Reported? && ScopeKind(x)
    ensures var rings := SupportedRings(scope);
      x in ScopeChecks(errors, scope).errors <==> (x in errors ||
      (x == SupportedRingsNotNonEmptyList && rings.Some? && !(rings.value.JArr? && rings.value.items != [])) ||
      (x.UnknownRings? && rings.Some? && rings.value.JArr? && UnknownRingsOf(rings.value.items) == Ok(x.rings) && x.rings != []))
  {
  }

  /** What the telemetry loop adds. */
  lemma TelemetryChecksReport(errors: seq<LintError>, telemetry: JSON, k: string)
    requires TelemetryChecks(errors, telemetry).Reported?
    ensures TelemetryOutOfRange(k) in TelemetryChecks(errors, telemetry).errors <==> (TelemetryOutOfRange(k) in errors ||
      (telemetry.JObj? && OutOfRangeAt(telemetry.fields, k)))
  {
  }

  /** What the break-glass checks add, one error kind at a time. */
  lemma BreakGlassChecksReport(errors: seq<LintError>, name: JSON, md: Fields, tc: JSON, x: LintError)
    requires BreakGlassChecks(errors, name, md, tc).Reported? && BreakGlassKind(x)
    ensures x in BreakGlassChecks(errors, name, md, tc).errors <==> (x in errors ||
      (name.JStr? && name.s in BreakGlassNames && (
        (x == BreakGlassRollout && Get(md, "rollout_strategy") != JStr("manual-only")) ||
        (x == BreakGlassRisk && Get(md, "risk_level") != JStr("critical")) ||
        (x == BreakGlassEmergency && !IsTrue(Get(md, "emergency_use_only"))) ||
        (x == BreakGlassAutoExpire && !IsTrue(Get(tc.fields, "auto_expire"))) ||
        (x == BreakGlassMaxDuration && !MinutesOk(Get(tc.fields, "max_duration_minutes"))))))
  {
  }

  /** `TypeChecksReport` for the type checks of a complete policy. */
  lemma TypesReport(policy: JSON, x: LintError)
    requires Complete(policy) && Lint(policy).Reported? && TypeKind(x)
    ensures x in Lint(policy).errors <==>
      (x == NameNotNonEmptyString && !NameOk(Field(policy, "name"))) ||
      (x == PlatformNotAllowed && !(Field(policy, "platform").JStr? && Field(policy, "platform").s in AllowedPlatforms)) ||
      (x == VersionNotSemver && !VersionOk(Field(policy, "version"))) ||
      (x == MetadataNotObject && !Section(policy, "metadata").JObj?) ||
      (x == SettingsNotObject && !Section(policy, "settings").JObj?)
  {
    var e1, e2, e3, e4 := Stages(policy);
    TypeChecksReport([], NameOk(Field(policy, "name")), InStrings(Field(policy, "platform"), AllowedPlatforms),
      VersionOk(Field(policy, "version")), Section(policy, "metadata"), Section(policy, "settings"), x);
  }

  /** `MetadataChecksReport` for the metadata checks of a complete policy. */
  lemma MetadataReport(policy: JSON, x: LintError)
    requires Complete(policy) && Lint(policy).Reported? && MetadataKind(x)
    ensures var md := MetadataOf(policy);
      x in Lint(policy).errors <==>
        (x == MissingMetadata(RequiredMetadata - Keys(md)) && RequiredMetadata - Keys(md) != {}) ||
        (x == RiskLevelNotAllowed && RiskLevelBad(md)) || (x == RolloutStrategyNotAllowed && RolloutStrategyBad(md)) ||
        (x == ApproverGroupsNotNonEmptyList && ApproverGroupsBad(md))
  {
    var e1, e2, e3, e4 := Stages(policy);
    MetadataChecksReport(e1, MetadataOf(policy), x);
  }

  /** `ScopeChecksReport` for the ring checks of a complete policy. */
  lemma ScopeReport(policy: JSON, x: LintError)
    requires Complete(policy) && Lint(policy).Reported? && ScopeKind(x)
    ensures var rings := SupportedRings(Section(policy, "scope"));
      x in Lint(policy).errors <==>
        (x == SupportedRingsNotNonEmptyList && rings.Some? && !(rings.value.JArr? && rings.value.items != [])) ||
        (x.UnknownRings? && rings.Some? && rings.value.JArr? && UnknownRingsOf(rings.value.items) == Ok(x.rings) && x.rings != [])
  {
    var e1, e2, e3, e4 := Stages(policy);
    ScopeChecksReport(e2, Section(policy, "scope"), x);
  }

  /** `TelemetryChecksReport` for the telemetry loop of a complete policy. */
  lemma TelemetryReport(policy: JSON, k: string)
    requires Complete(policy) && Lint(policy).Reported?
    ensures var t := Section(policy, "telemetry_expectations");
      TelemetryOutOfRange(k) in Lint(policy).errors <==>
        t.JObj? && OutOfRangeAt(t.fields, k)
  {
    var e1, e2, e3, e4 := Stages(policy);
    var x := TelemetryOutOfRange(k);
    TelemetryChecksReport(e3, Section(policy, "telemetry_expectations"), k);
  }

  /** Every reported error belongs to one of the groups of checks, or is
      the missing-fields error. */
  lemma ReportedKinds(policy: JSON)
    requires Lint(policy).Reported?
    ensures forall x :: x in Lint(policy).errors ==>
      x.MissingTopLevel? || TypeKind(x) || MetadataKind(x) || ScopeKind(x) || x.TelemetryOutOfRange? || BreakGlassKind(x)
  {
    if Complete(policy) {
      var e1, e2, e3, e4 := Stages(policy);
    }
  }

  /** A policy missing a required top-level field gets exactly one error,
      naming the missing fields, and no other check runs. */
  lemma MissingTopLevelStops(policy: JSON)
    requires policy.JObj? && !Complete(policy)
    ensures Lint(policy) == Reported([MissingTopLevel(RequiredTopLevel - Keys(policy.fields))])
  {
  }

  /** The version is reported exactly when it is not a semver string. */
  lemma VersionReported(policy: JSON)
    requires Complete(policy) && Lint(policy).Reported?
    ensures VersionNotSemver in Lint(policy).errors <==> !VersionOk(Field(policy, "version"))
  {
    TypesReport(policy, VersionNotSemver);
  }

  /** The name must be a string with a non-blank character, the platform
      one of the allowed ones, and `settings or {}` a dict. */
  lemma NamePlatformSettingsReported(policy: JSON)
    requires Complete(policy) && Lint(policy).Reported?
    ensures NameNotNonEmptyString in Lint(policy).errors <==> !NameOk(Field(policy, "name"))
    ensures PlatformNotAllowed in Lint(policy).errors <==>
      !(Field(policy, "platform").JStr? && Field(policy, "platform").s in AllowedPlatforms)
    ensures SettingsNotObject in Lint(policy).errors <==> !Section(policy, "settings").JObj?
  {
    TypesReport(policy, NameNotNonEmptyString);
    TypesReport(policy, PlatformNotAllowed);
    TypesReport(policy, SettingsNotObject);
  }

  /** "must be an object" for metadata, scope or telemetry is never part of
      a reported result: in each case the next line calls a dict method on
      the value and raises, losing the list. */
  lemma NotObjectErrorsNeverReported(policy: JSON)
    requires Lint(policy).Reported?
    ensures MetadataNotObject !in Lint(policy).errors
    ensures ScopeNotObject !in Lint(policy).errors
    ensures TelemetryNotObject !in Lint(policy).errors
  {
    ReportedKinds(policy);
    OutsideKinds(Lint(policy).errors);
    if Complete(policy) {
      TypesReport(policy, MetadataNotObject);
    } else {
      MissingTopLevelStops(policy);
    }
  }

  /** The two "must be an object" errors that belong to no group. */
  lemma OutsideKinds(errors: seq<LintError>)
    requires forall x :: x in errors ==>
      x.MissingTopLevel? || TypeKind(x) || MetadataKind(x) || ScopeKind(x) || x.TelemetryOutOfRange? || BreakGlassKind(x)
    ensures ScopeNotObject !in errors && TelemetryNotObject !in errors
  {
  }

  /** One combined error for the missing required metadata keys. */
  lemma MissingMetadataReported(policy: JSON)
    requires Complete(policy) && Lint(policy).Reported?
    ensures forall f :: MissingMetadata(f) in Lint(policy).errors <==>
      f == RequiredMetadata - Keys(MetadataOf(policy)) && f != {}
  {
    forall f
      ensures MissingMetadata(f) in Lint(policy).errors <==> f == RequiredMetadata - Keys(MetadataOf(policy)) && f != {}
    {
      MetadataReport(policy, MissingMetadata(f));
    }
  }

  /** `risk_level`, `rollout_strategy` and `approver_groups` are checked
      only when present. */
  lemma MetadataValuesReported(policy: JSON)
    requires Complete(policy) && Lint(policy).Reported?
    ensures RiskLevelNotAllowed in Lint(policy).errors <==> RiskLevelBad(MetadataOf(policy))
    ensures RolloutStrategyNotAllowed in Lint(policy).errors <==> RolloutStrategyBad(MetadataOf(policy))
    ensures ApproverGroupsNotNonEmptyList in Lint(policy).errors <==> ApproverGroupsBad(MetadataOf(policy))
  {
    MetadataReport(policy, RiskLevelNotAllowed);
    MetadataReport(policy, RolloutStrategyNotAllowed);
    MetadataReport(policy, ApproverGroupsNotNonEmptyList);
  }

  /** A present `supported_rings` must be a non-empty list, and all unknown
      rings are reported together, in list order, in one error. */
  lemma RingsReported(policy: JSON)
    requires Complete(policy) && Lint(policy).Reported?
    ensures var rings := SupportedRings(Section(policy, "scope"));
      SupportedRingsNotNonEmptyList in Lint(policy).errors <==>
      rings.Some? && !(rings.value.JArr? && rings.value.items != [])
    ensures var rings := SupportedRings(Section(policy, "scope"));
      forall u :: UnknownRings(u) in Lint(policy).errors <==>
        rings.Some? && rings.value.JArr? && UnknownRingsOf(rings.value.items) == Ok(u) && u != []
  {
    ScopeReport(policy, SupportedRingsNotNonEmptyList);
    forall u
      ensures var rings := SupportedRings(Section(policy, "scope"));
        UnknownRings(u) in Lint(policy).errors <==>
        rings.Some? && rings.value.JArr? && UnknownRingsOf(rings.value.items) == Ok(u) && u != []
    {
      ScopeReport(policy, UnknownRings(u));
    }
  }

  /** One error per numeric telemetry value outside [0, 1]. */
  lemma TelemetryReported(policy: JSON)
    requires Complete(policy) && Lint(policy).Reported?
    ensures var t := Section(policy, "telemetry_expectations");
      forall k :: TelemetryOutOfRange(k) in Lint(policy).errors <==>
        t.JObj? && OutOfRangeAt(t.fields, k)
  {
    forall k {
      TelemetryReport(policy, k);
    }
  }

  /** Only the name makes a policy break-glass. */
  lemma BreakGlassByNameOnly(policy: JSON)
    requires Complete(policy) && Lint(policy).Reported? && !IsBreakGlass(policy)
    ensures forall x :: x in Lint(policy).errors ==> !BreakGlassKind(x)
  {
    var e1, e2, e3, e4 := Stages(policy);
  }

  /** `BreakGlassChecksReport` for the guardrails of a complete policy. */
  lemma GuardrailReport(policy: JSON, x: LintError)
    requires Complete(policy) && Lint(policy).Reported? && IsBreakGlass(policy) && BreakGlassKind(x)
    ensures Section(policy, "time_constraints").JObj?
    ensures var md := MetadataOf(policy);
      var tc := TimeConstraintsOf(policy);
      x in Lint(policy).errors <==>
        (x == BreakGlassRollout && Get(md, "rollout_strategy") != JStr("manual-only")) ||
        (x == BreakGlassRisk && Get(md, "risk_level") != JStr("critical")) ||
        (x == BreakGlassEmergency && !IsTrue(Get(md, "emergency_use_only"))) ||
        (x == BreakGlassAutoExpire && !IsTrue(Get(tc, "auto_expire"))) ||
        (x == BreakGlassMaxDuration && !MinutesOk(Get(tc, "max_duration_minutes")))
  {
    var e1, e2, e3, e4 := Stages(policy);
    BreakGlassChecksReport(e4, Field(policy, "name"), MetadataOf(policy), Section(policy, "time_constraints"), x);
  }

  /** The guardrails of a break-glass policy, each reported exactly when
      violated; a `time_constraints` that is not a dict raises instead. */
  lemma BreakGlassReported(policy: JSON)
    requires Complete(policy) && Lint(policy).Reported? && IsBreakGlass(policy)
    ensures Section(policy, "time_constraints").JObj?
    ensures BreakGlassRollout in Lint(policy).errors <==> Get(MetadataOf(policy), "rollout_strategy") != JStr("manual-only")
    ensures BreakGlassRisk in Lint(policy).errors <==> Get(MetadataOf(policy), "risk_level") != JStr("critical")
    ensures BreakGlassEmergency in Lint(policy).errors <==> !IsTrue(Get(MetadataOf(policy), "emergency_use_only"))
    ensures BreakGlassAutoExpire in Lint(policy).errors <==> !IsTrue(Get(TimeConstraintsOf(policy), "auto_expire"))
    ensures BreakGlassMaxDuration in Lint(policy).errors <==> !MinutesOk(Get(TimeConstraintsOf(policy), "max_duration_minutes"))
  {
    GuardrailReport(policy, BreakGlassRollout);
    GuardrailReport(policy, BreakGlassRisk);
    GuardrailReport(policy, BreakGlassEmergency);
    GuardrailReport(policy, BreakGlassAutoExpire);
    GuardrailReport(policy, BreakGlassMaxDuration);
  }

  /** A break-glass policy with correct metadata and no `time_constraints`
      gets exactly the two time-constraint errors among its guardrails. */
  lemma BreakGlassWithoutTimeConstraints(policy: JSON)
    requires Complete(policy) && Lint(policy).Reported? && IsBreakGlass(policy)
    requires Get(MetadataOf(policy), "rollout_strategy") == JStr("manual-only")
    requires Get(MetadataOf(policy), "risk_level") == JStr("critical")
    requires IsTrue(Get(MetadataOf(policy), "emergency_use_only"))
    requires "time_constraints" !in Keys(policy.fields)
    ensures BreakGlassAutoExpire in Lint(policy).errors && BreakGlassMaxDuration in Lint(policy).errors
    ensures forall x :: x in Lint(policy).errors && BreakGlassKind(x) ==> x == BreakGlassAutoExpire || x == BreakGlassMaxDuration
  {
    assert TimeConstraintsOf(policy) == [];
    BreakGlassReported(policy);
    OnlyTimeConstraintGuardrails(Lint(policy).errors);
  }

  /** With the three metadata guardrails absent, only the two time-constraint
      ones can remain. */
  lemma OnlyTimeConstraintGuardrails(errors: seq<LintError>)
    requires BreakGlassRollout !in errors && BreakGlassRisk !in errors && BreakGlassEmergency !in errors
    ensures forall x :: x in errors && BreakGlassKind(x) ==> x == BreakGlassAutoExpire || x == BreakGlassMaxDuration
  {
  }

  /** Each check adds at most one error: five type, four metadata, two
      ring and five break-glass checks, plus one per telemetry entry. */
  lemma ErrorCountBound(policy: JSON)
    requires Lint(policy).Reported?
    ensures |Lint(policy).errors| <= 16 + (if policy.JObj? then TelemetryCount(Section(policy, "telemetry_expectations")) else 0)
  {
    if Complete(policy) {
      var e1, e2, e3, e4 := Stages(policy);
    }
  }

  /** A policy has no errors only if it has every required field. */
  lemma CleanIsComplete(policy: JSON)
    requires Lint(policy) == Reported([])
    ensures Complete(policy)
  {
    if !Complete(policy) {
      MissingTopLevelStops(policy);
    }
  }

  /** An empty result means every check passed. */
  lemma CleanMeansAllPassed(policy: JSON)
    requires Lint(policy) == Reported([])
    ensures Complete(policy)
    ensures NameOk(Field(policy, "name")) && VersionOk(Field(policy, "version"))
    ensures Field(policy, "platform").JStr? && Field(policy, "platform").s in AllowedPlatforms
    ensures Section(policy, "metadata").JObj? && Section(policy, "settings").JObj?
    ensures RequiredMetadata <= Keys(MetadataOf(policy))
    ensures !RiskLevelBad(MetadataOf(policy)) && !RolloutStrategyBad(MetadataOf(policy)) && !ApproverGroupsBad(MetadataOf(policy))
    ensures var rings := SupportedRings(Section(policy, "scope"));
      rings.Some? ==> rings.value.JArr? && rings.value.items != [] && UnknownRingsOf(rings.value.items) == Ok([])
    ensures var t := Section(policy, "telemetry_expectations");
      forall k :: !(t.JObj? && OutOfRangeAt(t.fields, k))
    ensures IsBreakGlass(policy) ==> Get(MetadataOf(policy), "rollout_strategy") == JStr("manual-only")
    ensures IsBreakGlass(policy) ==> Get(MetadataOf(policy), "risk_level") == JStr("critical")
    ensures IsBreakGlass(policy) ==> IsTrue(Get(MetadataOf(policy), "emergency_use_only"))
    ensures IsBreakGlass(policy) ==> IsTrue(Get(TimeConstraintsOf(policy), "auto_expire"))
    ensures IsBreakGlass(policy) ==> MinutesOk(Get(TimeConstraintsOf(policy), "max_duration_minutes"))
  {
    CleanIsComplete(policy);
    CleanTypes(policy);
    CleanMetadata(policy);
    CleanRings(policy);
    TelemetryReported(policy);
    if IsBreakGlass(policy) {
      BreakGlassReported(policy);
    }
  }

  lemma CleanTypes(policy: JSON)
    requires Complete(policy) && Lint(policy) == Reported([])
    ensures NameOk(Field(policy, "name")) && VersionOk(Field(policy, "version"))
    ensures Field(policy, "platform").JStr? && Field(policy, "platform").s in AllowedPlatforms
    ensures Section(policy, "metadata").JObj? && Section(policy, "settings").JObj?
  {
    VersionReported(policy);
    NamePlatformSettingsReported(policy);
    TypesReport(policy, MetadataNotObject);
  }

  lemma CleanMetadata(policy: JSON)
    requires Complete(policy) && Lint(policy) == Reported([])
    ensures RequiredMetadata <= Keys(MetadataOf(policy))
    ensures !RiskLevelBad(MetadataOf(policy)) && !RolloutStrategyBad(MetadataOf(policy)) && !ApproverGroupsBad(MetadataOf(policy))
  {
    var missing := RequiredMetadata - Keys(MetadataOf(policy));
    MetadataReport(policy, MissingMetadata(missing));
    assert missing == {};
    NoneMissing(RequiredMetadata, Keys(MetadataOf(policy)));
    MetadataValuesReported(policy);
  }

  lemma CleanRings(policy: JSON)
    requires Complete(policy) && Lint(policy) == Reported([])
    ensures var rings := SupportedRings(Section(policy, "scope"));
      rings.Some? ==> rings.value.JArr? && rings.value.items != [] && UnknownRingsOf(rings.value.items) == Ok([])
  {
    var e1, e2, e3, e4 := Stages(policy);
    RingsReported(policy);
    var rings := SupportedRings(Section(policy, "scope"));
    if rings.Some? && rings.value.JArr? {
      assert UnknownRingsOf(rings.value.items).Ok?;
      assert UnknownRings(UnknownRingsOf(rings.value.items).value) !in Lint(policy).errors;
    }
  }

  /** `lint_policy`: grows the error list check by check; each commented
      group of checks in the source is a method of its own below. */
  method LintPolicy(policy: JSON) returns (r: LintResult)
    ensures r == Lint(policy)
  {
    if !policy.JObj? {
      return Raised(AttributeError("keys"));
    }
    var fs := policy.fields;
    var errors: seq<LintError> := [];

    var missing := RequiredTopLevel - Keys(fs);
    errors := Expect(errors, missing == {}, MissingTopLevel(missing));
    if missing != {} {
      return Reported(errors);
    }

    var name := Get(fs, "name");
    var metadata := OrEmpty(Get(fs, "metadata"));
    var scope := OrEmpty(Get(fs, "scope"));
    var telemetry := OrEmpty(Get(fs, "telemetry_expectations"));

    var platformOk := InStrings(Get(fs, "platform"), AllowedPlatforms);
    r := ExpectTypes(errors, NameOk(name), platformOk, VersionOk(Get(fs, "version")), metadata, OrEmpty(Get(fs, "settings")));
    if r.Raised? {
      return;
    }
    if !metadata.JObj? {
      return Raised(AttributeError("keys"));
    }
    r := ExpectMetadata(r.errors, metadata.fields);
    if r.Raised? {
      return;
    }
    r := ExpectScope(r.errors, scope);
    if r.Raised? {
      return;
    }
    r := ExpectTelemetry(r.errors, telemetry);
    if r.Raised? {
      return;
    }
    r := ExpectBreakGlass(r.errors, name, metadata.fields, policy);
  }

  method ExpectTypes(errors: seq<LintError>, nameOk: bool, platformOk: Py<bool>, versionOk: bool, metadata: JSON, settings: JSON)
    returns (r: LintResult)
    ensures r == TypeChecks(errors, nameOk, platformOk, versionOk, metadata, settings)
  {
    var errors := Expect(errors, nameOk, NameNotNonEmptyString);
    if platformOk.Raise? {
      return Raised(platformOk.exc);
    }
    errors := Expect(errors, platformOk.value, PlatformNotAllowed);
    errors := Expect(errors, versionOk, VersionNotSemver);
    errors := Expect(errors, metadata.JObj?, MetadataNotObject);
    errors := Expect(errors, settings.JObj?, SettingsNotObject);
    return Reported(errors);
  }

  method ExpectMetadata(errors: seq<LintError>, md: Fields) returns (r: LintResult)
    ensures r == MetadataChecks(errors, md)
  {
    var missingMeta := RequiredMetadata - Keys(md);
    var errors := Expect(errors, missingMeta == {}, MissingMetadata(missingMeta));
    if "risk_level" in Keys(md) {
      var ok := InStrings(Get(md, "risk_level"), AllowedRisk);
      if ok.Raise? {
        return Raised(ok.exc);
      }
      errors := Expect(errors, ok.value, RiskLevelNotAllowed);
    }
    if "rollout_strategy" in Keys(md) {
      var ok := InStrings(Get(md, "rollout_strategy"), AllowedRollout);
      if ok.Raise? {
        return Raised(ok.exc);
      }
      errors := Expect(errors, ok.value, RolloutStrategyNotAllowed);
    }
    if "approver_groups" in Keys(md) {
      var groups := Get(md, "approver_groups");
      errors := Expect(errors, groups.JArr? && groups.items != [], ApproverGroupsNotNonEmptyList);
    }
    return Reported(errors);
  }

  method ExpectScope(errors: seq<LintError>, scope: JSON) returns (r: LintResult)
    ensures r == ScopeChecks(errors, scope)
  {
    var errors := errors;
    if Truthy(scope) {
      if !scope.JObj? {
        errors := errors + [ScopeNotObject];
        return Raised(AttributeError("get"));
      }
      var rings := Get(scope.fields, "supported_rings");
      if !rings.JNull? {
        errors := Expect(errors, rings.JArr? && rings.items != [], SupportedRingsNotNonEmptyList);
        if rings.JArr? {
          var unknown := UnknownRingsOf(rings.items);
          if unknown.Raise? {
            return Raised(unknown.exc);
          }
          errors := Expect(errors, unknown.value == [], UnknownRings(unknown.value));
        }
      }
    }
    return Reported(errors);
  }

  method ExpectTelemetry(errors: seq<LintError>, telemetry: JSON) returns (r: LintResult)
    ensures r == TelemetryChecks(errors, telemetry)
  {
    var errors := errors;
    if Truthy(telemetry) {
      if !telemetry.JObj? {
        errors := errors + [TelemetryNotObject];
        return Raised(AttributeError("items"));
      }
      var entries := telemetry.fields;
      ghost var before := errors;
      var i := 0;
      while i < |entries|
        invariant 0 <= i <= |entries|
        invariant errors == TelemetryErrors(before, entries[..i])
      {
        var (k, v) := entries[i];
        if IsPyNumber(v) {
          errors := Expect(errors, 0.0 <= NumValue(v) <= 1.0, TelemetryOutOfRange(k));
        }
        TelemetryErrorsStep(before, entries, i);
        i := i + 1;
      }
      assert entries[..|entries|] == entries;
    }
    return Reported(errors);
  }

  /** The break-glass guardrails; `time_constraints` is read from the policy
      only when the name marks it as the break-glass exception. */
  method ExpectBreakGlass(errors: seq<LintError>, name: JSON, md: Fields, policy: JSON) returns (r: LintResult)
    requires policy.JObj?
    ensures r == BreakGlassChecks(errors, name, md, OrEmpty(Get(policy.fields, "time_constraints")))
  {
    var errors := errors;
    if name.JStr? && name.s in BreakGlassNames {
      errors := Expect(errors, Get(md, "rollout_strategy") == JStr("manual-only"), BreakGlassRollout);
      errors := Expect(errors, Get(md, "risk_level") == JStr("critical"), BreakGlassRisk);
      errors := Expect(errors, IsTrue(Get(md, "emergency_use_only")), BreakGlassEmergency);
      var tc := OrEmpty(Get(policy.fields, "time_constraints"));
      errors := Expect(errors, tc.JObj? && IsTrue(Get(tc.fields, "auto_expire")), BreakGlassAutoExpire);
      if !tc.JObj? {
        return Raised(AttributeError("get"));
      }
      var minutes := Get(tc.fields, "max_duration_minutes");
      errors := Expect(errors, MinutesOk(minutes), BreakGlassMaxDuration);
    }
    return Reported(errors);
  }
}
