/** The Jamf-aware linter (examples/policy_as_code/policies/policy_lint.py).
    Its `lint_policy` shares the required fields, the type checks, the enum
    checks on `risk_level` and `rollout_strategy` and the ring checks with
    the linter in module PolicyLint, whose definitions are reused here. It
    has no `approver_groups` and no telemetry checks; it adds the macOS
    configuration-profile payload check, and its break-glass guardrails
    demand a `time_constraints` object and look inside only that. */
module JamfLint {
  import opened Json
  import opened Policy
  import PolicyLint

  predicate MetadataKind(x: LintError)
  {
    x.MissingMetadata? || x.RiskLevelNotAllowed? || x.RolloutStrategyNotAllowed?
  }

  predicate BreakGlassKind(x: LintError)
  {
    || x.BreakGlassRollout? || x.BreakGlassRisk? || x.BreakGlassEmergency?
    || x.BreakGlassTimeConstraintsObject? || x.BreakGlassAutoExpire? || x.BreakGlassMaxDuration?
  }

  /** The required metadata keys, then `risk_level` and `rollout_strategy`
      when present. */
  function MetadataChecks(errors: seq<LintError>, md: Fields): (r: LintResult)
    ensures r.Raised? <==> PolicyLint.EnumChecks(errors, md).Raised?
    ensures r.Reported? ==> |r.errors| <= |errors| + 3 && errors <= r.errors
    ensures r.Reported? ==> forall x :: x in r.errors ==> x in errors || MetadataKind(x)
  {
    var missing := RequiredMetadata - Keys(md);
    PolicyLint.EnumChecks(Expect(errors, missing == {}, MissingMetadata(missing)), md)
  }

  /** `s.strip().startswith("<?xml")`: a string that, leading whitespace
      aside, opens with an XML declaration. */
  predicate StartsXml(s: string)
  {
    StartsWith(Strip(s), "<?xml")
  }

  /** `isinstance(x, str) and x.strip().startswith("<?xml")`. */
  predicate XmlPayloadOk(x: JSON)
  {
    x.JStr? && StartsXml(x.s)
  }

  /** A settings dict whose `type` is the Jamf configuration-profile marker. */
  predicate IsJamfProfile(settings: JSON)
  {
    settings.JObj? && Get(settings.fields, "type") == JStr("jamf_configuration_profile")
  }

  /** The payload check, made only for a macOS configuration profile;
      `settings.get` on a settings value that is not a dict raises. */
  function ProfileCheck(errors: seq<LintError>, platform: JSON, settings: JSON): (r: LintResult)
    ensures r.Raised? <==> platform == JStr("macos") && !settings.JObj?
    ensures r.Reported? ==> |r.errors| <= |errors| + 1 && errors <= r.errors
    ensures r.Reported? ==> forall x :: x in r.errors ==> x in errors || x == JamfProfileXmlMissing
    ensures r.Reported? ==> (JamfProfileXmlMissing in r.errors <==> (JamfProfileXmlMissing in errors ||
      (platform == JStr("macos") && IsJamfProfile(settings) && !XmlPayloadOk(Get(settings.fields, "profile_plist_xml")))))
  {
    if platform != JStr("macos") then Reported(errors)
    else if !settings.JObj? then Raised(AttributeError("get"))
    else if Get(settings.fields, "type") != JStr("jamf_configuration_profile") then Reported(errors)
    else Reported(Expect(errors, XmlPayloadOk(Get(settings.fields, "profile_plist_xml")), JamfProfileXmlMissing))
  }

  /** The time-constraint guardrails: an object is demanded, and only an
      object is looked into. */
  function TimeConstraintChecks(errors: seq<LintError>, tc: JSON): (r: seq<LintError>)
    ensures |r| <= |errors| + 3 && errors <= r
    ensures forall x :: x in r ==> x in errors || x.BreakGlassTimeConstraintsObject? || x.BreakGlassAutoExpire? || x.BreakGlassMaxDuration?
    ensures BreakGlassTimeConstraintsObject in r <==> (BreakGlassTimeConstraintsObject in errors || !tc.JObj?)
    ensures BreakGlassAutoExpire in r <==> (BreakGlassAutoExpire in errors || (tc.JObj? && !IsTrue(Get(tc.fields, "auto_expire"))))
    ensures BreakGlassMaxDuration in r <==>
      (BreakGlassMaxDuration in errors || (tc.JObj? && !PolicyLint.MinutesOk(Get(tc.fields, "max_duration_minutes"))))
  {
    var shaped := Expect(errors, tc.JObj?, BreakGlassTimeConstraintsObject);
    if !tc.JObj? then shaped
    else
      var expiring := Expect(shaped, IsTrue(Get(tc.fields, "auto_expire")), BreakGlassAutoExpire);
      Expect(expiring, PolicyLint.MinutesOk(Get(tc.fields, "max_duration_minutes")), BreakGlassMaxDuration)
  }

  /** The break-glass guardrails, applied only to a policy named as the
      break-glass exception; they never raise. */
  function BreakGlassChecks(errors: seq<LintError>, name: JSON, md: Fields, tc: JSON): (r: seq<LintError>)
    ensures !(name.JStr? && name.s in BreakGlassNames) ==> r == errors
    ensures |r| <= |errors| + 6 && errors <= r
    ensures forall x :: x in r ==> x in errors || BreakGlassKind(x)
  {
    if name.JStr? && name.s in BreakGlassNames then
      TimeConstraintChecks(PolicyLint.MetadataGuardrails(errors, md), tc)
    else errors
  }

  /** `lint_policy(path, p)` as a value. */
  function Lint(policy: JSON): LintResult
  {
    if !policy.JObj? then Raised(AttributeError("keys"))
    else if !PolicyLint.Complete(policy) then Reported([MissingTopLevel(RequiredTopLevel - Keys(policy.fields))])
    else
      match PolicyLint.TypesOf(policy)
      case Raised(e) => Raised(e)
      case Reported(e1) =>
        var md := PolicyLint.Section(policy, "metadata");
        if !md.JObj? then Raised(AttributeError("keys"))
        else
          match MetadataChecks(e1, md.fields)
          case Raised(e) => Raised(e)
          case Reported(e2) =>
            match PolicyLint.ScopeChecks(e2, PolicyLint.Section(policy, "scope"))
            case Raised(e) => Raised(e)
            case Reported(e3) =>
              match ProfileCheck(e3, PolicyLint.Field(policy, "platform"), PolicyLint.Section(policy, "settings"))
              case Raised(e) => Raised(e)
              case Reported(e4) =>
                Reported(BreakGlassChecks(e4, PolicyLint.Field(policy, "name"), md.fields, PolicyLint.Section(policy, "time_constraints")))
  }

  /** The intermediate lists of a complete policy that lints without
      raising, and which group of checks owns each error in the result. */
  lemma Stages(policy: JSON) returns (e1: seq<LintError>, e2: seq<LintError>, e3: seq<LintError>, e4: seq<LintError>)
    requires PolicyLint.Complete(policy) && Lint(policy).Reported?
    ensures PolicyLint.Section(policy, "metadata").JObj?
    ensures PolicyLint.TypesOf(policy) == Reported(e1)
    ensures MetadataChecks(e1, PolicyLint.MetadataOf(policy)) == Reported(e2)
    ensures PolicyLint.ScopeChecks(e2, PolicyLint.Section(policy, "scope")) == Reported(e3)
    ensures ProfileCheck(e3, PolicyLint.Field(policy, "platform"), PolicyLint.Section(policy, "settings")) == Reported(e4)
    ensures Lint(policy) == Reported(BreakGlassChecks(e4, PolicyLint.Field(policy, "name"), PolicyLint.MetadataOf(policy),
      PolicyLint.Section(policy, "time_constraints")))
    ensures forall x :: x in e1 ==> PolicyLint.TypeKind(x)
    ensures forall x :: x in e1 ==> !MetadataKind(x)
    ensures forall x :: x in e2 ==> !PolicyLint.ScopeKind(x)
    ensures JamfProfileXmlMissing !in e3
    ensures forall x :: x in e4 ==> !BreakGlassKind(x)
    ensures forall x :: PolicyLint.TypeKind(x) ==> (x in Lint(policy).errors <==> x in e1)
    ensures forall x :: MetadataKind(x) ==> (x in Lint(policy).errors <==> x in e2)
    ensures forall x :: PolicyLint.ScopeKind(x) ==> (x in Lint(policy).errors <==> x in e3)
    ensures JamfProfileXmlMissing in Lint(policy).errors <==> JamfProfileXmlMissing in e4
    ensures forall x :: x in Lint(policy).errors ==>
      PolicyLint.TypeKind(x) || MetadataKind(x) || PolicyLint.ScopeKind(x) || x == JamfProfileXmlMissing || BreakGlassKind(x)
  {
    var md := PolicyLint.MetadataOf(policy);
    e1 := PolicyLint.TypesOf(policy).errors;
    e2 := MetadataChecks(e1, md).errors;
    e3 := PolicyLint.ScopeChecks(e2, PolicyLint.Section(policy, "scope")).errors;
    e4 := ProfileCheck(e3, PolicyLint.Field(policy, "platform"), PolicyLint.Section(policy, "settings")).errors;
    KindsFlow(e1, e2, e3, e4, Lint(policy).errors);
  }

  /** Five lists, each extending the one before by errors of one group. */
  lemma KindsFlow(e1: seq<LintError>, e2: seq<LintError>, e3: seq<LintError>, e4: seq<LintError>, final: seq<LintError>)
    requires e1 <= e2 && e2 <= e3 && e3 <= e4 && e4 <= final
    requires forall x :: x in e1 ==> PolicyLint.TypeKind(x)
    requires forall x :: x in e2 ==> x in e1 || MetadataKind(x)
    requires forall x :: x in e3 ==> x in e2 || PolicyLint.ScopeKind(x)
    requires forall x :: x in e4 ==> x in e3 || x == JamfProfileXmlMissing
    requires forall x :: x in final ==> x in e4 || BreakGlassKind(x)
    ensures forall x :: x in e1 ==> !MetadataKind(x)
    ensures forall x :: x in e2 ==> !PolicyLint.ScopeKind(x)
    ensures JamfProfileXmlMissing !in e3
    ensures forall x :: x in e4 ==> !BreakGlassKind(x)
    ensures forall x :: PolicyLint.TypeKind(x) ==> (x in final <==> x in e1)
    ensures forall x :: MetadataKind(x) ==> (x in final <==> x in e2)
    ensures forall x :: PolicyLint.ScopeKind(x) ==> (x in final <==> x in e3)
    ensures JamfProfileXmlMissing in final <==> JamfProfileXmlMissing in e4
    ensures forall x :: x in final ==>
      PolicyLint.TypeKind(x) || MetadataKind(x) || PolicyLint.ScopeKind(x) || x == JamfProfileXmlMissing || BreakGlassKind(x)
  {
    PrefixMembers(e1, e2);
    PrefixMembers(e2, e3);
    PrefixMembers(e3, e4);
    PrefixMembers(e4, final);
  }

  /** What the metadata checks add, one error kind at a time. */
  lemma MetadataChecksReport(errors: seq<LintError>, md: Fields, x: LintError)
    requires MetadataChecks(errors, md).Reported? && MetadataKind(x)
    ensures x in MetadataChecks(errors, md).errors <==> (x in errors ||
      (x == MissingMetadata(RequiredMetadata - Keys(md)) && RequiredMetadata - Keys(md) != {}) ||
      (x == RiskLevelNotAllowed && PolicyLint.RiskLevelBad(md)) || (x == RolloutStrategyNotAllowed && PolicyLint.RolloutStrategyBad(md)))
  {
  }

  /** What the break-glass checks add, one error kind at a time. */
  lemma BreakGlassChecksReport(errors: seq<LintError>, name: JSON, md: Fields, tc: JSON, x: LintError)
    requires BreakGlassKind(x)
    ensures x in BreakGlassChecks(errors, name, md, tc) <==> (x in errors ||
      (name.JStr? && name.s in BreakGlassNames && (
        (x == BreakGlassRollout && Get(md, "rollout_strategy") != JStr("manual-only")) ||
        (x == BreakGlassRisk && Get(md, "risk_level") != JStr("critical")) ||
        (x == BreakGlassEmergency && !IsTrue(Get(md, "emergency_use_only"))) ||
        (x == BreakGlassTimeConstraintsObject && !tc.JObj?) ||
        (x == BreakGlassAutoExpire && tc.JObj? && !IsTrue(Get(tc.fields, "auto_expire"))) ||
        (x == BreakGlassMaxDuration && tc.JObj? && !PolicyLint.MinutesOk(Get(tc.fields, "max_duration_minutes"))))))
  {
  }

  /** The type checks of a complete policy, one error kind at a time. */
  lemma TypesReport(policy: JSON, x: LintError)
    requires PolicyLint.Complete(policy) && Lint(policy).Reported? && PolicyLint.TypeKind(x)
    ensures x in Lint(policy).errors <==>
      (x == NameNotNonEmptyString && !PolicyLint.NameOk(PolicyLint.Field(policy, "name"))) ||
      (x == PlatformNotAllowed && !(PolicyLint.Field(policy, "platform").JStr? && PolicyLint.Field(policy, "platform").s in AllowedPlatforms)) ||
      (x == VersionNotSemver && !PolicyLint.VersionOk(PolicyLint.Field(policy, "version"))) ||
      (x == MetadataNotObject && !PolicyLint.Section(policy, "metadata").JObj?) ||
      (x == SettingsNotObject && !PolicyLint.Section(policy, "settings").JObj?)
  {
    var e1, e2, e3, e4 := Stages(policy);
    PolicyLint.TypeChecksReport([], PolicyLint.NameOk(PolicyLint.Field(policy, "name")),
      InStrings(PolicyLint.Field(policy, "platform"), AllowedPlatforms), PolicyLint.VersionOk(PolicyLint.Field(policy, "version")),
      PolicyLint.Section(policy, "metadata"), PolicyLint.Section(policy, "settings"), x);
  }

  /** The metadata checks of a complete policy, one error kind at a time. */
  lemma MetadataReport(policy: JSON, x: LintError)
    requires PolicyLint.Complete(policy) && Lint(policy).Reported? && MetadataKind(x)
    ensures var md := PolicyLint.MetadataOf(policy);
      x in Lint(policy).errors <==>
        (x == MissingMetadata(RequiredMetadata - Keys(md)) && RequiredMetadata - Keys(md) != {}) ||
        (x == RiskLevelNotAllowed && PolicyLint.RiskLevelBad(md)) || (x == RolloutStrategyNotAllowed && PolicyLint.RolloutStrategyBad(md))
  {
    var e1, e2, e3, e4 := Stages(policy);
    MetadataChecksReport(e1, PolicyLint.MetadataOf(policy), x);
  }

  /** The ring checks of a complete policy, one error kind at a time. */
  lemma ScopeReport(policy: JSON, x: LintError)
    requires PolicyLint.Complete(policy) && Lint(policy).Reported? && PolicyLint.ScopeKind(x)
    ensures var rings := PolicyLint.SupportedRings(PolicyLint.Section(policy, "scope"));
      x in Lint(policy).errors <==>
        (x == SupportedRingsNotNonEmptyList && rings.Some? && !(rings.value.JArr? && rings.value.items != [])) ||
        (x.UnknownRings? && rings.Some? && rings.value.JArr? && UnknownRingsOf(rings.value.items) == Ok(x.rings) && x.rings != [])
  {
    var e1, e2, e3, e4 := Stages(policy);
    PolicyLint.ScopeChecksReport(e2, PolicyLint.Section(policy, "scope"), x);
  }

  /** The guardrails of a complete break-glass policy, one error kind at a time. */
  lemma GuardrailReport(policy: JSON, x: LintError)
    requires PolicyLint.Complete(policy) && Lint(policy).Reported? && PolicyLint.IsBreakGlass(policy) && BreakGlassKind(x)
    ensures var md := PolicyLint.MetadataOf(policy);
      var tc := PolicyLint.Section(policy, "time_constraints");
      x in Lint(policy).errors <==>
        (x == BreakGlassRollout && Get(md, "rollout_strategy") != JStr("manual-only")) ||
        (x == BreakGlassRisk && Get(md, "risk_level") != JStr("critical")) ||
        (x == BreakGlassEmergency && !IsTrue(Get(md, "emergency_use_only"))) ||
        (x == BreakGlassTimeConstraintsObject && !tc.JObj?) ||
        (x == BreakGlassAutoExpire && tc.JObj? && !IsTrue(Get(tc.fields, "auto_expire"))) ||
        (x == BreakGlassMaxDuration && tc.JObj? && !PolicyLint.MinutesOk(Get(tc.fields, "max_duration_minutes")))
  {
    var e1, e2, e3, e4 := Stages(policy);
    BreakGlassChecksReport(e4, PolicyLint.Field(policy, "name"), PolicyLint.MetadataOf(policy),
      PolicyLint.Section(policy, "time_constraints"), x);
  }

  /** Every reported error belongs to one of the groups of checks, or is
      the missing-fields error. */
  lemma ReportedKinds(policy: JSON)
    requires Lint(policy).Reported?
    ensures forall x :: x in Lint(policy).errors ==> (x.MissingTopLevel? ||
      PolicyLint.TypeKind(x) || MetadataKind(x) || PolicyLint.ScopeKind(x) || x == JamfProfileXmlMissing || BreakGlassKind(x))
  {
    if PolicyLint.Complete(policy) {
      var e1, e2, e3, e4 := Stages(policy);
    }
  }

  /** A policy missing a required top-level field gets exactly one error. */
  lemma MissingTopLevelStops(policy: JSON)
    requires policy.JObj? && !PolicyLint.Complete(policy)
    ensures Lint(policy) == Reported([MissingTopLevel(RequiredTopLevel - Keys(policy.fields))])
  {
  }

  /** The version must match the same semantic-version grammar. */
  lemma VersionReported(policy: JSON)
    requires PolicyLint.Complete(policy) && Lint(policy).Reported?
    ensures VersionNotSemver in Lint(policy).errors <==> !PolicyLint.VersionOk(PolicyLint.Field(policy, "version"))
  {
    TypesReport(policy, VersionNotSemver);
  }

  /** The errors this variant never reports: it has no `approver_groups`
      check, never appends a scope error, and raises right after appending
      "metadata must be an object". */
  lemma NeverReported(policy: JSON)
    requires Lint(policy).Reported?
    ensures ApproverGroupsNotNonEmptyList !in Lint(policy).errors
    ensures ScopeNotObject !in Lint(policy).errors
    ensures MetadataNotObject !in Lint(policy).errors
  {
    ReportedKinds(policy);
    OutsideKinds(Lint(policy).errors);
    if PolicyLint.Complete(policy) {
      TypesReport(policy, MetadataNotObject);
    } else {
      MissingTopLevelStops(policy);
    }
  }

  lemma OutsideKinds(errors: seq<LintError>)
    requires forall x :: x in errors ==> (x.MissingTopLevel? ||
      PolicyLint.TypeKind(x) || MetadataKind(x) || PolicyLint.ScopeKind(x) || x == JamfProfileXmlMissing || BreakGlassKind(x))
    ensures ApproverGroupsNotNonEmptyList !in errors && ScopeNotObject !in errors
  {
  }

  /** One combined error for the missing metadata keys; `risk_level` and
      `rollout_strategy` checked only when present. */
  lemma MetadataReported(policy: JSON)
    requires PolicyLint.Complete(policy) && Lint(policy).Reported?
    ensures forall f :: MissingMetadata(f) in Lint(policy).errors <==>
      f == RequiredMetadata - Keys(PolicyLint.MetadataOf(policy)) && f != {}
    ensures RiskLevelNotAllowed in Lint(policy).errors <==> PolicyLint.RiskLevelBad(PolicyLint.MetadataOf(policy))
    ensures RolloutStrategyNotAllowed in Lint(policy).errors <==> PolicyLint.RolloutStrategyBad(PolicyLint.MetadataOf(policy))
  {
    forall f
      ensures MissingMetadata(f) in Lint(policy).errors <==> f == RequiredMetadata - Keys(PolicyLint.MetadataOf(policy)) && f != {}
    {
      MetadataReport(policy, MissingMetadata(f));
    }
    MetadataReport(policy, RiskLevelNotAllowed);
    MetadataReport(policy, RolloutStrategyNotAllowed);
  }

  /** A present `supported_rings` must be a non-empty list; all unknown
      rings are reported together, in list order. */
  lemma RingsReported(policy: JSON)
    requires PolicyLint.Complete(policy) && Lint(policy).Reported?
    ensures var rings := PolicyLint.SupportedRings(PolicyLint.Section(policy, "scope"));
      SupportedRingsNotNonEmptyList in Lint(policy).errors <==>
      rings.Some? && !(rings.value.JArr? && rings.value.items != [])
    ensures var rings := PolicyLint.SupportedRings(PolicyLint.Section(policy, "scope"));
      forall u :: UnknownRings(u) in Lint(policy).errors <==>
        rings.Some? && rings.value.JArr? && UnknownRingsOf(rings.value.items) == Ok(u) && u != []
  {
    ScopeReport(policy, SupportedRingsNotNonEmptyList);
    forall u
      ensures var rings := PolicyLint.SupportedRings(PolicyLint.Section(policy, "scope"));
        UnknownRings(u) in Lint(policy).errors <==>
        rings.Some? && rings.value.JArr? && UnknownRingsOf(rings.value.items) == Ok(u) && u != []
    {
      ScopeReport(policy, UnknownRings(u));
    }
  }

  /** The payload error appears exactly for a macOS configuration profile
      whose `profile_plist_xml` is not a string starting, after stripping,
      with `<?xml`. */
  lemma ProfileReported(policy: JSON)
    requires PolicyLint.Complete(policy) && Lint(policy).Reported?
    ensures var settings := PolicyLint.Section(policy, "settings");
      JamfProfileXmlMissing in Lint(policy).errors <==>
        PolicyLint.Field(policy, "platform") == JStr("macos") && IsJamfProfile(settings) &&
        !XmlPayloadOk(Get(settings.fields, "profile_plist_xml"))
  {
    var e1, e2, e3, e4 := Stages(policy);
  }

  /** A macOS policy whose `settings or {}` is not a dict never gets a
      result: reading its `type` raises. */
  lemma MacosSettingsAreObjects(policy: JSON)
    requires PolicyLint.Complete(policy) && Lint(policy).Reported?
    requires PolicyLint.Field(policy, "platform") == JStr("macos")
    ensures PolicyLint.Section(policy, "settings").JObj?
  {
    var e1, e2, e3, e4 := Stages(policy);
  }

  /** Only the name makes a policy break-glass. */
  lemma BreakGlassByNameOnly(policy: JSON)
    requires PolicyLint.Complete(policy) && Lint(policy).Reported? && !PolicyLint.IsBreakGlass(policy)
    ensures forall x :: x in Lint(policy).errors ==> !BreakGlassKind(x)
  {
    var e1, e2, e3, e4 := Stages(policy);
  }

  /** The guardrails of a break-glass policy, each reported exactly when
      violated. */
  lemma BreakGlassReported(policy: JSON)
    requires PolicyLint.Complete(policy) && Lint(policy).Reported? && PolicyLint.IsBreakGlass(policy)
    ensures var md := PolicyLint.MetadataOf(policy);
      && (BreakGlassRollout in Lint(policy).errors <==> Get(md, "rollout_strategy") != JStr("manual-only"))
      && (BreakGlassRisk in Lint(policy).errors <==> Get(md, "risk_level") != JStr("critical"))
      && (BreakGlassEmergency in Lint(policy).errors <==> !IsTrue(Get(md, "emergency_use_only")))
    ensures var tc := PolicyLint.Section(policy, "time_constraints");
      && (BreakGlassTimeConstraintsObject in Lint(policy).errors <==> !tc.JObj?)
      && (BreakGlassAutoExpire in Lint(policy).errors <==> tc.JObj? && !IsTrue(Get(tc.fields, "auto_expire")))
      && (BreakGlassMaxDuration in Lint(policy).errors <==>
          tc.JObj? && !PolicyLint.MinutesOk(Get(tc.fields, "max_duration_minutes")))
  {
    GuardrailReport(policy, BreakGlassRollout);
    GuardrailReport(policy, BreakGlassRisk);
    GuardrailReport(policy, BreakGlassEmergency);
    GuardrailReport(policy, BreakGlassTimeConstraintsObject);
    GuardrailReport(policy, BreakGlassAutoExpire);
    GuardrailReport(policy, BreakGlassMaxDuration);
  }

  /** A missing or falsy `time_constraints` (`null`, `[]`, `0`, `""`,
      `false`, `{}`) reads as `{}`: both checks inside it fail, and the
      "must include an object" check passes. */
  lemma MissingTimeConstraints(policy: JSON)
    requires PolicyLint.Complete(policy) && Lint(policy).Reported? && PolicyLint.IsBreakGlass(policy)
    requires !Truthy(PolicyLint.Field(policy, "time_constraints"))
    ensures BreakGlassAutoExpire in Lint(policy).errors && BreakGlassMaxDuration in Lint(policy).errors
    ensures BreakGlassTimeConstraintsObject !in Lint(policy).errors
  {
    assert PolicyLint.Section(policy, "time_constraints") == EmptyObject;
    BreakGlassReported(policy);
  }

  /** A `time_constraints` that is not a dict gets only the object error
      among the time-constraint checks. */
  lemma NonObjectTimeConstraints(policy: JSON)
    requires PolicyLint.Complete(policy) && Lint(policy).Reported? && PolicyLint.IsBreakGlass(policy)
    requires Truthy(PolicyLint.Field(policy, "time_constraints")) && !PolicyLint.Field(policy, "time_constraints").JObj?
    ensures BreakGlassTimeConstraintsObject in Lint(policy).errors
    ensures BreakGlassAutoExpire !in Lint(policy).errors && BreakGlassMaxDuration !in Lint(policy).errors
  {
    BreakGlassReported(policy);
  }

  /** Five type checks, three metadata checks, two ring checks, the payload
      check and six guardrails: at most seventeen errors. */
  lemma ErrorCountBound(policy: JSON)
    requires Lint(policy).Reported?
    ensures |Lint(policy).errors| <= 17
  {
    if PolicyLint.Complete(policy) {
      var e1, e2, e3, e4 := Stages(policy);
    }
  }

  /** `lint_policy`: grows the error list check by check. */
  method LintPolicy(policy: JSON) returns (r: LintResult)
    ensures r == Lint(policy)
  {
    if !policy.JObj? {
      return Raised(AttributeError("keys"));
    }
    var fs := policy.fields;
    var errors: seq<LintError> := [];

    var missing := RequiredTopLevel - Keys(fs);
    errors := Expect(errors, missing == {}, MissingTopLevel(missing));
    if missing != {} {
      return Reported(errors);
    }

    var name := Get(fs, "name");
    var platform := Get(fs, "platform");
    var metadata := OrEmpty(Get(fs, "metadata"));
    var settings := OrEmpty(Get(fs, "settings"));
    var scope := OrEmpty(Get(fs, "scope"));

    var platformOk := InStrings(platform, AllowedPlatforms);
    r := PolicyLint.ExpectTypes(errors, PolicyLint.NameOk(name), platformOk, PolicyLint.VersionOk(Get(fs, "version")), metadata, settings);
    if r.Raised? {
      return;
    }
    if !metadata.JObj? {
      return Raised(AttributeError("keys"));
    }
    r := ExpectMetadata(r.errors, metadata.fields);
    if r.Raised? {
      return;
    }
    r := ExpectRings(r.errors, scope);
    if r.Raised? {
      return;
    }
    r := ExpectProfile(r.errors, platform, settings);
    if r.Raised? {
      return;
    }
    var guarded := ExpectBreakGlass(r.errors, name, metadata.fields, OrEmpty(Get(fs, "time_constraints")));
    return Reported(guarded);
  }

  method ExpectMetadata(errors: seq<LintError>, md: Fields) returns (r: LintResult)
    ensures r == MetadataChecks(errors, md)
  {
    var missingMeta := RequiredMetadata - Keys(md);
    var errors := Expect(errors, missingMeta == {}, MissingMetadata(missingMeta));
    if "risk_level" in Keys(md) {
      var ok := InStrings(Get(md, "risk_level"), AllowedRisk);
      if ok.Raise? {
        return Raised(ok.exc);
      }
      errors := Expect(errors, ok.value, RiskLevelNotAllowed);
    }
    if "rollout_strategy" in Keys(md) {
      var ok := InStrings(Get(md, "rollout_strategy"), AllowedRollout);
      if ok.Raise? {
        return Raised(ok.exc);
      }
      errors := Expect(errors, ok.value, RolloutStrategyNotAllowed);
    }
    return Reported(errors);
  }

  /** `scope.get("supported_rings")` on `scope or {}`, with no "scope must
      be an object" check: the same outcome as the other linter's ring
      checks. */
  method ExpectRings(errors: seq<LintError>, scope: JSON) returns (r: LintResult)
    requires Truthy(scope) || scope == EmptyObject
    ensures r == PolicyLint.ScopeChecks(errors, scope)
  {
    if !scope.JObj? {
      return Raised(AttributeError("get"));
    }
    var errors := errors;
    var rings := Get(scope.fields, "supported_rings");
    if !rings.JNull? {
      errors := Expect(errors, rings.JArr? && rings.items != [], SupportedRingsNotNonEmptyList);
      if rings.JArr? {
        var unknown := UnknownRingsOf(rings.items);
        if unknown.Raise? {
          return Raised(unknown.exc);
        }
        errors := Expect(errors, unknown.value == [], UnknownRings(unknown.value));
      }
    }
    return Reported(errors);
  }

  method ExpectProfile(errors: seq<LintError>, platform: JSON, settings: JSON) returns (r: LintResult)
    ensures r == ProfileCheck(errors, platform, settings)
  {
    var errors := errors;
    if platform == JStr("macos") {
      if !settings.JObj? {
        return Raised(AttributeError("get"));
      }
      if Get(settings.fields, "type") == JStr("jamf_configuration_profile") {
        var payload := Get(settings.fields, "profile_plist_xml");
        errors := Expect(errors, XmlPayloadOk(payload), JamfProfileXmlMissing);
      }
    }
    return Reported(errors);
  }

  method ExpectBreakGlass(errors: seq<LintError>, name: JSON, md: Fields, tc: JSON) returns (r: seq<LintError>)
    ensures r == BreakGlassChecks(errors, name, md, tc)
  {
    r := errors;
    if name.JStr? && name.s in BreakGlassNames {
      r := Expect(r, Get(md, "rollout_strategy") == JStr("manual-only"), BreakGlassRollout);
      r := Expect(r, Get(md, "risk_level") == JStr("critical"), BreakGlassRisk);
      r := Expect(r, IsTrue(Get(md, "emergency_use_only")), BreakGlassEmergency);
      r := Expect(r, tc.JObj?, BreakGlassTimeConstraintsObject);
      if tc.JObj? {
        r := Expect(r, IsTrue(Get(tc.fields, "auto_expire")), BreakGlassAutoExpire);
        r := Expect(r, PolicyLint.MinutesOk(Get(tc.fields, "max_duration_minutes")), BreakGlassMaxDuration);
      }
    }
  }
}
