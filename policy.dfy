/** The vocabulary the linters share: the allowed values, the kinds of
    violation they report, and `expect`-style error-list building. */
module Policy {
  import opened Json

  const RequiredTopLevel: set<string> := {"name", "platform", "version", "metadata", "settings"}
  const RequiredMetadata: set<string> := {"owner", "approver_groups", "change_ticket_required", "risk_level", "rollout_strategy"}
  const AllowedPlatforms: set<string> := {"windows", "macos", "linux", "ios", "android", "cross-platform"}
  const AllowedRisk: set<string> := {"low", "medium", "high", "critical"}
  const AllowedRollout: set<string> := {"ringed", "manual-only"}
  const AllowedRings: set<string> := {"qa", "security", "early", "global"}
  /** Names reserved for the emergency-override policy, in both spellings. */
  const BreakGlassNames: set<string> := {"break-glass-exception", "break_glass_exception"}

  /** One violation; the message text the source formats from it is not modelled. */
  datatype LintError =
    | InvalidJson(reason: string)
    | MissingTopLevel(fields: set<string>)
    | NameNotNonEmptyString
    | PlatformNotAllowed
    | VersionNotSemver
    | MetadataNotObject
    | SettingsNotObject
    | MissingMetadata(fields: set<string>)
    | RiskLevelNotAllowed
    | RolloutStrategyNotAllowed
    | ApproverGroupsNotNonEmptyList
    | ApproverGroupNotList
    | ScopeNotObject
    | SupportedRingsNotNonEmptyList
    | UnknownRings(rings: seq<JSON>)
    | TelemetryNotObject
    | TelemetryOutOfRange(key: string)
    | JamfProfileXmlMissing
    | BreakGlassRollout
    | BreakGlassRisk
    | BreakGlassEmergency
    | BreakGlassTimeConstraintsObject
    | BreakGlassAutoExpire
    | BreakGlassMaxDuration

  /** What a linter call produces: its list of violations, or the exception
      that escaped it (the violations collected so far are then lost). */
  datatype LintResult = Reported(errors: seq<LintError>) | Raised(exc: PyException)

  /** `expect(cond, path, msg, errors)`: the list with `e` appended when the
      condition fails, unchanged otherwise. */
  function Expect(errors: seq<LintError>, ok: bool, e: LintError): (r: seq<LintError>)
    ensures errors <= r && |r| <= |errors| + 1
    ensures ok <==> r == errors
    ensures forall x :: x in r <==> x in errors || (!ok && x == e)
  {
    if ok then errors else errors + [e]
  }

  /** Whatever a list holds, a list it is a prefix of holds too. */
  lemma PrefixMembers(a: seq<LintError>, b: seq<LintError>)
    requires a <= b
    ensures forall x :: x in a ==> x in b
  {
  }

  /** No required field is missing: every required field is present. */
  lemma NoneMissing(required: set<string>, present: set<string>)
    requires required - present == {}
    ensures required <= present
  {
    forall k | k in required
      ensures k in present
    {
      assert k !in required - present;
    }
  }

  /** `x in ALLOWED_RINGS` for every element of a list, keeping the unknown
      ones in order: `[r for r in xs if r not in ALLOWED_RINGS]`. */
  function UnknownRingsOf(xs: seq<JSON>): (r: Py<seq<JSON>>)
    ensures r.Raise? <==> exists i :: 0 <= i < |xs| && (xs[i].JArr? || xs[i].JObj?)
    ensures r.Ok? ==> |r.value| <= |xs|
  {
    if xs == [] then Ok([])
    else
      match InStrings(xs[0], AllowedRings)
      case Raise(e) => Raise(e)
      case Ok(known) =>
        match UnknownRingsOf(xs[1..])
        case Raise(e) =>
          assert forall i :: 0 < i < |xs| ==> xs[i] == xs[1..][i - 1];
          Raise(e)
        case Ok(rest) =>
          assert forall i :: 0 <= i < |xs[1..]| ==> xs[1..][i] == xs[i + 1];
          Ok((if known then [] else [xs[0]]) + rest)
  }

  /** One step of the filter: `[x] + t` keeps `x` exactly when it is not
      an allowed ring, then filters `t`. */
  lemma UnknownRingsCons(x: JSON, t: seq<JSON>)
    ensures UnknownRingsOf([x] + t).Ok? <==> InStrings(x, AllowedRings).Ok? && UnknownRingsOf(t).Ok?
    ensures UnknownRingsOf([x] + t).Ok? ==>
      UnknownRingsOf([x] + t).value == (if InStrings(x, AllowedRings).value then [] else [x]) + UnknownRingsOf(t).value
  {
    assert ([x] + t)[0] == x && ([x] + t)[1..] == t;
  }

  /** The unknown rings are exactly the list's elements that are not
      allowed ring names. */
  lemma {:induction false} UnknownRingsMembers(xs: seq<JSON>)
    requires UnknownRingsOf(xs).Ok?
    ensures forall x :: x in UnknownRingsOf(xs).value <==> x in xs && !(x.JStr? && x.s in AllowedRings)
  {
    if xs != [] {
      var x, t := xs[0], xs[1..];
      assert xs == [x] + t;
      UnknownRingsCons(x, t);
      UnknownRingsMembers(t);
    }
  }

  /** The filter distributes over concatenation: the unknown rings of a
      list are those of its front followed by those of its back, so they
      keep the list's order and its duplicates. */
  lemma {:induction false} UnknownRingsConcat(xs: seq<JSON>, ys: seq<JSON>)
    requires UnknownRingsOf(xs).Ok? && UnknownRingsOf(ys).Ok?
    ensures UnknownRingsOf(xs + ys) == Ok(UnknownRingsOf(xs).value + UnknownRingsOf(ys).value)
  {
    if xs == [] {
      assert xs + ys == ys && UnknownRingsOf(xs) == Ok([]);
      assert [] + UnknownRingsOf(ys).value == UnknownRingsOf(ys).value;
    } else {
      var x, t := xs[0], xs[1..];
      assert xs == [x] + t && xs + ys == [x] + (t + ys);
      UnknownRingsCons(x, t);
      UnknownRingsConcat(t, ys);
      UnknownRingsCons(x, t + ys);
      var head := if InStrings(x, AllowedRings).value then [] else [x];
      var front, back := UnknownRingsOf(t).value, UnknownRingsOf(ys).value;
      assert head + (front + back) == (head + front) + back;
    }
  }

  /** The integer value of something `isinstance(x, int)` accepts (`True` is 1). */
  function IntValue(j: JSON): int
    requires IsPyInt(j)
  {
    match j
    case JBool(b) => if b then 1 else 0
    case JInt(i) => i
  }
}
