# Policy-as-code reconciliation core, modelled in Dafny

This repository keeps endpoint-management policies as JSON files. Each
policy has a name, a platform, a semantic version, metadata (owner,
approvers, risk level, rollout strategy), settings, an optional
rollout-ring scope and, for the emergency "break-glass" policy, time
constraints. Three kinds of tool act on these policies:

- **Linters** check a policy before it is merged. `tools/policy_lint.py`
  checks required fields only. `examples/tools/policy_lint.py` adds type,
  semantic-version, ring, telemetry and break-glass guardrails.
  `examples/policy_as_code/policies/policy_lint.py` is the Jamf variant,
  which also checks macOS configuration-profile payloads.
- **Reconciliation loops** push every policy that is eligible for a
  rollout ring to a backend and record one result per policy (applied,
  no_change, skipped or failed). The audit summary counts those results.
  `examples/tools/apply_config.py` is the vendor-neutral loop, behind a
  placeholder connector. `examples/policy_as_code/policies/apply_config.py`
  is the Jamf Pro loop over the Classic API.
- **Drift comparators** compare the desired policies with a snapshot of
  what the backend holds. They report names that are missing, extra or
  whose settings differ. `tools/drift_check.py` compares raw settings.
  `examples/tools/drift_check.py` normalizes them first.

The model follows the Python code closely, crashes included. A JSON value
is the datatype `Json.JSON`: an object is an association list in insertion
order, as a Python dict is. Python semantics are written out:

- truthiness, `x or {}` and `dict.get`;
- `isinstance`, where a `bool` is an `int`;
- `is True`, and `str.strip`;
- `==`, under which `1 == 1.0 == True` and dict equality ignores key order;
- `in` on a set, which raises for an unhashable list or dict.

An operation that can raise returns `Py<T>`, either `Ok(value)` or
`Raise(exception)`. A lint run returns `Reported(errors)` or `Raised(exc)`.
Lint errors are a datatype of error kinds with their payloads, not
message strings.

The modules and their forms:

- `Json`, `Policy` and `Semver`: the shared JSON values, the error kinds
  and the accumulator `_expect`, and the semantic-version pattern as a
  matcher proved equal to its grammar.
- `SimpleLint`, `PolicyLint` and `JamfLint`: one linter each. Each is
  specified as a function `Lint` with one report lemma per group of
  checks. Each is implemented as a method that grows the error list step
  by step and is proved equal to that function.
- `Apply`, `Reconcile` and `JamfApply`: ring eligibility, the audit
  counts, and the two reconciliation loops. Each loop is a `while` method
  proved equal to a fold over the policies. A backend is a record of
  functions over an explicit backend state, so what a loop does to the
  backend is part of each result.
- `Drift`, `Settings`, `RawDrift` and `NormalizedDrift`: the two
  comparators share one loop, parameterized by the settings value they
  compare.

Some behaviour of the code, as written, is visible in the proofs:

- `PolicyLint.NotObjectErrorsNeverReported`: in
  `examples/tools/policy_lint.py` the "metadata / scope /
  telemetry_expectations must be an object" errors are appended, and
  then the next line calls a dict method on the same value. The linter
  therefore raises, and those errors are never part of a returned list.
  `JamfLint.NeverReported` shows the same for metadata in the Jamf
  linter.
- `NormalizedDrift.DriftIffRawDiffer`: sorting dict keys before comparing
  never changes the outcome of `!=`. Python dict equality already ignores
  key order. The two comparators differ only where a `settings` key is
  missing: one reads it as `{}` and the other as None
  (`NormalizedDrift.AgreesWithRaw`, `RawDrift.EmptyAgainstAbsent`).
- `JamfApply.NonXmlPayloadNeverSettles`: the Jamf loop looks for the
  current payload by scanning the response for a string that starts with
  `<?xml`. A desired payload without that declaration is therefore never
  found. Against a backend that stores what it is sent, the profile is
  rewritten on every run and never reports no_change.
- `Reconcile.FetchErrorEscapes`: in the vendor-neutral loop only
  `apply_policy` sits inside the `try`. An exception from
  `get_current_policy` ends the whole run, and the results gathered so
  far are lost.

## Model

| member | source | states |
|---|---|---|
| Json.Lookup | examples/tools/apply_config.py:115 | a key is found exactly when the dict has it, and the value found is stored with that key |
| Json.Strip | examples/tools/policy_lint.py:75 | `s.strip()` is empty exactly when `s` is all whitespace |
| Json.StripIsTrim | examples/tools/policy_lint.py:75 | `s.strip()` is the slice of `s` with only whitespace on either side of it, and it neither starts nor ends with whitespace |
| Json.PyEqReflexive | tools/drift_check.py:44 | Python `==` on a well-formed JSON value is reflexive |
| Json.PyEqSymmetric | tools/drift_check.py:44 | Python `==` on JSON values is symmetric |
| Json.PyEqByKey | tools/drift_check.py:44 | two dicts are `==` exactly when they have the same keys and equal values under each key, in any order |
| Json.PyEq | examples/tools/apply_config.py:119 | definition of Python `==` on JSON values (also the `!=` of both drift checks); its properties are `Json.PyEqReflexive`, `Json.PyEqSymmetric`, `Json.PyEqByKey` |
| Policy.Expect | examples/tools/policy_lint.py:52-54 | `_expect` leaves the list unchanged when the condition holds, and otherwise appends exactly the one error |
| Policy.UnknownRingsOf | examples/tools/policy_lint.py:101 | the invalid-ring list raises exactly when some element is unhashable (a list or dict), and is never longer than its input |
| Policy.UnknownRingsCons | examples/tools/policy_lint.py:101 | one step of the comprehension: `[x] + t` keeps `x` exactly when it is not an allowed ring name, ahead of the unknown rings of `t`, and raises exactly when `x` or `t` does |
| Policy.UnknownRingsMembers | examples/tools/policy_lint.py:101 | when it does not raise, the invalid-ring list holds exactly the elements that are not allowed ring names |
| Policy.UnknownRingsConcat | examples/tools/policy_lint.py:101 | the invalid-ring list of a concatenation is the invalid rings of the front followed by those of the back, so it keeps the input's order and duplicates |
| Semver.Matches | examples/tools/policy_lint.py:23 | definition of the `SEMVER_RE` matcher; its properties are `Semver.MatchesIffGrammar` and the accept/reject lemmas |
| Semver.MatchesIffGrammar | examples/tools/policy_lint.py:23 | the matcher accepts exactly numeral `.` numeral `.` numeral, then an optional `[-+]` tag, then an optional final newline, with no leading zeros |
| Semver.AcceptsPlain | examples/tools/policy_lint.py:23 | "1.2.3" is a version |
| Semver.AcceptsPreRelease | examples/tools/policy_lint.py:23 | "0.10.0-rc.1" is a version |
| Semver.AcceptsTrailingNewline | examples/tools/policy_lint.py:23 | `$` also matches before one final newline: "1.2.3+b\n" is accepted |
| Semver.RejectsTwoParts | examples/tools/policy_lint.py:23 | "1.2" is not a version |
| Semver.RejectsLeadingZero | examples/tools/policy_lint.py:23 | "01.2.3" is not a version |
| Semver.RejectsEmptyTag | examples/tools/policy_lint.py:23 | "1.2.3-" is not a version |
| SimpleLint.LintFile | tools/policy_lint.py:21-39 | definition of `lint_file`; its properties are `SimpleLint.RaisesExactlyWhen`, `SimpleLint.UnparseableReported`, `SimpleLint.MissingTopLevelStops`, `SimpleLint.ChecksReported`, `SimpleLint.LintDocument` |
| SimpleLint.RaisesExactlyWhen | tools/policy_lint.py:27-32 | a parsed document raises exactly when it is not a dict, or has every required field and a `metadata` that is not a dict |
| SimpleLint.UnparseableReported | tools/policy_lint.py:23-26 | an unparseable file gets exactly one error |
| SimpleLint.MissingTopLevelStops | tools/policy_lint.py:27-30 | a file missing any of name, platform, metadata or settings gets exactly one error naming them, and nothing else is checked |
| SimpleLint.ChecksReported | tools/policy_lint.py:31-38 | missing metadata keys give one combined error, a present non-list `approver_group` is reported, and so is non-dict `settings`; at most three errors |
| SimpleLint.LintDocument | tools/policy_lint.py:21-39 | the step-by-step linter returns exactly `LintFile` |
| PolicyLint.TypeChecks | examples/tools/policy_lint.py:75-79 | the type checks raise only when `platform in` raises, add at most five errors, and add only type errors |
| PolicyLint.EnumChecks | examples/tools/policy_lint.py:86-89 | the risk and rollout checks raise exactly for a present list or dict value, and add at most those two errors |
| PolicyLint.ApproverGroupsCheck | examples/tools/policy_lint.py:90-91 | the approver-groups check adds at most its own error |
| PolicyLint.MetadataChecks | examples/tools/policy_lint.py:82-91 | the metadata checks raise exactly when the value checks do, and add at most four metadata errors |
| PolicyLint.ScopeChecks | examples/tools/policy_lint.py:94-102 | the scope checks raise exactly for a truthy non-dict scope or an unhashable ring, and add at most two ring errors |
| PolicyLint.TelemetryErrors | examples/tools/policy_lint.py:107-109 | the telemetry loop reports key `k` exactly when some entry under `k` is a number outside [0, 1] |
| PolicyLint.TelemetryChecks | examples/tools/policy_lint.py:105-109 | the telemetry checks raise exactly for a truthy non-dict value, and add at most one error per entry |
| PolicyLint.MetadataGuardrails | examples/tools/policy_lint.py:114-117 | the rollout, risk and emergency guardrails are each reported exactly when violated |
| PolicyLint.BreakGlassChecks | examples/tools/policy_lint.py:112-123 | the guardrails apply only to a break-glass name, raise exactly for a non-dict `time_constraints`, and add at most five errors |
| PolicyLint.Lint | examples/tools/policy_lint.py:57-125 | definition of `lint_policy`; its properties are `PolicyLint.Stages`, the `*Reported` lemmas, `PolicyLint.CleanMeansAllPassed`, `PolicyLint.LintPolicy` |
| PolicyLint.Stages | examples/tools/policy_lint.py:57-125 | each error kind is in the result exactly when its group of checks put it into the list |
| PolicyLint.TypeChecksReport | examples/tools/policy_lint.py:75-79 | each type error is added exactly when its condition fails |
| PolicyLint.MetadataChecksReport | examples/tools/policy_lint.py:82-91 | each metadata error is added exactly when its condition fails |
| PolicyLint.ScopeChecksReport | examples/tools/policy_lint.py:94-102 | each ring error is added exactly when its condition fails |
| PolicyLint.TelemetryChecksReport | examples/tools/policy_lint.py:105-109 | a telemetry error for `k` is added exactly for an out-of-range number under `k` |
| PolicyLint.BreakGlassChecksReport | examples/tools/policy_lint.py:112-123 | each guardrail error is added exactly for a break-glass name whose guardrail fails |
| PolicyLint.TypesReport | examples/tools/policy_lint.py:75-79 | for a complete policy, each type error is reported exactly when its check fails |
| PolicyLint.MetadataReport | examples/tools/policy_lint.py:82-91 | for a complete policy, each metadata error is reported exactly when its check fails |
| PolicyLint.ScopeReport | examples/tools/policy_lint.py:94-102 | for a complete policy, each ring error is reported exactly when its check fails |
| PolicyLint.TelemetryReport | examples/tools/policy_lint.py:105-109 | for a complete policy, a telemetry error is reported exactly for an out-of-range entry |
| PolicyLint.GuardrailReport | examples/tools/policy_lint.py:112-123 | for a break-glass policy, each guardrail error is reported exactly when violated |
| PolicyLint.ReportedKinds | examples/tools/policy_lint.py:57-125 | every reported error is the missing-fields error or belongs to one group of checks |
| PolicyLint.MissingTopLevelStops | examples/tools/policy_lint.py:61-64 | a policy missing a required top-level field gets exactly one error naming the missing fields |
| PolicyLint.VersionReported | examples/tools/policy_lint.py:77 | the version error appears exactly when the version is not a semver string |
| PolicyLint.NamePlatformSettingsReported | examples/tools/policy_lint.py:75-79 | the name, platform and settings errors appear exactly when those checks fail |
| PolicyLint.NotObjectErrorsNeverReported | examples/tools/policy_lint.py:78-107 | no returned list ever holds a "must be an object" error for metadata, scope or telemetry |
| PolicyLint.MissingMetadataReported | examples/tools/policy_lint.py:82-83 | missing required metadata keys give one error carrying exactly the missing set |
| PolicyLint.MetadataValuesReported | examples/tools/policy_lint.py:86-91 | risk, rollout and approver-groups errors appear exactly for present, invalid values |
| PolicyLint.RingsReported | examples/tools/policy_lint.py:97-102 | a present `supported_rings` must be a non-empty list; all unknown rings are reported together, in order, in one error (order and duplicates: `Policy.UnknownRingsConcat`) |
| PolicyLint.TelemetryReported | examples/tools/policy_lint.py:105-109 | one telemetry error per key holding a number outside [0, 1], and no other |
| PolicyLint.BreakGlassByNameOnly | examples/tools/policy_lint.py:112 | a policy not named as the break-glass exception gets no guardrail error |
| PolicyLint.BreakGlassReported | examples/tools/policy_lint.py:112-123 | each of the five guardrails of a break-glass policy is reported exactly when violated |
| PolicyLint.BreakGlassWithoutTimeConstraints | examples/tools/policy_lint.py:120-123 | a break-glass policy with correct metadata and no `time_constraints` gets exactly the two time-constraint errors |
| PolicyLint.ErrorCountBound | examples/tools/policy_lint.py:57-125 | at most sixteen errors plus one per telemetry entry |
| PolicyLint.CleanIsComplete | examples/tools/policy_lint.py:61-64 | an empty result implies every required top-level field is present |
| PolicyLint.CleanMeansAllPassed | examples/tools/policy_lint.py:57-125 | an empty result means every check passed: all required fields, the types and version, the metadata values, a non-empty list of known rings when rings are given, every telemetry number within [0, 1], and, for the break-glass policy, all five guardrails |
| PolicyLint.LintPolicy | examples/tools/policy_lint.py:57-125 | the step-by-step `lint_policy` returns exactly `Lint` |
| PolicyLint.ExpectTypes | examples/tools/policy_lint.py:75-79 | the five type checks, appended in order |
| PolicyLint.ExpectMetadata | examples/tools/policy_lint.py:82-91 | the metadata checks, appended in order |
| PolicyLint.ExpectScope | examples/tools/policy_lint.py:94-102 | the ring checks, appended in order |
| PolicyLint.ExpectTelemetry | examples/tools/policy_lint.py:105-109 | the telemetry loop over the entries, in order |
| PolicyLint.ExpectBreakGlass | examples/tools/policy_lint.py:112-123 | the guardrails, with `time_constraints` read only for a break-glass name |
| JamfLint.MetadataChecks | examples/policy_as_code/policies/policy_lint.py:75-81 | the metadata checks raise exactly when the value checks do, and add at most three metadata errors |
| JamfLint.ProfileCheck | examples/policy_as_code/policies/policy_lint.py:93-100 | raises exactly for macOS with non-dict settings; reports exactly a macOS profile whose payload is not a string starting, after stripping, with `<?xml` |
| JamfLint.TimeConstraintChecks | examples/policy_as_code/policies/policy_lint.py:108-113 | an object is demanded, and auto-expire and duration are checked only inside an object |
| JamfLint.BreakGlassChecks | examples/policy_as_code/policies/policy_lint.py:103-113 | the guardrails apply only to a break-glass name, never raise, and add at most six errors |
| JamfLint.Lint | examples/policy_as_code/policies/policy_lint.py:54-115 | definition of `lint_policy`; its properties are `JamfLint.Stages`, the `*Reported` lemmas, `JamfLint.LintPolicy` |
| JamfLint.Stages | examples/policy_as_code/policies/policy_lint.py:54-115 | each error kind is in the result exactly when its group of checks put it into the list |
| JamfLint.MetadataChecksReport | examples/policy_as_code/policies/policy_lint.py:75-81 | each metadata error is added exactly when its condition fails |
| JamfLint.BreakGlassChecksReport | examples/policy_as_code/policies/policy_lint.py:103-113 | each guardrail error is added exactly for a break-glass name whose guardrail fails |
| JamfLint.TypesReport | examples/policy_as_code/policies/policy_lint.py:69-73 | for a complete policy, each type error is reported exactly when its check fails |
| JamfLint.MetadataReport | examples/policy_as_code/policies/policy_lint.py:75-81 | for a complete policy, each metadata error is reported exactly when its check fails |
| JamfLint.ScopeReport | examples/policy_as_code/policies/policy_lint.py:84-89 | for a complete policy, each ring error is reported exactly when its check fails |
| JamfLint.GuardrailReport | examples/policy_as_code/policies/policy_lint.py:103-113 | for a break-glass policy, each guardrail error is reported exactly when violated |
| JamfLint.ReportedKinds | examples/policy_as_code/policies/policy_lint.py:54-115 | every reported error is the missing-fields error or belongs to one group of checks |
| JamfLint.MissingTopLevelStops | examples/policy_as_code/policies/policy_lint.py:57-60 | a policy missing a required top-level field gets exactly one error naming the missing fields |
| JamfLint.VersionReported | examples/policy_as_code/policies/policy_lint.py:71 | the version error appears exactly when the version is not a semver string |
| JamfLint.NeverReported | examples/policy_as_code/policies/policy_lint.py:72-75 | no approver-groups or scope error is ever reported, and neither is "metadata must be an object" |
| JamfLint.MetadataReported | examples/policy_as_code/policies/policy_lint.py:75-81 | one combined missing-metadata error; risk and rollout are checked only when present |
| JamfLint.RingsReported | examples/policy_as_code/policies/policy_lint.py:84-89 | a present `supported_rings` must be a non-empty list; all unknown rings are reported together, in order (order and duplicates: `Policy.UnknownRingsConcat`) |
| JamfLint.ProfileReported | examples/policy_as_code/policies/policy_lint.py:93-100 | the payload error appears exactly for a macOS configuration profile without an XML payload |
| JamfLint.MacosSettingsAreObjects | examples/policy_as_code/policies/policy_lint.py:93-95 | a macOS policy whose `settings or {}` is not a dict (a truthy non-dict value) never gets a result: reading its `type` raises |
| JamfLint.BreakGlassByNameOnly | examples/policy_as_code/policies/policy_lint.py:103 | a policy not named as the break-glass exception gets no guardrail error |
| JamfLint.BreakGlassReported | examples/policy_as_code/policies/policy_lint.py:103-113 | each of the six guardrails of a break-glass policy is reported exactly when violated |
| JamfLint.MissingTimeConstraints | examples/policy_as_code/policies/policy_lint.py:108-113 | a missing or falsy `time_constraints` (`null`, `[]`, `0`, `""`, `false`, `{}`) reads as `{}`: auto-expire and duration fail, and the object check passes |
| JamfLint.NonObjectTimeConstraints | examples/policy_as_code/policies/policy_lint.py:108-113 | a truthy non-dict `time_constraints` gets only the object error among the time checks (the falsy case is `JamfLint.MissingTimeConstraints`) |
| JamfLint.ErrorCountBound | examples/policy_as_code/policies/policy_lint.py:54-115 | at most seventeen errors |
| JamfLint.LintPolicy | examples/policy_as_code/policies/policy_lint.py:54-115 | the step-by-step `lint_policy` returns exactly `Lint` |
| JamfLint.ExpectMetadata | examples/policy_as_code/policies/policy_lint.py:75-81 | the metadata checks, appended in order |
| JamfLint.ExpectRings | examples/policy_as_code/policies/policy_lint.py:84-89 | without a "scope must be an object" check, the ring checks come out as in the other linter |
| JamfLint.ExpectProfile | examples/policy_as_code/policies/policy_lint.py:93-100 | the payload check, appended in order |
| JamfLint.ExpectBreakGlass | examples/policy_as_code/policies/policy_lint.py:103-113 | the guardrails, appended in order |
| Apply.IsPolicyAllowedInRing | examples/tools/apply_config.py:88-95 | raises exactly for a truthy non-dict scope; otherwise allows exactly when `supported_rings` is absent, or a list holding the ring |
| Apply.EligibleWithoutRings | examples/tools/apply_config.py:89-92 | no `supported_rings` means eligible for every ring |
| Apply.EligibleForListedRings | examples/tools/apply_config.py:93-94 | a list of rings means eligible exactly for the rings it holds |
| Apply.IneligibleForOtherRings | examples/tools/apply_config.py:95 | any other `supported_rings` value means eligible for no ring |
| Apply.CountStatus | examples/tools/apply_config.py:139-142 | a summary count never exceeds the number of results |
| Apply.CountIsNumberWithStatus | examples/tools/apply_config.py:139-142 | each summary count is the number of results with that status |
| Apply.Summarize | examples/tools/apply_config.py:138-143 | definition of the summary counts; its properties are `Apply.SummaryTotal`, `Apply.CountIsNumberWithStatus` |
| Apply.SummaryTotal | examples/tools/apply_config.py:138-143 | the four counts equal the number of results less those whose status is none of the four: exactly the number of results when every status is known, strictly fewer otherwise |
| Apply.CountConcat | examples/tools/apply_config.py:139-142 | counts over two result lists add up |
| Apply.RunResults | examples/tools/apply_config.py:98-129 | a run gives one result per policy, in order, each from that policy's step in the state the earlier ones left; it finishes exactly when no step raises |
| Reconcile.Step | examples/tools/apply_config.py:101-127 | definition of one pass of the `apply_all` loop body; its properties are `Reconcile.IneligibleSkipped`, `Reconcile.EmergencySkipped`, `Reconcile.CompliantIsNoChange`, `Reconcile.OutOfDateIsApplied`, `Reconcile.FetchErrorEscapes`, `Reconcile.ApplyFailureIsolated`, `Reconcile.ApplyOne` |
| Reconcile.IneligibleSkipped | examples/tools/apply_config.py:103-105 | a policy outside its rings is skipped with no backend call |
| Reconcile.EmergencySkipped | examples/tools/apply_config.py:108-111 | an emergency-only policy is skipped with no backend call on every ring but "break-glass" |
| Reconcile.EmergencyNeverApplied | examples/tools/apply_config.py:108-111 | on any of the four allowed rings an emergency-only policy is always skipped and never reaches the backend |
| Reconcile.CompliantIsNoChange | examples/tools/apply_config.py:114-121 | settings equal under Python `==` give no_change, and `apply_policy` is not called |
| Reconcile.OutOfDateIsApplied | examples/tools/apply_config.py:124-127 | otherwise `apply_policy`'s result is recorded as is, and its exception becomes a failed result carrying the message |
| Reconcile.FetchErrorEscapes | examples/tools/apply_config.py:114 | an exception from `get_current_policy` escapes `apply_all` |
| Reconcile.ApplyFailureIsolated | examples/tools/apply_config.py:124-127 | a failing apply is recorded, and the remaining policies are still processed after it |
| Reconcile.Placeholder | examples/tools/apply_config.py:49-55 | definition of the placeholder connector; its properties are `Reconcile.PlaceholderApplies` |
| Reconcile.PlaceholderApplies | examples/tools/apply_config.py:49-55 | with the placeholder every eligible policy is applied, or fails on a missing name; there is never a no_change |
| Reconcile.ApplyAll | examples/tools/apply_config.py:98-129 | the `apply_all` loop returns exactly `Run` |
| Reconcile.ApplyOne | examples/tools/apply_config.py:101-127 | one pass of the loop body returns exactly `Step` |
| JamfApply.IsAllowedInRing | examples/policy_as_code/policies/apply_config.py:45-50 | this variant's ring check agrees with the vendor-neutral one on every input |
| JamfApply.BuildClassicProfileXml | examples/policy_as_code/policies/apply_config.py:78-93 | the body opens with an XML declaration; a reader that knows neither the name nor the payload gets both back, for any payload and any name without `</name>` |
| JamfApply.ParsedIsBuilt | examples/policy_as_code/policies/apply_config.py:78-93 | every document that reader accepts is exactly the body built from the name and payload it read |
| JamfApply.FirstXml | examples/policy_as_code/policies/apply_config.py:116-129 | finds a string that opens with `<?xml`, and finds none exactly when no string does |
| JamfApply.Scan | examples/policy_as_code/policies/apply_config.py:116-129 | `scan` returns only non-empty strings that open, after stripping, with `<?xml` |
| JamfApply.ScanFindsFirst | examples/policy_as_code/policies/apply_config.py:116-131 | `scan` returns the first such string in depth-first order of the response |
| JamfApply.GetProfileByName | examples/policy_as_code/policies/apply_config.py:107-131 | raises exactly when the request does, and what it returns opens with `<?xml` |
| JamfApply.Step | examples/policy_as_code/policies/apply_config.py:194-233 | definition of one pass of the loop in `main`; its properties are `JamfApply.EmergencyFirst`, `JamfApply.NotForJamfSkipped`, `JamfApply.MissingPayloadFails`, `JamfApply.PushReached`, `JamfApply.ConnectorFailureIsolated`, `JamfApply.ReconcileOne` |
| JamfApply.EmergencyFirst | examples/policy_as_code/policies/apply_config.py:197-199 | an emergency-only policy is skipped before anything else, with no backend call |
| JamfApply.NotForJamfSkipped | examples/policy_as_code/policies/apply_config.py:201-212 | outside the ring, not for macOS, or not a configuration profile: skipped with no backend call |
| JamfApply.DesiredXml | examples/policy_as_code/policies/apply_config.py:214 | definition of `(settings.get("profile_plist_xml") or "").strip()`; its properties are `JamfApply.MissingPayloadFails` and `Json.StripIsTrim` |
| JamfApply.MissingPayloadFails | examples/policy_as_code/policies/apply_config.py:214-217 | a missing or blank payload fails with no backend call |
| JamfApply.PushReached | examples/policy_as_code/policies/apply_config.py:219-233 | from the fetch on, the step is the `try` block, and nothing it does escapes |
| JamfApply.Push | examples/policy_as_code/policies/apply_config.py:219-233 | definition of the fetch-compare-push tail of the loop body; its properties are `JamfApply.PushOutcome`, `JamfApply.PushIdempotent`, `JamfApply.NonXmlPayloadNeverSettles` |
| JamfApply.PushOutcome | examples/policy_as_code/policies/apply_config.py:219-230 | no_change exactly when the stripped current payload equals the desired one; otherwise create when absent and update when present |
| JamfApply.ConnectorFailureIsolated | examples/policy_as_code/policies/apply_config.py:232-233 | a connector failure is recorded, and the remaining policies are still processed |
| JamfApply.PushIdempotent | examples/policy_as_code/policies/apply_config.py:219-230 | against a backend that stores what it is sent, a second push of an XML payload is no_change and leaves the backend as it was |
| JamfApply.NonXmlPayloadNeverSettles | examples/policy_as_code/policies/apply_config.py:219-230 | a payload without an XML declaration is rewritten on every push and is never no_change |
| JamfApply.ReconcileProfiles | examples/policy_as_code/policies/apply_config.py:193-233 | the loop in `main` returns exactly `Run` |
| JamfApply.ReconcileOne | examples/policy_as_code/policies/apply_config.py:194-233 | one pass of the loop body returns exactly `Step` |
| Drift.Compared | examples/tools/drift_check.py:59-88 | raises exactly when the snapshot entry of a desired name is neither null nor a dict (an extra name's entry is never read); otherwise reports only known names, with rc 1 exactly when there is drift |
| Drift.ComparedSnapshot | examples/tools/drift_check.py:59-88 | a snapshot file that does not hold a dict makes `compare` raise AttributeError, at `actual.get` when some name is desired and at `actual.keys` otherwise; a dict is compared name by name |
| Drift.EntryFor | examples/tools/drift_check.py:64-86 | definition of the drift entry for one name; its properties are `Drift.MissingReported`, `Drift.SettingsReported`, `Drift.ExtraReported` |
| Drift.MissingReported | examples/tools/drift_check.py:64-69 | a desired name absent from the snapshot, or null there, is missing_in_actual |
| Drift.SettingsReported | examples/tools/drift_check.py:71-80 | a name on both sides is drift exactly when the compared settings differ, and the entry carries both |
| Drift.ExtraReported | examples/tools/drift_check.py:83-86 | a snapshot name not desired is extra_in_actual |
| Drift.CompareWith | examples/tools/drift_check.py:59-88 | the two loops return exactly `Compared` |
| Drift.CompareDesired | examples/tools/drift_check.py:64-80 | the loop over desired names raises exactly for an unreadable entry, and otherwise records the missing and drifted names |
| Drift.AddExtra | examples/tools/drift_check.py:83-86 | the loop over snapshot names adds exactly the extra ones |
| Drift.AddName | examples/tools/drift_check.py:84-86 | one snapshot name gets an extra_in_actual entry exactly when it is not desired, and rc becomes 1 |
| RawDrift.Compare | tools/drift_check.py:34-55 | the raw comparator is `Compared` on `d.get("settings")` |
| RawDrift.SameSettingsNoEntry | tools/drift_check.py:43-44 | identical settings are not drift |
| RawDrift.BothWithoutSettings | tools/drift_check.py:44 | settings missing on both sides compare `None == None`: not drift |
| RawDrift.EmptyAgainstAbsent | tools/drift_check.py:44-49 | `{}` against a missing key is drift, recorded as `{}` against None |
| RawDrift.KeyOrderIgnored | tools/drift_check.py:44 | settings differing only in key order are not drift |
| RawDrift.ReorderedDictsEqual | tools/drift_check.py:44 | `{"a": 1, "b": 2} == {"b": 2, "a": 1}` |
| NormalizedDrift.Compare | examples/tools/drift_check.py:59-88 | the normalizing comparator is `Compared` on `normalize_settings(d.get("settings", {}))` |
| NormalizedDrift.DriftIffRawDiffer | examples/tools/drift_check.py:71-74 | a name is drift exactly when the settings as stored differ under Python `!=` |
| NormalizedDrift.SnapshotsNormalized | examples/tools/drift_check.py:71-79 | the snapshots a drift entry carries have their dict keys sorted at every depth |
| NormalizedDrift.AbsentIsEmpty | examples/tools/drift_check.py:71-72 | a missing `settings` reads as `{}`, so it matches an empty dict |
| NormalizedDrift.ListOrderMatters | examples/tools/drift_check.py:54-55 | lists keep their order: `[1, 2]` against `[2, 1]` is drift |
| NormalizedDrift.AgreesWithRaw | examples/tools/drift_check.py:71-74 | where both sides have `settings`, both comparators report the same names |
| Settings.BeforeTransitive | examples/tools/drift_check.py:53 | Python string `<` is transitive |
| Settings.BeforeTotal | examples/tools/drift_check.py:53 | any two different strings are ordered by `<` |
| Settings.SortFields | examples/tools/drift_check.py:53 | sorting keeps exactly the dict's entries |
| Settings.SortFieldsSorted | examples/tools/drift_check.py:53 | sorting a dict's entries leaves the keys strictly increasing |
| Settings.SortedUnchanged | examples/tools/drift_check.py:53 | entries already in key order are left in place |
| Settings.Normalize | examples/tools/drift_check.py:46-56 | definition of `normalize_settings`; its properties are `Settings.NormalizeIsNormal`, `Settings.NormalizeKeepsShape`, `Settings.NormalizeIdempotent`, `Settings.NormalizedEquality` |
| Settings.NormalizeIsNormal | examples/tools/drift_check.py:46-56 | `normalize_settings` sorts the keys of every dict at every depth |
| Settings.NormalUnchanged | examples/tools/drift_check.py:46-56 | a value already sorted at every depth comes back unchanged |
| Settings.NormalizeIdempotent | examples/tools/drift_check.py:46-56 | `normalize_settings` is idempotent |
| Settings.NormalizedKeys | examples/tools/drift_check.py:52-53 | a normalized dict has the original's keys |
| Settings.NormalizedLookup | examples/tools/drift_check.py:52-53 | in a normalized dict each key holds the normalized original value |
| Settings.NormalizeKeepsShape | examples/tools/drift_check.py:46-56 | normalizing only reorders dict entries: scalars, list lengths and order, and key sets are kept at every depth |
| Settings.SameLeft | examples/tools/drift_check.py:74 | Python `==` does not see the order of dict entries |
| Settings.NormalizedEquality | examples/tools/drift_check.py:46-56 | normalized values are `==` exactly when the originals are |

## Left out

- The command-line `main` functions, argument parsing, exit-code printing and usage text are left out. Each is I/O around the core. Only the check in `main` that the ring is one of the four allowed rings is used, as the precondition of `Reconcile.EmergencyNeverApplied`.
- Reading policy files from disk (`load_json`, `load_policies`, `load_desired`, `load_actual`) is left out. The loop inputs are the parsed values. The `json.loads` outcome, and its error text, is the input of `SimpleLint.LintFile`.
- Artifact extraction (`extract_artifact`, tar handling) is left out. It is file-system work.
- HTTP requests, authentication (`JamfAuth`), request headers and URLs are left out. The backend calls are function-typed parameters over an explicit backend state.
- `rollback_to_last_known_good` is left out. It is a placeholder that does nothing and is never called.
- Timestamps (`now_utc`) and writing the audit file (`write_audit`, `write_audit_log`) are left out. Only the summary counts of the audit are modelled.
- Lint message texts and the file path carried by each error are left out. An error is its kind and payload, and the path is the same for every error of a call.
- The semantic-version pattern is modelled over ASCII digits only. Python's `\d` also accepts other Unicode decimal digits.
- PolicyLint.TelemetryChecks: `float(v)` of an int too large for a float (magnitude at least 2^1024 - 2^970) raises `OverflowError` in the source. The model compares the exact value, so it reports `TelemetryOutOfRange` for such an entry instead of raising.
- Drift.Compared: the drift result is a map, so the insertion order of the source's drift dict is not kept. The set of entries and the exit code do not depend on that order.
- Duplicate keys inside one JSON object are not modelled. Where a lemma needs distinct keys, `WellFormed` requires them, as a Python dict always has them.
- A desired policy file that does not hold a dict is not modelled. `load_desired` fails on it (`obj.get` or `obj["name"]`) before `compare` runs. Desired names that are not strings are not modelled either; the model's names are strings.
- `examples/appstore_connect/appstore_release.py`, `examples/android_zerotouch/zerotouch_assign.py`, `examples/firmware_pipeline/firmware_plan.py` and `examples/canary_rings/promote.py` are not part of this model.
- Concurrency is not modelled. Each loop is sequential.
