/** `compare` of the drift check under `examples/tools`: a missing
    `settings` reads as `{}`, both sides are normalized, and the entry
    carries the normalized snapshots. */
module NormalizedDrift {
  import opened Json
  import opened Drift
  import opened Settings
  import RawDrift

  /** `normalize_settings(d.get("settings", {}))`. */
  function SettingsOf(policy: Fields): JSON
  {
    Normalize(GetOr(policy, "settings", EmptyObject))
  }

  /** `compare(desired, actual)`. */
  method Compare(desired: map<string, Fields>, actual: map<string, JSON>) returns (r: Py<Report>)
    ensures r == Compared(SettingsOf, desired, actual)
  {
    r := CompareWith(SettingsOf, desired, actual);
  }

  /** Drift is exactly Python `!=` on the settings as stored: the
      normalization never turns a difference into an equality or back. */
  lemma DriftIffRawDiffer(desired: map<string, Fields>, actual: map<string, JSON>, name: string)
    requires name in desired && name in actual && actual[name].JObj?
    requires WellFormed(GetOr(desired[name], "settings", EmptyObject))
    requires WellFormed(GetOr(actual[name].fields, "settings", EmptyObject))
    requires Compared(SettingsOf, desired, actual).Ok?
    ensures name in Compared(SettingsOf, desired, actual).value.drift <==>
      !PyEq(GetOr(desired[name], "settings", EmptyObject), GetOr(actual[name].fields, "settings", EmptyObject))
  {
    NormalizedEquality(GetOr(desired[name], "settings", EmptyObject), GetOr(actual[name].fields, "settings", EmptyObject));
    SettingsReported(SettingsOf, desired, actual, name);
  }

  /** The snapshots a `settings_drift` entry carries have their dict keys
      sorted at every depth. */
  lemma SnapshotsNormalized(desired: map<string, Fields>, actual: map<string, JSON>, name: string)
    requires name in desired && name in actual && actual[name].JObj?
    requires WellFormed(GetOr(desired[name], "settings", EmptyObject))
    requires WellFormed(GetOr(actual[name].fields, "settings", EmptyObject))
    requires Compared(SettingsOf, desired, actual).Ok?
    requires name in Compared(SettingsOf, desired, actual).value.drift
    ensures var item := Compared(SettingsOf, desired, actual).value.drift[name];
      item.SettingsDrift? && Normal(item.desired) && Normal(item.actual)
  {
    NormalizeIsNormal(GetOr(desired[name], "settings", EmptyObject));
    NormalizeIsNormal(GetOr(actual[name].fields, "settings", EmptyObject));
    SettingsReported(SettingsOf, desired, actual, name);
  }

  /** A `settings` key missing on one side reads as `{}`, so an empty dict
      on the other side is no drift. */
  lemma AbsentIsEmpty(desired: map<string, Fields>, actual: map<string, JSON>, name: string)
    requires name in desired && name in actual && actual[name].JObj?
    requires "settings" !in Keys(desired[name])
    requires GetOr(actual[name].fields, "settings", EmptyObject) == EmptyObject
    requires Compared(SettingsOf, desired, actual).Ok?
    ensures name !in Compared(SettingsOf, desired, actual).value.drift
  {
    assert SortFields([]) == [];
    SettingsReported(SettingsOf, desired, actual, name);
  }

  /** Lists keep their order: `[1, 2]` against `[2, 1]` is drift. */
  lemma ListOrderMatters(desired: map<string, Fields>, actual: map<string, JSON>, name: string)
    requires name in desired && name in actual && actual[name].JObj?
    requires GetOr(desired[name], "settings", EmptyObject) == JArr([JInt(1), JInt(2)])
    requires GetOr(actual[name].fields, "settings", EmptyObject) == JArr([JInt(2), JInt(1)])
    requires Compared(SettingsOf, desired, actual).Ok?
    ensures var drift := Compared(SettingsOf, desired, actual).value.drift;
      name in drift && drift[name] == SettingsDrift(JArr([JInt(1), JInt(2)]), JArr([JInt(2), JInt(1)]))
  {
    NormalUnchanged(JArr([JInt(1), JInt(2)]));
    NormalUnchanged(JArr([JInt(2), JInt(1)]));
    SwappedListsDiffer();
    SettingsReported(SettingsOf, desired, actual, name);
  }

  lemma SwappedListsDiffer()
    ensures !PyEq(JArr([JInt(1), JInt(2)]), JArr([JInt(2), JInt(1)]))
  {
    var xs, ys := [JInt(1), JInt(2)], [JInt(2), JInt(1)];
    assert !PyEq(xs[0], ys[0]);
  }

  /** Where both sides have a `settings` key, this comparator and the raw
      one report drift for the same names; they part only where a
      `settings` key is missing, which here reads as `{}` and there as None. */
  lemma AgreesWithRaw(desired: map<string, Fields>, actual: map<string, JSON>, name: string)
    requires name in desired && name in actual && actual[name].JObj?
    requires "settings" in Keys(desired[name]) && "settings" in Keys(actual[name].fields)
    requires WellFormed(RawDrift.SettingsOf(desired[name])) && WellFormed(RawDrift.SettingsOf(actual[name].fields))
    requires Compared(SettingsOf, desired, actual).Ok?
    ensures Compared(RawDrift.SettingsOf, desired, actual).Ok?
    ensures name in Compared(SettingsOf, desired, actual).value.drift <==>
      name in Compared(RawDrift.SettingsOf, desired, actual).value.drift
  {
    DriftIffRawDiffer(desired, actual, name);
    SettingsReported(RawDrift.SettingsOf, desired, actual, name);
  }
}
