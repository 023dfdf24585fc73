/** `compare` of the top-level drift check: the raw `settings` values are
    compared with Python `!=`, with no normalization and no default. */
module RawDrift {
  import opened Json
  import opened Drift

  /** `d.get("settings")` / `a.get("settings")`: None when absent. */
  function SettingsOf(policy: Fields): JSON
  {
    Get(policy, "settings")
  }

  /** `compare(desired, actual)`. */
  method Compare(desired: map<string, Fields>, actual: map<string, JSON>) returns (r: Py<Report>)
    ensures r == Compared(SettingsOf, desired, actual)
  {
    r := CompareWith(SettingsOf, desired, actual);
  }

  /** A name whose settings are the same value on both sides is not drift. */
  lemma SameSettingsNoEntry(desired: map<string, Fields>, actual: map<string, JSON>, name: string)
    requires name in desired && name in actual && actual[name].JObj?
    requires SettingsOf(actual[name].fields) == SettingsOf(desired[name])
    requires WellFormed(SettingsOf(desired[name]))
    requires Compared(SettingsOf, desired, actual).Ok?
    ensures name !in Compared(SettingsOf, desired, actual).value.drift
  {
    PyEqReflexive(SettingsOf(desired[name]));
    SettingsReported(SettingsOf, desired, actual, name);
  }

  /** Settings missing on both sides compare `None == None`: no entry. */
  lemma BothWithoutSettings(desired: map<string, Fields>, actual: map<string, JSON>, name: string)
    requires name in desired && name in actual && actual[name].JObj?
    requires "settings" !in Keys(desired[name]) && "settings" !in Keys(actual[name].fields)
    requires Compared(SettingsOf, desired, actual).Ok?
    ensures name !in Compared(SettingsOf, desired, actual).value.drift
  {
    SettingsReported(SettingsOf, desired, actual, name);
  }

  /** Without a default, an empty `settings` dict on one side and none on the
      other is drift, and the entry records `{}` against None. */
  lemma EmptyAgainstAbsent(desired: map<string, Fields>, actual: map<string, JSON>, name: string)
    requires name in desired && name in actual && actual[name].JObj?
    requires SettingsOf(desired[name]) == EmptyObject
    requires "settings" !in Keys(actual[name].fields)
    requires Compared(SettingsOf, desired, actual).Ok?
    ensures Compared(SettingsOf, desired, actual).value.drift[name] == SettingsDrift(EmptyObject, JNull)
  {
    SettingsReported(SettingsOf, desired, actual, name);
  }

  /** Python dict `==` ignores key order, so reordered keys are no drift
      even without normalization. */
  lemma KeyOrderIgnored(desired: map<string, Fields>, actual: map<string, JSON>, name: string)
    requires name in desired && name in actual && actual[name].JObj?
    requires SettingsOf(desired[name]) == JObj([("a", JInt(1)), ("b", JInt(2))])
    requires SettingsOf(actual[name].fields) == JObj([("b", JInt(2)), ("a", JInt(1))])
    requires Compared(SettingsOf, desired, actual).Ok?
    ensures name !in Compared(SettingsOf, desired, actual).value.drift
  {
    ReorderedDictsEqual();
    SettingsReported(SettingsOf, desired, actual, name);
  }

  lemma ReorderedDictsEqual()
    ensures PyEq(JObj([("a", JInt(1)), ("b", JInt(2))]), JObj([("b", JInt(2)), ("a", JInt(1))]))
  {
    var fs: Fields := [("a", JInt(1)), ("b", JInt(2))];
    var gs: Fields := [("b", JInt(2)), ("a", JInt(1))];
    assert Keys(fs) == {"a", "b"} == Keys(gs) by {
      assert fs[0].0 == "a" && fs[1].0 == "b" && gs[0].0 == "b" && gs[1].0 == "a";
    }
    assert Get(gs, "a") == JInt(1) && Get(gs, "b") == JInt(2);
  }
}
