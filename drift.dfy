/** What both drift comparators share: the per-name drift entry, the
    report `(drift, rc)`, the three-way comparison of desired against
    actual names, and the loop that builds the report. The two comparators
    differ only in which settings value they compare for a name present on
    both sides, so that choice is a parameter here. */
module Drift {
  import opened Json

  /** `DriftItem(status, desired, actual)`: the settings snapshots are only
      present for `settings_drift`. */
  datatype DriftItem =
    | MissingInActual
    | SettingsDrift(desired: JSON, actual: JSON)
    | ExtraInActual

  /** The `status` string of an entry. */
  function Status(item: DriftItem): string
  {
    match item
    case MissingInActual => "missing_in_actual"
    case SettingsDrift(_, _) => "settings_drift"
    case ExtraInActual => "extra_in_actual"
  }

  /** What `compare` returns: the drift map and the exit code. */
  datatype Report = Report(drift: map<string, DriftItem>, rc: int)

  /** `actual.get(name)`: an absent name and an explicit `null` both read as None. */
  function ActualOf(actual: map<string, JSON>, name: string): JSON
  {
    if name in actual then actual[name] else JNull
  }

  /** A desired name whose actual entry is neither None nor a dict: reading
      its settings with `a.get(...)` raises. */
  predicate Unreadable(desired: map<string, Fields>, actual: map<string, JSON>, name: string)
  {
    name in desired && !ActualOf(actual, name).JNull? && !ActualOf(actual, name).JObj?
  }

  /** The entry `compare` records for `name`, if any: `settings` picks the
      compared value out of a desired policy or an actual entry. An
      unreadable actual entry never reaches a report, so it gets none. */
  function EntryFor(settings: Fields -> JSON, desired: map<string, Fields>, actual: map<string, JSON>, name: string): Option<DriftItem>
  {
    if name !in desired then Some(ExtraInActual)
    else
      var a := ActualOf(actual, name);
      if a.JNull? then Some(MissingInActual)
      else if a.JObj? then
        var ds := settings(desired[name]);
        var acts := settings(a.fields);
        if PyEq(ds, acts) then None else Some(SettingsDrift(ds, acts))
      else None
  }

  /** The entries recorded for the names in `names`. */
  function DriftOver(settings: Fields -> JSON, desired: map<string, Fields>, actual: map<string, JSON>, names: set<string>): map<string, DriftItem>
  {
    map n | n in names && EntryFor(settings, desired, actual, n).Some? :: EntryFor(settings, desired, actual, n).value
  }

  /** `rc` starts at 0 and is set to 1 whenever an entry is recorded. */
  function ExitCode(drift: map<string, DriftItem>): int
  {
    if drift == map[] then 0 else 1
  }

  /** `compare(desired, actual)`: every name on either side is classified;
      the result does not depend on the order the dicts are walked in, and
      any unreadable actual entry makes the call raise. */
  function Compared(settings: Fields -> JSON, desired: map<string, Fields>, actual: map<string, JSON>): (r: Py<Report>)
    ensures r.Raise? <==> exists n :: Unreadable(desired, actual, n)
    ensures r.Ok? ==> r.value.drift.Keys <= desired.Keys + actual.Keys
    ensures r.Ok? ==> (r.value.rc == 1 <==> r.value.drift != map[]) && (r.value.rc == 0 <==> r.value.drift == map[])
  {
    if exists n | n in desired :: Unreadable(desired, actual, n) then Raise(AttributeError("get"))
    else
      var drift := DriftOver(settings, desired, actual, desired.Keys + actual.Keys);
      Ok(Report(drift, ExitCode(drift)))
  }

  /** The names of a snapshot dict and what each is mapped to. */
  function SnapshotMap(fs: Fields): (m: map<string, JSON>)
    ensures m.Keys == Keys(fs)
    ensures forall k :: k in m ==> m[k] == Get(fs, k)
  {
    map k | k in Keys(fs) :: Get(fs, k)
  }

  /** `compare(desired, load_actual(path))`: the snapshot file may hold any
      JSON value. One that is not a dict raises at the first dict method
      called on it, `actual.get` when some name is desired and
      `actual.keys` otherwise; a dict is compared name by name. */
  function ComparedSnapshot(settings: Fields -> JSON, desired: map<string, Fields>, snapshot: JSON): (r: Py<Report>)
    ensures !snapshot.JObj? ==> r == Raise(AttributeError(if desired == map[] then "keys" else "get"))
    ensures snapshot.JObj? ==> (r.Raise? <==> exists n :: Unreadable(desired, SnapshotMap(snapshot.fields), n))
    ensures r.Ok? ==> snapshot.JObj? && r.value.drift.Keys <= desired.Keys + Keys(snapshot.fields)
  {
    if !snapshot.JObj? then Raise(AttributeError(if desired == map[] then "keys" else "get"))
    else Compared(settings, desired, SnapshotMap(snapshot.fields))
  }

  /** A desired name absent from actual (or `null` there) is `missing_in_actual`. */
  lemma MissingReported(settings: Fields -> JSON, desired: map<string, Fields>, actual: map<string, JSON>, name: string)
    requires name in desired && ActualOf(actual, name).JNull?
    requires Compared(settings, desired, actual).Ok?
    ensures Compared(settings, desired, actual).value.drift[name] == MissingInActual
  {
  }

  /** An actual name absent from desired is `extra_in_actual`. */
  lemma ExtraReported(settings: Fields -> JSON, desired: map<string, Fields>, actual: map<string, JSON>, name: string)
    requires name in actual && name !in desired
    requires Compared(settings, desired, actual).Ok?
    ensures Compared(settings, desired, actual).value.drift[name] == ExtraInActual
  {
  }

  /** A name present on both sides has an entry exactly when the compared
      settings differ under Python `!=`, and the entry carries both. */
  lemma SettingsReported(settings: Fields -> JSON, desired: map<string, Fields>, actual: map<string, JSON>, name: string)
    requires name in desired && name in actual && actual[name].JObj?
    requires Compared(settings, desired, actual).Ok?
    ensures var drift := Compared(settings, desired, actual).value.drift;
      var ds := settings(desired[name]);
      var acts := settings(actual[name].fields);
      (name in drift <==> !PyEq(ds, acts)) && (name in drift ==> drift[name] == SettingsDrift(ds, acts))
  {
  }

  /** Recording one more name extends the map by that name's entry, if any. */
  lemma DriftStep(settings: Fields -> JSON, desired: map<string, Fields>, actual: map<string, JSON>, done: set<string>, name: string)
    requires name !in done
    ensures var e := EntryFor(settings, desired, actual, name);
      DriftOver(settings, desired, actual, done + {name}) ==
        if e.Some? then DriftOver(settings, desired, actual, done)[name := e.value]
        else DriftOver(settings, desired, actual, done)
  {
  }

  /** `compare` as a program: the loop over desired names, then the loop
      over actual names; it stops at the first unreadable entry. The order
      the names are visited in is left open. */
  method CompareWith(settings: Fields -> JSON, desired: map<string, Fields>, actual: map<string, JSON>) returns (r: Py<Report>)
    ensures r == Compared(settings, desired, actual)
  {
    r := CompareDesired(settings, desired, actual);
    if r.Ok? {
      var drift, rc := AddExtra(settings, desired, actual, r.value.drift, r.value.rc);
      r := Ok(Report(drift, rc));
    }
  }

  /** `for name, d in desired.items()`: missing and drifted names. */
  method CompareDesired(settings: Fields -> JSON, desired: map<string, Fields>, actual: map<string, JSON>) returns (r: Py<Report>)
    ensures r.Raise? <==> exists n :: Unreadable(desired, actual, n)
    ensures r.Raise? ==> r.exc == AttributeError("get")
    ensures r.Ok? ==> r.value.drift == DriftOver(settings, desired, actual, desired.Keys)
    ensures r.Ok? ==> r.value.rc == ExitCode(r.value.drift)
  {
    var drift: map<string, DriftItem> := map[];
    var rc := 0;
    var todo := desired.Keys;
    while todo != {}
      invariant todo <= desired.Keys
      invariant forall n :: n in desired.Keys - todo ==> !Unreadable(desired, actual, n)
      invariant drift == DriftOver(settings, desired, actual, desired.Keys - todo)
      invariant rc == ExitCode(drift)
      decreases todo
    {
      var name :| name in todo;
      DriftStep(settings, desired, actual, desired.Keys - todo, name);
      assert desired.Keys - (todo - {name}) == (desired.Keys - todo) + {name};
      var a := if name in actual then actual[name] else JNull;
      if a.JNull? {
        drift := drift[name := MissingInActual];
        assert name in drift;
        rc := 1;
      } else if !a.JObj? {
        assert Unreadable(desired, actual, name);
        return Raise(AttributeError("get"));
      } else {
        var ds := settings(desired[name]);
        var acts := settings(a.fields);
        if !PyEq(ds, acts) {
          drift := drift[name := SettingsDrift(ds, acts)];
          assert name in drift;
          rc := 1;
        }
      }
      todo := todo - {name};
    }
    assert desired.Keys - todo == desired.Keys;
    r := Ok(Report(drift, rc));
  }

  /** `for name in actual.keys()`: names only on the actual side. */
  method AddExtra(settings: Fields -> JSON, desired: map<string, Fields>, actual: map<string, JSON>, drift0: map<string, DriftItem>, rc0: int)
    returns (drift: map<string, DriftItem>, rc: int)
    requires drift0 == DriftOver(settings, desired, actual, desired.Keys) && rc0 == ExitCode(drift0)
    ensures drift == DriftOver(settings, desired, actual, desired.Keys + actual.Keys)
    ensures rc == ExitCode(drift)
  {
    drift, rc := drift0, rc0;
    var todo := actual.Keys;
    ghost var done := desired.Keys;
    while todo != {}
      invariant todo <= actual.Keys
      invariant done == desired.Keys + (actual.Keys - todo)
      invariant drift == DriftOver(settings, desired, actual, done)
      invariant rc == ExitCode(drift)
      decreases todo
    {
      var name :| name in todo;
      drift, rc := AddName(settings, desired, actual, done, drift, rc, name);
      todo := todo - {name};
      done := done + {name};
    }
    assert done == desired.Keys + actual.Keys;
  }

  /** `if name not in desired: drift[name] = DriftItem("extra_in_actual"); rc = 1`. */
  method AddName(settings: Fields -> JSON, desired: map<string, Fields>, actual: map<string, JSON>, ghost done: set<string>,
                 drift0: map<string, DriftItem>, rc0: int, name: string)
    returns (drift: map<string, DriftItem>, rc: int)
    requires desired.Keys <= done && (name in desired || name !in done)
    requires drift0 == DriftOver(settings, desired, actual, done) && rc0 == ExitCode(drift0)
    ensures drift == DriftOver(settings, desired, actual, done + {name}) && rc == ExitCode(drift)
  {
    ExtraStep(settings, desired, actual, done, name);
    drift, rc := drift0, rc0;
    if name !in desired {
      drift := drift[name := ExtraInActual];
      assert name in drift;
      rc := 1;
    }
  }

  /** Visiting one more actual name: an extra one gets its entry, a desired
      one was already visited. */
  lemma ExtraStep(settings: Fields -> JSON, desired: map<string, Fields>, actual: map<string, JSON>, done: set<string>, name: string)
    requires desired.Keys <= done
    requires name in desired || name !in done
    ensures DriftOver(settings, desired, actual, done + {name}) ==
      if name in desired then DriftOver(settings, desired, actual, done)
      else DriftOver(settings, desired, actual, done)[name := ExtraInActual]
  {
    if name in desired {
      assert done + {name} == done;
    } else {
      DriftStep(settings, desired, actual, done, name);
    }
  }
}
