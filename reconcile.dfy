/** The vendor-neutral reconciliation loop (examples/tools/apply_config.py):
    `apply_all` decides, policy by policy, whether to skip it, leave it, or
    hand it to the connector, and records one result for each. The backend
    the connector talks to is a state `S` that its two calls may change. */
module Reconcile {
  import opened Json
  import opened Apply
  import Policy

  /** A connector: `get_current_policy(name)` and `apply_policy(policy)`,
      each of which may raise, over a backend state. The token is kept as
      the source keeps it; no call reads it. */
  datatype Connector<!S> = Connector(
    token: string,
    fetch: (S, JSON) -> (Call<Option<Fields>>, S),
    apply: (S, Fields) -> (Call<ApplyResult>, S))

  const DemoApplyDetail := "demo apply (replace with API call)"

  /** The placeholder `Connector(token)`: there is never a current policy,
      and applying reports success under `policy["name"]`, raising
      `KeyError('name')` when the policy has none. */
  function Placeholder(token: string): (c: Connector<()>)
    ensures c.token == token
    ensures forall name :: c.fetch((), name) == (Returned(None), ())
    ensures forall p: Fields :: "name" in Keys(p) ==>
      c.apply((), p) == (Returned(ApplyResult(Get(p, "name"), Applied, DemoApplyDetail)), ())
    ensures forall p: Fields :: "name" !in Keys(p) ==> c.apply((), p) == (Threw("'name'"), ())
  {
    Connector(
      token,
      (s: (), name: JSON) => (Returned(None), s),
      (s: (), p: Fields) =>
        if "name" in Keys(p) then (Returned(ApplyResult(GetOr(p, "name", JNull), Applied, DemoApplyDetail)), s)
        else (Threw("'name'"), s))
  }

  /** `md.get("emergency_use_only") is True and ring != "break-glass"`. */
  predicate EmergencyBlocked(md: Fields, ring: string)
  {
    IsTrue(Get(md, "emergency_use_only")) && ring != "break-glass"
  }

  /** The body of the `for` loop for one policy: its result (or the
      exception that escapes `apply_all`) and the backend state after it.
      Only `apply_policy` sits inside the `try`. */
  function Step<S>(conn: Connector<S>, pol: JSON, ring: string, s: S): (Py<ApplyResult>, S)
  {
    if !pol.JObj? then (Raise(AttributeError("get")), s)
    else
      var name := NameOf(pol.fields);
      match IsPolicyAllowedInRing(pol.fields, ring)
      case Raise(e) => (Raise(e), s)
      case Ok(allowed) =>
        if !allowed then (Ok(ApplyResult(name, Skipped, "not allowed in ring=" + ring)), s)
        else
          var md := OrEmpty(Get(pol.fields, "metadata"));
          if !md.JObj? then (Raise(AttributeError("get")), s)
          else if EmergencyBlocked(md.fields, ring) then (Ok(ApplyResult(name, Skipped, "emergency-use-only policy")), s)
          else
            var (current, s1) := conn.fetch(s, name);
            match current
            case Threw(m) => (Raise(ConnectorRaised(m)), s1)
            case Returned(cur) =>
              var desired := GetOr(pol.fields, "settings", EmptyObject);
              if cur.Some? && PyEq(GetOr(cur.value, "settings", EmptyObject), desired) then
                (Ok(ApplyResult(name, NoChange, "already compliant")), s1)
              else
                var (applied, s2) := conn.apply(s1, pol.fields);
                match applied
                case Threw(m) => (Ok(ApplyResult(name, Failed, m)), s2)
                case Returned(res) => (Ok(res), s2)
  }

  /** `Step` as the loop body `RunSteps` folds over the policies. */
  function StepIn<S>(conn: Connector<S>, ring: string): (JSON, S) -> (Py<ApplyResult>, S)
  {
    (pol: JSON, s: S) => Step(conn, pol, ring, s)
  }

  /** `apply_all(conn, policies, ring)` with the backend state threaded
      through: the results list, or the first exception that escapes. */
  function Run<S>(conn: Connector<S>, policies: seq<JSON>, ring: string, s: S): (Py<seq<ApplyResult>>, S)
  {
    RunSteps(StepIn(conn, ring), policies, s)
  }

  /** A policy outside its rings is skipped before its metadata is read,
      and no connector call is made for it. */
  lemma IneligibleSkipped<S>(conn: Connector<S>, pol: Fields, ring: string, s: S)
    requires IsPolicyAllowedInRing(pol, ring) == Ok(false)
    ensures Step(conn, JObj(pol), ring, s) == (Ok(ApplyResult(NameOf(pol), Skipped, "not allowed in ring=" + ring)), s)
  {
  }

  /** An eligible `emergency_use_only: true` policy is skipped without a
      connector call for every ring but "break-glass". */
  lemma EmergencySkipped<S>(conn: Connector<S>, pol: Fields, ring: string, s: S)
    requires IsPolicyAllowedInRing(pol, ring) == Ok(true)
    requires OrEmpty(Get(pol, "metadata")).JObj? && EmergencyBlocked(OrEmpty(Get(pol, "metadata")).fields, ring)
    ensures Step(conn, JObj(pol), ring, s) == (Ok(ApplyResult(NameOf(pol), Skipped, "emergency-use-only policy")), s)
  {
  }

  /** Since a run only ever targets one of the four named rings, an
      `emergency_use_only: true` policy is always skipped, for one reason
      or the other, and never reaches the connector. */
  lemma EmergencyNeverApplied<S>(conn: Connector<S>, pol: Fields, ring: string, s: S)
    requires ring in Policy.AllowedRings
    requires Get(pol, "metadata").JObj? && IsTrue(Get(Get(pol, "metadata").fields, "emergency_use_only"))
    requires IsPolicyAllowedInRing(pol, ring).Ok?
    ensures var (r, s') := Step(conn, JObj(pol), ring, s);
      r.Ok? && r.value.status == Skipped && r.value.policyName == NameOf(pol) && s' == s
  {
    var md := Get(pol, "metadata");
    assert Truthy(md) by {
      assert "emergency_use_only" in Keys(md.fields);
    }
  }

  /** The part of `Step` that reaches the connector: the policy is a dict,
      eligible, and not held back by `emergency_use_only`. */
  predicate ReachesConnector(pol: Fields, ring: string)
  {
    && IsPolicyAllowedInRing(pol, ring) == Ok(true)
    && OrEmpty(Get(pol, "metadata")).JObj?
    && !EmergencyBlocked(OrEmpty(Get(pol, "metadata")).fields, ring)
  }

  /** Current settings equal to the desired ones, under Python's `==` with
      `{}` for either when absent: no_change, and `apply_policy` is not
      called (the state is the one the fetch left). */
  lemma CompliantIsNoChange<S>(conn: Connector<S>, pol: Fields, ring: string, s: S, cur: Fields)
    requires ReachesConnector(pol, ring)
    requires conn.fetch(s, NameOf(pol)).0 == Returned(Some(cur))
    requires PyEq(GetOr(cur, "settings", EmptyObject), GetOr(pol, "settings", EmptyObject))
    ensures Step(conn, JObj(pol), ring, s) ==
      (Ok(ApplyResult(NameOf(pol), NoChange, "already compliant")), conn.fetch(s, NameOf(pol)).1)
  {
  }

  /** Otherwise the policy is handed to `apply_policy`: its result is
      recorded as is, and its exception becomes a failed result carrying the
      message. */
  lemma OutOfDateIsApplied<S>(conn: Connector<S>, pol: Fields, ring: string, s: S)
    requires ReachesConnector(pol, ring)
    requires conn.fetch(s, NameOf(pol)).0.Returned?
    requires var cur := conn.fetch(s, NameOf(pol)).0.value;
      !(cur.Some? && PyEq(GetOr(cur.value, "settings", EmptyObject), GetOr(pol, "settings", EmptyObject)))
    ensures var s1 := conn.fetch(s, NameOf(pol)).1;
      var (applied, s2) := conn.apply(s1, pol);
      Step(conn, JObj(pol), ring, s) ==
        (Ok(if applied.Threw? then ApplyResult(NameOf(pol), Failed, applied.message) else applied.value), s2)
  {
    var (current, s1) := conn.fetch(s, NameOf(pol));
    var (applied, s2) := conn.apply(s1, pol);
    assert IsPolicyAllowedInRing(pol, ring) == Ok(true);
    assert current.Returned?;
    var desired := GetOr(pol, "settings", EmptyObject);
    assert !(current.value.Some? && PyEq(GetOr(current.value.value, "settings", EmptyObject), desired));
    var expected := if applied.Threw? then ApplyResult(NameOf(pol), Failed, applied.message) else applied.value;
    assert Step(conn, JObj(pol), ring, s) == (Ok(expected), s2);
  }

  /** An exception from `get_current_policy` is outside the `try`: it ends
      `apply_all`, and the results gathered so far are lost. */
  lemma FetchErrorEscapes<S>(conn: Connector<S>, pol: Fields, ring: string, s: S)
    requires ReachesConnector(pol, ring)
    requires conn.fetch(s, NameOf(pol)).0.Threw?
    ensures Step(conn, JObj(pol), ring, s) ==
      (Raise(ConnectorRaised(conn.fetch(s, NameOf(pol)).0.message)), conn.fetch(s, NameOf(pol)).1)
  {
  }

  /** A failing `apply_policy` does not stop the loop: the policies after it
      are still processed, and the later results follow the failed one. */
  lemma ApplyFailureIsolated<S>(conn: Connector<S>, pol: Fields, rest: seq<JSON>, ring: string, s: S)
    requires ReachesConnector(pol, ring)
    requires conn.fetch(s, NameOf(pol)).0.Returned?
    requires var cur := conn.fetch(s, NameOf(pol)).0.value;
      !(cur.Some? && PyEq(GetOr(cur.value, "settings", EmptyObject), GetOr(pol, "settings", EmptyObject)))
    requires conn.apply(conn.fetch(s, NameOf(pol)).1, pol).0.Threw?
    ensures var (applied, s2) := conn.apply(conn.fetch(s, NameOf(pol)).1, pol);
      Run(conn, [JObj(pol)] + rest, ring, s) ==
        Prepend([ApplyResult(NameOf(pol), Failed, applied.message)], Run(conn, rest, ring, s2))
  {
    OutOfDateIsApplied(conn, pol, ring, s);
    assert ([JObj(pol)] + rest)[1..] == rest;
  }

  /** With the placeholder connector every eligible, non-emergency policy is
      applied (or fails on the missing `name` key), and there is never a
      no_change. */
  lemma PlaceholderApplies(token: string, pol: Fields, ring: string)
    requires ReachesConnector(pol, ring)
    ensures "name" in Keys(pol) ==>
      Step(Placeholder(token), JObj(pol), ring, ()) == (Ok(ApplyResult(NameOf(pol), Applied, DemoApplyDetail)), ())
    ensures "name" !in Keys(pol) ==>
      Step(Placeholder(token), JObj(pol), ring, ()) == (Ok(ApplyResult(JStr("unknown"), Failed, "'name'")), ())
  {
    var c := Placeholder(token);
    assert c.fetch((), NameOf(pol)) == (Returned(None), ());
  }

  /** `apply_all`: the loop over the policies, appending one result each and
      leaving the loop with the exception of a step that raises. */
  method ApplyAll<S>(conn: Connector<S>, policies: seq<JSON>, ring: string, s0: S) returns (r: Py<seq<ApplyResult>>, s: S)
    ensures (r, s) == Run(conn, policies, ring, s0)
  {
    var results: seq<ApplyResult> := [];
    s := s0;
    var i := 0;
    PrependNothing(Run(conn, policies, ring, s0));
    while i < |policies|
      invariant 0 <= i <= |policies|
      invariant Run(conn, policies, ring, s0) == Prepend(results, Run(conn, policies[i..], ring, s))
      decreases |policies| - i
    {
      assert policies[i..][1..] == policies[i + 1..];
      var res, s1 := ApplyOne(conn, policies[i], ring, s);
      if res.Raise? {
        return Raise(res.exc), s1;
      }
      PrependTwice(results, res.value, Run(conn, policies[i + 1..], ring, s1));
      results := results + [res.value];
      s := s1;
      i := i + 1;
    }
    assert results + [] == results;
    return Ok(results), s;
  }

  /** One pass of the loop body, `continue` being an early return. */
  method ApplyOne<S>(conn: Connector<S>, pol: JSON, ring: string, s: S) returns (r: Py<ApplyResult>, s': S)
    ensures (r, s') == Step(conn, pol, ring, s)
  {
    s' := s;
    if !pol.JObj? {
      return Raise(AttributeError("get")), s';
    }
    var name := GetOr(pol.fields, "name", JStr("unknown"));
    var allowed := IsPolicyAllowedInRing(pol.fields, ring);
    if allowed.Raise? {
      return Raise(allowed.exc), s';
    }
    if !allowed.value {
      return Ok(ApplyResult(name, Skipped, "not allowed in ring=" + ring)), s';
    }
    var md := OrEmpty(Get(pol.fields, "metadata"));
    if !md.JObj? {
      return Raise(AttributeError("get")), s';
    }
    if IsTrue(Get(md.fields, "emergency_use_only")) && ring != "break-glass" {
      return Ok(ApplyResult(name, Skipped, "emergency-use-only policy")), s';
    }
    var fetched := conn.fetch(s', name);
    var current := fetched.0;
    s' := fetched.1;
    if current.Threw? {
      return Raise(ConnectorRaised(current.message)), s';
    }
    var desired := GetOr(pol.fields, "settings", EmptyObject);
    if current.value.Some? {
      var currentSettings := GetOr(current.value.value, "settings", EmptyObject);
      if PyEq(currentSettings, desired) {
        return Ok(ApplyResult(name, NoChange, "already compliant")), s';
      }
    }
    var outcome := conn.apply(s', pol.fields);
    var applied := outcome.0;
    s' := outcome.1;
    if applied.Threw? {
      r := Ok(ApplyResult(name, Failed, applied.message));
    } else {
      r := Ok(applied.value);
    }
  }
}
