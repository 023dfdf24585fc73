/** What both reconciliation loops share: the per-policy result they
    record, what a backend call can return, the ring-eligibility rule and
    the status counts of the audit summary. */
module Apply {
  import opened Json

  /** One entry of the results list: `ApplyResult(policy_name, status,
      detail)`. The name is whatever `pol.get("name", "unknown")` gave, so
      any JSON value; the status is a string, as a backend may return any. */
  datatype ApplyResult = ApplyResult(policyName: JSON, status: string, detail: string)

  /** A backend call: it returns a value or raises with a message. */
  datatype Call<+T> = Returned(value: T) | Threw(message: string)

  const Applied := "applied"
  const NoChange := "no_change"
  const Skipped := "skipped"
  const Failed := "failed"

  /** The name a result carries: `pol.get("name", "unknown")`. */
  function NameOf(policy: Fields): JSON
  {
    GetOr(policy, "name", JStr("unknown"))
  }

  /** `is_policy_allowed_in_ring(policy, ring)`: `scope.supported_rings`
      absent (or `null`) allows every ring, a list allows its members and
      anything else allows none; a falsy `scope` reads as `{}`, and a truthy
      one that is not a dict raises on `.get`. */
  function IsPolicyAllowedInRing(policy: Fields, ring: string): (r: Py<bool>)
    ensures r.Raise? <==> Truthy(Get(policy, "scope")) && !Get(policy, "scope").JObj?
    ensures r.Ok? ==> var supported := Get(OrEmpty(Get(policy, "scope")).fields, "supported_rings");
      (r.value <==> supported.JNull? || (supported.JArr? && ListContainsStr(supported.items, ring)))
  {
    var scope := OrEmpty(Get(policy, "scope"));
    if !scope.JObj? then Raise(AttributeError("get"))
    else
      var supported := Get(scope.fields, "supported_rings");
      if supported.JNull? then Ok(true)
      else if supported.JArr? then Ok(ListContainsStr(supported.items, ring))
      else Ok(false)
  }

  /** No `supported_rings` (or no truthy `scope`): eligible for every ring. */
  lemma EligibleWithoutRings(policy: Fields, ring: string)
    requires !Truthy(Get(policy, "scope")) || (Get(policy, "scope").JObj? && "supported_rings" !in Keys(Get(policy, "scope").fields))
    ensures IsPolicyAllowedInRing(policy, ring) == Ok(true)
  {
    if Truthy(Get(policy, "scope")) {
      assert OrEmpty(Get(policy, "scope")) == Get(policy, "scope");
    }
  }

  /** A list of rings: eligible exactly for the rings it holds as strings. */
  lemma EligibleForListedRings(policy: Fields, ring: string, rings: seq<JSON>)
    requires Get(policy, "scope").JObj? && Get(Get(policy, "scope").fields, "supported_rings") == JArr(rings)
    ensures IsPolicyAllowedInRing(policy, ring) == Ok(JStr(ring) in rings)
  {
    assert Truthy(Get(policy, "scope")) by {
      assert "supported_rings" in Keys(Get(policy, "scope").fields);
    }
  }

  /** Any other `supported_rings` value (a string, a number, an object...)
      makes the policy eligible for no ring. */
  lemma IneligibleForOtherRings(policy: Fields, ring: string)
    requires Get(policy, "scope").JObj?
    requires var supported := Get(Get(policy, "scope").fields, "supported_rings"); !supported.JNull? && !supported.JArr?
    ensures IsPolicyAllowedInRing(policy, ring) == Ok(false)
  {
    assert Truthy(Get(policy, "scope")) by {
      assert "supported_rings" in Keys(Get(policy, "scope").fields);
    }
  }

  /** `sum(1 for r in results if r.status == status)`. */
  function CountStatus(results: seq<ApplyResult>, status: string): (n: nat)
    ensures n <= |results|
  {
    if results == [] then 0
    else CountStatus(results[..|results| - 1], status) + (if results[|results| - 1].status == status then 1 else 0)
  }

  /** The positions of the results with a given status. */
  function WithStatus(results: seq<ApplyResult>, status: string): set<nat>
  {
    set i: nat | i < |results| && results[i].status == status
  }

  /** Each count is the number of results with that status. */
  lemma {:induction false} CountIsNumberWithStatus(results: seq<ApplyResult>, status: string)
    ensures CountStatus(results, status) == |WithStatus(results, status)|
  {
    if results != [] {
      CountIsNumberWithStatus(results[..|results| - 1], status);
      WithStatusLast(results, status);
    }
  }

  /** The positions of a non-empty list: those of all but its last result,
      and the last one when its status matches. */
  lemma WithStatusLast(results: seq<ApplyResult>, status: string)
    requires results != []
    ensures var last := |results| - 1;
      last !in WithStatus(results[..last], status) &&
      WithStatus(results, status) ==
        if results[last].status == status then WithStatus(results[..last], status) + {last}
        else WithStatus(results[..last], status)
  {
    var last := |results| - 1;
    var front := results[..last];
    assert WithStatus(front, status) == set i: nat | i < last && results[i].status == status;
  }

  /** The audit summary: how many results were applied, unchanged,
      skipped and failed. */
  datatype Summary = Summary(applied: nat, noChange: nat, skipped: nat, failed: nat)

  function Summarize(results: seq<ApplyResult>): Summary
  {
    Summary(CountStatus(results, Applied), CountStatus(results, NoChange), CountStatus(results, Skipped), CountStatus(results, Failed))
  }

  predicate KnownStatus(result: ApplyResult)
  {
    result.status in {Applied, NoChange, Skipped, Failed}
  }

  /** The positions of the results whose status is none of the four. */
  function UnknownAt(results: seq<ApplyResult>): set<nat>
  {
    set i: nat | i < |results| && !KnownStatus(results[i])
  }

  /** The four counts add up to the number of results less those with
      another status: exactly the number of results when every status is
      one of the four, and strictly fewer otherwise. */
  lemma {:induction false} SummaryTotal(results: seq<ApplyResult>)
    ensures var s := Summarize(results);
      s.applied + s.noChange + s.skipped + s.failed == |results| - |UnknownAt(results)|
    ensures (forall i :: 0 <= i < |results| ==> KnownStatus(results[i])) ==>
      var s := Summarize(results);
      s.applied + s.noChange + s.skipped + s.failed == |results|
    ensures (exists i :: 0 <= i < |results| && !KnownStatus(results[i])) ==>
      var s := Summarize(results);
      s.applied + s.noChange + s.skipped + s.failed < |results|
  {
    if results != [] {
      var front := results[..|results| - 1];
      SummaryTotal(front);
      UnknownAtLast(results);
    }
    if exists i :: 0 <= i < |results| && !KnownStatus(results[i]) {
      var i :| 0 <= i < |results| && !KnownStatus(results[i]);
      assert i in UnknownAt(results);
    } else {
      assert UnknownAt(results) == {};
    }
  }

  /** The unknown positions of a non-empty list: those of all but its last
      result, and the last one when its status is unknown. */
  lemma UnknownAtLast(results: seq<ApplyResult>)
    requires results != []
    ensures var last := |results| - 1;
      last !in UnknownAt(results[..last]) &&
      UnknownAt(results) ==
        if KnownStatus(results[last]) then UnknownAt(results[..last])
        else UnknownAt(results[..last]) + {last}
  {
    var last := |results| - 1;
    var front := results[..last];
    assert UnknownAt(front) == set i: nat | i < last && !KnownStatus(results[i]);
  }

  /** Counts over two runs add up. */
  lemma {:induction false} CountConcat(a: seq<ApplyResult>, b: seq<ApplyResult>, status: string)
    ensures CountStatus(a + b, status) == CountStatus(a, status) + CountStatus(b, status)
    decreases |b|
  {
    if b != [] {
      var b' := b[..|b| - 1];
      assert (a + b)[..|a + b| - 1] == a + b';
      CountConcat(a, b', status);
    } else {
      assert a + b == a;
    }
  }

  /** `results` in front of whatever the rest of a loop produces. */
  function Prepend<S>(results: seq<ApplyResult>, rest: (Py<seq<ApplyResult>>, S)): (Py<seq<ApplyResult>>, S)
  {
    match rest.0
    case Raise(e) => (Raise(e), rest.1)
    case Ok(rs) => (Ok(results + rs), rest.1)
  }

  lemma PrependNothing<S>(rest: (Py<seq<ApplyResult>>, S))
    ensures Prepend([], rest) == rest
  {
    if rest.0.Ok? {
      assert [] + rest.0.value == rest.0.value;
    }
  }

  lemma PrependTwice<S>(results: seq<ApplyResult>, res: ApplyResult, rest: (Py<seq<ApplyResult>>, S))
    ensures Prepend(results, Prepend([res], rest)) == Prepend(results + [res], rest)
  {
    if rest.0.Ok? {
      assert results + ([res] + rest.0.value) == (results + [res]) + rest.0.value;
    }
  }

  /** A reconciliation loop over the policies, given what its body does
      with one policy in one backend state: the results in order, or the
      first exception that escapes the body, and the final backend state. */
  function RunSteps<S>(step: (JSON, S) -> (Py<ApplyResult>, S), policies: seq<JSON>, s: S): (Py<seq<ApplyResult>>, S)
    decreases |policies|
  {
    if policies == [] then (Ok([]), s)
    else
      var (r, s1) := step(policies[0], s);
      match r
      case Raise(e) => (Raise(e), s1)
      case Ok(res) => Prepend([res], RunSteps(step, policies[1..], s1))
  }

  /** The backend state in which policy `i` is processed. */
  function StateAt<S>(step: (JSON, S) -> (Py<ApplyResult>, S), policies: seq<JSON>, s: S, i: nat): S
    requires i <= |policies|
    decreases i
  {
    if i == 0 then s else StateAt(step, policies[1..], step(policies[0], s).1, i - 1)
  }

  /** One result per policy, in input order, each the outcome of that
      policy's step in the state the earlier ones left; the loop finishes
      exactly when no step raises. */
  lemma {:induction false} RunResults<S>(step: (JSON, S) -> (Py<ApplyResult>, S), policies: seq<JSON>, s: S)
    ensures RunSteps(step, policies, s).0.Ok? <==>
      forall i :: 0 <= i < |policies| ==> step(policies[i], StateAt(step, policies, s, i)).0.Ok?
    ensures RunSteps(step, policies, s).0.Ok? ==>
      var rs := RunSteps(step, policies, s).0.value;
      |rs| == |policies| &&
      forall i :: 0 <= i < |policies| ==> step(policies[i], StateAt(step, policies, s, i)).0 == Ok(rs[i])
    decreases |policies|
  {
    if policies != [] {
      var (r, s1) := step(policies[0], s);
      var tail := policies[1..];
      RunResults(step, tail, s1);
      forall i | 0 < i < |policies|
        ensures policies[i] == tail[i - 1]
        ensures StateAt(step, policies, s, i) == StateAt(step, tail, s1, i - 1)
      {
      }
      if r.Ok? {
        var rest := RunSteps(step, tail, s1);
        if rest.0.Ok? {
          var rs := RunSteps(step, policies, s).0.value;
          assert rs == [r.value] + rest.0.value;
          forall i | 0 <= i < |policies|
            ensures step(policies[i], StateAt(step, policies, s, i)).0 == Ok(rs[i])
          {
            if i > 0 {
              assert rs[i] == rest.0.value[i - 1];
            }
          }
        } else {
          var j :| 0 <= j < |tail| && !step(tail[j], StateAt(step, tail, s1, j)).0.Ok?;
          assert !step(policies[j + 1], StateAt(step, policies, s, j + 1)).0.Ok?;
        }
      } else {
        assert !step(policies[0], StateAt(step, policies, s, 0)).0.Ok?;
      }
    }
  }
}
