/** The Jamf reconciliation loop (examples/policy_as_code/policies/apply_config.py):
    for each policy, skip it when it is for emergencies only, outside the
    ring, not for macOS or not a configuration profile; fail it when it has
    no payload; otherwise compare the payload Jamf holds with the desired
    one and create or update the profile when they differ. The three Jamf
    Classic API calls are oracles over a backend state `S`; what is left of
    `get_profile_by_name` once the HTTP request is taken away, the `scan`
    for an XML string in the response, is modelled here. */
module JamfApply {
  import opened Json
  import opened Apply
  import Policy
  import JamfLint

  const EmergencyDetail := "emergency-use-only policy (break-glass)"
  const NotMacDetail := "non-macOS policy (Jamf example applies macOS profiles only)"
  const NotProfileDetail := "macOS policy not marked as jamf_configuration_profile"
  const MissingPayloadDetail := "missing settings.profile_plist_xml"
  const MatchesDetail := "Jamf payload already matches"
  const CreatedDetail := "created profile"
  const UpdatedDetail := "updated profile"

  /** This variant's `is_policy_allowed_in_ring`: `supported_rings` absent
      allows, otherwise `isinstance(supported, list) and ring in supported`. */
  function IsAllowedInRing(policy: Fields, ring: string): (r: Py<bool>)
    ensures r == IsPolicyAllowedInRing(policy, ring)
  {
    var scope := OrEmpty(Get(policy, "scope"));
    if !scope.JObj? then Raise(AttributeError("get"))
    else
      var supported := Get(scope.fields, "supported_rings");
      if supported.JNull? then Ok(true)
      else Ok(supported.JArr? && ListContainsStr(supported.items, ring))
  }

  /** The request body for the Classic API: the payload inside a minimal
      `os_x_configuration_profile` document named `name`. A reader that
      knows neither part gets both back, provided the name does not itself
      contain `</name>`. */
  function BuildClassicProfileXml(name: string, payload: string): (r: string)
    ensures JamfLint.StartsXml(r)
    ensures !HasNameClose(name) ==> ParseProfile(r) == Some((name, payload))
  {
    var r := ProfileHead + name + ProfileMiddle + payload + ProfileTail;
    ProfileOpens(name, payload);
    assert !HasNameClose(name) ==> ParseProfile(r) == Some((name, payload)) by {
      if !HasNameClose(name) {
        ParseBuilt(name, payload);
      }
    }
    r
  }

  const NameClose := "</name>"
  const ProfileHead := "<?xml" + " version=\"1.0\" encoding=\"UTF-8\"?>\n<os_x_configuration_profile>\n  <general>\n    <name>"
  const ProfileMiddle := NameClose + "\n    <description>Managed by policy-as-code</description>\n  </general>\n  <payloads><![CDATA["
  const ProfileTail := "]]></payloads>\n</os_x_configuration_profile>\n"

  /** `s` continues with `</name>` at position `i`. */
  predicate ClosesAt(s: string, i: nat)
  {
    i + |NameClose| <= |s| && s[i..i + |NameClose|] == NameClose
  }

  /** `s` contains the closing tag `</name>`. */
  predicate HasNameClose(s: string)
  {
    exists i: nat :: i < |s| && ClosesAt(s, i)
  }

  /** Reads a request body back into its name and payload: the head and
      the tail are fixed text, the name ends at the first `</name>` after
      the head, and the payload runs up to the tail. */
  function ParseProfile(doc: string): Option<(string, string)>
  {
    Unwrap(doc, ProfileHead, ProfileMiddle, ProfileTail)
  }

  /** The two texts that `doc` holds between `head`, the first `middle`
      after it, and `tail`. */
  function Unwrap(doc: string, head: string, middle: string, tail: string): Option<(string, string)>
  {
    if |doc| < |head| + |tail| then None
    else if doc[..|head|] != head || doc[|doc| - |tail|..] != tail then None
    else
      var body := doc[|head|..|doc| - |tail|];
      match Find(body, middle, 0)
      case None => None
      case Some(i) => Some((body[..i], body[i + |middle|..]))
  }

  /** `s.find(pat, i)`: the first position at or after `i` where `s`
      continues with `pat`. */
  function Find(s: string, pat: string, i: nat): (r: Option<nat>)
    requires i <= |s|
    ensures r.Some? ==> i <= r.value && r.value + |pat| <= |s|
    ensures r.Some? ==> s[r.value..r.value + |pat|] == pat
    decreases |s| - i
  {
    if |s| - i < |pat| then None
    else if s[i..i + |pat|] == pat then Some(i)
    else if i == |s| then None
    else Find(s, pat, i + 1)
  }

  /** Whatever the payload, a name without `</name>` is read back whole. */
  lemma ParseBuilt(name: string, payload: string)
    requires !HasNameClose(name)
    ensures ParseProfile(ProfileHead + name + ProfileMiddle + payload + ProfileTail) == Some((name, payload))
  {
    MiddleOpensWithClose();
    UnwrapWrapped(ProfileHead, name, ProfileMiddle, payload, ProfileTail);
  }

  lemma UnwrapWrapped(head: string, name: string, middle: string, payload: string, tail: string)
    requires !HasNameClose(name)
    requires |NameClose| <= |middle| && middle[..|NameClose|] == NameClose
    ensures Unwrap(head + name + middle + payload + tail, head, middle, tail) == Some((name, payload))
  {
    var body := name + middle + payload;
    var doc := head + name + middle + payload + tail;
    assert doc == head + body + tail;
    Thirds(head, body, tail);
    FindFirst(name, middle, payload, 0);
    Thirds(name, middle, payload);
  }

  /** The middle text begins with `</name>`. */
  lemma MiddleOpensWithClose()
    ensures |NameClose| <= |ProfileMiddle| && ProfileMiddle[..|NameClose|] == NameClose
  {
  }

  /** Cutting `a + b + c` at the part boundaries gives back the parts. */
  lemma Thirds(a: string, b: string, c: string)
    ensures var s := a + b + c;
      s[..|a|] == a && s[|s| - |c|..] == c && s[|a|..|s| - |c|] == b &&
      s[|a|..|a| + |b|] == b && s[|a| + |b|..] == c
  {
  }

  /** A search from inside a name without `</name>`, for a pattern that
      starts with `</name>`, stops right after the name. */
  lemma {:induction false} FindFirst(name: string, pat: string, rest: string, i: nat)
    requires !HasNameClose(name) && i <= |name|
    requires |NameClose| <= |pat| && pat[..|NameClose|] == NameClose
    ensures Find(name + pat + rest, pat, i) == Some(|name|)
    decreases |name| - i
  {
    var s := name + pat + rest;
    assert s[|name|..|name| + |pat|] == pat;
    if i < |name| {
      NotInside(name, pat, rest, i);
      FindFirst(name, pat, rest, i + 1);
    }
  }

  /** No copy of such a pattern starts inside the name: it would either
      hold `</name>` whole or overlap the real one, whose only `<` among
      its first seven characters is the first. */
  lemma NotInside(name: string, pat: string, rest: string, i: nat)
    requires !HasNameClose(name) && i < |name|
    requires |NameClose| <= |pat| && pat[..|NameClose|] == NameClose
    ensures (name + pat + rest)[i..i + |pat|] != pat
  {
    var s := name + pat + rest;
    var n := |NameClose|;
    var w := s[i..i + |pat|];
    if i + n <= |name| {
      assert !ClosesAt(name, i);
      assert w[..n] == name[i..i + n];
      assert w[..n] != pat[..n];
    } else {
      var d := |name| - i;
      assert w[d] == s[|name|] == pat[0] == NameClose[0] == '<';
      assert pat[d] == NameClose[d] != '<';
    }
  }

  /** Every document the reader accepts is the request body for what it read. */
  lemma ParsedIsBuilt(doc: string)
    requires ParseProfile(doc).Some?
    ensures var (name, payload) := ParseProfile(doc).value;
      doc == BuildClassicProfileXml(name, payload)
  {
    UnwrapRejoins(doc, ProfileHead, ProfileMiddle, ProfileTail);
  }

  lemma UnwrapRejoins(doc: string, head: string, middle: string, tail: string)
    requires Unwrap(doc, head, middle, tail).Some?
    ensures var (name, payload) := Unwrap(doc, head, middle, tail).value;
      doc == head + name + middle + payload + tail
  {
    assert doc[..|head|] == head && doc[|doc| - |tail|..] == tail;
    var body := doc[|head|..|doc| - |tail|];
    var i := Find(body, middle, 0).value;
    var name, payload := body[..i], body[i + |middle|..];
    assert Unwrap(doc, head, middle, tail).value == (name, payload);
    Rejoin(doc, |head|, |tail|);
    Rejoin(body, i, |payload|);
    assert body == name + middle + payload;
    Associate(head, name, middle, payload, tail);
  }

  lemma Associate(a: string, b: string, c: string, d: string, e: string)
    ensures a + (b + c + d) + e == a + b + c + d + e
  {
  }

  /** A string is its three consecutive slices put back together. */
  lemma Rejoin(s: string, a: nat, c: nat)
    requires a + c <= |s|
    ensures s == s[..a] + s[a..|s| - c] + s[|s| - c..]
  {
  }

  lemma ProfileOpens(name: string, payload: string)
    ensures JamfLint.StartsXml(ProfileHead + name + ProfileMiddle + payload + ProfileTail)
  {
    var r := ProfileHead + name + ProfileMiddle + payload + ProfileTail;
    assert r[..5] == ProfileHead[..5];
    StartsWithDeclaration(r);
  }

  /** A string whose first five characters are `<?xml` keeps them through
      `strip()`. */
  lemma StartsWithDeclaration(s: string)
    requires |s| >= 5 && s[..5] == "<?xml"
    ensures JamfLint.StartsXml(s)
  {
    assert s[0] == '<';
    var l := StripLeft(s);
    assert l == s;
    var r := StripRight(s);
    assert s[4] == 'l';
    assert |r| >= 5;
    assert r[..5] == s[..5];
  }

  /** The strings of a JSON value in the order `scan` visits them: the
      value itself if it is a string, else depth first through dict values
      and list elements. */
  function Strings(o: JSON): seq<string>
    decreases o, 1
  {
    match o
    case JStr(s) => [s]
    case JObj(_) => ValueStrings(o, 0)
    case JArr(_) => ItemStrings(o, 0)
    case _ => []
  }

  function ValueStrings(o: JSON, i: nat): seq<string>
    requires o.JObj? && i <= |o.fields|
    decreases o, 0, |o.fields| - i
  {
    if i == |o.fields| then [] else Strings(o.fields[i].1) + ValueStrings(o, i + 1)
  }

  function ItemStrings(o: JSON, i: nat): seq<string>
    requires o.JArr? && i <= |o.items|
    decreases o, 0, |o.items| - i
  {
    if i == |o.items| then [] else Strings(o.items[i]) + ItemStrings(o, i + 1)
  }

  /** The first string of a list that opens with an XML declaration. */
  function FirstXml(ss: seq<string>): (r: Option<string>)
    ensures r.Some? ==> r.value in ss && JamfLint.StartsXml(r.value)
    ensures r.None? <==> forall i :: 0 <= i < |ss| ==> !JamfLint.StartsXml(ss[i])
  {
    if ss == [] then None
    else if JamfLint.StartsXml(ss[0]) then Some(ss[0])
    else FirstXml(ss[1..])
  }

  lemma {:induction false} FirstXmlConcat(a: seq<string>, b: seq<string>)
    ensures FirstXml(a + b) == if FirstXml(a).Some? then FirstXml(a) else FirstXml(b)
  {
    if a != [] {
      assert (a + b)[0] == a[0];
      assert (a + b)[1..] == a[1..] + b;
      FirstXmlConcat(a[1..], b);
    } else {
      assert a + b == b;
    }
  }

  /** Python truthiness of `scan`'s result: a non-empty string. */
  predicate Found(got: Option<string>)
  {
    got.Some? && got.value != ""
  }

  /** The nested `scan(o)`: the string itself if, stripped, it starts with
      `<?xml`; otherwise the first hit among the dict's values or the list's
      elements, in order; otherwise None. */
  function Scan(o: JSON): (r: Option<string>)
    ensures r.Some? ==> JamfLint.StartsXml(r.value) && r.value != ""
    decreases o, 1
  {
    if o.JStr? && JamfLint.StartsXml(o.s) then
      assert Strip(o.s) != "";
      Some(o.s)
    else if o.JObj? then ScanValues(o, 0)
    else if o.JArr? then ScanItems(o, 0)
    else None
  }

  /** `for v in o.values(): got = scan(v); if got: return got`. */
  function ScanValues(o: JSON, i: nat): (r: Option<string>)
    requires o.JObj? && i <= |o.fields|
    ensures r.Some? ==> JamfLint.StartsXml(r.value) && r.value != ""
    decreases o, 0, |o.fields| - i
  {
    if i == |o.fields| then None
    else
      var got := Scan(o.fields[i].1);
      if Found(got) then got else ScanValues(o, i + 1)
  }

  /** `for v in o: got = scan(v); if got: return got`. */
  function ScanItems(o: JSON, i: nat): (r: Option<string>)
    requires o.JArr? && i <= |o.items|
    ensures r.Some? ==> JamfLint.StartsXml(r.value) && r.value != ""
    decreases o, 0, |o.items| - i
  {
    if i == |o.items| then None
    else
      var got := Scan(o.items[i]);
      if Found(got) then got else ScanItems(o, i + 1)
  }

  /** `scan` returns, unstripped, the first string in depth-first order
      that opens with an XML declaration, and None when there is none. */
  lemma {:induction false} ScanFindsFirst(o: JSON)
    ensures Scan(o) == FirstXml(Strings(o))
    decreases o, 1
  {
    match o
    case JStr(s) =>
    case JObj(_) => ScanValuesFindsFirst(o, 0);
    case JArr(_) => ScanItemsFindsFirst(o, 0);
    case _ =>
  }

  lemma {:induction false} ScanValuesFindsFirst(o: JSON, i: nat)
    requires o.JObj? && i <= |o.fields|
    ensures ScanValues(o, i) == FirstXml(ValueStrings(o, i))
    decreases o, 0, |o.fields| - i
  {
    if i < |o.fields| {
      ScanFindsFirst(o.fields[i].1);
      ScanValuesFindsFirst(o, i + 1);
      FirstXmlConcat(Strings(o.fields[i].1), ValueStrings(o, i + 1));
    }
  }

  lemma {:induction false} ScanItemsFindsFirst(o: JSON, i: nat)
    requires o.JArr? && i <= |o.items|
    ensures ScanItems(o, i) == FirstXml(ItemStrings(o, i))
    decreases o, 0, |o.items| - i
  {
    if i < |o.items| {
      ScanFindsFirst(o.items[i]);
      ScanItemsFindsFirst(o, i + 1);
      FirstXmlConcat(Strings(o.items[i]), ItemStrings(o, i + 1));
    }
  }

  /** The Jamf Classic API as this loop uses it, over a backend state:
      the JSON body of `GET .../name/{name}` (None for a 404), and the
      `POST` that creates and the `PUT` that updates a profile from the
      name and the payload. Each may raise with a message. */
  datatype JamfConnector<!S> = JamfConnector(
    token: string,
    getProfile: (S, JSON) -> (Call<Option<JSON>>, S),
    createProfile: (S, JSON, string) -> (Call<()>, S),
    updateProfile: (S, JSON, string) -> (Call<()>, S))

  /** `get_profile_by_name(name)`: the first XML string `scan` finds in the
      response, or None for a profile Jamf does not have. */
  function GetProfileByName<S>(conn: JamfConnector<S>, s: S, name: JSON): (r: (Call<Option<string>>, S))
    ensures r.1 == conn.getProfile(s, name).1
    ensures conn.getProfile(s, name).0.Threw? <==> r.0.Threw?
    ensures r.0.Returned? && r.0.value.Some? ==> JamfLint.StartsXml(r.0.value.value)
  {
    var (response, s1) := conn.getProfile(s, name);
    match response
    case Threw(m) => (Threw(m), s1)
    case Returned(None) => (Returned(None), s1)
    case Returned(Some(body)) => (Returned(Scan(body)), s1)
  }

  /** The desired payload: `(settings.get("profile_plist_xml") or "").strip()`,
      raising for a truthy value that is not a string. */
  function DesiredXml(settings: Fields): Py<string>
  {
    var raw := OrEmptyString(Get(settings, "profile_plist_xml"));
    if raw.JStr? then Ok(Strip(raw.s)) else Raise(AttributeError("strip"))
  }

  /** The `try` block: fetch, then no_change, create or update. Every
      exception it raises becomes a failed result carrying the message. */
  function Push<S>(conn: JamfConnector<S>, name: JSON, desired: string, s: S): (ApplyResult, S)
  {
    var (current, s1) := GetProfileByName(conn, s, name);
    match current
    case Threw(m) => (ApplyResult(name, Failed, m), s1)
    case Returned(cur) =>
      if cur.Some? && Strip(cur.value) == desired then (ApplyResult(name, NoChange, MatchesDetail), s1)
      else if cur.None? then
        var (created, s2) := conn.createProfile(s1, name, desired);
        (if created.Threw? then ApplyResult(name, Failed, created.message) else ApplyResult(name, Applied, CreatedDetail), s2)
      else
        var (updated, s2) := conn.updateProfile(s1, name, desired);
        (if updated.Threw? then ApplyResult(name, Failed, updated.message) else ApplyResult(name, Applied, UpdatedDetail), s2)
  }

  /** The body of the loop at lines 193-233 for one policy. */
  function Step<S>(conn: JamfConnector<S>, pol: JSON, ring: string, s: S): (Py<ApplyResult>, S)
  {
    if !pol.JObj? then (Raise(AttributeError("get")), s)
    else
      var name := NameOf(pol.fields);
      var md := OrEmpty(Get(pol.fields, "metadata"));
      if !md.JObj? then (Raise(AttributeError("get")), s)
      else if IsTrue(Get(md.fields, "emergency_use_only")) then (Ok(ApplyResult(name, Skipped, EmergencyDetail)), s)
      else
        match IsAllowedInRing(pol.fields, ring)
        case Raise(e) => (Raise(e), s)
        case Ok(allowed) =>
          if !allowed then (Ok(ApplyResult(name, Skipped, "not allowed in ring=" + ring)), s)
          else if Get(pol.fields, "platform") != JStr("macos") then (Ok(ApplyResult(name, Skipped, NotMacDetail)), s)
          else
            var settings := OrEmpty(Get(pol.fields, "settings"));
            if !settings.JObj? then (Raise(AttributeError("get")), s)
            else if Get(settings.fields, "type") != JStr("jamf_configuration_profile") then
              (Ok(ApplyResult(name, Skipped, NotProfileDetail)), s)
            else
              match DesiredXml(settings.fields)
              case Raise(e) => (Raise(e), s)
              case Ok(desired) =>
                if desired == "" then (Ok(ApplyResult(name, Failed, MissingPayloadDetail)), s)
                else
                  var (res, s1) := Push(conn, name, desired, s);
                  (Ok(res), s1)
  }

  function StepIn<S>(conn: JamfConnector<S>, ring: string): (JSON, S) -> (Py<ApplyResult>, S)
  {
    (pol: JSON, s: S) => Step(conn, pol, ring, s)
  }

  /** The whole loop: the results list, or the exception that escapes it. */
  function Run<S>(conn: JamfConnector<S>, policies: seq<JSON>, ring: string, s: S): (Py<seq<ApplyResult>>, S)
  {
    RunSteps(StepIn(conn, ring), policies, s)
  }

  /** A dict policy with a dict `metadata` (or none). */
  predicate Readable(pol: Fields)
  {
    OrEmpty(Get(pol, "metadata")).JObj?
  }

  /** `emergency_use_only is True` is checked first: the policy is skipped
      without any connector call, whatever its rings say. */
  lemma EmergencyFirst<S>(conn: JamfConnector<S>, pol: Fields, ring: string, s: S)
    requires Readable(pol) && IsTrue(Get(OrEmpty(Get(pol, "metadata")).fields, "emergency_use_only"))
    ensures Step(conn, JObj(pol), ring, s) == (Ok(ApplyResult(NameOf(pol), Skipped, EmergencyDetail)), s)
  {
  }

  /** A policy past the emergency check and inside the ring, for macOS. */
  predicate ForMacInRing(pol: Fields, ring: string)
  {
    && Readable(pol)
    && !IsTrue(Get(OrEmpty(Get(pol, "metadata")).fields, "emergency_use_only"))
    && IsPolicyAllowedInRing(pol, ring) == Ok(true)
    && Get(pol, "platform") == JStr("macos")
  }

  /** Outside the ring, not for macOS, or not a configuration profile:
      skipped, with no connector call. */
  lemma NotForJamfSkipped<S>(conn: JamfConnector<S>, pol: Fields, ring: string, s: S)
    requires Readable(pol) && !IsTrue(Get(OrEmpty(Get(pol, "metadata")).fields, "emergency_use_only"))
    requires IsPolicyAllowedInRing(pol, ring).Ok?
    ensures IsPolicyAllowedInRing(pol, ring) == Ok(false) ==>
      Step(conn, JObj(pol), ring, s) == (Ok(ApplyResult(NameOf(pol), Skipped, "not allowed in ring=" + ring)), s)
    ensures IsPolicyAllowedInRing(pol, ring) == Ok(true) && Get(pol, "platform") != JStr("macos") ==>
      Step(conn, JObj(pol), ring, s) == (Ok(ApplyResult(NameOf(pol), Skipped, NotMacDetail)), s)
    ensures (ForMacInRing(pol, ring) && OrEmpty(Get(pol, "settings")).JObj? &&
      Get(OrEmpty(Get(pol, "settings")).fields, "type") != JStr("jamf_configuration_profile")) ==>
      Step(conn, JObj(pol), ring, s) == (Ok(ApplyResult(NameOf(pol), Skipped, NotProfileDetail)), s)
  {
  }

  /** A macOS configuration profile in the ring, with its desired payload. */
  predicate ProfileInRing(pol: Fields, ring: string)
  {
    && ForMacInRing(pol, ring)
    && OrEmpty(Get(pol, "settings")).JObj?
    && Get(OrEmpty(Get(pol, "settings")).fields, "type") == JStr("jamf_configuration_profile")
  }

  /** A missing, empty or whitespace-only payload fails without any
      connector call. */
  lemma MissingPayloadFails<S>(conn: JamfConnector<S>, pol: Fields, ring: string, s: S)
    requires ProfileInRing(pol, ring)
    requires var raw := Get(OrEmpty(Get(pol, "settings")).fields, "profile_plist_xml");
      raw.JNull? || (raw.JStr? && forall i :: 0 <= i < |raw.s| ==> IsPySpace(raw.s[i]))
    ensures Step(conn, JObj(pol), ring, s) == (Ok(ApplyResult(NameOf(pol), Failed, MissingPayloadDetail)), s)
  {
  }

  /** The desired payload of a profile in the ring that gets as far as the
      connector. */
  function PayloadOf(pol: Fields): Py<string>
    requires OrEmpty(Get(pol, "settings")).JObj?
  {
    DesiredXml(OrEmpty(Get(pol, "settings")).fields)
  }

  /** From the fetch on, the step is the `try` block, and nothing it does
      escapes: whatever fetch, create or update raise becomes a failed
      result with that message. */
  lemma PushReached<S>(conn: JamfConnector<S>, pol: Fields, ring: string, s: S)
    requires ProfileInRing(pol, ring)
    requires PayloadOf(pol).Ok? && PayloadOf(pol).value != ""
    ensures var (res, s1) := Push(conn, NameOf(pol), PayloadOf(pol).value, s);
      Step(conn, JObj(pol), ring, s) == (Ok(res), s1)
  {
  }

  /** What the `try` block records: no_change when the stripped payload
      Jamf holds equals the desired one (and no create or update), else a
      create for a profile Jamf lacks and an update for one it holds, both
      recorded as applied; any exception gives failed with its message. */
  lemma PushOutcome<S>(conn: JamfConnector<S>, name: JSON, desired: string, s: S)
    ensures var (current, s1) := GetProfileByName(conn, s, name);
      var (res, s2) := Push(conn, name, desired, s);
      && res.policyName == name
      && (current.Threw? ==> res == ApplyResult(name, Failed, current.message) && s2 == s1)
      && (current.Returned? && current.value.Some? && Strip(current.value.value) == desired ==>
            res == ApplyResult(name, NoChange, MatchesDetail) && s2 == s1)
      && (current.Returned? && current.value.None? ==>
            var (created, s') := conn.createProfile(s1, name, desired);
            s2 == s' && res == if created.Threw? then ApplyResult(name, Failed, created.message) else ApplyResult(name, Applied, CreatedDetail))
      && (current.Returned? && current.value.Some? && Strip(current.value.value) != desired ==>
            var (updated, s') := conn.updateProfile(s1, name, desired);
            s2 == s' && res == if updated.Threw? then ApplyResult(name, Failed, updated.message) else ApplyResult(name, Applied, UpdatedDetail))
  {
  }

  /** A connector failure on one policy is recorded and the loop goes on
      with the next policies. */
  lemma ConnectorFailureIsolated<S>(conn: JamfConnector<S>, pol: Fields, rest: seq<JSON>, ring: string, s: S)
    requires ProfileInRing(pol, ring)
    requires PayloadOf(pol).Ok? && PayloadOf(pol).value != ""
    requires Push(conn, NameOf(pol), PayloadOf(pol).value, s).0.status == Failed
    ensures var (res, s1) := Push(conn, NameOf(pol), PayloadOf(pol).value, s);
      Run(conn, [JObj(pol)] + rest, ring, s) == Prepend([res], Run(conn, rest, ring, s1))
  {
    PushReached(conn, pol, ring, s);
    assert ([JObj(pol)] + rest)[1..] == rest;
  }

  /** A backend that keeps, per name, the payload last sent and hands it
      back as the response body: the reference against which the loop's
      idempotence is stated. */
  function Echo(token: string): JamfConnector<map<JSON, string>>
  {
    JamfConnector(
      token,
      (s: map<JSON, string>, name: JSON) => (Returned(if name in s then Some(JStr(s[name])) else None), s),
      (s: map<JSON, string>, name: JSON, xml: string) => (Returned(()), s[name := xml]),
      (s: map<JSON, string>, name: JSON, xml: string) => (Returned(()), s[name := xml]))
  }

  lemma StripTwice(s: string)
    ensures Strip(Strip(s)) == Strip(s)
  {
    var t := Strip(s);
    if t != "" {
      assert StripLeft(t) == t;
      assert StripRight(t) == t;
    }
  }

  /** A string response is found by `scan` exactly when it opens with an
      XML declaration. */
  lemma ScanString(x: string)
    ensures Scan(JStr(x)) == if JamfLint.StartsXml(x) then Some(x) else None
  {
  }

  /** What the echoing backend answers for a name. */
  lemma EchoGet(token: string, s: map<JSON, string>, name: JSON)
    ensures GetProfileByName(Echo(token), s, name) ==
      (Returned(if name in s && JamfLint.StartsXml(s[name]) then Some(s[name]) else None), s)
  {
    if name in s {
      ScanString(s[name]);
    }
  }

  /** The `try` block against the echoing backend: a stored payload that
      `scan` finds and that strips to the desired one is left alone; one it
      finds but differs is updated; when it finds none, whether or not the
      backend holds something under the name, the profile is created. */
  lemma EchoPush(token: string, name: JSON, desired: string, s: map<JSON, string>)
    ensures Push(Echo(token), name, desired, s) ==
      if name in s && JamfLint.StartsXml(s[name]) && Strip(s[name]) == desired then
        (ApplyResult(name, NoChange, MatchesDetail), s)
      else if name in s && JamfLint.StartsXml(s[name]) then
        (ApplyResult(name, Applied, UpdatedDetail), s[name := desired])
      else (ApplyResult(name, Applied, CreatedDetail), s[name := desired])
  {
    EchoGet(token, s, name);
  }

  /** Against a backend that echoes what it stores, pushing a payload that
      opens with an XML declaration leaves the backend holding it (up to
      surrounding whitespace), and pushing it again is a no_change that
      leaves the backend as it was. */
  lemma PushIdempotent(token: string, name: JSON, desired: string, s: map<JSON, string>)
    requires desired == Strip(desired) && JamfLint.StartsXml(desired)
    ensures var (first, s1) := Push(Echo(token), name, desired, s);
      first.status in {Applied, NoChange} && name in s1 && JamfLint.StartsXml(s1[name]) && Strip(s1[name]) == desired
    ensures var s1 := Push(Echo(token), name, desired, s).1;
      Push(Echo(token), name, desired, s1) == (ApplyResult(name, NoChange, MatchesDetail), s1)
  {
    EchoPush(token, name, desired, s);
    var s1 := Push(Echo(token), name, desired, s).1;
    assert name in s1 && JamfLint.StartsXml(s1[name]) && Strip(s1[name]) == desired;
    EchoPush(token, name, desired, s1);
  }

  /** The limit of that idempotence: a payload that does not open with an
      XML declaration is stored by the first push, yet never found in the
      response afterwards, so every later run creates the profile again
      although the backend already holds it. */
  lemma NonXmlPayloadNeverSettles(token: string, name: JSON, desired: string, s: map<JSON, string>)
    requires !JamfLint.StartsXml(desired)
    ensures Push(Echo(token), name, desired, s).0.status == Applied
    ensures Push(Echo(token), name, desired, s).1 == s[name := desired]
    ensures var s1 := s[name := desired];
      Push(Echo(token), name, desired, s1) == (ApplyResult(name, Applied, CreatedDetail), s1)
  {
    NonXmlFirstPush(token, name, desired, s);
    NonXmlPushedAgain(token, name, desired, s[name := desired]);
  }

  lemma NonXmlFirstPush(token: string, name: JSON, desired: string, s: map<JSON, string>)
    requires !JamfLint.StartsXml(desired)
    ensures Push(Echo(token), name, desired, s) ==
      (ApplyResult(name, Applied, if name in s && JamfLint.StartsXml(s[name]) then UpdatedDetail else CreatedDetail), s[name := desired])
  {
    if name in s && JamfLint.StartsXml(s[name]) {
      StripTwice(s[name]);
      assert Strip(s[name]) != desired;
    }
    EchoPush(token, name, desired, s);
  }

  lemma NonXmlPushedAgain(token: string, name: JSON, desired: string, s1: map<JSON, string>)
    requires !JamfLint.StartsXml(desired) && name in s1 && s1[name] == desired
    ensures Push(Echo(token), name, desired, s1) == (ApplyResult(name, Applied, CreatedDetail), s1)
  {
    EchoPush(token, name, desired, s1);
    assert s1[name := desired] == s1;
  }

  /** The loop in `main`: one result appended per policy, `continue` being
      an early return from the body. */
  method ReconcileProfiles<S>(conn: JamfConnector<S>, policies: seq<JSON>, ring: string, s0: S)
    returns (r: Py<seq<ApplyResult>>, s: S)
    ensures (r, s) == Run(conn, policies, ring, s0)
  {
    var results: seq<ApplyResult> := [];
    s := s0;
    var i := 0;
    PrependNothing(Run(conn, policies, ring, s0));
    while i < |policies|
      invariant 0 <= i <= |policies|
      invariant Run(conn, policies, ring, s0) == Prepend(results, Run(conn, policies[i..], ring, s))
      decreases |policies| - i
    {
      assert policies[i..][1..] == policies[i + 1..];
      var res, s1 := ReconcileOne(conn, policies[i], ring, s);
      if res.Raise? {
        return Raise(res.exc), s1;
      }
      PrependTwice(results, res.value, Run(conn, policies[i + 1..], ring, s1));
      results := results + [res.value];
      s := s1;
      i := i + 1;
    }
    assert results + [] == results;
    return Ok(results), s;
  }

  /** One pass of the loop body. */
  method ReconcileOne<S>(conn: JamfConnector<S>, pol: JSON, ring: string, s: S) returns (r: Py<ApplyResult>, s': S)
    ensures (r, s') == Step(conn, pol, ring, s)
  {
    s' := s;
    if !pol.JObj? {
      return Raise(AttributeError("get")), s';
    }
    var name := GetOr(pol.fields, "name", JStr("unknown"));
    var md := OrEmpty(Get(pol.fields, "metadata"));
    if !md.JObj? {
      return Raise(AttributeError("get")), s';
    }
    if IsTrue(Get(md.fields, "emergency_use_only")) {
      return Ok(ApplyResult(name, Skipped, EmergencyDetail)), s';
    }
    var allowed := IsAllowedInRing(pol.fields, ring);
    if allowed.Raise? {
      return Raise(allowed.exc), s';
    }
    if !allowed.value {
      return Ok(ApplyResult(name, Skipped, "not allowed in ring=" + ring)), s';
    }
    if Get(pol.fields, "platform") != JStr("macos") {
      return Ok(ApplyResult(name, Skipped, NotMacDetail)), s';
    }
    var settings := OrEmpty(Get(pol.fields, "settings"));
    if !settings.JObj? {
      return Raise(AttributeError("get")), s';
    }
    if Get(settings.fields, "type") != JStr("jamf_configuration_profile") {
      return Ok(ApplyResult(name, Skipped, NotProfileDetail)), s';
    }
    var raw := OrEmptyString(Get(settings.fields, "profile_plist_xml"));
    if !raw.JStr? {
      return Raise(AttributeError("strip")), s';
    }
    var desired := Strip(raw.s);
    if desired == "" {
      return Ok(ApplyResult(name, Failed, MissingPayloadDetail)), s';
    }
    // try:
    var fetched := GetProfileByName(conn, s', name);
    s' := fetched.1;
    if fetched.0.Threw? {
      return Ok(ApplyResult(name, Failed, fetched.0.message)), s';
    }
    var current := fetched.0.value;
    if current.Some? && Strip(current.value) == desired {
      return Ok(ApplyResult(name, NoChange, MatchesDetail)), s';
    }
    if current.None? {
      var created := conn.createProfile(s', name, desired);
      s' := created.1;
      if created.0.Threw? {
        return Ok(ApplyResult(name, Failed, created.0.message)), s';
      }
      return Ok(ApplyResult(name, Applied, CreatedDetail)), s';
    } else {
      var updated := conn.updateProfile(s', name, desired);
      s' := updated.1;
      if updated.0.Threw? {
        return Ok(ApplyResult(name, Failed, updated.0.message)), s';
      }
      return Ok(ApplyResult(name, Applied, UpdatedDetail)), s';
    }
  }
}
