/** JSON-shaped values as the Python code sees them after `json.loads`,
    together with the few pieces of Python semantics the core relies on:
    truthiness, `dict.get`, `isinstance`, `is True`, `==`, hashing in
    `x in {...}` and `str.strip()`. */
module Json {

  datatype Option<+T> = None | Some(value: T)

  /** An exception the Python code would raise outside any `try`. */
  datatype PyException =
    | AttributeError(attribute: string)   // e.g. `.keys()` on a list
    | UnhashableType                      // a list or dict used with `in` on a set
    | ConnectorRaised(message: string)    // a backend call that raised, uncaught

  /** The outcome of a Python expression that may raise. */
  datatype Py<+T> = Ok(value: T) | Raise(exc: PyException)

  /** A JSON object is an association list in insertion order, as a Python dict is. */
  type Fields = seq<(string, JSON)>

  datatype JSON =
    | JNull
    | JBool(b: bool)
    | JInt(i: int)
    | JNum(r: real)
    | JStr(s: string)
    | JArr(items: seq<JSON>)
    | JObj(fields: Fields)

  const EmptyObject: JSON := JObj([])

  /** The key set of a dict. */
  function Keys(fs: Fields): (ks: set<string>)
    ensures forall i :: 0 <= i < |fs| ==> fs[i].0 in ks
    ensures forall k :: k in ks ==> exists i :: 0 <= i < |fs| && fs[i].0 == k
  {
    set i | 0 <= i < |fs| :: fs[i].0
  }

  /** Lookup of the first entry with key `k`. */
  function Lookup(fs: Fields, k: string): (r: Option<JSON>)
    ensures r.None? <==> k !in Keys(fs)
    ensures r.Some? ==> exists i :: 0 <= i < |fs| && fs[i] == (k, r.value)
  {
    if |fs| == 0 then None
    else if fs[0].0 == k then Some(fs[0].1)
    else
      var r := Lookup(fs[1..], k);
      assert r.Some? ==> exists i :: 0 <= i < |fs[1..]| && fs[1..][i] == (k, r.value);
      assert Keys(fs) == {fs[0].0} + Keys(fs[1..]);
      r
  }

  /** `d.get(k, default)`. */
  function GetOr(fs: Fields, k: string, default: JSON): JSON
  {
    match Lookup(fs, k)
    case Some(v) => v
    case None => default
  }

  /** `d.get(k)`: a missing key and an explicit `null` both read as None. */
  function Get(fs: Fields, k: string): JSON
  {
    GetOr(fs, k, JNull)
  }

  /** Keys are unique in every object at every depth, as in a Python dict. */
  predicate DistinctKeys(fs: Fields)
  {
    forall i, j :: 0 <= i < j < |fs| ==> fs[i].0 != fs[j].0
  }

  /** Python truthiness of a value. */
  predicate Truthy(j: JSON)
  {
    match j
    case JNull => false
    case JBool(b) => b
    case JInt(i) => i != 0
    case JNum(r) => r != 0.0
    case JStr(s) => s != ""
    case JArr(xs) => xs != []
    case JObj(fs) => fs != []
  }

  /** `x or {}`. */
  function OrEmpty(j: JSON): (r: JSON)
    ensures Truthy(j) ==> r == j
    ensures !Truthy(j) ==> r == EmptyObject
  {
    if Truthy(j) then j else EmptyObject
  }

  /** `x or ""`. */
  function OrEmptyString(j: JSON): (r: JSON)
    ensures Truthy(j) ==> r == j
    ensures !Truthy(j) ==> r == JStr("")
  {
    if Truthy(j) then j else JStr("")
  }

  /** `isinstance(x, int)`: Python's `bool` is a subclass of `int`. */
  predicate IsPyInt(j: JSON)
  {
    j.JInt? || j.JBool?
  }

  /** `isinstance(x, (int, float))`. */
  predicate IsPyNumber(j: JSON)
  {
    j.JInt? || j.JNum? || j.JBool?
  }

  /** `x is True`: only the boolean itself. */
  predicate IsTrue(j: JSON)
  {
    j == JBool(true)
  }

  /** The numeric value of an int, float or bool (`True` is 1). */
  function NumValue(j: JSON): real
    requires IsPyNumber(j)
  {
    match j
    case JBool(b) => if b then 1.0 else 0.0
    case JInt(i) => i as real
    case JNum(r) => r
  }

  /** `x in allowed` for a set of strings: hashing a list or dict raises. */
  function InStrings(x: JSON, allowed: set<string>): (r: Py<bool>)
    ensures r.Raise? <==> (x.JArr? || x.JObj?)
    ensures r == Ok(true) <==> (x.JStr? && x.s in allowed)
  {
    match x
    case JArr(_) => Raise(UnhashableType)
    case JObj(_) => Raise(UnhashableType)
    case JStr(s) => Ok(s in allowed)
    case _ => Ok(false)
  }

  /** `x in xs` for a list: Python compares with `==`, which never hashes. */
  predicate ListContainsStr(xs: seq<JSON>, s: string)
  {
    exists i :: 0 <= i < |xs| && xs[i] == JStr(s)
  }

  /** Python `a == b` on JSON-shaped values: numbers and booleans compare by
      value (`1 == 1.0 == True`), lists element by element, dicts by key set
      and per-key value regardless of insertion order. */
  predicate PyEq(a: JSON, b: JSON)
  {
    match a
    case JNull => b.JNull?
    case JStr(s) => b.JStr? && b.s == s
    case JArr(xs) =>
      b.JArr? && |xs| == |b.items| &&
      forall i :: 0 <= i < |xs| ==> PyEq(xs[i], b.items[i])
    case JObj(fs) =>
      b.JObj? && Keys(fs) == Keys(b.fields) &&
      forall i :: 0 <= i < |fs| ==> PyEq(fs[i].1, Get(b.fields, fs[i].0))
    case _ => IsPyNumber(b) && NumValue(a) == NumValue(b)
  }

  /** Every dict at every depth has distinct keys, as a Python dict does. */
  predicate WellFormed(j: JSON)
  {
    match j
    case JArr(xs) => forall i :: 0 <= i < |xs| ==> WellFormed(xs[i])
    case JObj(fs) => DistinctKeys(fs) && forall i :: 0 <= i < |fs| ==> WellFormed(fs[i].1)
    case _ => true
  }

  /** With distinct keys, `d[k]` is the value stored with `k`. */
  lemma GetEntry(fs: Fields, i: int)
    requires DistinctKeys(fs) && 0 <= i < |fs|
    ensures Get(fs, fs[i].0) == fs[i].1
  {
    var r := Lookup(fs, fs[i].0);
    var j :| 0 <= j < |fs| && fs[j] == (fs[i].0, r.value);
    assert j == i;
  }

  /** A value read out of a well-formed dict is well formed. */
  lemma GetWellFormed(fs: Fields, k: string)
    requires forall i :: 0 <= i < |fs| ==> WellFormed(fs[i].1)
    ensures WellFormed(Get(fs, k))
  {
    var r := Lookup(fs, k);
    if r.Some? {
      var j :| 0 <= j < |fs| && fs[j] == (k, r.value);
      assert WellFormed(fs[j].1);
    }
  }

  /** Python `==` is reflexive on JSON values. */
  lemma {:induction false} PyEqReflexive(j: JSON)
    requires WellFormed(j)
    ensures PyEq(j, j)
  {
    match j
    case JArr(xs) =>
      forall i | 0 <= i < |xs|
        ensures PyEq(xs[i], xs[i])
      {
        PyEqReflexive(xs[i]);
      }
    case JObj(fs) =>
      forall i | 0 <= i < |fs|
        ensures PyEq(fs[i].1, Get(fs, fs[i].0))
      {
        GetEntry(fs, i);
        PyEqReflexive(fs[i].1);
      }
    case _ =>
  }

  /** Python `==` is symmetric on JSON values. */
  lemma {:induction false} PyEqSymmetric(a: JSON, b: JSON)
    requires WellFormed(a) && WellFormed(b) && PyEq(a, b)
    ensures PyEq(b, a)
  {
    match a
    case JArr(xs) =>
      forall i | 0 <= i < |xs|
        ensures PyEq(b.items[i], xs[i])
      {
        PyEqSymmetric(xs[i], b.items[i]);
      }
    case JObj(fs) =>
      var gs := b.fields;
      forall j | 0 <= j < |gs|
        ensures PyEq(gs[j].1, Get(fs, gs[j].0))
      {
        var i :| 0 <= i < |fs| && fs[i].0 == gs[j].0;
        GetEntry(fs, i);
        GetEntry(gs, j);
        PyEqSymmetric(fs[i].1, gs[j].1);
      }
    case _ =>
  }

  lemma PyEqCommutes(a: JSON, b: JSON)
    requires WellFormed(a) && WellFormed(b)
    ensures PyEq(a, b) <==> PyEq(b, a)
  {
    if PyEq(a, b) {
      PyEqSymmetric(a, b);
    }
    if PyEq(b, a) {
      PyEqSymmetric(b, a);
    }
  }

  /** Every key of `fs` holds equal values in `fs` and `gs`. */
  predicate EqualByKey(fs: Fields, gs: Fields)
  {
    forall k :: k in Keys(fs) ==> PyEq(Get(fs, k), Get(gs, k))
  }

  /** Dict `==` read key by key. */
  lemma PyEqByKey(fs: Fields, gs: Fields)
    requires DistinctKeys(fs)
    ensures PyEq(JObj(fs), JObj(gs)) <==> Keys(fs) == Keys(gs) && EqualByKey(fs, gs)
  {
    if forall i :: 0 <= i < |fs| ==> PyEq(fs[i].1, Get(gs, fs[i].0)) {
      forall k | k in Keys(fs)
        ensures PyEq(Get(fs, k), Get(gs, k))
      {
        var i :| 0 <= i < |fs| && fs[i].0 == k;
        GetEntry(fs, i);
      }
    }
    if EqualByKey(fs, gs) {
      forall i | 0 <= i < |fs|
        ensures PyEq(fs[i].1, Get(gs, fs[i].0))
      {
        GetEntry(fs, i);
      }
    }
  }

  /** Python's `str.isspace()` characters, the ones `str.strip()` removes. */
  predicate IsPySpace(c: char)
  {
    || c == ' ' || ('\t' <= c <= '\r') || ('\U{1c}' <= c <= '\U{1f}')
    || c == '\U{85}' || c == '\U{a0}' || c == '\U{1680}'
    || ('\U{2000}' <= c <= '\U{200a}') || c == '\U{2028}' || c == '\U{2029}'
    || c == '\U{202f}' || c == '\U{205f}' || c == '\U{3000}'
  }

  function StripLeft(s: string): (r: string)
    ensures |r| <= |s| && r == s[|s| - |r|..]
    ensures r == "" || !IsPySpace(r[0])
    ensures forall i :: 0 <= i < |s| - |r| ==> IsPySpace(s[i])
  {
    if |s| > 0 && IsPySpace(s[0]) then StripLeft(s[1..]) else s
  }

  function StripRight(s: string): (r: string)
    ensures |r| <= |s| && r == s[..|r|]
    ensures r == "" || !IsPySpace(r[|r| - 1])
    ensures forall i :: |r| <= i < |s| ==> IsPySpace(s[i])
  {
    if |s| > 0 && IsPySpace(s[|s| - 1]) then StripRight(s[..|s| - 1]) else s
  }

  /** `s.strip()`: `s` without its leading and trailing whitespace. */
  function Strip(s: string): (r: string)
    ensures r == "" || (!IsPySpace(r[0]) && !IsPySpace(r[|r| - 1]))
    ensures r == "" <==> forall i :: 0 <= i < |s| ==> IsPySpace(s[i])
  {
    StripEmpty(s);
    StripRight(StripLeft(s))
  }

  /** Every character of `t` is whitespace. */
  predicate AllSpace(t: string)
  {
    forall k :: 0 <= k < |t| ==> IsPySpace(t[k])
  }

  /** `s.strip()` is the one slice of `s` that has only whitespace on
      either side of it and starts and ends with a character that is not
      whitespace (or is empty). */
  lemma StripIsTrim(s: string)
    ensures exists i, j :: 0 <= i <= j <= |s| && AllSpace(s[..i]) && Strip(s) == s[i..j] && AllSpace(s[j..])
    ensures Strip(s) == "" || (!IsPySpace(Strip(s)[0]) && !IsPySpace(Strip(s)[|Strip(s)| - 1]))
  {
    var l := StripLeft(s);
    var r := StripRight(l);
    var i := |s| - |l|;
    var j := i + |r|;
    LeadingSpace(s);
    TrailingSpace(l);
    SliceOfSuffix(s, i, |r|);
    SuffixOfSuffix(s, i, |r|);
    assert AllSpace(s[..i]) && Strip(s) == s[i..j] && AllSpace(s[j..]);
  }

  lemma LeadingSpace(s: string)
    ensures AllSpace(s[..|s| - |StripLeft(s)|])
  {
    var n := |s| - |StripLeft(s)|;
    forall k | 0 <= k < n
      ensures IsPySpace(s[..n][k])
    {
      assert s[..n][k] == s[k];
    }
  }

  lemma TrailingSpace(l: string)
    ensures AllSpace(l[|StripRight(l)|..])
  {
    var n := |StripRight(l)|;
    forall k | 0 <= k < |l| - n
      ensures IsPySpace(l[n..][k])
    {
      assert l[n..][k] == l[n + k];
    }
  }

  /** A prefix of a suffix is a slice. */
  lemma SliceOfSuffix(s: string, i: nat, n: nat)
    requires i + n <= |s|
    ensures s[i..][..n] == s[i..i + n]
  {
  }

  /** A suffix of a suffix is a suffix. */
  lemma SuffixOfSuffix(s: string, i: nat, n: nat)
    requires i + n <= |s|
    ensures s[i..][n..] == s[i + n..]
  {
  }

  lemma StripEmpty(s: string)
    ensures StripRight(StripLeft(s)) == "" <==> forall i :: 0 <= i < |s| ==> IsPySpace(s[i])
  {
    var l := StripLeft(s);
    var n := |s| - |l|;
    if StripRight(l) == "" {
      // all of `l` is whitespace, yet it cannot start with any
      assert l == "";
    }
    if l != "" {
      assert l[0] == s[n];
    }
  }

  /** `s.startswith(prefix)`. */
  predicate StartsWith(s: string, prefix: string)
  {
    |prefix| <= |s| && s[..|prefix|] == prefix
  }
}
