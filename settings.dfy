/** `normalize_settings`: a settings value rebuilt with the keys of every
    dict in sorted order, lists kept in their order and scalars unchanged;
    and what that does and does not change about Python `==`. */
module Settings {
  import opened Json

  /** Python's `a < b` on `str`: code point order, a proper prefix first. */
  predicate Before(a: string, b: string)
  {
    |b| > 0 && (|a| == 0 || a[0] < b[0] || (a[0] == b[0] && Before(a[1..], b[1..])))
  }

  lemma {:induction false} BeforeIrreflexive(a: string)
    ensures !Before(a, a)
  {
    if |a| > 0 {
      BeforeIrreflexive(a[1..]);
    }
  }

  lemma {:induction false} BeforeTransitive(a: string, b: string, c: string)
    requires Before(a, b) && Before(b, c)
    ensures Before(a, c)
  {
    if |a| > 0 && a[0] == b[0] && b[0] == c[0] {
      BeforeTransitive(a[1..], b[1..], c[1..]);
    }
  }

  lemma {:induction false} BeforeTotal(a: string, b: string)
    requires a != b
    ensures Before(a, b) || Before(b, a)
  {
    if |a| > 0 && |b| > 0 && a[0] == b[0] {
      assert a == [a[0]] + a[1..] && b == [b[0]] + b[1..];
      BeforeTotal(a[1..], b[1..]);
    }
  }

  /** The keys of a dict are strictly increasing, as `sorted` leaves them. */
  predicate SortedKeys(fs: Fields)
  {
    forall i, j :: 0 <= i < j < |fs| ==> Before(fs[i].0, fs[j].0)
  }

  /** Places an entry before the first entry whose key comes after its own. */
  function Insert(f: (string, JSON), fs: Fields): (r: Fields)
    ensures multiset(r) == multiset(fs) + multiset{f}
  {
    if fs == [] || Before(f.0, fs[0].0) then [f] + fs
    else
      assert fs == [fs[0]] + fs[1..];
      [fs[0]] + Insert(f, fs[1..])
  }

  /** The entries of a dict ordered by key. */
  function SortFields(fs: Fields): (r: Fields)
    ensures multiset(r) == multiset(fs)
  {
    if fs == [] then []
    else
      assert fs == [fs[0]] + fs[1..];
      Insert(fs[0], SortFields(fs[1..]))
  }

  /** Two dicts with the same entries have the same keys. */
  lemma SameEntriesSameKeys(a: Fields, b: Fields)
    requires multiset(a) == multiset(b)
    ensures Keys(a) == Keys(b)
  {
    forall k | k in Keys(a)
      ensures k in Keys(b)
    {
      var i :| 0 <= i < |a| && a[i].0 == k;
      assert a[i] in multiset(b);
      var j :| 0 <= j < |b| && b[j] == a[i];
    }
    forall k | k in Keys(b)
      ensures k in Keys(a)
    {
      var j :| 0 <= j < |b| && b[j].0 == k;
      assert b[j] in multiset(a);
      var i :| 0 <= i < |a| && a[i] == b[j];
    }
  }

  /** An entry whose key comes before every key of a sorted dict can lead it. */
  lemma ConsSorted(f: (string, JSON), fs: Fields)
    requires SortedKeys(fs)
    requires forall j :: 0 <= j < |fs| ==> Before(f.0, fs[j].0)
    ensures SortedKeys([f] + fs)
  {
    var r := [f] + fs;
    forall i, j | 0 <= i < j < |r|
      ensures Before(r[i].0, r[j].0)
    {
      if i > 0 {
        assert r[i] == fs[i - 1] && r[j] == fs[j - 1];
      }
    }
  }

  /** A key below the first key of a sorted dict is below all of them. */
  lemma BelowFirst(k: string, fs: Fields)
    requires SortedKeys(fs) && fs != [] && Before(k, fs[0].0)
    ensures forall j :: 0 <= j < |fs| ==> Before(k, fs[j].0)
  {
    forall j | 0 < j < |fs|
      ensures Before(k, fs[j].0)
    {
      BeforeTransitive(k, fs[0].0, fs[j].0);
    }
  }

  /** Every key of `Insert(f, fs)` is `f`'s key or one of `fs`. */
  lemma InsertedFrom(f: (string, JSON), fs: Fields, x: (string, JSON))
    requires x in Insert(f, fs)
    ensures x == f || exists i :: 0 <= i < |fs| && fs[i] == x
  {
    assert x in multiset(fs) + multiset{f};
  }

  lemma {:induction false} InsertSorted(f: (string, JSON), fs: Fields)
    requires SortedKeys(fs) && f.0 !in Keys(fs)
    ensures SortedKeys(Insert(f, fs))
  {
    if fs == [] {
    } else if Before(f.0, fs[0].0) {
      BelowFirst(f.0, fs);
      ConsSorted(f, fs);
    } else {
      BeforeTotal(f.0, fs[0].0);
      var tail := fs[1..];
      InsertSorted(f, tail);
      var rest := Insert(f, tail);
      forall j | 0 <= j < |rest|
        ensures Before(fs[0].0, rest[j].0)
      {
        InsertedFrom(f, tail, rest[j]);
        if rest[j] != f {
          var i :| 0 <= i < |tail| && tail[i] == rest[j];
          assert fs[i + 1] == rest[j];
        }
      }
      ConsSorted(fs[0], rest);
    }
  }

  lemma {:induction false} SortFieldsSorted(fs: Fields)
    requires DistinctKeys(fs)
    ensures SortedKeys(SortFields(fs))
  {
    if fs != [] {
      var tail := fs[1..];
      SortFieldsSorted(tail);
      SameEntriesSameKeys(SortFields(tail), tail);
      assert fs[0].0 !in Keys(tail);
      InsertSorted(fs[0], SortFields(tail));
    }
  }

  /** Entries already in key order are left where they are. */
  lemma {:induction false} SortedUnchanged(fs: Fields)
    requires SortedKeys(fs)
    ensures SortFields(fs) == fs
  {
    if fs != [] {
      SortedUnchanged(fs[1..]);
      assert fs == [fs[0]] + fs[1..];
    }
  }

  /** `normalize_settings(settings)`. */
  function Normalize(j: JSON): JSON
    decreases j, 1
  {
    match j
    case JArr(xs) => JArr(NormalizedItems(j))
    case JObj(fs) => JObj(SortFields(NormalizedValues(j)))
    case _ => j
  }

  /** `[normalize_settings(x) for x in settings]`. */
  function NormalizedItems(j: JSON): (r: seq<JSON>)
    requires j.JArr?
    decreases j, 0
  {
    seq(|j.items|, i requires 0 <= i < |j.items| => Normalize(j.items[i]))
  }

  /** The dict's entries with each value normalized, still in insertion order. */
  function NormalizedValues(j: JSON): (r: Fields)
    requires j.JObj?
    decreases j, 0
  {
    seq(|j.fields|, i requires 0 <= i < |j.fields| => (j.fields[i].0, Normalize(j.fields[i].1)))
  }

  /** What `normalize_settings` produces: every dict at every depth has its
      keys in sorted order. */
  predicate Normal(j: JSON)
  {
    match j
    case JArr(xs) => forall i :: 0 <= i < |xs| ==> Normal(xs[i])
    case JObj(fs) => SortedKeys(fs) && forall i :: 0 <= i < |fs| ==> Normal(fs[i].1)
    case _ => true
  }

  /** `a` and `b` differ at most in the order of dict entries: scalars are
      identical, lists have the same length and correspond element by
      element, dicts have the same keys and correspond key by key. */
  predicate SameUpToKeyOrder(a: JSON, b: JSON)
  {
    match a
    case JArr(xs) =>
      b.JArr? && |xs| == |b.items| &&
      forall i :: 0 <= i < |xs| ==> SameUpToKeyOrder(xs[i], b.items[i])
    case JObj(fs) =>
      b.JObj? && Keys(fs) == Keys(b.fields) &&
      forall i :: 0 <= i < |fs| ==> SameUpToKeyOrder(fs[i].1, Get(b.fields, fs[i].0))
    case _ => b == a
  }

  /** Sorted keys are distinct keys. */
  lemma {:induction false} NormalWellFormed(j: JSON)
    requires Normal(j)
    ensures WellFormed(j)
  {
    match j
    case JArr(xs) =>
      forall i | 0 <= i < |xs|
        ensures WellFormed(xs[i])
      {
        NormalWellFormed(xs[i]);
      }
    case JObj(fs) =>
      forall i, k | 0 <= i < k < |fs|
        ensures fs[i].0 != fs[k].0
      {
        BeforeIrreflexive(fs[i].0);
      }
      forall i | 0 <= i < |fs|
        ensures WellFormed(fs[i].1)
      {
        NormalWellFormed(fs[i].1);
      }
    case _ =>
  }

  /** `normalize_settings` sorts the keys of every dict at every depth. */
  lemma {:induction false} NormalizeIsNormal(j: JSON)
    requires WellFormed(j)
    ensures Normal(Normalize(j))
  {
    match j
    case JArr(xs) =>
      forall i | 0 <= i < |xs|
        ensures Normal(NormalizedItems(j)[i])
      {
        NormalizeIsNormal(xs[i]);
      }
    case JObj(fs) =>
      var nv := NormalizedValues(j);
      forall i | 0 <= i < |nv|
        ensures Normal(nv[i].1)
      {
        NormalizeIsNormal(fs[i].1);
      }
      assert DistinctKeys(nv);
      SortFieldsSorted(nv);
      var sorted := SortFields(nv);
      forall i | 0 <= i < |sorted|
        ensures Normal(sorted[i].1)
      {
        assert sorted[i] in multiset(nv);
        var k :| 0 <= k < |nv| && nv[k] == sorted[i];
      }
    case _ =>
  }

  /** A value whose dicts are already sorted comes back unchanged. */
  lemma {:induction false} NormalUnchanged(j: JSON)
    requires Normal(j)
    ensures Normalize(j) == j
  {
    match j
    case JArr(xs) =>
      forall i | 0 <= i < |xs|
        ensures NormalizedItems(j)[i] == xs[i]
      {
        NormalUnchanged(xs[i]);
      }
      assert NormalizedItems(j) == xs;
    case JObj(fs) =>
      forall i | 0 <= i < |fs|
        ensures NormalizedValues(j)[i] == fs[i]
      {
        NormalUnchanged(fs[i].1);
      }
      assert NormalizedValues(j) == fs;
      SortedUnchanged(fs);
    case _ =>
  }

  /** `normalize_settings` is idempotent. */
  lemma NormalizeIdempotent(j: JSON)
    requires WellFormed(j)
    ensures Normalize(Normalize(j)) == Normalize(j)
  {
    NormalizeIsNormal(j);
    NormalUnchanged(Normalize(j));
  }

  /** A normalized dict has the keys of the original. */
  lemma NormalizedKeys(j: JSON)
    requires j.JObj?
    ensures Keys(Normalize(j).fields) == Keys(j.fields)
  {
    var nv := NormalizedValues(j);
    forall k | k in Keys(j.fields)
      ensures k in Keys(nv)
    {
      var i :| 0 <= i < |j.fields| && j.fields[i].0 == k;
      assert nv[i].0 == k;
    }
    SameEntriesSameKeys(SortFields(nv), nv);
  }

  /** In a normalized dict each key holds the normalized original value. */
  lemma NormalizedLookup(j: JSON, i: int)
    requires j.JObj? && WellFormed(j) && 0 <= i < |j.fields|
    ensures Get(Normalize(j).fields, j.fields[i].0) == Normalize(j.fields[i].1)
  {
    var nv := NormalizedValues(j);
    var sorted := SortFields(nv);
    NormalizeIsNormal(j);
    NormalWellFormed(Normalize(j));
    assert nv[i] in multiset(sorted);
    var k :| 0 <= k < |sorted| && sorted[k] == nv[i];
    GetEntry(sorted, k);
  }

  /** `normalize_settings` only reorders dict entries: every scalar, every
      list length and order and every key set is kept at every depth. */
  lemma {:induction false} NormalizeKeepsShape(j: JSON)
    requires WellFormed(j)
    ensures SameUpToKeyOrder(j, Normalize(j))
  {
    match j
    case JArr(xs) =>
      forall i | 0 <= i < |xs|
        ensures SameUpToKeyOrder(xs[i], NormalizedItems(j)[i])
      {
        NormalizeKeepsShape(xs[i]);
      }
    case JObj(fs) =>
      NormalizedKeys(j);
      forall i | 0 <= i < |fs|
        ensures SameUpToKeyOrder(fs[i].1, Get(Normalize(j).fields, fs[i].0))
      {
        NormalizedLookup(j, i);
        NormalizeKeepsShape(fs[i].1);
      }
    case _ =>
  }

  /** Python `==` does not see the order of dict entries: replacing the
      left operand by one that differs only in that order keeps the answer. */
  lemma SameLeft(x: JSON, x2: JSON, y: JSON)
    requires WellFormed(x) && WellFormed(x2) && SameUpToKeyOrder(x, x2)
    ensures PyEq(x, y) <==> PyEq(x2, y)
    decreases x, 1
  {
    if x.JArr? {
      SameLeftItems(x, x2, y);
    } else if x.JObj? {
      SameLeftFields(x, x2, y);
    }
  }

  lemma SameLeftItems(x: JSON, x2: JSON, y: JSON)
    requires x.JArr? && WellFormed(x) && WellFormed(x2) && SameUpToKeyOrder(x, x2)
    ensures PyEq(x, y) <==> PyEq(x2, y)
    decreases x, 0
  {
    var xs := x.items;
    if y.JArr? && |xs| == |y.items| {
      forall i | 0 <= i < |xs|
        ensures PyEq(xs[i], y.items[i]) <==> PyEq(x2.items[i], y.items[i])
      {
        SameLeft(xs[i], x2.items[i], y.items[i]);
      }
    }
  }

  lemma SameLeftFields(x: JSON, x2: JSON, y: JSON)
    requires x.JObj? && WellFormed(x) && WellFormed(x2) && SameUpToKeyOrder(x, x2)
    ensures PyEq(x, y) <==> PyEq(x2, y)
    decreases x, 0
  {
    if y.JObj? {
      var fs, fs2, gs := x.fields, x2.fields, y.fields;
      forall k | k in Keys(fs)
        ensures PyEq(Get(fs, k), Get(gs, k)) <==> PyEq(Get(fs2, k), Get(gs, k))
      {
        var i :| 0 <= i < |fs| && fs[i].0 == k;
        GetEntry(fs, i);
        GetWellFormed(fs2, k);
        SameLeft(fs[i].1, Get(fs2, k), Get(gs, k));
      }
      assert EqualByKey(fs, gs) <==> EqualByKey(fs2, gs);
      PyEqByKey(fs, gs);
      PyEqByKey(fs2, gs);
    }
  }

  /** Normalizing both sides never changes the outcome of Python `==`:
      `normalize_settings(a) == normalize_settings(b)` exactly when `a == b`. */
  lemma NormalizedEquality(a: JSON, b: JSON)
    requires WellFormed(a) && WellFormed(b)
    ensures PyEq(Normalize(a), Normalize(b)) <==> PyEq(a, b)
  {
    var na, nb := Normalize(a), Normalize(b);
    NormalizeKeepsShape(a);
    NormalizeKeepsShape(b);
    NormalizeIsNormal(a);
    NormalizeIsNormal(b);
    NormalWellFormed(na);
    NormalWellFormed(nb);
    SameLeft(a, na, b);
    PyEqCommutes(na, b);
    SameLeft(b, nb, na);
    PyEqCommutes(nb, na);
  }
}
