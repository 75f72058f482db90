/** Collection queries: MongoDB's `find(filter)`, `.sort({ key: -1 })`,
    `findById` and `countDocuments` over a table kept in natural order. */
module Seqs {
  import opened Common

  /** `find(filter)`: the matching documents, in table order. */
  function Filter<T(!new)>(s: seq<T>, p: T -> bool): (r: seq<T>)
    ensures |r| <= |s|
    ensures forall x :: x in r <==> x in s && p(x)
    ensures forall i :: 0 <= i < |r| ==> p(r[i])
  {
    if s == [] then []
    else if p(s[0]) then [s[0]] + Filter(s[1..], p)
    else Filter(s[1..], p)
  }

  lemma {:induction false} FilterAppend<T(!new)>(a: seq<T>, b: seq<T>, p: T -> bool)
    ensures Filter(a + b, p) == Filter(a, p) + Filter(b, p)
  {
    if a == [] {
      assert a + b == b;
    } else {
      assert (a + b)[1..] == a[1..] + b;
      FilterAppend(a[1..], b, p);
    }
  }

  /** Filtering by a predicate that holds everywhere keeps the whole table. */
  lemma {:induction false} FilterAll<T(!new)>(s: seq<T>, p: T -> bool)
    requires forall i :: 0 <= i < |s| ==> p(s[i])
    ensures Filter(s, p) == s
  {
    if s != [] {
      FilterAll(s[1..], p);
    }
  }

  /** Filtering by a predicate that holds nowhere keeps nothing. */
  lemma {:induction false} FilterNone<T(!new)>(s: seq<T>, p: T -> bool)
    requires forall i :: 0 <= i < |s| ==> !p(s[i])
    ensures Filter(s, p) == []
  {
    if s != [] {
      FilterNone(s[1..], p);
    }
  }

  /** `countDocuments(filter)`, or `array.filter(p).length`. */
  function Count<T(!new)>(s: seq<T>, p: T -> bool): (n: nat)
    ensures n <= |s|
  {
    |Filter(s, p)|
  }

  /** A sequence in which `key` never increases: newest first. */
  ghost predicate SortedDesc<T>(s: seq<T>, key: T -> int) {
    forall i, j :: 0 <= i < j < |s| ==> key(s[i]) >= key(s[j])
  }

  /** Places `x` before the first element whose key is smaller. */
  function InsertDesc<T>(x: T, s: seq<T>, key: T -> int): (r: seq<T>)
    ensures multiset(r) == multiset(s) + multiset{x}
    ensures |r| == |s| + 1
  {
    if s == [] || key(s[0]) <= key(x) then [x] + s
    else
      assert s == [s[0]] + s[1..];
      [s[0]] + InsertDesc(x, s[1..], key)
  }

  lemma {:induction false} InsertDescSorted<T>(x: T, s: seq<T>, key: T -> int)
    requires SortedDesc(s, key)
    ensures SortedDesc(InsertDesc(x, s, key), key)
    ensures forall i :: 0 <= i < |InsertDesc(x, s, key)| ==>
              key(InsertDesc(x, s, key)[i]) == key(x) || exists k :: 0 <= k < |s| && key(s[k]) == key(InsertDesc(x, s, key)[i])
  {
    var r := InsertDesc(x, s, key);
    if s == [] || key(s[0]) <= key(x) {
      assert r == [x] + s;
      forall i | 0 <= i < |r|
        ensures key(r[i]) == key(x) || exists k :: 0 <= k < |s| && key(s[k]) == key(r[i])
      {
        if i > 0 { assert r[i] == s[i - 1]; }
      }
    } else {
      var tail := InsertDesc(x, s[1..], key);
      assert r == [s[0]] + tail;
      InsertDescSorted(x, s[1..], key);
      forall i | 0 <= i < |r|
        ensures key(r[i]) == key(x) || exists k :: 0 <= k < |s| && key(s[k]) == key(r[i])
      {
        if i > 0 {
          assert r[i] == tail[i - 1];
          if key(tail[i - 1]) != key(x) {
            var k :| 0 <= k < |s[1..]| && key(s[1..][k]) == key(tail[i - 1]);
            assert s[k + 1] == s[1..][k];
          }
        }
      }
      forall i, j | 0 <= i < j < |r| ensures key(r[i]) >= key(r[j]) {
        if i == 0 {
          assert r[j] == tail[j - 1];
          if key(r[j]) != key(x) {
            var k :| 0 <= k < |s[1..]| && key(s[1..][k]) == key(r[j]);
            assert s[1..][k] == s[k + 1];
          }
        } else {
          assert r[i] == tail[i - 1] && r[j] == tail[j - 1];
        }
      }
    }
  }

  /** `.sort({ key: -1 })`: an insertion sort, so documents with equal keys keep table order. */
  function SortDesc<T>(s: seq<T>, key: T -> int): (r: seq<T>)
    ensures multiset(r) == multiset(s)
    ensures |r| == |s|
  {
    if s == [] then []
    else
      assert s == [s[0]] + s[1..];
      InsertDesc(s[0], SortDesc(s[1..], key), key)
  }

  lemma {:induction false} SortDescSorted<T>(s: seq<T>, key: T -> int)
    ensures SortedDesc(SortDesc(s, key), key)
  {
    if s != [] {
      SortDescSorted(s[1..], key);
      InsertDescSorted(s[0], SortDesc(s[1..], key), key);
    }
  }

  /** The sorted result holds exactly the documents of the table: a permutation, newest first. */
  lemma SortDescSpec<T>(s: seq<T>, key: T -> int)
    ensures SortedDesc(SortDesc(s, key), key)
    ensures multiset(SortDesc(s, key)) == multiset(s)
    ensures forall x :: x in SortDesc(s, key) <==> x in s
  {
    SortDescSorted(s, key);
    var r := SortDesc(s, key);
    assert forall x :: x in r <==> x in multiset(r);
    assert forall x :: x in s <==> x in multiset(s);
  }

  /** `findOne({ key: k })` / `findById(k)`: the position of the first document with that key. */
  function IndexOf<T, K(==)>(s: seq<T>, key: T -> K, k: K): (r: Option<nat>)
    ensures r.Some? ==> r.value < |s| && key(s[r.value]) == k
    ensures r.Some? ==> forall j :: 0 <= j < r.value ==> key(s[j]) != k
    ensures r.None? <==> forall j :: 0 <= j < |s| ==> key(s[j]) != k
  {
    if s == [] then None
    else if key(s[0]) == k then Some(0)
    else match IndexOf(s[1..], key, k)
      case None => None
      case Some(i) => Some(i + 1)
  }

  /** No two documents share a key (a unique index). */
  ghost predicate Distinct<T, K>(s: seq<T>, key: T -> K) {
    forall i, j :: 0 <= i < j < |s| ==> key(s[i]) != key(s[j])
  }

  /** Every key was allocated before `bound`. */
  ghost predicate Below<T>(s: seq<T>, key: T -> nat, bound: nat) {
    forall i :: 0 <= i < |s| ==> key(s[i]) < bound
  }

  /** A table whose ids are distinct and were all allocated before `bound`. */
  ghost predicate Keyed<T>(s: seq<T>, key: T -> nat, bound: nat) {
    Distinct(s, key) && Below(s, key, bound)
  }

  /** Replacing a document by one with the same key keeps the keys distinct. */
  lemma DistinctUpdate<T, K>(s: seq<T>, key: T -> K, i: nat, x: T)
    requires Distinct(s, key) && i < |s| && key(x) == key(s[i])
    ensures Distinct(s[i := x], key)
  {
    var t := s[i := x];
    assert forall k :: 0 <= k < |t| ==> key(t[k]) == key(s[k]);
  }

  /** Appending a document whose key no document has keeps the keys distinct. */
  lemma DistinctAppend<T, K>(s: seq<T>, key: T -> K, x: T)
    requires Distinct(s, key) && forall i :: 0 <= i < |s| ==> key(s[i]) != key(x)
    ensures Distinct(s + [x], key)
  {
    var t := s + [x];
    forall i, j | 0 <= i < j < |t| ensures key(t[i]) != key(t[j]) {
      assert t[i] == s[i];
      if j < |s| { assert t[j] == s[j]; }
    }
  }

  /** Appending a run of documents with the next fresh ids keeps the table keyed. */
  lemma KeyedAppendRun<T>(s: seq<T>, key: T -> nat, bound: nat, t: seq<T>)
    requires Keyed(s, key, bound)
    requires forall i :: 0 <= i < |t| ==> key(t[i]) == bound + i
    ensures Keyed(s + t, key, bound + |t|)
  {
    var u := s + t;
    forall i | 0 <= i < |u| ensures key(u[i]) < bound + |t| {
      if i < |s| { assert u[i] == s[i]; } else { assert u[i] == t[i - |s|]; }
    }
    forall i, j | 0 <= i < j < |u| ensures key(u[i]) != key(u[j]) {
      if j < |s| {
        assert u[i] == s[i] && u[j] == s[j];
      } else if i < |s| {
        assert u[i] == s[i] && u[j] == t[j - |s|];
      } else {
        assert u[i] == t[i - |s|] && u[j] == t[j - |s|];
      }
    }
  }

  /** Appending a document with a fresh id keeps the table keyed. */
  lemma KeyedAppend<T>(s: seq<T>, key: T -> nat, bound: nat, x: T)
    requires Keyed(s, key, bound) && key(x) == bound
    ensures Keyed(s + [x], key, bound + 1)
  {
    KeyedAppendRun(s, key, bound, [x]);
  }

  /** Replacing a document by one with the same id keeps the table keyed. */
  lemma KeyedUpdate<T>(s: seq<T>, key: T -> nat, bound: nat, i: nat, x: T)
    requires Keyed(s, key, bound) && i < |s| && key(x) == key(s[i])
    ensures Keyed(s[i := x], key, bound)
  {
    DistinctUpdate(s, key, i, x);
    var t := s[i := x];
    assert forall k :: 0 <= k < |t| ==> key(t[k]) == key(s[k]);
  }

  /** Deleting one document keeps the table keyed, and its id is then gone. */
  lemma KeyedRemove<T>(s: seq<T>, key: T -> nat, bound: nat, i: nat)
    requires Keyed(s, key, bound) && i < |s|
    ensures Keyed(s[..i] + s[i + 1..], key, bound)
    ensures forall x :: x in s[..i] + s[i + 1..] <==> x in s && key(x) != key(s[i])
  {
    var t := s[..i] + s[i + 1..];
    assert forall k :: 0 <= k < |t| ==> t[k] == (if k < i then s[k] else s[k + 1]);
    forall x | x in t ensures key(x) != key(s[i]) {
      var k :| 0 <= k < |t| && t[k] == x;
    }
    forall x | x in s && key(x) != key(s[i]) ensures x in t {
      var j :| 0 <= j < |s| && s[j] == x;
      if j < i { assert t[j] == x; } else { assert j != i; assert t[j - 1] == x; }
    }
  }

  /** A table grows its bound without losing its keys. */
  lemma KeyedGrow<T>(s: seq<T>, key: T -> nat, bound: nat, bound': nat)
    requires Keyed(s, key, bound) && bound <= bound'
    ensures Keyed(s, key, bound')
  {
  }
}
