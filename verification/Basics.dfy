/** Small facts about sequences, finite sets and sums that every other module leans on. */
module Basics {

  datatype Option<+T> = None | Some(value: T)

  predicate Distinct<T(==)>(s: seq<T>) {
    forall i, j :: 0 <= i < j < |s| ==> s[i] != s[j]
  }

  function ToSet<T(==)>(s: seq<T>): set<T> {
    set x | x in s
  }

  lemma {:induction false} DistinctSize<T>(s: seq<T>)
    requires Distinct(s)
    ensures |ToSet(s)| == |s|
  {
    if s == [] {
      assert ToSet(s) == {};
    } else {
      var front, last := s[..|s| - 1], s[|s| - 1];
      DistinctSize(front);
      assert ToSet(s) == ToSet(front) + {last};
      assert last !in front;
    }
  }

  lemma {:induction false} ToSetSize<T>(s: seq<T>)
    ensures |ToSet(s)| <= |s|
  {
    if s == [] {
      assert ToSet(s) == {};
    } else {
      var front, last := s[..|s| - 1], s[|s| - 1];
      ToSetSize(front);
      assert ToSet(s) == ToSet(front) + {last};
    }
  }

  lemma {:induction false} SubsetSize<T>(a: set<T>, b: set<T>)
    requires a <= b
    ensures |a| <= |b|
    ensures |a| == |b| ==> a == b
  {
    assert b == a + (b - a);
    assert |b| == |a| + |b - a|;
  }

  /** The sum of `weight` over a finite set of keys. */
  ghost function Sum<K>(weight: map<K, int>, keys: set<K>): int
    requires keys <= weight.Keys
  {
    if keys == {} then 0 else
      var k :| k in keys;
      weight[k] + Sum(weight, keys - {k})
  }

  lemma {:induction false} SumSplit<K>(weight: map<K, int>, keys: set<K>, k: K)
    requires keys <= weight.Keys && k in keys
    ensures Sum(weight, keys) == weight[k] + Sum(weight, keys - {k})
    decreases |keys|
  {
    var j :| j in keys && Sum(weight, keys) == weight[j] + Sum(weight, keys - {j});
    if j != k {
      SumSplit(weight, keys - {j}, k);
      SumSplit(weight, keys - {k}, j);
      assert keys - {j} - {k} == keys - {k} - {j};
    }
  }

  lemma {:induction false} SumAgree<K>(a: map<K, int>, b: map<K, int>, keys: set<K>)
    requires keys <= a.Keys && keys <= b.Keys
    requires forall k :: k in keys ==> a[k] == b[k]
    ensures Sum(a, keys) == Sum(b, keys)
    decreases |keys|
  {
    if keys != {} {
      var k :| k in keys;
      SumSplit(a, keys, k);
      SumSplit(b, keys, k);
      SumAgree(a, b, keys - {k});
    }
  }

  function Wrapped<T(==)>(ids: set<T>): set<Option<T>> {
    set id | id in ids :: Some(id)
  }

  lemma {:induction false} WrappedSize<T>(ids: set<T>)
    ensures |Wrapped(ids)| == |ids|
    decreases |ids|
  {
    if ids == {} {
      assert Wrapped(ids) == {};
    } else {
      var x :| x in ids;
      WrappedSize(ids - {x});
      assert Wrapped(ids) == Wrapped(ids - {x}) + {Some(x)};
      assert ids == ids - {x} + {x};
    }
  }
}
