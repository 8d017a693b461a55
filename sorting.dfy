/**
 * Python's `sorted(xs, key=k)` and `sorted(xs, key=k, reverse=True)` for a
 * real-valued key: both are stable, so elements with equal keys keep their
 * input order. Modelled as insertion sort.
 */
module Sorting {

  ghost predicate Ascending<T>(s: seq<T>, key: T -> real) {
    forall i, j :: 0 <= i < j < |s| ==> key(s[i]) <= key(s[j])
  }

  ghost predicate Descending<T>(s: seq<T>, key: T -> real) {
    forall i, j :: 0 <= i < j < |s| ==> key(s[i]) >= key(s[j])
  }

  /** The elements whose key is `w`, in order. */
  function WithKey<T>(s: seq<T>, key: T -> real, w: real): seq<T> {
    if s == [] then []
    else (if key(s[0]) == w then [s[0]] else []) + WithKey(s[1..], key, w)
  }

  function SumBy<T>(s: seq<T>, f: T -> real): real {
    if s == [] then 0.0 else f(s[0]) + SumBy(s[1..], f)
  }

  /** Inserts `x` before the first element whose key is not below its own. */
  function Insert<T>(x: T, s: seq<T>, key: T -> real): seq<T> {
    if s == [] || key(x) <= key(s[0]) then [x] + s
    else [s[0]] + Insert(x, s[1..], key)
  }

  /** sorted(s, key=key) */
  function SortBy<T>(s: seq<T>, key: T -> real): seq<T> {
    if s == [] then [] else Insert(s[0], SortBy(s[1..], key), key)
  }

  /** sorted(s, key=key, reverse=True): stable, largest key first. */
  function SortByDescending<T>(s: seq<T>, key: T -> real): (r: seq<T>)
    ensures Descending(r, key)
    ensures multiset(r) == multiset(s)
    ensures forall w :: WithKey(r, key, w) == WithKey(s, key, w)
    ensures SumBy(r, key) == SumBy(s, key)
  {
    var neg := x => -key(x);
    var r := SortBy(s, neg);
    SortByCorrect(s, neg);
    forall w ensures WithKey(r, key, w) == WithKey(s, key, w) {
      SortByStable(s, neg, -w);
      WithKeyNegated(r, key, w);
      WithKeyNegated(s, key, w);
    }
    SortBySum(s, neg, key);
    r
  }

  lemma {:induction false} WithKeyNegated<T>(s: seq<T>, key: T -> real, w: real)
    ensures WithKey(s, x => -key(x), -w) == WithKey(s, key, w)
  {
    if s != [] {
      WithKeyNegated(s[1..], key, w);
    }
  }

  lemma {:induction false} InsertPermutes<T>(x: T, s: seq<T>, key: T -> real)
    ensures multiset(Insert(x, s, key)) == multiset(s) + multiset{x}
  {
    if s != [] && key(x) > key(s[0]) {
      InsertPermutes(x, s[1..], key);
      assert s == [s[0]] + s[1..];
    }
  }

  /** Every key of Insert(x, s) is at least a bound that x and all of s meet. */
  lemma {:induction false} InsertLowerBound<T>(x: T, s: seq<T>, key: T -> real, b: real)
    requires b <= key(x) && forall i :: 0 <= i < |s| ==> b <= key(s[i])
    ensures forall i :: 0 <= i < |Insert(x, s, key)| ==> b <= key(Insert(x, s, key)[i])
    ensures |Insert(x, s, key)| == |s| + 1
  {
    if s != [] && key(x) > key(s[0]) {
      InsertLowerBound(x, s[1..], key, b);
    }
  }

  lemma {:induction false} InsertAscending<T>(x: T, s: seq<T>, key: T -> real)
    requires Ascending(s, key)
    ensures Ascending(Insert(x, s, key), key)
  {
    var r := Insert(x, s, key);
    if s == [] || key(x) <= key(s[0]) {
      assert r == [x] + s;
      forall i, j | 0 <= i < j < |r| ensures key(r[i]) <= key(r[j]) {
        if i == 0 { assert r[j] == s[j - 1]; } else { assert r[i] == s[i - 1] && r[j] == s[j - 1]; }
      }
    } else {
      var t := Insert(x, s[1..], key);
      assert r == [s[0]] + t;
      InsertAscending(x, s[1..], key);
      InsertLowerBound(x, s[1..], key, key(s[0]));
      forall i, j | 0 <= i < j < |r| ensures key(r[i]) <= key(r[j]) {
        if i == 0 { assert r[j] == t[j - 1]; } else { assert r[i] == t[i - 1] && r[j] == t[j - 1]; }
      }
    }
  }

  lemma {:induction false} InsertWithKey<T>(x: T, s: seq<T>, key: T -> real, w: real)
    ensures WithKey(Insert(x, s, key), key, w) == (if key(x) == w then [x] else []) + WithKey(s, key, w)
  {
    var r := Insert(x, s, key);
    if s != [] && key(x) > key(s[0]) {
      InsertWithKey(x, s[1..], key, w);
      assert r[0] == s[0] && r[1..] == Insert(x, s[1..], key);
      var head := if key(s[0]) == w then [s[0]] else [];
      assert WithKey(r, key, w) == head + WithKey(r[1..], key, w);
      assert WithKey(s, key, w) == head + WithKey(s[1..], key, w);
      if key(x) == w {
        assert head == [];
      }
    } else {
      assert r[0] == x && r[1..] == s;
    }
  }

  lemma {:induction false} InsertSum<T>(x: T, s: seq<T>, key: T -> real, f: T -> real)
    ensures SumBy(Insert(x, s, key), f) == f(x) + SumBy(s, f)
  {
    if s != [] && key(x) > key(s[0]) {
      InsertSum(x, s[1..], key, f);
      assert Insert(x, s, key)[1..] == Insert(x, s[1..], key);
    } else {
      assert Insert(x, s, key)[1..] == s;
    }
  }

  lemma {:induction false} SortByCorrect<T>(s: seq<T>, key: T -> real)
    ensures Ascending(SortBy(s, key), key)
    ensures multiset(SortBy(s, key)) == multiset(s)
  {
    if s != [] {
      SortByCorrect(s[1..], key);
      InsertAscending(s[0], SortBy(s[1..], key), key);
      InsertPermutes(s[0], SortBy(s[1..], key), key);
      assert s == [s[0]] + s[1..];
    }
  }

  /** Stability: the elements sharing a key keep their input order. */
  lemma {:induction false} SortByStable<T>(s: seq<T>, key: T -> real, w: real)
    ensures WithKey(SortBy(s, key), key, w) == WithKey(s, key, w)
  {
    if s != [] {
      SortByStable(s[1..], key, w);
      InsertWithKey(s[0], SortBy(s[1..], key), key, w);
    }
  }

  lemma {:induction false} SortBySum<T>(s: seq<T>, key: T -> real, f: T -> real)
    ensures SumBy(SortBy(s, key), f) == SumBy(s, f)
  {
    if s != [] {
      SortBySum(s[1..], key, f);
      InsertSum(s[0], SortBy(s[1..], key), key, f);
    }
  }

  /** Index of the first element with the largest key: Python's `max(s, key=key)`. */
  function FirstMaxIndex<T>(s: seq<T>, key: T -> real): (k: nat)
    requires s != []
    ensures k < |s|
    ensures forall i :: 0 <= i < |s| ==> key(s[i]) <= key(s[k])
    ensures forall i :: 0 <= i < k ==> key(s[i]) < key(s[k])
  {
    if |s| == 1 then 0
    else
      var k := FirstMaxIndex(s[..|s| - 1], key);
      if key(s[|s| - 1]) > key(s[k]) then |s| - 1 else k
  }
}
