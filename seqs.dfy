/**
 * Order-preserving selection from a sequence: boolean-mask filtering and
 * the subsequence relation it produces.
 */
module Seqs {
  import opened Sorting

  /** `a` is obtained from `b` by deleting elements (matched from the end). */
  predicate IsSubseq<T(==)>(a: seq<T>, b: seq<T>)
    decreases |b|
  {
    if a == [] then true
    else if b == [] then false
    else if a[|a| - 1] == b[|b| - 1] then IsSubseq(a[..|a| - 1], b[..|b| - 1])
    else IsSubseq(a, b[..|b| - 1])
  }

  /** `s[mask]`: the elements satisfying `p`, in their order. */
  function Filter<T>(s: seq<T>, p: T -> bool): (r: seq<T>)
    ensures |r| <= |s|
  {
    if s == [] then []
    else Filter(s[..|s| - 1], p) + (if p(s[|s| - 1]) then [s[|s| - 1]] else [])
  }

  /** An element is kept exactly when it occurs in the input and satisfies the predicate. */
  lemma {:induction false} FilterMembers<T>(s: seq<T>, p: T -> bool, x: T)
    ensures x in Filter(s, p) <==> x in s && p(x)
  {
    if s != [] {
      FilterMembers(s[..|s| - 1], p, x);
      assert s == s[..|s| - 1] + [s[|s| - 1]];
    }
  }

  lemma {:induction false} FilterSubseq<T>(s: seq<T>, p: T -> bool)
    ensures IsSubseq(Filter(s, p), s)
  {
    if s != [] {
      var init := s[..|s| - 1];
      FilterSubseq(init, p);
      var r := Filter(s, p);
      if p(s[|s| - 1]) {
        assert r[..|r| - 1] == Filter(init, p);
      } else {
        assert r == Filter(init, p);
        if r != [] && r[|r| - 1] == s[|s| - 1] {
          SubseqDropLast(r, init);
        } else if r != [] {
          assert IsSubseq(r, init);
        }
      }
    }
  }

  /** Dropping the last element of a subsequence leaves a subsequence. */
  lemma {:induction false} SubseqDropLast<T>(a: seq<T>, b: seq<T>)
    requires a != [] && IsSubseq(a, b)
    ensures IsSubseq(a[..|a| - 1], b)
    decreases |b|, 0
  {
    assert b[..|b| - 1] + [b[|b| - 1]] == b;
    if a[|a| - 1] == b[|b| - 1] {
      SubseqWeaken(a[..|a| - 1], b[..|b| - 1], b[|b| - 1]);
    } else {
      SubseqDropLast(a, b[..|b| - 1]);
      SubseqWeaken(a[..|a| - 1], b[..|b| - 1], b[|b| - 1]);
    }
  }

  /** Appending an element to the larger sequence keeps the relation. */
  lemma {:induction false} SubseqWeaken<T>(a: seq<T>, b: seq<T>, x: T)
    requires IsSubseq(a, b)
    ensures IsSubseq(a, b + [x])
    decreases |b|, 1
  {
    var bx := b + [x];
    assert bx[..|bx| - 1] == b;
    if a != [] && a[|a| - 1] == x {
      SubseqDropLast(a, b);
    }
  }

  /** Applying two filters in turn is filtering by their conjunction. */
  lemma {:induction false} FilterFilter<T>(s: seq<T>, p: T -> bool, q: T -> bool, pq: T -> bool)
    requires forall x :: pq(x) == (p(x) && q(x))
    ensures Filter(Filter(s, p), q) == Filter(s, pq)
  {
    if s != [] {
      var init, last := s[..|s| - 1], s[|s| - 1];
      FilterFilter(init, p, q, pq);
      var f := Filter(s, p);
      if p(last) {
        assert f == Filter(init, p) + [last];
        assert f[..|f| - 1] == Filter(init, p);
      } else {
        assert f == Filter(init, p);
      }
    }
  }

  lemma {:induction false} SubseqMembers<T>(a: seq<T>, b: seq<T>, x: T)
    requires IsSubseq(a, b) && x in a
    ensures x in b
    decreases |b|
  {
    var a', b' := a[..|a| - 1], b[..|b| - 1];
    assert b == b' + [b[|b| - 1]];
    if a[|a| - 1] == b[|b| - 1] {
      assert a == a' + [a[|a| - 1]];
      if x != a[|a| - 1] {
        SubseqMembers(a', b', x);
      }
    } else {
      SubseqMembers(a, b', x);
    }
  }

  /** A subsequence of a sequence sorted by a key is sorted by it. */
  lemma {:induction false} SubseqAscending<T>(a: seq<T>, b: seq<T>, key: T -> real)
    requires IsSubseq(a, b) && Ascending(b, key)
    ensures Ascending(a, key)
    decreases |b|
  {
    if a != [] {
      var a', b' := a[..|a| - 1], b[..|b| - 1];
      var last := b[|b| - 1];
      assert Ascending(b', key);
      if a[|a| - 1] == last {
        SubseqAscending(a', b', key);
        forall i | 0 <= i < |a'| ensures key(a'[i]) <= key(last) {
          SubseqMembers(a', b', a'[i]);
          var j :| 0 <= j < |b'| && b'[j] == a'[i];
          assert b[j] == b'[j];
        }
        assert a == a' + [last];
      } else {
        SubseqAscending(a, b', key);
      }
    }
  }
}
