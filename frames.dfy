/**
 * A pandas DataFrame reduced to what the pipeline relies on: an ordered list
 * of distinct column names, one column of values per name, and a row count
 * shared by every column. The row index is not modelled.
 */
module Frames {
  import opened Numeric

  type Column = seq<Num>

  predicate Distinct<T(==)>(s: seq<T>) {
    forall i, j :: 0 <= i < j < |s| ==> s[i] != s[j]
  }

  datatype Frame = Frame(names: seq<string>, cols: map<string, Column>, rows: nat) {
    predicate Valid() {
      && Distinct(names)
      && (forall c :: c in cols ==> c in names)
      && (forall c :: c in names ==> c in cols)
      && (forall c :: c in cols ==> |cols[c]| == rows)
    }
  }

  lemma DistinctAppend<T>(a: seq<T>, b: seq<T>)
    requires Distinct(a) && Distinct(b)
    requires forall x :: x in a ==> x !in b
    ensures Distinct(a + b)
  {
    var s := a + b;
    forall i, j | 0 <= i < j < |s| ensures s[i] != s[j] {
      if j >= |a| && i < |a| {
        assert s[i] in a && s[j] == b[j - |a|];
      } else if i >= |a| {
        assert s[i] == b[i - |a|] && s[j] == b[j - |a|];
      }
    }
  }

  /** A well-formed frame. */
  type Table = f: Frame | f.Valid() witness Frame([], map[], 0)

  function Empty(rows: nat): Table {
    Frame([], map[], rows)
  }

  function Has(t: Table, c: string): bool { c in t.cols }

  /**
   * `df[c] = col`: replaces the column in place when it exists, otherwise
   * appends it as the last column.
   */
  function SetColumn(t: Table, c: string, col: Column): (r: Table)
    requires |col| == t.rows
    ensures r.rows == t.rows
    ensures r.cols == t.cols[c := col]
    ensures r.names == if c in t.cols then t.names else t.names + [c]
  {
    Frame(if c in t.cols then t.names else t.names + [c], t.cols[c := col], t.rows)
  }

  /** Every column of `cols` has the frame's row count. */
  predicate Fits(cols: seq<Column>, rows: nat) {
    forall k :: 0 <= k < |cols| ==> |cols[k]| == rows
  }

  /** The assignments `df[names[k]] = cols[k]`, in order: a later one for the same name overwrites an earlier one. */
  function SetColumns(t: Table, names: seq<string>, cols: seq<Column>): (r: Table)
    requires |names| == |cols| && Fits(cols, t.rows)
    ensures r.rows == t.rows
    decreases |names|
  {
    if names == [] then t
    else SetColumns(SetColumn(t, names[0], cols[0]), names[1..], cols[1..])
  }

  /** A column no assignment names is kept. */
  lemma {:induction false} SetColumnsKeeps(t: Table, names: seq<string>, cols: seq<Column>, c: string)
    requires |names| == |cols| && Fits(cols, t.rows)
    requires c in t.cols && c !in names
    ensures c in SetColumns(t, names, cols).cols && SetColumns(t, names, cols).cols[c] == t.cols[c]
    decreases |names|
  {
    if names != [] {
      SetColumnsKeeps(SetColumn(t, names[0], cols[0]), names[1..], cols[1..], c);
    }
  }

  /** Every assigned name is a column of the result. */
  lemma {:induction false} SetColumnsHas(t: Table, names: seq<string>, cols: seq<Column>, c: string)
    requires |names| == |cols| && Fits(cols, t.rows)
    requires c in names
    ensures c in SetColumns(t, names, cols).cols
    decreases |names|
  {
    var u := SetColumn(t, names[0], cols[0]);
    if c in names[1..] {
      SetColumnsHas(u, names[1..], cols[1..], c);
    } else {
      assert c == names[0];
      SetColumnsKeeps(u, names[1..], cols[1..], c);
    }
  }

  /** No column appears that was neither present nor assigned. */
  lemma {:induction false} SetColumnsOnly(t: Table, names: seq<string>, cols: seq<Column>, c: string)
    requires |names| == |cols| && Fits(cols, t.rows)
    requires c in SetColumns(t, names, cols).cols
    ensures c in t.cols || c in names
    decreases |names|
  {
    if names != [] {
      SetColumnsOnly(SetColumn(t, names[0], cols[0]), names[1..], cols[1..], c);
    }
  }

  lemma PrefixTrans<T>(a: seq<T>, b: seq<T>, c: seq<T>)
    requires a <= b && b <= c
    ensures a <= c
  {
    assert a == b[..|a|] && b == c[..|b|];
    assert c[..|b|][..|a|] == c[..|a|];
  }

  /** Existing columns keep their positions; new ones are appended. */
  lemma {:induction false} SetColumnsNames(t: Table, names: seq<string>, cols: seq<Column>)
    requires |names| == |cols| && Fits(cols, t.rows)
    ensures t.names <= SetColumns(t, names, cols).names
    decreases |names|
  {
    if names != [] {
      var u := SetColumn(t, names[0], cols[0]);
      SetColumnsNames(u, names[1..], cols[1..]);
      PrefixTrans(t.names, u.names, SetColumns(u, names[1..], cols[1..]).names);
    }
  }

  /** When every assignment to a name writes the same column, that column is what the name holds. */
  lemma {:induction false} SetColumnsByName(t: Table, names: seq<string>, cols: seq<Column>, f: string -> Column)
    requires |names| == |cols| && Fits(cols, t.rows)
    requires forall k :: 0 <= k < |names| ==> cols[k] == f(names[k])
    ensures forall c :: c in names ==> c in SetColumns(t, names, cols).cols && SetColumns(t, names, cols).cols[c] == f(c)
    decreases |names|
  {
    if names != [] {
      var u := SetColumn(t, names[0], cols[0]);
      SetColumnsByName(u, names[1..], cols[1..], f);
      if names[0] !in names[1..] {
        SetColumnsKeeps(u, names[1..], cols[1..], names[0]);
      }
    }
  }

  /** The names not yet known, each once, in the order of their first assignment. */
  function Fresh(names: seq<string>, known: set<string>): seq<string>
    decreases |names|
  {
    if names == [] then []
    else if names[0] in known then Fresh(names[1..], known)
    else [names[0]] + Fresh(names[1..], known + {names[0]})
  }

  /** The fresh names are the assigned ones not known before. */
  lemma {:induction false} FreshMembers(names: seq<string>, known: set<string>, c: string)
    ensures c in Fresh(names, known) <==> c in names && c !in known
    decreases |names|
  {
    if names != [] {
      if names[0] in known {
        FreshMembers(names[1..], known, c);
      } else {
        FreshMembers(names[1..], known + {names[0]}, c);
      }
    }
  }

  /** Assigning appends exactly the names that were not yet columns, in first-assignment order. */
  lemma {:induction false} SetColumnsNamesExact(t: Table, names: seq<string>, cols: seq<Column>)
    requires |names| == |cols| && Fits(cols, t.rows)
    ensures SetColumns(t, names, cols).names == t.names + Fresh(names, t.cols.Keys)
    decreases |names|
  {
    if names == [] {
      assert t.names + [] == t.names;
    } else {
      var u := SetColumn(t, names[0], cols[0]);
      SetColumnsNamesExact(u, names[1..], cols[1..]);
      FreshStep(t.names, names, t.cols.Keys, u.names, u.cols.Keys);
    }
  }

  /** One assignment's contribution to the appended names. */
  lemma FreshStep(tn: seq<string>, names: seq<string>, known: set<string>, un: seq<string>, uknown: set<string>)
    requires names != []
    requires names[0] in known ==> un == tn && uknown == known
    requires names[0] !in known ==> un == tn + [names[0]] && uknown == known + {names[0]}
    ensures un + Fresh(names[1..], uknown) == tn + Fresh(names, known)
  {
    if names[0] !in known {
      var rest := Fresh(names[1..], uknown);
      assert (tn + [names[0]]) + rest == tn + ([names[0]] + rest);
    }
  }

  /** The position of the last occurrence of `c`. */
  function LastIndexOf(s: seq<string>, c: string): (r: nat)
    requires c in s
    ensures r < |s| && s[r] == c && forall j :: r < j < |s| ==> s[j] != c
  {
    if c in s[1..] then
      var k := LastIndexOf(s[1..], c);
      assert forall j :: 1 + k < j < |s| ==> s[j] == s[1..][j - 1];
      1 + k
    else
      assert forall j :: 0 < j < |s| ==> s[j] == s[1..][j - 1];
      0
  }

  /** The last assignment to a name wins. */
  lemma {:induction false} SetColumnsLast(t: Table, names: seq<string>, cols: seq<Column>, c: string)
    requires |names| == |cols| && Fits(cols, t.rows)
    requires c in names
    ensures c in SetColumns(t, names, cols).cols
    ensures SetColumns(t, names, cols).cols[c] == cols[LastIndexOf(names, c)]
    decreases |names|
  {
    var u := SetColumn(t, names[0], cols[0]);
    if c in names[1..] {
      SetColumnsLast(u, names[1..], cols[1..], c);
    } else {
      SetColumnsKeeps(u, names[1..], cols[1..], c);
    }
  }

  /**
   * `r` is `t` after assigning the columns `names`: same rows, the unassigned
   * columns kept, every assigned one present and nothing else, and the
   * existing columns still first and in their order.
   */
  predicate Assigned(t: Table, names: seq<string>, r: Table) {
    && r.rows == t.rows
    && (forall c :: c in t.cols && c !in names ==> c in r.cols && r.cols[c] == t.cols[c])
    && (forall c :: c in names ==> c in r.cols)
    && (forall c :: c in r.cols ==> c in t.cols || c in names)
    && t.names <= r.names
  }

  lemma SetColumnsFacts(t: Table, names: seq<string>, cols: seq<Column>)
    requires |names| == |cols| && Fits(cols, t.rows)
    ensures Assigned(t, names, SetColumns(t, names, cols))
  {
    var r := SetColumns(t, names, cols);
    forall c | c in t.cols && c !in names ensures c in r.cols && r.cols[c] == t.cols[c] {
      SetColumnsKeeps(t, names, cols, c);
    }
    forall c | c in names ensures c in r.cols {
      SetColumnsHas(t, names, cols, c);
    }
    forall c | c in r.cols ensures c in t.cols || c in names {
      SetColumnsOnly(t, names, cols, c);
    }
    SetColumnsNames(t, names, cols);
  }

  /** pandas' alignment of a series of another length onto the frame's index: extra values dropped, missing ones NaN. */
  function Align(col: Column, n: nat): (r: Column)
    ensures |r| == n
    ensures forall i :: 0 <= i < n ==> r[i] == (if i < |col| then col[i] else NaN)
  {
    if |col| >= n then col[..n] else col + seq(n - |col|, _ => NaN)
  }

  /** The names of `wanted` that are columns of `t`, in the order of `wanted`. */
  function Present(wanted: seq<string>, t: Table): (r: seq<string>)
    ensures forall c :: c in r <==> c in wanted && c in t.cols
    ensures |r| <= |wanted|
  {
    if wanted == [] then []
    else (if wanted[0] in t.cols then [wanted[0]] else []) + Present(wanted[1..], t)
  }

  lemma {:induction false} PresentDistinct(wanted: seq<string>, t: Table)
    requires Distinct(wanted)
    ensures Distinct(Present(wanted, t))
  {
    if wanted != [] {
      var rest := Present(wanted[1..], t);
      assert Distinct(wanted[1..]);
      PresentDistinct(wanted[1..], t);
      assert wanted[0] !in wanted[1..] by {
        forall k | 0 <= k < |wanted[1..]| ensures wanted[1..][k] != wanted[0] {
          assert wanted[1..][k] == wanted[k + 1];
        }
      }
      assert wanted[0] !in rest;
      var r := Present(wanted, t);
      if wanted[0] in t.cols {
        assert r == [wanted[0]] + rest;
        forall i, j | 0 <= i < j < |r| ensures r[i] != r[j] {
          assert r[j] == rest[j - 1];
          if i == 0 { assert rest[j - 1] in rest; } else { assert r[i] == rest[i - 1]; }
        }
      } else {
        assert r == rest;
      }
    }
  }

  /** `df[names]`: the selected columns, in the given order. */
  function Select(t: Table, names: seq<string>): (r: Table)
    requires forall c :: c in names ==> c in t.cols
    requires Distinct(names)
    ensures r.names == names && r.rows == t.rows
    ensures forall c :: c in names ==> r.cols[c] == t.cols[c]
  {
    Frame(names, map c | c in names :: t.cols[c], t.rows)
  }

  /** The first `k` rows of every column. */
  function Head(t: Table, k: nat): (r: Table)
    requires k <= t.rows
    ensures r.names == t.names && r.rows == k
    ensures forall c :: c in t.cols ==> c in r.cols && r.cols[c] == t.cols[c][..k]
  {
    Frame(t.names, map c | c in t.cols :: t.cols[c][..k], k)
  }

  /** `.values` of the given columns: one row per frame row, one entry per name. */
  function Values(t: Table, names: seq<string>): (m: seq<seq<Num>>)
    requires forall c :: c in names ==> c in t.cols
    ensures |m| == t.rows
    ensures forall i :: 0 <= i < t.rows ==> |m[i]| == |names|
    ensures forall i, j :: 0 <= i < t.rows && 0 <= j < |names| ==> m[i][j] == t.cols[names[j]][i]
  {
    seq(t.rows, i requires 0 <= i < t.rows => seq(|names|, j requires 0 <= j < |names| => t.cols[names[j]][i]))
  }
}
