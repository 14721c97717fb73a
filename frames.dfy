/** Tables are sequences of row records. This module models the handful of
    pandas/numpy primitives the pipeline is built from: boolean-mask
    filtering, `head`, a descending `sort_values`, `numpy.clip` and
    `" ".join`. */
module Frames {

  datatype Option<T> = None | Some(value: T)

  /** A failing call: the source raises, the model returns `Error`. */
  datatype Result<T> = Ok(value: T) | Error(reason: string)

  function Min(a: int, b: int): int { if a <= b then a else b }

  function Max(a: int, b: int): int { if a <= b then b else a }

  /** `numpy.clip(x, lo, hi)` on one value. */
  function Clip(x: real, lo: real, hi: real): (r: real)
    requires lo <= hi
    ensures lo <= r <= hi
    ensures lo <= x <= hi ==> r == x
    ensures x < lo ==> r == lo
    ensures hi < x ==> r == hi
  {
    if x < lo then lo else if hi < x then hi else x
  }

  // ---------------------------------------------------------------------
  // Boolean-mask filtering: `df[mask]` keeps the rows whose mask is true,
  // in their original order.

  function Where<T(==)>(s: seq<T>, keep: T -> bool): (r: seq<T>)
    ensures |r| <= |s|
    ensures forall i :: 0 <= i < |r| ==> keep(r[i]) && r[i] in s
    ensures forall i :: 0 <= i < |s| && keep(s[i]) ==> s[i] in r
    ensures multiset(r) <= multiset(s)
  {
    if s == [] then []
    else
      assert s == [s[0]] + s[1..];
      (if keep(s[0]) then [s[0]] else []) + Where(s[1..], keep)
  }

  /** Filtering keeps every copy of a passing row and no copy of a failing
      one: each row occurs in the result as often as in the input if it
      passes, and not at all otherwise. */
  lemma {:induction false} WhereCounts<T>(s: seq<T>, keep: T -> bool)
    ensures forall x :: multiset(Where(s, keep))[x] == if keep(x) then multiset(s)[x] else 0
  {
    if s != [] {
      WhereCounts(s[1..], keep);
      assert s == [s[0]] + s[1..];
      assert Where(s, keep) == (if keep(s[0]) then [s[0]] else []) + Where(s[1..], keep);
    }
  }

  /** `a` is `b` with some elements removed and the rest kept in order. */
  predicate IsSubseq<T(==)>(a: seq<T>, b: seq<T>)
  {
    if a == [] then true
    else if b == [] then false
    else (a[0] == b[0] && IsSubseq(a[1..], b[1..])) || IsSubseq(a, b[1..])
  }

  lemma {:induction false} WhereIsSubseq<T>(s: seq<T>, keep: T -> bool)
    ensures IsSubseq(Where(s, keep), s)
  {
    if s != [] {
      WhereIsSubseq(s[1..], keep);
      var rest := Where(s[1..], keep);
      if keep(s[0]) {
        assert Where(s, keep) == [s[0]] + rest;
        assert Where(s, keep)[1..] == rest;
      } else {
        assert Where(s, keep) == rest;
      }
    }
  }

  /** A mask that keeps everything removes nothing. */
  lemma {:induction false} WhereAll<T>(s: seq<T>, keep: T -> bool)
    requires forall x :: keep(x)
    ensures Where(s, keep) == s
  {
    if s != [] {
      WhereAll(s[1..], keep);
      assert s == [s[0]] + s[1..];
    }
  }

  /** Two successive filters are one filter by the conjunction of their masks. */
  lemma {:induction false} WhereAnd<T>(s: seq<T>, p: T -> bool, q: T -> bool, both: T -> bool)
    requires forall x :: both(x) == (p(x) && q(x))
    ensures Where(Where(s, p), q) == Where(s, both)
  {
    if s != [] {
      WhereAnd(s[1..], p, q, both);
      var ps := Where(s[1..], p);
      if p(s[0]) {
        assert Where(s, p) == [s[0]] + ps;
        assert Where(s, p)[1..] == ps;
      } else {
        assert Where(s, p) == ps;
      }
    }
  }

  // ---------------------------------------------------------------------
  // `df.head(n)`: the first n rows; for a negative n, all rows except the
  // last -n.

  function Head<T>(s: seq<T>, n: int): (r: seq<T>)
    ensures n >= 0 ==> |r| == Min(n, |s|)
    ensures n < 0 ==> |r| == Max(0, |s| + n)
    ensures |r| <= |s| && r == s[..|r|]
  {
    if n >= 0 then s[..Min(n, |s|)] else s[..Max(0, |s| + n)]
  }

  // ---------------------------------------------------------------------
  // `sort_values(key, ascending=False)`. pandas does not promise an order
  // among equal keys, so everything proved below is about any ordering
  // that is descending and a permutation; the insertion sort that
  // realises it happens to be stable.

  predicate SortedDesc<T>(s: seq<T>, key: T -> real)
  {
    forall i, j :: 0 <= i < j < |s| ==> key(s[i]) >= key(s[j])
  }

  function InsertDesc<T(==)>(x: T, s: seq<T>, key: T -> real): (r: seq<T>)
    ensures |r| == |s| + 1
    ensures multiset(r) == multiset(s) + multiset{x}
  {
    if s == [] || key(x) >= key(s[0]) then [x] + s
    else
      assert s == [s[0]] + s[1..];
      [s[0]] + InsertDesc(x, s[1..], key)
  }

  lemma {:induction false} InsertDescSorted<T>(x: T, s: seq<T>, key: T -> real)
    requires SortedDesc(s, key)
    ensures SortedDesc(InsertDesc(x, s, key), key)
  {
    if s != [] && key(x) < key(s[0]) {
      var rest := InsertDesc(x, s[1..], key);
      var r := InsertDesc(x, s, key);
      assert r == [s[0]] + rest;
      assert SortedDesc(s[1..], key);
      InsertDescSorted(x, s[1..], key);
      InsertDescBelow(x, s, key);
      forall i, j | 0 <= i < j < |r|
        ensures key(r[i]) >= key(r[j])
      {
        assert r[j] == rest[j - 1];
        if i > 0 {
          assert r[i] == rest[i - 1];
        }
      }
    }
  }

  /** Inserting x below the head of a descending table keeps that head on top. */
  lemma InsertDescBelow<T>(x: T, s: seq<T>, key: T -> real)
    requires SortedDesc(s, key) && s != [] && key(x) < key(s[0])
    ensures forall i :: 0 <= i < |InsertDesc(x, s[1..], key)| ==>
      key(InsertDesc(x, s[1..], key)[i]) <= key(s[0])
  {
    var rest := InsertDesc(x, s[1..], key);
    forall i | 0 <= i < |rest|
      ensures key(rest[i]) <= key(s[0])
    {
      assert rest[i] in multiset(rest);
      if rest[i] != x {
        assert rest[i] in multiset(s[1..]);
        var m :| 0 <= m < |s[1..]| && s[1..][m] == rest[i];
        assert s[m + 1] == rest[i];
      }
    }
  }

  function SortDesc<T(==)>(s: seq<T>, key: T -> real): (r: seq<T>)
    ensures |r| == |s|
    ensures multiset(r) == multiset(s)
    ensures SortedDesc(r, key)
  {
    if s == [] then []
    else
      assert s == [s[0]] + s[1..];
      InsertDescSorted(s[0], SortDesc(s[1..], key), key);
      InsertDesc(s[0], SortDesc(s[1..], key), key)
  }

  /** In a descending table, no row after position k ranks above row k - 1. */
  lemma SuffixBelowPrefix<T>(t: seq<T>, key: T -> real, k: nat)
    requires SortedDesc(t, key) && 0 < k <= |t|
    ensures forall x :: x in multiset(t[k..]) ==> key(x) <= key(t[k - 1])
  {
    forall x | x in multiset(t[k..])
      ensures key(x) <= key(t[k - 1])
    {
      assert x in t[k..];
      var j :| 0 <= j < |t| - k && t[k..][j] == x;
      assert t[k + j] == x;
    }
  }

  lemma MultisetSplit<T>(t: seq<T>, k: nat)
    requires k <= |t|
    ensures multiset(t) - multiset(t[..k]) == multiset(t[k..])
  {
    assert t == t[..k] + t[k..];
    assert multiset(t) == multiset(t[..k]) + multiset(t[k..]);
  }

  /** Taking the head of a descending sort leaves out nothing that ranks
      above the last row taken. */
  lemma TopOfSortDominates<T>(s: seq<T>, key: T -> real, n: int)
    ensures var h := Head(SortDesc(s, key), n);
      |h| > 0 ==> forall x :: x in multiset(s) - multiset(h) ==> key(x) <= key(h[|h| - 1])
  {
    var t := SortDesc(s, key);
    var h := Head(t, n);
    var k := |h|;
    MultisetSplit(t, k);
    if k > 0 {
      SuffixBelowPrefix(t, key, k);
      assert t[k - 1] == h[k - 1];
    }
  }

  /** When no two rows share a key, a descending order is unique: any two
      descending arrangements of the same rows are equal, so the order that
      pandas leaves unspecified among ties cannot arise. */
  lemma {:induction false} SortedDescUnique<T>(a: seq<T>, b: seq<T>, key: T -> real)
    requires SortedDesc(a, key) && SortedDesc(b, key)
    requires multiset(a) == multiset(b)
    requires forall i, j :: 0 <= i < j < |a| ==> key(a[i]) != key(a[j])
    ensures a == b
  {
    if a != [] {
      SortedDescSameTop(a, b, key);
      SameTail(a, b);
      SortedDescUnique(a[1..], b[1..], key);
      assert a == [a[0]] + a[1..] && b == [b[0]] + b[1..];
    }
  }

  /** Two descending arrangements of the same rows, with distinct keys,
      start with the same row. */
  lemma SortedDescSameTop<T>(a: seq<T>, b: seq<T>, key: T -> real)
    requires SortedDesc(a, key) && SortedDesc(b, key)
    requires multiset(a) == multiset(b) && a != []
    requires forall i, j :: 0 <= i < j < |a| ==> key(a[i]) != key(a[j])
    ensures b != [] && a[0] == b[0]
  {
    assert a[0] in multiset(b);
    assert b[0] in multiset(a);
    var k :| 0 <= k < |a| && a[k] == b[0];
    var m :| 0 <= m < |b| && b[m] == a[0];
    assert key(b[0]) >= key(b[m]);
  }

  lemma SameTail<T>(a: seq<T>, b: seq<T>)
    requires multiset(a) == multiset(b) && a != [] && b != [] && a[0] == b[0]
    ensures multiset(a[1..]) == multiset(b[1..])
  {
    assert a == [a[0]] + a[1..];
    assert b == [b[0]] + b[1..];
    assert multiset(a) == multiset{a[0]} + multiset(a[1..]);
    assert multiset(b) == multiset{a[0]} + multiset(b[1..]);
    assert multiset(a[1..]) == multiset(a) - multiset{a[0]};
    assert multiset(b[1..]) == multiset(b) - multiset{a[0]};
  }

  // ---------------------------------------------------------------------
  // Element-wise projection of a column, and the fact that a permutation of
  // rows permutes the projected column too.

  function Project<T, U>(s: seq<T>, f: T -> U): (r: seq<U>)
    ensures |r| == |s|
  {
    if s == [] then [] else [f(s[0])] + Project(s[1..], f)
  }

  lemma {:induction false} ProjectAt<T, U>(s: seq<T>, f: T -> U, i: nat)
    requires i < |s|
    ensures Project(s, f)[i] == f(s[i])
  {
    if i > 0 {
      ProjectAt(s[1..], f, i - 1);
    }
  }

  lemma {:induction false} ProjectConcat<T, U>(a: seq<T>, b: seq<T>, f: T -> U)
    ensures Project(a + b, f) == Project(a, f) + Project(b, f)
  {
    if a != [] {
      ProjectConcat(a[1..], b, f);
      assert (a + b)[1..] == a[1..] + b;
      assert Project(a + b, f) == [f(a[0])] + Project(a[1..] + b, f);
      assert Project(a, f) == [f(a[0])] + Project(a[1..], f);
      assert [f(a[0])] + (Project(a[1..], f) + Project(b, f))
          == ([f(a[0])] + Project(a[1..], f)) + Project(b, f);
    } else {
      assert a + b == b;
    }
  }

  lemma RemoveAt<T>(t: seq<T>, k: nat)
    requires k < |t|
    ensures multiset(t[..k] + t[k + 1..]) == multiset(t) - multiset{t[k]}
  {
    assert t == t[..k] + [t[k]] + t[k + 1..];
  }

  /** Removing the same row from two permutations of each other leaves
      permutations of each other. */
  lemma RemoveMatched<T>(s: seq<T>, t: seq<T>, k: nat)
    requires multiset(s) == multiset(t) && s != [] && k < |t| && t[k] == s[0]
    ensures multiset(s[1..]) == multiset(t[..k] + t[k + 1..])
  {
    RemoveAt(t, k);
    RemoveAt(s, 0);
    assert s[..0] + s[1..] == s[1..];
  }

  lemma {:induction false} ProjectPermutation<T, U>(s: seq<T>, t: seq<T>, f: T -> U)
    requires multiset(s) == multiset(t)
    ensures multiset(Project(s, f)) == multiset(Project(t, f))
    decreases |s|
  {
    if s == [] {
      assert |t| == |multiset(t)| == 0;
    } else {
      assert s[0] in multiset(t);
      var k :| 0 <= k < |t| && t[k] == s[0];
      RemoveMatched(s, t, k);
      ProjectPermutation(s[1..], t[..k] + t[k + 1..], f);
      ProjectMovedRow(s, t, k, f);
    }
  }

  /** The step of ProjectPermutation: moving the first row of s to position
      k of t moves its projection the same way. */
  lemma ProjectMovedRow<T, U>(s: seq<T>, t: seq<T>, k: nat, f: T -> U)
    requires s != [] && k < |t| && t[k] == s[0]
    requires multiset(Project(s[1..], f)) == multiset(Project(t[..k] + t[k + 1..], f))
    ensures multiset(Project(s, f)) == multiset(Project(t, f))
  {
    ProjectAround(s, 0, f);
    ProjectAround(t, k, f);
    ProjectConcat(t[..k], t[k + 1..], f);
    assert s[..0] == [];
  }

  /** The projection of a table is the projection of the rows before k, of
      row k, and of the rows after it. */
  lemma ProjectAround<T, U>(t: seq<T>, k: nat, f: T -> U)
    requires k < |t|
    ensures multiset(Project(t, f))
         == multiset(Project(t[..k], f)) + multiset{f(t[k])} + multiset(Project(t[k + 1..], f))
  {
    var u := t[k..];
    assert u[0] == t[k] && u[1..] == t[k + 1..];
    assert Project(u, f) == [f(t[k])] + Project(t[k + 1..], f);
    assert t == t[..k] + u;
    ProjectConcat(t[..k], u, f);
  }

  // ---------------------------------------------------------------------
  // `sep.join(parts)`

  function Join(parts: seq<string>, sep: string): string
  {
    if |parts| == 0 then ""
    else if |parts| == 1 then parts[0]
    else Join(parts[..|parts| - 1], sep) + sep + parts[|parts| - 1]
  }

  /** A join begins with its first part, so it is never empty when that
      part is not. */
  lemma {:induction false} JoinStartsWithFirst(parts: seq<string>, sep: string)
    requires |parts| > 0
    ensures |Join(parts, sep)| >= |parts[0]|
    ensures Join(parts, sep)[..|parts[0]|] == parts[0]
  {
    if |parts| > 1 {
      var init := parts[..|parts| - 1];
      JoinStartsWithFirst(init, sep);
      assert init[0] == parts[0];
      var j := Join(init, sep);
      assert Join(parts, sep) == j + (sep + parts[|parts| - 1]);
      assert (j + (sep + parts[|parts| - 1]))[..|parts[0]|] == j[..|parts[0]|];
    }
  }

  /** The join of a projected column begins with the first row's value. */
  lemma JoinOfProjectStarts<T>(s: seq<T>, f: T -> string, sep: string)
    requires |s| > 0
    ensures |Join(Project(s, f), sep)| >= |f(s[0])|
    ensures Join(Project(s, f), sep)[..|f(s[0])|] == f(s[0])
  {
    ProjectAt(s, f, 0);
    JoinStartsWithFirst(Project(s, f), sep);
  }
}
