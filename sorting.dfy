/**
 * Sequence tools behind the reports and the transaction listing: a stable descending sort
 * (the engine's `Array.prototype.sort` with a `b - a` comparator), sums and `slice(0, k)`.
 */
module Sorting {

  predicate SortedDesc<T>(s: seq<T>, w: T -> int) {
    forall i, j :: 0 <= i < j < |s| ==> w(s[i]) >= w(s[j])
  }

  /** Puts `x` in front of the first element it is not lighter than. */
  function InsertDesc<T>(x: T, s: seq<T>, w: T -> int): (r: seq<T>)
    ensures |r| == |s| + 1
    ensures multiset(r) == multiset(s) + multiset{x}
    ensures r[0] == x || (s != [] && r[0] == s[0])
  {
    if s == [] then [x]
    else if w(x) >= w(s[0]) then [x] + s
    else
      assert s == [s[0]] + s[1..];
      [s[0]] + InsertDesc(x, s[1..], w)
  }

  /** Inserting keeps a descending sequence descending. */
  lemma {:induction false} InsertDescSorted<T>(x: T, s: seq<T>, w: T -> int)
    requires SortedDesc(s, w)
    ensures SortedDesc(InsertDesc(x, s, w), w)
    decreases |s|
  {
    if s != [] && w(x) < w(s[0]) {
      var rest := InsertDesc(x, s[1..], w);
      InsertDescSorted(x, s[1..], w);
      assert w(s[0]) >= w(rest[0]);
    }
  }

  /** The elements of weight `v`, in their order. */
  function WithWeight<T>(s: seq<T>, w: T -> int, v: int): seq<T> {
    if s == [] then [] else (if w(s[0]) == v then [s[0]] else []) + WithWeight(s[1..], w, v)
  }

  /** `x` goes in front of every element of its own weight: everything it passes is heavier. */
  lemma {:induction false} InsertDescStable<T>(x: T, s: seq<T>, w: T -> int)
    ensures forall v :: WithWeight(InsertDesc(x, s, w), w, v) == (if w(x) == v then [x] else []) + WithWeight(s, w, v)
    decreases |s|
  {
    var r := InsertDesc(x, s, w);
    if s != [] && w(x) < w(s[0]) {
      InsertDescStable(x, s[1..], w);
      assert r[0] == s[0] && r[1..] == InsertDesc(x, s[1..], w);
      forall v ensures WithWeight(r, w, v) == (if w(x) == v then [x] else []) + WithWeight(s, w, v) {
        var a := if w(s[0]) == v then [s[0]] else [];
        var b := if w(x) == v then [x] else [];
        var rest := WithWeight(s[1..], w, v);
        assert WithWeight(r, w, v) == a + (b + rest);
        assert WithWeight(s, w, v) == a + rest;
        if b == [] {
          assert b + (a + rest) == a + rest;
        } else {
          assert a == [];
          assert a + (b + rest) == b + rest;
        }
      }
    } else if s != [] {
      assert r[1..] == s;
    }
  }

  /** Insertion sort: heaviest first, equal weights in their original order. */
  function SortDesc<T>(s: seq<T>, w: T -> int): (r: seq<T>)
    ensures |r| == |s|
    ensures multiset(r) == multiset(s)
    ensures SortedDesc(r, w)
  {
    if s == [] then []
    else
      assert s == [s[0]] + s[1..];
      InsertDescSorted(s[0], SortDesc(s[1..], w), w);
      InsertDesc(s[0], SortDesc(s[1..], w), w)
  }

  /** The sort is stable: the elements of each weight keep their original order. */
  lemma {:induction false} SortDescStable<T>(s: seq<T>, w: T -> int)
    ensures forall v :: WithWeight(SortDesc(s, w), w, v) == WithWeight(s, w, v)
    decreases |s|
  {
    if s != [] {
      assert s == [s[0]] + s[1..];
      SortDescStable(s[1..], w);
      InsertDescStable(s[0], SortDesc(s[1..], w), w);
    }
  }

  /** `filter(p)`: the elements satisfying `p`, in their order. */
  function Filter<T(!new)>(s: seq<T>, p: T -> bool): (r: seq<T>)
    ensures |r| <= |s|
    ensures forall x :: x in r <==> x in s && p(x)
  {
    if s == [] then []
    else
      var x := s[|s| - 1];
      assert s == s[..|s| - 1] + [x];
      if p(x) then Filter(s[..|s| - 1], p) + [x] else Filter(s[..|s| - 1], p)
  }

  /** Filtering keeps every satisfying element as often as it occurs, duplicates included. */
  lemma {:induction false} FilterCounts<T(!new)>(s: seq<T>, p: T -> bool)
    ensures forall x :: multiset(Filter(s, p))[x] == if p(x) then multiset(s)[x] else 0
    decreases |s|
  {
    if s != [] {
      var s', y := s[..|s| - 1], s[|s| - 1];
      assert s == s' + [y];
      FilterCounts(s', p);
      assert multiset(s) == multiset(s') + multiset{y};
    }
  }

  /** Filtering a concatenation filters each part and keeps the parts in order. */
  lemma {:induction false} FilterConcat<T(!new)>(s: seq<T>, t: seq<T>, p: T -> bool)
    ensures Filter(s + t, p) == Filter(s, p) + Filter(t, p)
    decreases |t|
  {
    if t == [] {
      assert s + t == s;
    } else {
      var t', x := t[..|t| - 1], t[|t| - 1];
      var st := s + t;
      assert st[..|st| - 1] == s + t' && st[|st| - 1] == x;
      FilterConcat(s, t', p);
      var rest := Filter(s + t', p);
      assert Filter(st, p) == if p(x) then rest + [x] else rest;
      assert Filter(t, p) == if p(x) then Filter(t', p) + [x] else Filter(t', p);
    }
  }

  /** `reduce((sum, x) => sum + f(x), 0)`. */
  function SumBy<T>(s: seq<T>, f: T -> int): int {
    if s == [] then 0 else SumBy(s[..|s| - 1], f) + f(s[|s| - 1])
  }

  lemma {:induction false} SumByCons<T>(x: T, s: seq<T>, f: T -> int)
    ensures SumBy([x] + s, f) == f(x) + SumBy(s, f)
    decreases |s|
  {
    if s != [] {
      var s' := s[..|s| - 1];
      assert ([x] + s)[..|s|] == [x] + s';
      SumByCons(x, s', f);
    }
  }

  lemma {:induction false} SumByInsert<T>(x: T, s: seq<T>, w: T -> int, f: T -> int)
    ensures SumBy(InsertDesc(x, s, w), f) == f(x) + SumBy(s, f)
    decreases |s|
  {
    if s == [] {
      SumByCons(x, s, f);
    } else if w(x) >= w(s[0]) {
      SumByCons(x, s, f);
    } else {
      SumByInsert(x, s[1..], w, f);
      SumByCons(s[0], InsertDesc(x, s[1..], w), f);
      SumByCons(s[0], s[1..], f);
      assert [s[0]] + s[1..] == s;
    }
  }

  /** Sorting reorders, so any sum over the elements is unchanged. */
  lemma {:induction false} SortKeepsSum<T>(s: seq<T>, w: T -> int, f: T -> int)
    ensures SumBy(SortDesc(s, w), f) == SumBy(s, f)
    decreases |s|
  {
    if s != [] {
      SortKeepsSum(s[1..], w, f);
      SumByInsert(s[0], SortDesc(s[1..], w), w, f);
      SumByCons(s[0], s[1..], f);
      assert [s[0]] + s[1..] == s;
    }
  }

  /** `slice(0, k)`. */
  function Take<T>(s: seq<T>, k: nat): (r: seq<T>)
    ensures |r| <= k && |r| <= |s|
    ensures |r| == k || |r| == |s|
    ensures r == s[..|r|]
  {
    if |s| <= k then s else s[..k]
  }

  /** The first `k` of a descending sequence outweigh everything left out. */
  lemma TakeOutweighsRest<T>(s: seq<T>, w: T -> int, k: nat)
    requires SortedDesc(s, w)
    ensures SortedDesc(Take(s, k), w)
    ensures forall i, j :: 0 <= i < |Take(s, k)| <= j < |s| ==> w(Take(s, k)[i]) >= w(s[j])
  {
  }

  /** `sort(...).slice(0, k)`: min(k, n) of the elements, heaviest first, none left out heavier. */
  lemma TopK<T>(s: seq<T>, w: T -> int, k: nat)
    ensures var all := SortDesc(s, w);
      var top := Take(all, k);
      && |top| == (if |s| < k then |s| else k)
      && top == all[..|top|]
      && (forall x :: x in top ==> x in multiset(s))
      && SortedDesc(top, w)
      && (forall i, j :: 0 <= i < |top| <= j < |all| ==> w(top[i]) >= w(all[j]))
  {
    var all := SortDesc(s, w);
    TakeOutweighsRest(all, w, k);
    forall x | x in Take(all, k) ensures x in multiset(s) {
      assert x in multiset(all);
    }
  }

  /** An element left out of the first `k` is no heavier than any kept. */
  lemma LeftOutOfTop<T>(s: seq<T>, w: T -> int, k: nat, x: T)
    requires x in s && x !in Take(SortDesc(s, w), k)
    ensures forall y :: y in Take(SortDesc(s, w), k) ==> w(y) >= w(x)
  {
    var all := SortDesc(s, w);
    var top := Take(all, k);
    TakeOutweighsRest(all, w, k);
    assert x in multiset(all);
    var j :| 0 <= j < |all| && all[j] == x;
    forall i | 0 <= i < |top| ensures all[i] != x {
      assert top[i] == all[i] && top[i] in top;
    }
    forall y | y in top ensures w(y) >= w(x) {
      var i :| 0 <= i < |top| && top[i] == y;
    }
  }
}
