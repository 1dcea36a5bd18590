/**
 * `[...s].sort(cmp)`: JavaScript's array sort is stable, so for a consistent
 * comparator its result is the one sorted arrangement in which elements the
 * comparator ties keep their original relative order. Insertion sort, inserting
 * each element after every element that is not greater than it, builds exactly
 * that arrangement.
 */
module Sorting {

  /** `cmp(a, b) <= 0` is a total preorder: the comparator is consistent. */
  ghost predicate Consistent<T(!new)>(cmp: (T, T) -> int) {
    && (forall a, b :: cmp(a, b) <= 0 || cmp(b, a) <= 0)
    && (forall a, b, c :: cmp(a, b) <= 0 && cmp(b, c) <= 0 ==> cmp(a, c) <= 0)
  }

  /** No element of `s` compares greater than a later one. */
  ghost predicate SortedBy<T>(s: seq<T>, cmp: (T, T) -> int) {
    forall i, j :: 0 <= i < j < |s| ==> cmp(s[i], s[j]) <= 0
  }

  /** Inserts `x` after the last element of the sorted `s` that does not compare greater. */
  function Insert<T>(s: seq<T>, x: T, cmp: (T, T) -> int): (r: seq<T>)
    ensures multiset(r) == multiset(s) + multiset{x}
  {
    if s == [] || cmp(s[|s| - 1], x) <= 0 then s + [x]
    else
      assert s == s[..|s| - 1] + [s[|s| - 1]];
      Insert(s[..|s| - 1], x, cmp) + [s[|s| - 1]]
  }

  /** When neither `x` nor any element of `s` compares greater than `top`, no element of the insertion does. */
  lemma {:induction false} InsertBound<T>(s: seq<T>, x: T, cmp: (T, T) -> int, top: T)
    requires forall i :: 0 <= i < |s| ==> cmp(s[i], top) <= 0
    requires cmp(x, top) <= 0
    ensures forall k :: 0 <= k < |Insert(s, x, cmp)| ==> cmp(Insert(s, x, cmp)[k], top) <= 0
  {
    if !(s == [] || cmp(s[|s| - 1], x) <= 0) {
      InsertBound(s[..|s| - 1], x, cmp, top);
    }
  }

  /** The stable sort of `s` under `cmp`. */
  function Sort<T>(s: seq<T>, cmp: (T, T) -> int): (r: seq<T>)
    ensures multiset(r) == multiset(s)
  {
    if s == [] then []
    else
      assert s == s[..|s| - 1] + [s[|s| - 1]];
      Insert(Sort(s[..|s| - 1], cmp), s[|s| - 1], cmp)
  }

  lemma {:induction false} InsertSorted<T(!new)>(s: seq<T>, x: T, cmp: (T, T) -> int)
    requires Consistent(cmp) && SortedBy(s, cmp)
    ensures SortedBy(Insert(s, x, cmp), cmp)
  {
    if s == [] || cmp(s[|s| - 1], x) <= 0 {
    } else {
      var last := s[|s| - 1];
      var init := s[..|s| - 1];
      InsertSorted(init, x, cmp);
      var t := Insert(init, x, cmp);
      assert cmp(x, last) <= 0;
      InsertBound(init, x, cmp, last);
      var r := t + [last];
      forall i, j | 0 <= i < j < |r|
        ensures cmp(r[i], r[j]) <= 0
      {
        if j == |r| - 1 {
          assert r[i] == t[i];
        } else {
          assert r[i] == t[i] && r[j] == t[j];
        }
      }
    }
  }

  /** The sort's result is ordered by the comparator. */
  lemma {:induction false} SortSorted<T(!new)>(s: seq<T>, cmp: (T, T) -> int)
    requires Consistent(cmp)
    ensures SortedBy(Sort(s, cmp), cmp)
  {
    if s != [] {
      SortSorted(s[..|s| - 1], cmp);
      InsertSorted(Sort(s[..|s| - 1], cmp), s[|s| - 1], cmp);
    }
  }

  /** A comparator that ties every pair (one that always returns 0) leaves the order as it was. */
  lemma {:induction false} SortAllTiesKeepsOrder<T>(s: seq<T>, cmp: (T, T) -> int)
    requires forall i, j :: 0 <= i < |s| && 0 <= j < |s| ==> cmp(s[i], s[j]) <= 0
    ensures Sort(s, cmp) == s
  {
    if s != [] {
      var init := s[..|s| - 1];
      SortAllTiesKeepsOrder(init, cmp);
      if init != [] {
        assert init[|init| - 1] == s[|s| - 2];
      }
      assert init + [s[|s| - 1]] == s;
    }
  }

  /** Sorting a sequence keeps its length. */
  lemma SortLength<T>(s: seq<T>, cmp: (T, T) -> int)
    ensures |Sort(s, cmp)| == |s|
  {
    assert |multiset(Sort(s, cmp))| == |multiset(s)|;
  }
}
