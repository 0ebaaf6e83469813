/** Ordering a sequence by an integer key, newest-first or oldest-first.
    Both `ORDER BY created_at DESC` in the snapshot query and the comparator
    sorts of the transactions table are instances of it. The sort is an
    insertion sort, so equal keys keep their relative order as in a stable
    `Array.prototype.sort`. */
module Sorting {

  /** `x` may stand before `y`: not smaller when descending, not larger when ascending. */
  predicate InOrder(x: int, y: int, descending: bool) {
    if descending then x >= y else x <= y
  }

  ghost predicate SortedBy<T>(s: seq<T>, key: T -> int, descending: bool) {
    forall i, j :: 0 <= i < j < |s| ==> InOrder(key(s[i]), key(s[j]), descending)
  }

  /** Puts `x` in front of the first element it may precede. */
  function Insert<T>(x: T, s: seq<T>, key: T -> int, descending: bool): (r: seq<T>)
    requires SortedBy(s, key, descending)
    ensures SortedBy(r, key, descending)
    ensures multiset(r) == multiset(s) + multiset{x}
  {
    if s == [] || InOrder(key(x), key(s[0]), descending) then
      [x] + s
    else
      var rest := Insert(x, s[1..], key, descending);
      assert s == [s[0]] + s[1..];
      Prepend(s[0], rest, x, s[1..], key, descending);
      [s[0]] + rest
  }

  /** `y` may head a sorted sequence holding only `x` and elements `y` may precede. */
  lemma Prepend<T>(y: T, rest: seq<T>, x: T, tail: seq<T>, key: T -> int, descending: bool)
    requires SortedBy(rest, key, descending) && SortedBy([y] + tail, key, descending)
    requires multiset(rest) == multiset(tail) + multiset{x}
    requires InOrder(key(y), key(x), descending)
    ensures SortedBy([y] + rest, key, descending)
  {
    var r := [y] + rest;
    forall k | 0 <= k < |rest|
      ensures InOrder(key(y), key(rest[k]), descending)
    {
      assert rest[k] in multiset(rest);
      if rest[k] != x {
        assert rest[k] in multiset(tail);
        var m :| 0 <= m < |tail| && tail[m] == rest[k];
        var yt := [y] + tail;
        assert yt[0] == y && yt[m + 1] == rest[k];
        assert InOrder(key(yt[0]), key(yt[m + 1]), descending);
      }
    }
    forall i, j | 0 <= i < j < |r|
      ensures InOrder(key(r[i]), key(r[j]), descending)
    {
      if i > 0 {
        assert r[i] == rest[i - 1] && r[j] == rest[j - 1];
      } else {
        assert r[j] == rest[j - 1];
      }
    }
  }

  function SortBy<T>(s: seq<T>, key: T -> int, descending: bool): (r: seq<T>)
    ensures SortedBy(r, key, descending)
    ensures multiset(r) == multiset(s)
    ensures |r| == |s|
  {
    if s == [] then []
    else
      assert s == [s[0]] + s[1..];
      Insert(s[0], SortBy(s[1..], key, descending), key, descending)
  }
}
