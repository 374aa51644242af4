/**
 * `Array.prototype.sort` with a comparator on a numeric key, as the pages
 * use it for `created_at` (newest first or oldest first): a stable sort.
 * A key that is absent (a date that does not parse) is taken as older than
 * every date.
 */
module Sorting {
  import opened Js

  /** `a <= b`, an absent key being below every present one. */
  predicate KeyLe(a: Option<int>, b: Option<int>)
  {
    a.None? || (b.Some? && a.value <= b.value)
  }

  /** `x` may stand before `y`: descending keys when `desc`, else ascending. */
  predicate InOrder<T>(key: T -> Option<int>, desc: bool, x: T, y: T)
  {
    if desc then KeyLe(key(y), key(x)) else KeyLe(key(x), key(y))
  }

  predicate Sorted<T>(key: T -> Option<int>, desc: bool, s: seq<T>)
  {
    forall i :: 0 <= i < |s| - 1 ==> InOrder(key, desc, s[i], s[i + 1])
  }

  /** Inserting `x` in front of the first element it may precede. */
  function Insert<T>(key: T -> Option<int>, desc: bool, x: T, s: seq<T>): (r: seq<T>)
    ensures |r| == |s| + 1
    ensures multiset(r) == multiset(s) + multiset{x}
    ensures r[0] == x || (s != [] && r[0] == s[0])
  {
    if s == [] || InOrder(key, desc, x, s[0]) then [x] + s
    else
      var rest := Insert(key, desc, x, s[1..]);
      assert s == [s[0]] + s[1..];
      assert multiset([s[0]] + rest) == multiset{s[0]} + multiset(rest);
      [s[0]] + rest
  }

  /** Inserting into a sorted sequence keeps it sorted. */
  lemma {:induction false} InsertSorted<T>(key: T -> Option<int>, desc: bool, x: T, s: seq<T>)
    requires Sorted(key, desc, s)
    ensures Sorted(key, desc, Insert(key, desc, x, s))
  {
    if s != [] && !InOrder(key, desc, x, s[0]) {
      var rest := Insert(key, desc, x, s[1..]);
      assert Sorted(key, desc, s[1..]);
      InsertSorted(key, desc, x, s[1..]);
      var r := [s[0]] + rest;
      assert InOrder(key, desc, s[0], rest[0]) by {
        if rest[0] != x {
          assert rest[0] == s[1];
        }
      }
      assert forall i :: 1 <= i < |r| ==> r[i] == rest[i - 1];
    }
  }

  /** The sorted copy: elements with equal keys keep their order. */
  function SortBy<T>(key: T -> Option<int>, desc: bool, s: seq<T>): (r: seq<T>)
    ensures |r| == |s|
    ensures multiset(r) == multiset(s)
    ensures Sorted(key, desc, r)
  {
    if s == [] then []
    else
      assert s == [s[0]] + s[1..];
      InsertSorted(key, desc, s[0], SortBy(key, desc, s[1..]));
      Insert(key, desc, s[0], SortBy(key, desc, s[1..]))
  }

  /** The elements whose key is `k`, in their order. */
  function WithKey<T>(key: T -> Option<int>, k: Option<int>, s: seq<T>): (r: seq<T>)
    ensures |r| <= |s|
    ensures forall i :: 0 <= i < |r| ==> key(r[i]) == k && r[i] in s
  {
    if s == [] then []
    else (if key(s[0]) == k then [s[0]] else []) + WithKey(key, k, s[1..])
  }

  lemma WithKeyCons<T>(key: T -> Option<int>, k: Option<int>, x: T, t: seq<T>)
    ensures WithKey(key, k, [x] + t) == (if key(x) == k then [x] else []) + WithKey(key, k, t)
  {
    assert ([x] + t)[1..] == t;
  }

  /** `x` lands in front of every element with its key, and among the others nothing moves. */
  lemma {:induction false} InsertWithKey<T>(key: T -> Option<int>, desc: bool, x: T, s: seq<T>, k: Option<int>)
    ensures WithKey(key, k, Insert(key, desc, x, s)) == (if key(x) == k then [x] else []) + WithKey(key, k, s)
  {
    if s == [] || InOrder(key, desc, x, s[0]) {
      WithKeyCons(key, k, x, s);
    } else {
      var y, t := s[0], s[1..];
      var it := Insert(key, desc, x, t);
      assert Insert(key, desc, x, s) == [y] + it;
      assert key(y) != key(x);
      InsertWithKey(key, desc, x, t, k);
      assert s == [y] + t;
      WithKeyPassOver(key, k, x, y, it, t);
    }
  }

  /** An element with another key than `x` passes over it without disturbing either key's list. */
  lemma WithKeyPassOver<T>(key: T -> Option<int>, k: Option<int>, x: T, y: T, it: seq<T>, t: seq<T>)
    requires key(y) != key(x)
    requires WithKey(key, k, it) == (if key(x) == k then [x] else []) + WithKey(key, k, t)
    ensures WithKey(key, k, [y] + it) == (if key(x) == k then [x] else []) + WithKey(key, k, [y] + t)
  {
    WithKeyCons(key, k, y, it);
    WithKeyCons(key, k, y, t);
    if key(x) == k {
      assert WithKey(key, k, [y] + it) == WithKey(key, k, it);
      assert WithKey(key, k, [y] + t) == WithKey(key, k, t);
    } else {
      assert WithKey(key, k, it) == WithKey(key, k, t);
    }
  }

  /** The sort is stable: the elements sharing any one key keep their relative order. */
  lemma {:induction false} SortStable<T>(key: T -> Option<int>, desc: bool, s: seq<T>, k: Option<int>)
    ensures WithKey(key, k, SortBy(key, desc, s)) == WithKey(key, k, s)
  {
    if s != [] {
      SortStable(key, desc, s[1..], k);
      InsertWithKey(key, desc, s[0], SortBy(key, desc, s[1..]), k);
    }
  }

  /** In a sorted sequence any two elements, not only neighbours, are in order. */
  lemma {:induction false} SortedPairs<T>(key: T -> Option<int>, desc: bool, s: seq<T>, i: int, j: int)
    requires Sorted(key, desc, s) && 0 <= i < j < |s|
    ensures InOrder(key, desc, s[i], s[j])
    decreases j - i
  {
    if j > i + 1 {
      SortedPairs(key, desc, s, i + 1, j);
    }
  }

  /** In a sorted sequence an element that may not follow another stands before it. */
  lemma Separated<T>(key: T -> Option<int>, desc: bool, s: seq<T>, x: T, y: T) returns (i: nat, j: nat)
    requires Sorted(key, desc, s) && x in s && y in s
    requires !InOrder(key, desc, y, x)
    ensures i < j < |s| && s[i] == x && s[j] == y
  {
    i :| 0 <= i < |s| && s[i] == x;
    j :| 0 <= j < |s| && s[j] == y;
    if j < i {
      SortedPairs(key, desc, s, j, i);
    }
  }

  /** Sorting something already sorted changes nothing. */
  lemma {:induction false} SortSorted<T>(key: T -> Option<int>, desc: bool, s: seq<T>)
    requires Sorted(key, desc, s)
    ensures SortBy(key, desc, s) == s
  {
    if s != [] {
      assert Sorted(key, desc, s[1..]);
      SortSorted(key, desc, s[1..]);
    }
  }
}
