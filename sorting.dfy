/** The `Array.prototype.sort` calls of the engine, each with a numeric
    comparator `(a, b) => key(b) - key(a)` (descending) or
    `(a, b) => key(a) - key(b)` (ascending). The JavaScript sort is stable,
    so the model is an insertion sort returning a sorted copy, proved
    stable by `SortDescStable` and `SortAscStable`. */
module Sorting {

  ghost predicate SortedDesc<T>(s: seq<T>, key: T -> int) {
    forall i, j :: 0 <= i < j < |s| ==> key(s[i]) >= key(s[j])
  }

  /** Places x after every element whose key is larger and before the first
      element whose key is not larger, so that x keeps its place in front of
      equal keys. */
  function InsertDesc<T>(x: T, s: seq<T>, key: T -> int): (r: seq<T>)
    requires SortedDesc(s, key)
    ensures multiset(r) == multiset(s) + multiset{x}
    ensures |r| == |s| + 1
    ensures SortedDesc(r, key)
  {
    if s == [] || key(s[0]) <= key(x) then
      [x] + s
    else
      var t := InsertDesc(x, s[1..], key);
      assert s == [s[0]] + s[1..];
      HeadStaysFirst(s[0], s[1..], x, t, key);
      [s[0]] + t
  }

  /** A head no smaller than x and than every element of rest stays in
      front of any arrangement t of rest and x. */
  lemma HeadStaysFirst<T>(h: T, rest: seq<T>, x: T, t: seq<T>, key: T -> int)
    requires SortedDesc([h] + rest, key) && key(h) >= key(x)
    requires multiset(t) == multiset(rest) + multiset{x} && SortedDesc(t, key)
    ensures SortedDesc([h] + t, key)
  {
    forall k | 0 <= k < |t| ensures key(h) >= key(t[k]) {
      assert t[k] in multiset(t);
      if t[k] != x {
        assert t[k] in multiset(rest);
        var m :| 0 <= m < |rest| && rest[m] == t[k];
        assert ([h] + rest)[0] == h && ([h] + rest)[m + 1] == t[k];
      }
    }
    var r := [h] + t;
    forall i, j | 0 <= i < j < |r| ensures key(r[i]) >= key(r[j]) {
      if i > 0 {
        assert r[i] == t[i - 1] && r[j] == t[j - 1];
      } else {
        assert r[j] == t[j - 1];
      }
    }
  }

  /** `s.sort((a, b) => key(b) - key(a))`, as a copy: a permutation of s in
      non-increasing key order. */
  function SortDesc<T>(s: seq<T>, key: T -> int): (r: seq<T>)
    ensures multiset(r) == multiset(s)
    ensures |r| == |s|
    ensures SortedDesc(r, key)
  {
    if s == [] then []
    else
      assert s == [s[0]] + s[1..];
      InsertDesc(s[0], SortDesc(s[1..], key), key)
  }

  /** `s.sort((a, b) => key(a) - key(b))`: the same stable sort on the
      negated key. */
  function SortAsc<T>(s: seq<T>, key: T -> int): (r: seq<T>)
    ensures multiset(r) == multiset(s)
    ensures |r| == |s|
    ensures forall i, j :: 0 <= i < j < |r| ==> key(r[i]) <= key(r[j])
  {
    var r := SortDesc(s, Negated(key));
    assert forall i, j :: 0 <= i < j < |r| ==> -key(r[i]) >= -key(r[j]);
    r
  }

  function Negated<T>(key: T -> int): T -> int {
    x => -key(x)
  }

  /** The elements of s whose key is v, in their order in s. */
  function KeyRun<T>(s: seq<T>, key: T -> int, v: int): seq<T> {
    if s == [] then [] else (if key(s[0]) == v then [s[0]] else []) + KeyRun(s[1..], key, v)
  }

  /** Inserting x puts it in front of the elements with its key. */
  lemma {:induction false} InsertDescRun<T>(x: T, s: seq<T>, key: T -> int, v: int)
    requires SortedDesc(s, key)
    ensures KeyRun(InsertDesc(x, s, key), key, v) == (if key(x) == v then [x] else []) + KeyRun(s, key, v)
  {
    if s == [] || key(s[0]) <= key(x) {
      KeyRunCons(x, s, key, v);
    } else {
      var h, tail := s[0], s[1..];
      assert SortedDesc(tail, key);
      var t := InsertDesc(x, tail, key);
      InsertDescRun(x, tail, key, v);
      KeyRunCons(h, t, key, v);
      KeyRunCons(h, tail, key, v);
      assert s == [h] + tail;
    }
  }

  lemma KeyRunCons<T>(y: T, s: seq<T>, key: T -> int, v: int)
    ensures KeyRun([y] + s, key, v) == (if key(y) == v then [y] else []) + KeyRun(s, key, v)
  {
    assert ([y] + s)[1..] == s;
  }

  /** The sort is stable: the elements with any one key keep their order. */
  lemma {:induction false} SortDescStable<T>(s: seq<T>, key: T -> int, v: int)
    ensures KeyRun(SortDesc(s, key), key, v) == KeyRun(s, key, v)
  {
    if s != [] {
      SortDescStable(s[1..], key, v);
      InsertDescRun(s[0], SortDesc(s[1..], key), key, v);
    }
  }

  /** Selecting by the negated key -v selects the same elements as by v. */
  lemma {:induction false} NegatedRun<T>(s: seq<T>, key: T -> int, v: int)
    ensures KeyRun(s, Negated(key), -v) == KeyRun(s, key, v)
  {
    if s != [] {
      NegatedRun(s[1..], key, v);
    }
  }

  /** The ascending sort is stable too. */
  lemma SortAscStable<T>(s: seq<T>, key: T -> int, v: int)
    ensures KeyRun(SortAsc(s, key), key, v) == KeyRun(s, key, v)
  {
    var r := SortDesc(s, Negated(key));
    SortDescStable(s, Negated(key), -v);
    NegatedRun(r, key, v);
    NegatedRun(s, key, v);
  }

  /** `s.slice(0, n)`. */
  function Take<T>(s: seq<T>, n: nat): (r: seq<T>)
    ensures |r| == if n < |s| then n else |s|
    ensures r == s[..|r|]
  {
    if n < |s| then s[..n] else s
  }

  /** The first element of a descending sort carries the largest key. */
  lemma SortDescFirstIsMax<T>(s: seq<T>, key: T -> int)
    requires s != []
    ensures var r := SortDesc(s, key);
      forall x | x in s :: key(r[0]) >= key(x)
  {
    var r := SortDesc(s, key);
    forall x | x in s ensures key(r[0]) >= key(x) {
      assert x in multiset(r);
      var k :| 0 <= k < |r| && r[k] == x;
    }
  }

  /** The first n of a descending sort are a top-n: they come from s, and
      every element of s left out has a key no larger than any kept one. */
  lemma TakeSortedIsTop<T>(s: seq<T>, key: T -> int, n: nat)
    ensures var t := Take(SortDesc(s, key), n);
      multiset(t) <= multiset(s) && SortedDesc(t, key) &&
      forall x, y | x in multiset(s) - multiset(t) && y in t :: key(y) >= key(x)
  {
    var r := SortDesc(s, key);
    var t := Take(r, n);
    var rest := r[|t|..];
    assert r == t + rest;
    assert multiset(r) == multiset(t) + multiset(rest);
    HeadAboveTail(t, rest, key);
    assert multiset(s) - multiset(t) == multiset(rest);
  }

  /** In a descending list split in two, every element of the head has a
      key no smaller than any element of the tail. */
  lemma HeadAboveTail<T>(t: seq<T>, rest: seq<T>, key: T -> int)
    requires SortedDesc(t + rest, key)
    ensures SortedDesc(t, key)
    ensures forall x, y | x in rest && y in t :: key(y) >= key(x)
  {
    var r := t + rest;
    assert forall i, j :: 0 <= i < j < |t| ==> t[i] == r[i] && t[j] == r[j];
    forall x, y | x in rest && y in t ensures key(y) >= key(x) {
      var j :| 0 <= j < |rest| && rest[j] == x;
      var i :| 0 <= i < |t| && t[i] == y;
      assert r[i] == y && r[|t| + j] == x;
    }
  }
}
