/**
 * Stable descending sort by a numeric key, the sort both halves of the
 * system use: JavaScript's `Array.prototype.sort` with the comparator
 * `(a, b) => key(b) - key(a)` and Python's `sorted(..., key=key, reverse=True)`
 * are both stable, so elements with equal keys keep their input order.
 */
module Ranking {

  ghost predicate SortedDesc<T>(s: seq<T>, key: T -> real) {
    forall i, j :: 0 <= i < j < |s| ==> key(s[i]) >= key(s[j])
  }

  /** The elements of `s` whose key is `v`, in their order in `s`. */
  function WithKey<T>(s: seq<T>, key: T -> real, v: real): seq<T> {
    if s == [] then [] else (if key(s[0]) == v then [s[0]] else []) + WithKey(s[1..], key, v)
  }

  /** Places `x` before the first element whose key is not greater than its own. */
  function Insert<T>(x: T, ys: seq<T>, key: T -> real): (r: seq<T>)
    ensures |r| == |ys| + 1
    ensures multiset(r) == multiset(ys) + multiset{x}
    ensures SortedDesc(ys, key) ==> SortedDesc(r, key)
  {
    if ys == [] || key(x) >= key(ys[0]) then
      [x] + ys
    else
      var rest := Insert(x, ys[1..], key);
      assert ys == [ys[0]] + ys[1..];
      ConsSorted(ys[0], x, ys[1..], rest, key);
      [ys[0]] + rest
  }

  lemma ConsSorted<T>(y: T, x: T, tail: seq<T>, rest: seq<T>, key: T -> real)
    requires key(x) < key(y)
    requires multiset(rest) == multiset(tail) + multiset{x}
    requires SortedDesc(tail, key) ==> SortedDesc(rest, key)
    ensures SortedDesc([y] + tail, key) ==> SortedDesc([y] + rest, key)
  {
    if !SortedDesc([y] + tail, key) { return; }
    assert SortedDesc(tail, key) by {
      forall i, j | 0 <= i < j < |tail| ensures key(tail[i]) >= key(tail[j]) {
        assert ([y] + tail)[i + 1] == tail[i] && ([y] + tail)[j + 1] == tail[j];
      }
    }
    forall j | 0 <= j < |rest| ensures key(y) >= key(rest[j]) {
      assert rest[j] in multiset(rest);
      if rest[j] != x {
        assert rest[j] in multiset(tail);
        var k :| 0 <= k < |tail| && tail[k] == rest[j];
        assert ([y] + tail)[k + 1] == tail[k] && ([y] + tail)[0] == y;
        assert key(y) >= key(tail[k]);
      }
    }
    var s := [y] + rest;
    forall i, j | 0 <= i < j < |s| ensures key(s[i]) >= key(s[j]) {
      if i > 0 {
        assert s[i] == rest[i - 1] && s[j] == rest[j - 1];
      } else {
        assert s[j] == rest[j - 1];
      }
    }
  }

  /** Insertion sort from the back: the earlier element wins every tie. */
  function SortDesc<T>(xs: seq<T>, key: T -> real): (r: seq<T>)
    ensures |r| == |xs|
    ensures multiset(r) == multiset(xs)
    ensures SortedDesc(r, key)
  {
    if xs == [] then []
    else
      assert xs == [xs[0]] + xs[1..];
      Insert(xs[0], SortDesc(xs[1..], key), key)
  }

  /** Sorting keeps the length and exactly the elements of its input. */
  lemma SortMembers<T>(xs: seq<T>, key: T -> real)
    ensures |SortDesc(xs, key)| == |xs|
    ensures forall x :: x in SortDesc(xs, key) <==> x in xs
  {
    var r := SortDesc(xs, key);
    forall x ensures x in r <==> x in xs {
      assert x in r <==> x in multiset(r);
      assert x in xs <==> x in multiset(xs);
    }
  }

  lemma {:induction false} InsertWithKey<T>(x: T, ys: seq<T>, key: T -> real, v: real)
    requires SortedDesc(ys, key)
    ensures WithKey(Insert(x, ys, key), key, v) == (if key(x) == v then [x] else []) + WithKey(ys, key, v)
  {
    if ys == [] || key(x) >= key(ys[0]) {
      assert ([x] + ys)[1..] == ys;
    } else {
      var rest := Insert(x, ys[1..], key);
      InsertWithKey(x, ys[1..], key, v);
      assert ([ys[0]] + rest)[1..] == rest;
    }
  }

  /** Stability: for every key value, the elements carrying it keep their input order. */
  lemma {:induction false} SortStable<T>(xs: seq<T>, key: T -> real, v: real)
    ensures WithKey(SortDesc(xs, key), key, v) == WithKey(xs, key, v)
  {
    if xs != [] {
      SortStable(xs[1..], key, v);
      InsertWithKey(xs[0], SortDesc(xs[1..], key), key, v);
    }
  }

  /** The index of the first element of `xs` whose key is the largest. */
  function EarliestMax<T>(xs: seq<T>, key: T -> real): (i: nat)
    requires |xs| > 0
    ensures i < |xs|
    ensures forall j :: 0 <= j < |xs| ==> key(xs[j]) <= key(xs[i])
    ensures forall j :: 0 <= j < i ==> key(xs[j]) < key(xs[i])
  {
    if |xs| == 1 then 0
    else
      var m := EarliestMax(xs[1..], key) + 1;
      if key(xs[0]) >= key(xs[m]) then 0 else m
  }

  /** When no element beats the first, the first is the earliest maximum. */
  lemma EarliestMaxFirst<T>(xs: seq<T>, key: T -> real)
    requires |xs| > 0
    requires forall j :: 0 <= j < |xs| ==> key(xs[j]) <= key(xs[0])
    ensures EarliestMax(xs, key) == 0
  {
  }

  /** The head of the stable descending sort is the earliest element of largest key. */
  lemma {:induction false} SortHead<T>(xs: seq<T>, key: T -> real)
    requires |xs| > 0
    ensures SortDesc(xs, key)[0] == xs[EarliestMax(xs, key)]
  {
    if |xs| > 1 {
      SortHead(xs[1..], key);
    }
  }

  /** The head of the stable descending sort: the earliest element of largest key, and no key above it. */
  function SortedHead<T>(xs: seq<T>, key: T -> real): (top: T)
    requires |xs| > 0
    ensures top == xs[EarliestMax(xs, key)]
    ensures forall k :: 0 <= k < |xs| ==> key(xs[k]) <= key(top)
  {
    SortHead(xs, key);
    SortDesc(xs, key)[0]
  }
}
