/** A stable sort by an integer key, the behaviour `Array.prototype.sort`
    guarantees for a comparator of the form `(a, b) => key(a) - key(b)`. */
module Sorting {
  import opened Seqs

  predicate SortedBy<T>(xs: seq<T>, key: T -> int) {
    forall i, j :: 0 <= i < j < |xs| ==> key(xs[i]) <= key(xs[j])
  }

  /** Inserts `x` in front of the first element whose key is not smaller. */
  function Insert<T>(x: T, s: seq<T>, key: T -> int): (r: seq<T>)
    ensures |r| == |s| + 1
    ensures r[0] == x || (|s| > 0 && r[0] == s[0])
    ensures multiset(r) == multiset(s) + multiset{x}
  {
    if |s| == 0 || key(x) <= key(s[0]) then
      [x] + s
    else
      assert s == [s[0]] + s[1..];
      [s[0]] + Insert(x, s[1..], key)
  }

  lemma {:induction false} InsertSorted<T>(x: T, s: seq<T>, key: T -> int)
    requires SortedBy(s, key)
    ensures SortedBy(Insert(x, s, key), key)
    decreases |s|
  {
    if |s| > 0 && key(x) > key(s[0]) {
      var rest := Insert(x, s[1..], key);
      InsertSorted(x, s[1..], key);
      var r := [s[0]] + rest;
      assert Insert(x, s, key) == r;
      assert key(r[0]) <= key(rest[0]);
      forall i, j | 0 <= i < j < |r|
        ensures key(r[i]) <= key(r[j])
      {
        assert r[j] == rest[j - 1];
        if i > 0 {
          assert r[i] == rest[i - 1];
        } else if j > 1 {
          assert key(rest[0]) <= key(rest[j - 1]);
        }
      }
    }
  }

  /** Insertion sort, inserting each element in front of its equals. */
  function SortBy<T>(xs: seq<T>, key: T -> int): (r: seq<T>)
    ensures SortedBy(r, key)
    ensures multiset(r) == multiset(xs)
    ensures |r| == |xs|
  {
    if |xs| == 0 then []
    else
      assert xs == [xs[0]] + xs[1..];
      InsertSorted(xs[0], SortBy(xs[1..], key), key);
      Insert(xs[0], SortBy(xs[1..], key), key)
  }

  /** When `x` goes past the first element, that element stays in front. */
  lemma {:induction false} InsertPast<T>(x: T, s: seq<T>, key: T -> int, p: T -> bool)
    requires |s| > 0 && key(x) > key(s[0])
    ensures Keep(Insert(x, s, key), p) == (if p(s[0]) then [s[0]] else []) + Keep(Insert(x, s[1..], key), p)
  {
    assert Insert(x, s, key) == [s[0]] + Insert(x, s[1..], key);
    KeepCons(s[0], Insert(x, s[1..], key), p);
  }

  /** Inserting moves `x` only past elements with strictly smaller keys, so
      among the elements of its own key it comes first. */
  lemma {:induction false} InsertKeepsKeyOrder<T>(x: T, s: seq<T>, key: T -> int, k: int)
    ensures Keep(Insert(x, s, key), KeyIs(key, k)) ==
      (if key(x) == k then [x] else []) + Keep(s, KeyIs(key, k))
    decreases |s|
  {
    var p := KeyIs(key, k);
    if |s| == 0 || key(x) <= key(s[0]) {
      assert Insert(x, s, key) == [x] + s;
      KeepCons(x, s, p);
    } else {
      InsertPast(x, s, key, p);
      InsertKeepsKeyOrder(x, s[1..], key, k);
      assert s == [s[0]] + s[1..];
      KeepCons(s[0], s[1..], p);
      var front := if p(s[0]) then [s[0]] else [];
      var own := if key(x) == k then [x] else [];
      assert front == [] || own == [] by {
        if key(x) == k { assert !p(s[0]); }
      }
      Regroup(Keep(Insert(x, s, key), p), Keep(Insert(x, s[1..], key), p), Keep(s[1..], p), Keep(s, p), front, own);
    }
  }

  /** Moves one of two parts, at least one of them empty, across the other. */
  lemma Regroup<T>(a: seq<T>, b: seq<T>, t: seq<T>, s: seq<T>, front: seq<T>, own: seq<T>)
    requires a == front + b && b == own + t && s == front + t
    requires front == [] || own == []
    ensures a == own + s
  {
    if front == [] {
      assert a == b;
    } else {
      assert b == t;
    }
  }

  /** The sort is stable: the elements sharing a key keep their relative order. */
  lemma {:induction false} SortIsStable<T>(xs: seq<T>, key: T -> int, k: int)
    ensures Keep(SortBy(xs, key), KeyIs(key, k)) == Keep(xs, KeyIs(key, k))
    decreases |xs|
  {
    if |xs| > 0 {
      SortIsStable(xs[1..], key, k);
      InsertKeepsKeyOrder(xs[0], SortBy(xs[1..], key), key, k);
      KeepCons(xs[0], xs[1..], KeyIs(key, k));
      assert xs == [xs[0]] + xs[1..];
    }
  }
}
