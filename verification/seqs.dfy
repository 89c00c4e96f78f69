/** Generic sequence operations shared by every view: order-preserving
    filtering, sums over a projection, and first-occurrence de-duplication.

    Every fold here peels off the LAST element of its sequence, so that the
    definitions line up with the left-to-right `forEach`, `filter` and
    `reduce` passes of the views they model. */
module Seqs {

  /** `a` can be obtained from `b` by deleting elements: order is kept and
      nothing is added or duplicated. */
  ghost predicate IsSubseq<T>(a: seq<T>, b: seq<T>)
    decreases |b|
  {
    |a| == 0 ||
    (|b| > 0 &&
      ((a[|a|-1] == b[|b|-1] && IsSubseq(a[..|a|-1], b[..|b|-1])) ||
       IsSubseq(a, b[..|b|-1])))
  }

  /** No element occurs twice. */
  ghost predicate NoDuplicates<T>(s: seq<T>) {
    forall i, j :: 0 <= i < j < |s| ==> s[i] != s[j]
  }

  /** The elements of `r` occur in `r` in the order in which they first
      occur in `xs`: every prefix of `xs` that already holds a later element
      of `r` also holds every earlier one. */
  ghost predicate FirstSeenOrder<T>(r: seq<T>, xs: seq<T>) {
    forall i, j, k :: 0 <= i < j < |r| && 0 <= k <= |xs| && r[j] in xs[..k] ==> r[i] in xs[..k]
  }

  /** `Array.prototype.filter`: the elements of `xs` satisfying `p`, in order. */
  function Keep<T>(xs: seq<T>, p: T -> bool): (r: seq<T>)
    ensures |r| <= |xs|
    ensures forall i :: 0 <= i < |r| ==> p(r[i])
    ensures forall x :: x in xs && p(x) ==> x in r
    ensures forall x :: x in r ==> x in xs
    ensures IsSubseq(r, xs)
  {
    if |xs| == 0 then []
    else
      var front := Keep(xs[..|xs|-1], p);
      var last := xs[|xs|-1];
      assert xs == xs[..|xs|-1] + [last];
      if p(last) then
        assert (front + [last])[..|front|] == front;
        front + [last]
      else front
  }

  /** The sum of `f` over `xs`, accumulated left to right. */
  function SumOf<T>(xs: seq<T>, f: T -> int): int {
    if |xs| == 0 then 0 else SumOf(xs[..|xs|-1], f) + f(xs[|xs|-1])
  }

  /** `xs` with every repeated element dropped, keeping first occurrences
      (the iteration order of a JS `Set` built from `xs`). */
  function Distinct<T(==)>(xs: seq<T>): (r: seq<T>)
    ensures forall i :: 0 <= i < |r| ==> r[i] in xs
    ensures forall i :: 0 <= i < |xs| ==> xs[i] in r
    ensures NoDuplicates(r)
    ensures |r| <= |xs|
  {
    if |xs| == 0 then []
    else
      var front := Distinct(xs[..|xs|-1]);
      var last := xs[|xs|-1];
      assert xs == xs[..|xs|-1] + [last];
      if last in front then front else front + [last]
  }

  /** `Array.prototype.map`. */
  function Map<T, U>(xs: seq<T>, f: T -> U): seq<U> {
    seq(|xs|, i requires 0 <= i < |xs| => f(xs[i]))
  }

  /** The predicate "`key` sends the element to `k`", used to select one group. */
  function KeyIs<T, K(==)>(key: T -> K, k: K): T -> bool {
    x => key(x) == k
  }

  /** The conjunction of two predicates. */
  function Both<T>(p: T -> bool, q: T -> bool): T -> bool {
    x => p(x) && q(x)
  }

  /** `f` where `p` holds and 0 elsewhere. */
  function Masked<T>(p: T -> bool, f: T -> int): T -> int {
    x => if p(x) then f(x) else 0
  }

  // ---------------------------------------------------------------------
  // Subsequences

  lemma {:induction false} SubseqMultiset<T>(a: seq<T>, b: seq<T>)
    requires IsSubseq(a, b)
    ensures multiset(a) <= multiset(b)
    decreases |b|
  {
    if |a| == 0 {
    } else {
      var b' := b[..|b|-1];
      assert b == b' + [b[|b|-1]];
      if a[|a|-1] == b[|b|-1] && IsSubseq(a[..|a|-1], b') {
        SubseqMultiset(a[..|a|-1], b');
        assert a == a[..|a|-1] + [a[|a|-1]];
      } else {
        SubseqMultiset(a, b');
      }
    }
  }

  lemma {:induction false} SubseqRefl<T>(a: seq<T>)
    ensures IsSubseq(a, a)
    decreases |a|
  {
    if |a| > 0 {
      SubseqRefl(a[..|a|-1]);
    }
  }

  // ---------------------------------------------------------------------
  // Filtering

  /** A filter that rejects nothing is the identity. */
  lemma {:induction false} KeepAll<T>(xs: seq<T>, p: T -> bool)
    requires forall i :: 0 <= i < |xs| ==> p(xs[i])
    ensures Keep(xs, p) == xs
    decreases |xs|
  {
    if |xs| > 0 {
      KeepAll(xs[..|xs|-1], p);
      assert xs == xs[..|xs|-1] + [xs[|xs|-1]];
    }
  }

  /** Filtering twice by the same predicate is filtering once. */
  lemma {:induction false} KeepIdempotent<T>(xs: seq<T>, p: T -> bool)
    ensures Keep(Keep(xs, p), p) == Keep(xs, p)
  {
    KeepAll(Keep(xs, p), p);
  }

  /** Filtering only looks at the predicate's values on the elements. */
  lemma {:induction false} KeepCongruent<T>(xs: seq<T>, p: T -> bool, q: T -> bool)
    requires forall i :: 0 <= i < |xs| ==> p(xs[i]) == q(xs[i])
    ensures Keep(xs, p) == Keep(xs, q)
    decreases |xs|
  {
    if |xs| > 0 {
      KeepCongruent(xs[..|xs|-1], p, q);
    }
  }

  /** Two filters in a row are one filter by the conjunction. */
  lemma {:induction false} KeepKeep<T>(xs: seq<T>, p: T -> bool, q: T -> bool)
    ensures Keep(Keep(xs, p), q) == Keep(xs, Both(p, q))
    decreases |xs|
  {
    if |xs| > 0 {
      var front := xs[..|xs|-1];
      var last := xs[|xs|-1];
      KeepKeep(front, p, q);
      if p(last) {
        var k := Keep(front, p) + [last];
        assert k[..|k|-1] == Keep(front, p);
      }
    }
  }

  lemma {:induction false} KeepAppend<T>(a: seq<T>, b: seq<T>, p: T -> bool)
    ensures Keep(a + b, p) == Keep(a, p) + Keep(b, p)
    decreases |b|
  {
    if |b| == 0 {
      assert a + b == a;
    } else {
      var b' := b[..|b|-1];
      assert (a + b)[..|a + b| - 1] == a + b';
      KeepAppend(a, b', p);
    }
  }

  /** Filtering a list with one more element at the end. */
  lemma {:induction false} KeepSnoc<T>(xs: seq<T>, p: T -> bool)
    requires |xs| > 0
    ensures Keep(xs, p) == Keep(xs[..|xs|-1], p) + (if p(xs[|xs|-1]) then [xs[|xs|-1]] else [])
  {
  }

  /** Filtering a list with one more element in front. */
  lemma {:induction false} KeepCons<T>(x: T, s: seq<T>, p: T -> bool)
    ensures Keep([x] + s, p) == (if p(x) then [x] else []) + Keep(s, p)
  {
    KeepAppend([x], s, p);
    assert [x][..0] == [];
  }

  /** A filter that accepts nothing gives the empty list. */
  lemma {:induction false} KeepNone<T>(xs: seq<T>, p: T -> bool)
    requires forall i :: 0 <= i < |xs| ==> !p(xs[i])
    ensures Keep(xs, p) == []
    decreases |xs|
  {
    if |xs| > 0 {
      KeepNone(xs[..|xs|-1], p);
    }
  }

  /** The first element the filter keeps is the first element passing it. */
  lemma {:induction false} KeepFirst<T>(xs: seq<T>, p: T -> bool, i: int)
    requires 0 <= i < |xs| && p(xs[i])
    requires forall j :: 0 <= j < i ==> !p(xs[j])
    ensures |Keep(xs, p)| > 0 && Keep(xs, p)[0] == xs[i]
  {
    var a, b := xs[..i], xs[i..];
    assert xs == a + b;
    assert b == [xs[i]] + xs[i + 1..];
    KeepNone(a, p);
    KeepAppend(a, b, p);
    KeepCons(xs[i], xs[i + 1..], p);
  }

  /** How often `x` survives the filter: all of its occurrences, or none. */
  lemma {:induction false} KeepMultiset<T>(xs: seq<T>, p: T -> bool, x: T)
    ensures multiset(Keep(xs, p))[x] == if p(x) then multiset(xs)[x] else 0
    decreases |xs|
  {
    if |xs| > 0 {
      var front := xs[..|xs|-1];
      assert xs == front + [xs[|xs|-1]];
      KeepMultiset(front, p, x);
    }
  }

  /** Filtering commutes with reordering. */
  lemma {:induction false} KeepPermutation<T>(a: seq<T>, b: seq<T>, p: T -> bool)
    requires multiset(a) == multiset(b)
    ensures multiset(Keep(a, p)) == multiset(Keep(b, p))
  {
    forall x
      ensures multiset(Keep(a, p))[x] == multiset(Keep(b, p))[x]
    {
      KeepMultiset(a, p, x);
      KeepMultiset(b, p, x);
    }
  }

  // ---------------------------------------------------------------------
  // Sums

  lemma {:induction false} SumAppend<T>(a: seq<T>, b: seq<T>, f: T -> int)
    ensures SumOf(a + b, f) == SumOf(a, f) + SumOf(b, f)
    decreases |b|
  {
    if |b| == 0 {
      assert a + b == a;
    } else {
      var b' := b[..|b|-1];
      assert (a + b)[..|a + b| - 1] == a + b';
      SumAppend(a, b', f);
    }
  }

  /** Taking out element `i` takes its term out of the sum. */
  lemma {:induction false} SumRemove<T>(b: seq<T>, i: int, f: T -> int)
    requires 0 <= i < |b|
    ensures SumOf(b, f) == SumOf(b[..i] + b[i + 1..], f) + f(b[i])
  {
    var b1, b2 := b[..i], b[i + 1..];
    assert b == b1 + [b[i]] + b2;
    SumAppend(b1 + [b[i]], b2, f);
    SumAppend(b1, [b[i]], f);
    SumAppend(b1, b2, f);
  }

  /** Taking out element `i` takes one copy of it out of the multiset. */
  lemma {:induction false} MultisetRemove<T>(b: seq<T>, i: int)
    requires 0 <= i < |b|
    ensures multiset(b[..i] + b[i + 1..]) == multiset(b) - multiset{b[i]}
  {
    assert b == b[..i] + [b[i]] + b[i + 1..];
  }

  /** A sum does not depend on the order of its terms. */
  lemma {:induction false} SumPermutation<T>(a: seq<T>, b: seq<T>, f: T -> int)
    requires multiset(a) == multiset(b)
    ensures SumOf(a, f) == SumOf(b, f)
    decreases |a|
  {
    if |a| == 0 {
      assert |b| == |multiset(b)| == 0;
    } else {
      var a', x := a[..|a|-1], a[|a|-1];
      MultisetRemove(a, |a| - 1);
      assert a[..|a| - 1] + a[|a|..] == a';
      assert x in multiset(b) by {
        assert x in a;
      }
      var i :| 0 <= i < |b| && b[i] == x;
      MultisetRemove(b, i);
      SumPermutation(a', b[..i] + b[i + 1..], f);
      SumRemove(b, i, f);
    }
  }

  lemma {:induction false} SumCongruent<T>(xs: seq<T>, f: T -> int, g: T -> int)
    requires forall i :: 0 <= i < |xs| ==> f(xs[i]) == g(xs[i])
    ensures SumOf(xs, f) == SumOf(xs, g)
    decreases |xs|
  {
    if |xs| > 0 {
      SumCongruent(xs[..|xs|-1], f, g);
    }
  }

  /** Summing over the kept elements is summing `f` where `p` holds and 0 elsewhere. */
  lemma {:induction false} SumKeep<T>(xs: seq<T>, p: T -> bool, f: T -> int)
    ensures SumOf(Keep(xs, p), f) == SumOf(xs, Masked(p, f))
    decreases |xs|
  {
    if |xs| > 0 {
      var front := xs[..|xs|-1];
      var last := xs[|xs|-1];
      SumKeep(front, p, f);
      if p(last) {
        var k := Keep(front, p) + [last];
        assert k[..|k|-1] == Keep(front, p);
      }
    }
  }

  // ---------------------------------------------------------------------
  // De-duplication

  /** Mapping a list with one more element at the end. */
  lemma {:induction false} MapSnoc<T, U>(xs: seq<T>, f: T -> U)
    requires |xs| > 0
    ensures Map(xs, f)[..|xs|-1] == Map(xs[..|xs|-1], f)
    ensures Map(xs, f)[|xs|-1] == f(xs[|xs|-1])
  {
  }

  /** De-duplicating a list with one more element at the end. */
  lemma {:induction false} DistinctSnoc<T>(xs: seq<T>)
    requires |xs| > 0
    ensures Distinct(xs) == if xs[|xs|-1] in Distinct(xs[..|xs|-1]) then Distinct(xs[..|xs|-1])
      else Distinct(xs[..|xs|-1]) + [xs[|xs|-1]]
  {
  }

  /** The distinct keys of `xs` are exactly the keys some element has. */
  lemma {:induction false} DistinctMap<T, K(!new)>(xs: seq<T>, key: T -> K, k: K)
    ensures k in Distinct(Map(xs, key)) <==> exists i :: 0 <= i < |xs| && key(xs[i]) == k
  {
    var m := Map(xs, key);
    var d := Distinct(m);
    if k in d {
      var j :| 0 <= j < |d| && d[j] == k;
      assert d[j] in m;
      var i :| 0 <= i < |m| && m[i] == k;
      assert key(xs[i]) == k;
    }
    if exists i :: 0 <= i < |xs| && key(xs[i]) == k {
      var i :| 0 <= i < |xs| && key(xs[i]) == k;
      assert m[i] == k;
      assert m[i] in d;
    }
  }

  /** `Distinct` lists elements in the order of their first occurrence. */
  lemma {:induction false} DistinctFirstSeen<T>(xs: seq<T>)
    ensures FirstSeenOrder(Distinct(xs), xs)
    decreases |xs|
  {
    if |xs| > 0 {
      var front := xs[..|xs|-1];
      var last := xs[|xs|-1];
      var d := Distinct(front);
      var r := Distinct(xs);
      DistinctFirstSeen(front);
      forall i, j, k | 0 <= i < j < |r| && 0 <= k <= |xs| && r[j] in xs[..k]
        ensures r[i] in xs[..k]
      {
        if k == |xs| {
          assert xs[..k] == xs;
        } else {
          assert xs[..k] == front[..k];
          if j == |d| {
            // r[j] is `last`, which is new, so it cannot occur in front[..k]
            assert false;
          } else {
            assert r[j] == d[j] && r[i] == d[i];
          }
        }
      }
    }
  }
}
