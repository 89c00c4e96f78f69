/** Association lists standing for the plain JS objects the views use as
    counters (`map[key] = (map[key] || 0) + value`). A list, not a `map`,
    because `Object.keys`/`Object.entries` report keys in insertion order,
    and that order reaches the charts. */
module Tallies {
  import opened Seqs

  /** One key of a counter object with its accumulated value. */
  datatype Entry<K> = Entry(key: K, value: int)

  function Value<K>(e: Entry<K>): int { e.value }

  /** `Object.keys`: the keys in insertion order. */
  function Keys<K>(al: seq<Entry<K>>): seq<K> {
    if |al| == 0 then [] else [al[0].key] + Keys(al[1..])
  }

  /** `obj[k] || 0`: the value stored under `k`, or 0 when `k` is absent. */
  function Lookup<K(==)>(al: seq<Entry<K>>, k: K): int {
    if |al| == 0 then 0
    else if al[0].key == k then al[0].value
    else Lookup(al[1..], k)
  }

  /** `obj[k] = (obj[k] || 0) + v`: adds to the value of an existing key in
      place, or appends the new key at the end. */
  function Add<K(==)>(al: seq<Entry<K>>, k: K, v: int): seq<Entry<K>> {
    if |al| == 0 then [Entry(k, v)]
    else if al[0].key == k then [Entry(k, al[0].value + v)] + al[1..]
    else [al[0]] + Add(al[1..], k, v)
  }

  /** Folding `Add` over `xs`: the counter object built by one `forEach`
      that adds `val(x)` under `key(x)` for every element `x`. */
  function Tally<T, K(==)>(xs: seq<T>, key: T -> K, val: T -> int): seq<Entry<K>> {
    if |xs| == 0 then []
    else Add(Tally(xs[..|xs|-1], key, val), key(xs[|xs|-1]), val(xs[|xs|-1]))
  }

  // ---------------------------------------------------------------------

  /** Adding keeps the existing keys in place and appends a new key last;
      it raises the total and the value under `k` by `v` and leaves every
      other key's value alone. */
  lemma {:induction false} AddFacts<K(!new)>(al: seq<Entry<K>>, k: K, v: int)
    ensures Keys(Add(al, k, v)) == if k in Keys(al) then Keys(al) else Keys(al) + [k]
    ensures SumOf(Add(al, k, v), Value) == SumOf(al, Value) + v
    ensures forall k' :: Lookup(Add(al, k, v), k') == Lookup(al, k') + (if k' == k then v else 0)
    decreases |al|
  {
    var r := Add(al, k, v);
    if |al| > 0 {
      assert al == [al[0]] + al[1..];
      SumAppend([al[0]], al[1..], Value);
      if al[0].key == k {
        assert r[1..] == al[1..];
        SumAppend([r[0]], al[1..], Value);
      } else {
        AddFacts(al[1..], k, v);
        assert r[1..] == Add(al[1..], k, v);
        SumAppend([al[0]], Add(al[1..], k, v), Value);
      }
    }
  }

  /** A tally lists each distinct key once, in first-occurrence order. */
  lemma {:induction false} TallyKeysAre<T, K(!new)>(xs: seq<T>, key: T -> K, val: T -> int)
    ensures Keys(Tally(xs, key, val)) == Distinct(Map(xs, key))
    decreases |xs|
  {
    if |xs| > 0 {
      var front := xs[..|xs|-1];
      TallyKeysAre(front, key, val);
      AddFacts(Tally(front, key, val), key(xs[|xs|-1]), val(xs[|xs|-1]));
      MapSnoc(xs, key);
      DistinctSnoc(Map(xs, key));
    }
  }

  /** The values of a tally sum to the total of `val`. */
  lemma {:induction false} TallySum<T, K(!new)>(xs: seq<T>, key: T -> K, val: T -> int)
    ensures SumOf(Tally(xs, key, val), Value) == SumOf(xs, val)
    decreases |xs|
  {
    if |xs| > 0 {
      var front := xs[..|xs|-1];
      TallySum(front, key, val);
      AddFacts(Tally(front, key, val), key(xs[|xs|-1]), val(xs[|xs|-1]));
    }
  }

  /** The value under `k` is the total of `val` over the elements whose key is `k`. */
  lemma {:induction false} TallyLookup<T, K(!new)>(xs: seq<T>, key: T -> K, val: T -> int, k: K)
    ensures Lookup(Tally(xs, key, val), k) == SumOf(Keep(xs, KeyIs(key, k)), val)
    decreases |xs|
  {
    if |xs| > 0 {
      var front := xs[..|xs|-1];
      var last := xs[|xs|-1];
      var p := KeyIs(key, k);
      TallyLookup(front, key, val, k);
      AddFacts(Tally(front, key, val), key(last), val(last));
      KeepSnoc(xs, p);
      SumAppend(Keep(front, p), if p(last) then [last] else [], val);
    }
  }

  /** The three facts about a tally together, for every key. */
  lemma {:induction false} TallyFacts<T, K(!new)>(xs: seq<T>, key: T -> K, val: T -> int)
    ensures Keys(Tally(xs, key, val)) == Distinct(Map(xs, key))
    ensures SumOf(Tally(xs, key, val), Value) == SumOf(xs, val)
    ensures forall k :: Lookup(Tally(xs, key, val), k) == SumOf(Keep(xs, KeyIs(key, k)), val)
  {
    TallyKeysAre(xs, key, val);
    TallySum(xs, key, val);
    forall k
      ensures Lookup(Tally(xs, key, val), k) == SumOf(Keep(xs, KeyIs(key, k)), val)
    {
      TallyLookup(xs, key, val, k);
    }
  }

  lemma {:induction false} LookupAbsent<K>(al: seq<Entry<K>>, k: K)
    requires k !in Keys(al)
    ensures Lookup(al, k) == 0
    decreases |al|
  {
    if |al| > 0 {
      LookupAbsent(al[1..], k);
    }
  }

  lemma {:induction false} KeysLength<K>(al: seq<Entry<K>>)
    ensures |Keys(al)| == |al|
    ensures forall i :: 0 <= i < |al| ==> Keys(al)[i] == al[i].key
    decreases |al|
  {
    if |al| > 0 {
      KeysLength(al[1..]);
    }
  }

  /** A tally has one key per distinct key of the input, and no others. */
  lemma {:induction false} TallyKeys<T, K(!new)>(xs: seq<T>, key: T -> K, val: T -> int, k: K)
    ensures k in Keys(Tally(xs, key, val)) <==> exists i :: 0 <= i < |xs| && key(xs[i]) == k
  {
    TallyKeysAre(xs, key, val);
    DistinctMap(xs, key, k);
  }

  /** The totals per key do not depend on the order of the input. */
  lemma {:induction false} TallyPermutation<T, K(!new)>(a: seq<T>, b: seq<T>, key: T -> K, val: T -> int)
    requires multiset(a) == multiset(b)
    ensures forall k :: Lookup(Tally(a, key, val), k) == Lookup(Tally(b, key, val), k)
    ensures forall k :: k in Keys(Tally(a, key, val)) <==> k in Keys(Tally(b, key, val))
  {
    forall k
      ensures Lookup(Tally(a, key, val), k) == Lookup(Tally(b, key, val), k)
      ensures k in Keys(Tally(a, key, val)) <==> k in Keys(Tally(b, key, val))
    {
      TallyLookup(a, key, val, k);
      TallyLookup(b, key, val, k);
      KeepPermutation(a, b, KeyIs(key, k));
      SumPermutation(Keep(a, KeyIs(key, k)), Keep(b, KeyIs(key, k)), val);
      TallyKeys(a, key, val, k);
      TallyKeys(b, key, val, k);
      if exists i :: 0 <= i < |a| && key(a[i]) == k {
        var i :| 0 <= i < |a| && key(a[i]) == k;
        assert a[i] in multiset(b);
      }
      if exists i :: 0 <= i < |b| && key(b[i]) == k {
        var i :| 0 <= i < |b| && key(b[i]) == k;
        assert b[i] in multiset(a);
      }
    }
  }
}
