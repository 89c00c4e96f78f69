/** Income/expense buckets: the `reduce` into `{ [key]: { key, income,
    expense } }` objects that the per-day and per-month charts read through
    `Object.values`, so buckets come out in the order their keys first occur. */
module Buckets {
  import opened Seqs
  import opened Ledger

  datatype Bucket<K> = Bucket(key: K, income: int, expense: int)

  function BucketIncome<K>(b: Bucket<K>): int { b.income }
  function BucketExpense<K>(b: Bucket<K>): int { b.expense }

  function BucketKeys<K>(bs: seq<Bucket<K>>): seq<K> {
    if |bs| == 0 then [] else [bs[0].key] + BucketKeys(bs[1..])
  }

  /** The income recorded under `k`, 0 when there is no such bucket. */
  function IncomeAt<K(==)>(bs: seq<Bucket<K>>, k: K): int {
    if |bs| == 0 then 0
    else if bs[0].key == k then bs[0].income
    else IncomeAt(bs[1..], k)
  }

  /** The expense recorded under `k`, 0 when there is no such bucket. */
  function ExpenseAt<K(==)>(bs: seq<Bucket<K>>, k: K): int {
    if |bs| == 0 then 0
    else if bs[0].key == k then bs[0].expense
    else ExpenseAt(bs[1..], k)
  }

  /** One step of the `reduce`: create the bucket for `k` with zero totals if
      it is missing, then add the amount of `t` to its income when `t` is
      income and to its expense otherwise. */
  function Record<K(==,!new)>(bs: seq<Bucket<K>>, k: K, t: Transaction): (r: seq<Bucket<K>>)
    ensures BucketKeys(r) == if k in BucketKeys(bs) then BucketKeys(bs) else BucketKeys(bs) + [k]
    ensures SumOf(r, BucketIncome) == SumOf(bs, BucketIncome) + IncomePart(t)
    ensures SumOf(r, BucketExpense) == SumOf(bs, BucketExpense) + ExpensePart(t)
    ensures forall k' :: IncomeAt(r, k') == IncomeAt(bs, k') + (if k' == k then IncomePart(t) else 0)
    ensures forall k' :: ExpenseAt(r, k') == ExpenseAt(bs, k') + (if k' == k then ExpensePart(t) else 0)
  {
    if |bs| == 0 then
      [Bucket(k, IncomePart(t), ExpensePart(t))]
    else if bs[0].key == k then
      var b := Bucket(k, bs[0].income + IncomePart(t), bs[0].expense + ExpensePart(t));
      var r := [b] + bs[1..];
      SumAppend([bs[0]], bs[1..], BucketIncome);
      SumAppend([b], bs[1..], BucketIncome);
      SumAppend([bs[0]], bs[1..], BucketExpense);
      SumAppend([b], bs[1..], BucketExpense);
      assert bs == [bs[0]] + bs[1..];
      assert r[1..] == bs[1..];
      r
    else
      var rest := Record(bs[1..], k, t);
      var r := [bs[0]] + rest;
      SumAppend([bs[0]], bs[1..], BucketIncome);
      SumAppend([bs[0]], rest, BucketIncome);
      SumAppend([bs[0]], bs[1..], BucketExpense);
      SumAppend([bs[0]], rest, BucketExpense);
      assert bs == [bs[0]] + bs[1..];
      assert r[1..] == rest;
      r
  }

  /** The whole `reduce` over `xs`, grouping by `key`. */
  function Group<K(==,!new)>(xs: seq<Transaction>, key: Transaction -> K): (r: seq<Bucket<K>>)
    ensures BucketKeys(r) == Distinct(Map(xs, key))
    ensures SumOf(r, BucketIncome) == IncomeTotal(xs)
    ensures SumOf(r, BucketExpense) == ExpenseTotal(xs)
    ensures forall k :: IncomeAt(r, k) == IncomeTotal(Keep(xs, KeyIs(key, k)))
    ensures forall k :: ExpenseAt(r, k) == ExpenseTotal(Keep(xs, KeyIs(key, k)))
  {
    if |xs| == 0 then []
    else
      var front := xs[..|xs|-1];
      var last := xs[|xs|-1];
      var prev := Group(front, key);
      GroupExtendKeys(xs, key, prev);
      GroupExtendAt(xs, key, prev);
      GroupExtendSums(xs, key, prev);
      Record(prev, key(last), last)
  }

  /** Recording one more transaction adds its key last when it is new, as
      de-duplicating the keys of the longer list does. */
  lemma {:induction false} GroupExtendKeys<K(!new)>(xs: seq<Transaction>, key: Transaction -> K, prev: seq<Bucket<K>>)
    requires |xs| > 0
    requires BucketKeys(prev) == Distinct(Map(xs[..|xs|-1], key))
    ensures BucketKeys(Record(prev, key(xs[|xs|-1]), xs[|xs|-1])) == Distinct(Map(xs, key))
  {
    var m := Map(xs, key);
    MapSnoc(xs, key);
    DistinctSnoc(m);
    assert m[..|xs|-1] == Map(xs[..|xs|-1], key) && m[|xs|-1] == key(xs[|xs|-1]);
  }

  /** Recording one more transaction adds it to the column totals. */
  lemma {:induction false} GroupExtendSums<K(!new)>(xs: seq<Transaction>, key: Transaction -> K, prev: seq<Bucket<K>>)
    requires |xs| > 0
    requires SumOf(prev, BucketIncome) == IncomeTotal(xs[..|xs|-1])
    requires SumOf(prev, BucketExpense) == ExpenseTotal(xs[..|xs|-1])
    ensures SumOf(Record(prev, key(xs[|xs|-1]), xs[|xs|-1]), BucketIncome) == IncomeTotal(xs)
    ensures SumOf(Record(prev, key(xs[|xs|-1]), xs[|xs|-1]), BucketExpense) == ExpenseTotal(xs)
  {
  }

  /** Recording one more transaction keeps each bucket equal to the totals
      of its key's transactions. */
  lemma {:induction false} GroupExtendAt<K(!new)>(xs: seq<Transaction>, key: Transaction -> K, prev: seq<Bucket<K>>)
    requires |xs| > 0
    requires forall k :: IncomeAt(prev, k) == IncomeTotal(Keep(xs[..|xs|-1], KeyIs(key, k)))
    requires forall k :: ExpenseAt(prev, k) == ExpenseTotal(Keep(xs[..|xs|-1], KeyIs(key, k)))
    ensures forall k :: IncomeAt(Record(prev, key(xs[|xs|-1]), xs[|xs|-1]), k) == IncomeTotal(Keep(xs, KeyIs(key, k)))
    ensures forall k :: ExpenseAt(Record(prev, key(xs[|xs|-1]), xs[|xs|-1]), k) == ExpenseTotal(Keep(xs, KeyIs(key, k)))
  {
    GroupStep(xs, key);
  }

  /** How one more transaction changes each group's totals. */
  lemma {:induction false} GroupStep<K(!new)>(xs: seq<Transaction>, key: Transaction -> K)
    requires |xs| > 0
    ensures forall k :: (IncomeTotal(Keep(xs, KeyIs(key, k))) ==
      IncomeTotal(Keep(xs[..|xs|-1], KeyIs(key, k))) + (if key(xs[|xs|-1]) == k then IncomePart(xs[|xs|-1]) else 0))
    ensures forall k :: (ExpenseTotal(Keep(xs, KeyIs(key, k))) ==
      ExpenseTotal(Keep(xs[..|xs|-1], KeyIs(key, k))) + (if key(xs[|xs|-1]) == k then ExpensePart(xs[|xs|-1]) else 0))
  {
    var front, last := xs[..|xs|-1], xs[|xs|-1];
    forall k
      ensures IncomeTotal(Keep(xs, KeyIs(key, k))) ==
        IncomeTotal(Keep(front, KeyIs(key, k))) + (if key(last) == k then IncomePart(last) else 0)
      ensures ExpenseTotal(Keep(xs, KeyIs(key, k))) ==
        ExpenseTotal(Keep(front, KeyIs(key, k))) + (if key(last) == k then ExpensePart(last) else 0)
    {
      var kf := Keep(front, KeyIs(key, k));
      if key(last) == k {
        assert Keep(xs, KeyIs(key, k)) == kf + [last];
        assert (kf + [last])[..|kf|] == kf;
      } else {
        assert Keep(xs, KeyIs(key, k)) == kf;
      }
    }
  }

  // ---------------------------------------------------------------------

  lemma {:induction false} BucketKeysLength<K>(bs: seq<Bucket<K>>)
    ensures |BucketKeys(bs)| == |bs|
    ensures forall i :: 0 <= i < |bs| ==> BucketKeys(bs)[i] == bs[i].key
    decreases |bs|
  {
    if |bs| > 0 {
      BucketKeysLength(bs[1..]);
    }
  }

  /** One bucket per distinct key: no key occurs twice, and a key has a
      bucket exactly when some transaction has that key. */
  lemma {:induction false} GroupKeys<K(!new)>(xs: seq<Transaction>, key: Transaction -> K, k: K)
    ensures NoDuplicates(BucketKeys(Group(xs, key)))
    ensures k in BucketKeys(Group(xs, key)) <==> exists i :: 0 <= i < |xs| && key(xs[i]) == k
  {
    var d := BucketKeys(Group(xs, key));
    assert d == Distinct(Map(xs, key));
    DistinctMap(xs, key, k);
  }
}
