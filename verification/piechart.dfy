/** The "Income vs Expenses by Category" pie charts: one pass that splits
    the transactions by type and totals each type's amounts per category. */
module CategoryPieChart {
  import opened Seqs
  import opened Ledger
  import opened Tallies

  /** The object `{ income: {...}, expense: {...} }` built by `processData`. */
  datatype Pie = Pie(income: seq<Entry<string>>, expense: seq<Entry<string>>)

  predicate IsExpense(t: Transaction) { t.kind == "expense" }

  /** The two types `categories` has a slot for. */
  predicate KnownType(t: Transaction) { IsIncome(t) || IsExpense(t) }

  /** `processData`. A transaction of any other type reads
      `categories[type]` as `undefined`, and indexing it throws, so there is
      no result. Resetting a falsy counter to 0 before adding does not change
      its value, so every step is `Add`. */
  function ProcessData(xs: seq<Transaction>): (r: Option<Pie>)
    ensures r.Some? <==> forall i :: 0 <= i < |xs| ==> KnownType(xs[i])
    decreases |xs|
  {
    if |xs| == 0 then Some(Pie([], []))
    else
      var t := xs[|xs| - 1];
      match ProcessData(xs[..|xs| - 1])
      case None => None
      case Some(p) =>
        if t.kind == "income" then Some(Pie(Add(p.income, t.category, t.amount), p.expense))
        else if t.kind == "expense" then Some(Pie(p.income, Add(p.expense, t.category, t.amount)))
        else None
  }

  /** `Object.keys(map).length > 0`: whether the chart is drawn rather than
      the "No ... data available" message. */
  predicate HasData(al: seq<Entry<string>>) { |Keys(al)| > 0 }

  // ---------------------------------------------------------------------

  /** When the pass succeeds, each map is the tally of that type's transactions. */
  lemma {:induction false} ProcessDataIsTally(xs: seq<Transaction>)
    requires ProcessData(xs).Some?
    ensures ProcessData(xs).value == Pie(
      Tally(Keep(xs, IsIncome), CategoryOf, AmountOf),
      Tally(Keep(xs, IsExpense), CategoryOf, AmountOf))
    decreases |xs|
  {
    if |xs| > 0 {
      ProcessDataIsTally(xs[..|xs| - 1]);
    }
  }

  /** Each type's values sum to the total amount of that type. */
  lemma {:induction false} PieSums(xs: seq<Transaction>)
    requires ProcessData(xs).Some?
    ensures SumOf(ProcessData(xs).value.income, Value) == SumOf(Keep(xs, IsIncome), AmountOf)
    ensures SumOf(ProcessData(xs).value.expense, Value) == SumOf(Keep(xs, IsExpense), AmountOf)
  {
    ProcessDataIsTally(xs);
    TallySum(Keep(xs, IsIncome), CategoryOf, AmountOf);
    TallySum(Keep(xs, IsExpense), CategoryOf, AmountOf);
  }

  /** Each map holds under `c` the total of that type's amounts in category `c`. */
  lemma {:induction false} PieLookup(xs: seq<Transaction>, c: string)
    requires ProcessData(xs).Some?
    ensures Lookup(ProcessData(xs).value.income, c) == SumOf(Keep(Keep(xs, IsIncome), KeyIs(CategoryOf, c)), AmountOf)
    ensures Lookup(ProcessData(xs).value.expense, c) == SumOf(Keep(Keep(xs, IsExpense), KeyIs(CategoryOf, c)), AmountOf)
  {
    ProcessDataIsTally(xs);
    TallyLookup(Keep(xs, IsIncome), CategoryOf, AmountOf, c);
    TallyLookup(Keep(xs, IsExpense), CategoryOf, AmountOf, c);
  }

  /** A category of the kept transactions is the category of some
      transaction that passes the test, and conversely. */
  lemma {:induction false} KeptCategory(xs: seq<Transaction>, p: Transaction -> bool, c: string)
    ensures (exists i :: 0 <= i < |Keep(xs, p)| && Keep(xs, p)[i].category == c) <==>
      (exists j :: 0 <= j < |xs| && p(xs[j]) && xs[j].category == c)
  {
    var kept := Keep(xs, p);
    if i :| 0 <= i < |kept| && kept[i].category == c {
      assert kept[i] in xs;
      var j :| 0 <= j < |xs| && xs[j] == kept[i];
      assert p(xs[j]) && xs[j].category == c;
    }
    if j :| 0 <= j < |xs| && p(xs[j]) && xs[j].category == c {
      assert xs[j] in kept;
      var i :| 0 <= i < |kept| && kept[i] == xs[j];
      assert 0 <= i < |Keep(xs, p)| && Keep(xs, p)[i].category == c;
    }
  }

  /** Each map's keys are exactly the categories that occur with its type. */
  lemma {:induction false} PieKeys(xs: seq<Transaction>, c: string)
    requires ProcessData(xs).Some?
    ensures c in Keys(ProcessData(xs).value.income) <==>
      exists j :: 0 <= j < |xs| && xs[j].kind == "income" && xs[j].category == c
    ensures c in Keys(ProcessData(xs).value.expense) <==>
      exists j :: 0 <= j < |xs| && xs[j].kind == "expense" && xs[j].category == c
  {
    ProcessDataIsTally(xs);
    TallyKeys(Keep(xs, IsIncome), CategoryOf, AmountOf, c);
    TallyKeys(Keep(xs, IsExpense), CategoryOf, AmountOf, c);
    KeptCategory(xs, IsIncome, c);
    KeptCategory(xs, IsExpense, c);
  }

  /** Appending transactions of one type leaves the other type's map as it
      was, key order included. */
  lemma {:induction false} OtherTypeUntouched(xs: seq<Transaction>, ys: seq<Transaction>)
    requires ProcessData(xs).Some?
    ensures (forall j :: 0 <= j < |ys| ==> ys[j].kind == "income") ==>
      ProcessData(xs + ys).Some? && ProcessData(xs + ys).value.expense == ProcessData(xs).value.expense
    ensures (forall j :: 0 <= j < |ys| ==> ys[j].kind == "expense") ==>
      ProcessData(xs + ys).Some? && ProcessData(xs + ys).value.income == ProcessData(xs).value.income
    decreases |ys|
  {
    if |ys| == 0 {
      assert xs + ys == xs;
    } else {
      var front := ys[..|ys| - 1];
      OtherTypeUntouched(xs, front);
      assert (xs + ys)[..|xs + ys| - 1] == xs + front;
      assert (xs + ys)[|xs + ys| - 1] == ys[|ys| - 1];
    }
  }

  /** Both maps are empty for no transactions, so both "no data" messages
      show; in general a chart is drawn exactly when a transaction of its
      type exists. */
  lemma {:induction false} NoDataBranches(xs: seq<Transaction>)
    requires ProcessData(xs).Some?
    ensures |xs| == 0 ==> ProcessData(xs) == Some(Pie([], []))
    ensures HasData(ProcessData(xs).value.income) <==> exists j :: 0 <= j < |xs| && xs[j].kind == "income"
    ensures HasData(ProcessData(xs).value.expense) <==> exists j :: 0 <= j < |xs| && xs[j].kind == "expense"
  {
    var p := ProcessData(xs).value;
    KeysLength(p.income);
    KeysLength(p.expense);
    if exists j :: 0 <= j < |xs| && xs[j].kind == "income" {
      var j :| 0 <= j < |xs| && xs[j].kind == "income";
      PieKeys(xs, xs[j].category);
    }
    if HasData(p.income) {
      PieKeys(xs, Keys(p.income)[0]);
    }
    if exists j :: 0 <= j < |xs| && xs[j].kind == "expense" {
      var j :| 0 <= j < |xs| && xs[j].kind == "expense";
      PieKeys(xs, xs[j].category);
    }
    if HasData(p.expense) {
      PieKeys(xs, Keys(p.expense)[0]);
    }
  }

  /** Reordering the transactions changes neither whether the pass
      succeeds nor any category's total or presence (only the key order). */
  lemma {:induction false} PiePermutation(a: seq<Transaction>, b: seq<Transaction>)
    requires multiset(a) == multiset(b)
    ensures ProcessData(a).Some? <==> ProcessData(b).Some?
    ensures ProcessData(a).Some? ==> forall c ::
      && Lookup(ProcessData(a).value.income, c) == Lookup(ProcessData(b).value.income, c)
      && Lookup(ProcessData(a).value.expense, c) == Lookup(ProcessData(b).value.expense, c)
      && (c in Keys(ProcessData(a).value.income) <==> c in Keys(ProcessData(b).value.income))
      && (c in Keys(ProcessData(a).value.expense) <==> c in Keys(ProcessData(b).value.expense))
  {
    if exists i :: 0 <= i < |a| && !KnownType(a[i]) {
      var i :| 0 <= i < |a| && !KnownType(a[i]);
      assert a[i] in multiset(b);
      var j :| 0 <= j < |b| && b[j] == a[i];
    }
    if exists i :: 0 <= i < |b| && !KnownType(b[i]) {
      var i :| 0 <= i < |b| && !KnownType(b[i]);
      assert b[i] in multiset(a);
      var j :| 0 <= j < |a| && a[j] == b[i];
    }
    if ProcessData(a).Some? {
      ProcessDataIsTally(a);
      ProcessDataIsTally(b);
      KeepPermutation(a, b, IsIncome);
      KeepPermutation(a, b, IsExpense);
      TallyPermutation(Keep(a, IsIncome), Keep(b, IsIncome), CategoryOf, AmountOf);
      TallyPermutation(Keep(a, IsExpense), Keep(b, IsExpense), CategoryOf, AmountOf);
    }
  }
}
