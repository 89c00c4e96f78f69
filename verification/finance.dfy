/** The CSV dashboard: turning uploaded rows into transactions, the
    one-pass statistics over the date-sorted list (totals, running balance,
    expense categories), the per-day buckets, and the summary cards. */
module FinanceDashboard {
  import opened Seqs
  import opened Text
  import opened Ledger
  import opened Tallies
  import opened Buckets
  import opened Sorting

  /** One row of the uploaded file, with the header's column names as fields. */
  datatype RawRow = RawRow(date: string, kind: string, category: string, amount: string, description: string)

  /** A point of the balance chart: the running balance after one transaction. */
  datatype Point = Point(date: Date, balance: int)

  /** What `processStats` stores: the two totals, the balance series and the
      expense total per category. */
  datatype Stats = Stats(income: int, expense: int, balance: seq<Point>, categories: seq<Entry<string>>)

  /** The "Net Balance" card. */
  function Net(s: Stats): int { s.income - s.expense }

  /** The row mapping of the upload handler. The date is parsed by
      `parseDate` and cut down to its day (`toISOString().split('T')[0]`);
      an unparseable date makes `toISOString` throw, so there is no
      transaction. The amount has its decoration stripped and is then read
      by `parseAmount`; the other fields are copied as they are. */
  function ImportRow(row: RawRow, parseDate: string -> Option<int>, parseAmount: string -> int): (r: Option<Transaction>)
    ensures r.Some? <==> parseDate(row.date).Some?
    ensures r.Some? ==>
      && r.value.date.At?
      && r.value.date.ms % MsPerDay == 0
      && r.value.date.ms <= parseDate(row.date).value < r.value.date.ms + MsPerDay
      && r.value.amount == parseAmount(StripCurrency(row.amount))
      && r.value.kind == row.kind
      && r.value.category == row.category
      && r.value.description == row.description
  {
    match parseDate(row.date)
    case None => None
    case Some(ms) =>
      Some(Transaction(At(DayStart(ms)), row.kind, row.category, parseAmount(StripCurrency(row.amount)), row.description))
  }

  /** The whole `results.data.map(...)`: one throwing row aborts the upload. */
  function ImportRows(rows: seq<RawRow>, parseDate: string -> Option<int>, parseAmount: string -> int): (r: Option<seq<Transaction>>)
    ensures r.Some? <==> forall i :: 0 <= i < |rows| ==> parseDate(rows[i].date).Some?
    ensures r.Some? ==> |r.value| == |rows| && AllDated(r.value)
    ensures r.Some? ==> forall i :: 0 <= i < |rows| ==>
      && r.value[i].date == At(DayStart(parseDate(rows[i].date).value))
      && r.value[i].date.ms % MsPerDay == 0
      && r.value[i].amount == parseAmount(StripCurrency(rows[i].amount))
      && r.value[i].kind == rows[i].kind
      && r.value[i].category == rows[i].category
      && r.value[i].description == rows[i].description
  {
    if |rows| == 0 then Some([])
    else
      var last := rows[|rows|-1];
      match ImportRows(rows[..|rows|-1], parseDate, parseAmount)
      case None => None
      case Some(front) =>
        match ImportRow(last, parseDate, parseAmount)
        case None => None
        case Some(t) => Some(front + [t])
  }

  // ---------------------------------------------------------------------
  // processStats

  /** The sort key `new Date(t.date)`. The upload only produces valid
      dates (an invalid one throws before), so the `Invalid` case is never
      compared. */
  function Stamp(t: Transaction): int {
    match t.date
    case At(ms) => ms
    case Invalid => 0
  }

  /** The balance chart of a list taken in order: one point per
      transaction, carrying its date and the running balance after it. */
  function Balances(xs: seq<Transaction>): (r: seq<Point>)
    ensures |r| == |xs|
    ensures forall k :: 0 <= k < |xs| ==> r[k] == Point(xs[k].date, SumOf(xs[..k + 1], Signed))
  {
    if |xs| == 0 then []
    else
      var prev := Balances(xs[..|xs| - 1]);
      BalancesExtend(xs, prev);
      prev + [Point(xs[|xs| - 1].date, SumOf(xs, Signed))]
  }

  /** Point `k` of the chart stays the same when one more transaction is
      appended, and the new last point holds the signed sum of the whole list. */
  lemma {:induction false} BalancesExtend(xs: seq<Transaction>, prev: seq<Point>)
    requires |xs| > 0 && |prev| == |xs| - 1
    requires forall k :: 0 <= k < |prev| ==>
      prev[k] == Point(xs[..|xs| - 1][k].date, SumOf(xs[..|xs| - 1][..k + 1], Signed))
    ensures var r := prev + [Point(xs[|xs| - 1].date, SumOf(xs, Signed))];
      forall k :: 0 <= k < |xs| ==> r[k] == Point(xs[k].date, SumOf(xs[..k + 1], Signed))
  {
    var r := prev + [Point(xs[|xs| - 1].date, SumOf(xs, Signed))];
    forall k | 0 <= k < |xs|
      ensures r[k] == Point(xs[k].date, SumOf(xs[..k + 1], Signed))
    {
      if k == |xs| - 1 {
        assert xs[..k + 1] == xs;
      } else {
        assert xs[..|xs| - 1][..k + 1] == xs[..k + 1];
      }
    }
  }

  /** `processStats`: one pass over the list sorted by ascending date (ties
      in upload order) that totals income and expense, records the running
      balance after every transaction, and totals the non-income amounts per
      category. */
  method ProcessStats(parsed: seq<Transaction>) returns (s: Stats)
    requires AllDated(parsed)
    ensures s.income == IncomeTotal(parsed)
    ensures s.expense == ExpenseTotal(parsed)
    ensures s.balance == Balances(SortBy(parsed, Stamp))
    ensures forall k :: 0 <= k < |parsed| ==>
      (s.balance[k] == Point(SortBy(parsed, Stamp)[k].date, SumOf(SortBy(parsed, Stamp)[..k + 1], Signed)))
    ensures |parsed| > 0 ==> s.balance[|parsed| - 1].balance == Net(s)
    ensures Keys(s.categories) == Distinct(Map(Keep(SortBy(parsed, Stamp), TakesExpenseBranch), CategoryOf))
    ensures SumOf(s.categories, Value) == s.expense
    ensures forall c :: (Lookup(s.categories, c) ==
      SumOf(Keep(parsed, Both(TakesExpenseBranch, KeyIs(CategoryOf, c))), AmountOf))
  {
    var sorted := SortBy(parsed, Stamp);
    s := Accumulate(sorted);
    SortedTotals(parsed, sorted);
    SortedCategories(parsed, sorted);
  }

  /** The totals and the chart of the loop over a reordering of `parsed`. */
  lemma SortedTotals(parsed: seq<Transaction>, sorted: seq<Transaction>)
    requires multiset(sorted) == multiset(parsed)
    ensures Run(sorted).income == IncomeTotal(parsed)
    ensures Run(sorted).expense == ExpenseTotal(parsed)
    ensures Run(sorted).balance == Balances(sorted)
    ensures forall k :: 0 <= k < |sorted| ==>
      (Run(sorted).balance[k] == Point(sorted[k].date, SumOf(sorted[..k + 1], Signed)))
    ensures |sorted| > 0 ==> Run(sorted).balance[|sorted| - 1].balance == Net(Run(sorted))
  {
    RunTotals(sorted);
    NetCard(sorted);
    TotalsPermutation(sorted, parsed);
  }

  /** The category totals of the loop over a reordering of `parsed`. */
  lemma SortedCategories(parsed: seq<Transaction>, sorted: seq<Transaction>)
    requires multiset(sorted) == multiset(parsed)
    ensures Keys(Run(sorted).categories) == Distinct(Map(Keep(sorted, TakesExpenseBranch), CategoryOf))
    ensures SumOf(Run(sorted).categories, Value) == ExpenseTotal(parsed)
    ensures forall c :: (Lookup(Run(sorted).categories, c) ==
      SumOf(Keep(parsed, Both(TakesExpenseBranch, KeyIs(CategoryOf, c))), AmountOf))
  {
    RunCategories(sorted);
    StatsFacts(parsed, sorted);
    TallyFacts(Keep(sorted, TakesExpenseBranch), CategoryOf, AmountOf);
  }

  /** One iteration of the loop of `processStats`: the entry goes to the
      income or the expense total, the chart gets the new running balance
      (income so far minus expense so far), and a non-income entry is added
      to its category. */
  function Step(s: Stats, t: Transaction): (r: Stats)
    ensures Net(r) == Net(s) + Signed(t)
    ensures r.balance == s.balance + [Point(t.date, Net(r))]
    ensures r.income + r.expense == s.income + s.expense + t.amount
    ensures IsIncome(t) ==> r.categories == s.categories
    ensures !IsIncome(t) ==> r.categories == Add(s.categories, t.category, t.amount)
  {
    if IsIncome(t) then
      Stats(s.income + t.amount, s.expense,
        s.balance + [Point(t.date, s.income + t.amount - s.expense)], s.categories)
    else
      Stats(s.income, s.expense + t.amount,
        s.balance + [Point(t.date, s.income - (s.expense + t.amount))], Add(s.categories, t.category, t.amount))
  }

  /** The loop run over `xs` from the initial state. */
  function Run(xs: seq<Transaction>): Stats
  {
    if |xs| == 0 then Stats(0, 0, [], [])
    else Step(Run(xs[..|xs| - 1]), xs[|xs| - 1])
  }

  /** The loop of `processStats` over the already sorted list. */
  method Accumulate(sorted: seq<Transaction>) returns (s: Stats)
    ensures s == Run(sorted)
  {
    var income, expense, running := 0, 0, 0;
    var chart: seq<Point> := [];
    var categories: seq<Entry<string>> := [];
    var i := 0;
    while i < |sorted|
      invariant 0 <= i <= |sorted|
      invariant Stats(income, expense, chart, categories) == Run(sorted[..i])
      invariant running == income - expense
    {
      var entry := sorted[i];
      assert sorted[..i + 1][..i] == sorted[..i];
      if entry.kind == "income" {
        income := income + entry.amount;
        running := running + entry.amount;
      } else {
        expense := expense + entry.amount;
        running := running - entry.amount;
        categories := Add(categories, entry.category, entry.amount);
      }
      chart := chart + [Point(entry.date, running)];
      i := i + 1;
    }
    assert sorted[..i] == sorted;
    s := Stats(income, expense, chart, categories);
  }

  /** What the loop computes: the two totals and the balance chart. */
  lemma {:induction false} RunTotals(xs: seq<Transaction>)
    ensures Run(xs).income == IncomeTotal(xs)
    ensures Run(xs).expense == ExpenseTotal(xs)
    ensures Run(xs).balance == Balances(xs)
    decreases |xs|
  {
    if |xs| > 0 {
      RunTotals(xs[..|xs| - 1]);
      SignedSumIsNet(xs);
    }
  }

  /** The "Net Balance" card: income total minus expense total, which is
      also the last point of the balance chart. */
  lemma {:induction false} NetCard(xs: seq<Transaction>)
    ensures Net(Run(xs)) == IncomeTotal(xs) - ExpenseTotal(xs)
    ensures |Run(xs).balance| == |xs|
    ensures |xs| > 0 ==> Net(Run(xs)) == Run(xs).balance[|xs| - 1].balance
  {
    RunTotals(xs);
    SignedSumIsNet(xs);
  }

  /** What the loop computes: the tally of the non-income entries by category. */
  lemma {:induction false} RunCategories(xs: seq<Transaction>)
    ensures Run(xs).categories == Tally(Keep(xs, TakesExpenseBranch), CategoryOf, AmountOf)
    decreases |xs|
  {
    if |xs| > 0 {
      RunCategories(xs[..|xs| - 1]);
    }
  }

  /** What the loop's results mean for the unsorted input. */
  lemma {:induction false} StatsFacts(parsed: seq<Transaction>, sorted: seq<Transaction>)
    requires multiset(sorted) == multiset(parsed)
    ensures IncomeTotal(sorted) == IncomeTotal(parsed)
    ensures ExpenseTotal(sorted) == ExpenseTotal(parsed)
    ensures SumOf(sorted, Signed) == IncomeTotal(parsed) - ExpenseTotal(parsed)
    ensures SumOf(Keep(sorted, TakesExpenseBranch), AmountOf) == ExpenseTotal(parsed)
    ensures forall c :: (SumOf(Keep(Keep(sorted, TakesExpenseBranch), KeyIs(CategoryOf, c)), AmountOf) ==
      SumOf(Keep(parsed, Both(TakesExpenseBranch, KeyIs(CategoryOf, c))), AmountOf))
  {
    TotalsPermutation(sorted, parsed);
    SignedSumIsNet(sorted);
    ExpenseTotalIsKept(sorted);
    forall c
      ensures SumOf(Keep(Keep(sorted, TakesExpenseBranch), KeyIs(CategoryOf, c)), AmountOf) ==
        SumOf(Keep(parsed, Both(TakesExpenseBranch, KeyIs(CategoryOf, c))), AmountOf)
    {
      var p := Both(TakesExpenseBranch, KeyIs(CategoryOf, c));
      KeepKeep(sorted, TakesExpenseBranch, KeyIs(CategoryOf, c));
      KeepPermutation(sorted, parsed, p);
      SumPermutation(Keep(sorted, p), Keep(parsed, p), AmountOf);
    }
  }

  /** The sort that feeds `processStats` is stable: transactions with the
      same date stay in upload order. */
  lemma {:induction false} SortKeepsTies(parsed: seq<Transaction>, ms: int)
    ensures SortedBy(SortBy(parsed, Stamp), Stamp)
    ensures Keep(SortBy(parsed, Stamp), KeyIs(Stamp, ms)) == Keep(parsed, KeyIs(Stamp, ms))
  {
    SortIsStable(parsed, Stamp, ms);
  }

  // ---------------------------------------------------------------------
  // dailyData and the summary cards

  /** `dailyData`: the upload's transactions (in upload order, not sorted)
      grouped by date. */
  function DailyData(data: seq<Transaction>): (r: seq<Bucket<Date>>)
    ensures |r| == |Distinct(Map(data, DateOf))|
    ensures BucketKeys(r) == Distinct(Map(data, DateOf))
    ensures SumOf(r, BucketIncome) == IncomeTotal(data)
    ensures SumOf(r, BucketExpense) == ExpenseTotal(data)
  {
    BucketKeysLength(Group(data, DateOf));
    Group(data, DateOf)
  }

  /** One bucket per distinct date, each with that date's income and
      expense, and the columns summing to the two totals. */
  lemma {:induction false} DailyDataBuckets(data: seq<Transaction>, d: Date)
    ensures NoDuplicates(BucketKeys(DailyData(data)))
    ensures d in BucketKeys(DailyData(data)) <==> exists i :: 0 <= i < |data| && data[i].date == d
    ensures SumOf(DailyData(data), BucketIncome) == IncomeTotal(data)
    ensures SumOf(DailyData(data), BucketExpense) == ExpenseTotal(data)
    ensures IncomeAt(DailyData(data), d) == IncomeTotal(Keep(data, KeyIs(DateOf, d)))
    ensures ExpenseAt(DailyData(data), d) == ExpenseTotal(Keep(data, KeyIs(DateOf, d)))
  {
    GroupKeys(data, DateOf, d);
  }

  /** Entry `i` has the largest value, and every earlier entry a smaller one. */
  ghost predicate IsFirstMax(cats: seq<Entry<string>>, i: int) {
    && 0 <= i < |cats|
    && (forall j :: 0 <= j < |cats| ==> cats[j].value <= cats[i].value)
    && (forall j :: 0 <= j < i ==> cats[j].value < cats[i].value)
  }

  /** The first entry after a stable sort by descending value. */
  function FirstMax(cats: seq<Entry<string>>): (r: int)
    requires |cats| > 0
    ensures IsFirstMax(cats, r)
  {
    if |cats| == 1 then 0
    else
      var i := FirstMax(cats[..|cats| - 1]);
      if cats[|cats| - 1].value > cats[i].value then |cats| - 1 else i
  }

  /** The sort key of the card's comparator `(a, b) => b.value - a.value`. */
  function Descending(e: Entry<string>): int { -e.value }

  /** The categories in the order the "Expense Categories" pie draws them.
      The card's `sort` reorders the stored array in place during the
      render, before the pie reads it, so the pie sees the categories in
      descending order of value, equal values in the order `processStats`
      produced them. */
  function Displayed(cats: seq<Entry<string>>): (r: seq<Entry<string>>)
    ensures multiset(r) == multiset(cats)
    ensures forall i, j :: 0 <= i < j < |r| ==> r[i].value >= r[j].value
  {
    SortBy(cats, Descending)
  }

  /** Categories of equal value keep their relative order in the pie: for
      every sort key `k` (the value `-k`), the categories with that key
      appear in the pie in their stored order. */
  lemma {:induction false} DisplayedIsStable(cats: seq<Entry<string>>, k: int)
    ensures Keep(Displayed(cats), KeyIs(Descending, k)) == Keep(cats, KeyIs(Descending, k))
  {
    SortIsStable(cats, Descending, k);
  }

  /** The first displayed category has the largest value. */
  lemma {:induction false} DisplayedHeadIsMax(cats: seq<Entry<string>>)
    requires |cats| > 0
    ensures |Displayed(cats)| > 0 && Displayed(cats)[0].value == cats[FirstMax(cats)].value
  {
    var d := Displayed(cats);
    var i := FirstMax(cats);
    assert cats[i] in multiset(d);
    var j :| 0 <= j < |d| && d[j] == cats[i];
    assert d[0] in multiset(cats);
    var m :| 0 <= m < |cats| && cats[m] == d[0];
  }

  /** The first displayed category is the first one of maximal value. */
  lemma {:induction false} DisplayedHead(cats: seq<Entry<string>>)
    requires |cats| > 0
    ensures |Displayed(cats)| > 0 && Displayed(cats)[0] == cats[FirstMax(cats)]
  {
    var d := Displayed(cats);
    var i := FirstMax(cats);
    var k := Descending(cats[i]);
    var p := KeyIs(Descending, k);
    assert p(d[0]) by {
      DisplayedHeadIsMax(cats);
    }
    assert forall j :: 0 <= j < i ==> !p(cats[j]) by {
      forall j | 0 <= j < i
        ensures !p(cats[j])
      {
        assert cats[j].value < cats[i].value;
      }
    }
    KeepFirst(d, p, 0);
    KeepFirst(cats, p, i);
    DisplayedIsStable(cats, k);
    assert d[0] == Keep(d, p)[0] == Keep(cats, p)[0];
  }

  /** The "Top Category" card: the name of the first displayed category, or
      'N/A' when there is none (the `|| 'N/A'` also replaces an empty name).
      That is the first category of maximal total. */
  function TopCategory(cats: seq<Entry<string>>): (r: string)
    ensures |cats| == 0 ==> r == "N/A"
    ensures |cats| > 0 ==> exists i :: IsFirstMax(cats, i) && r == (if cats[i].key == "" then "N/A" else cats[i].key)
  {
    var d := Displayed(cats);
    if |d| == 0 then "N/A"
    else
      DisplayedHead(cats);
      var top := d[0];
      assert IsFirstMax(cats, FirstMax(cats));
      if top.key == "" then "N/A" else top.key
  }
}
