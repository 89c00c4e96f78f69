/** The server-backed dashboard: the time-range filter over the fetched
    transactions, the chart data prepared from them and from the server's
    report and budgets, the budget warnings, and the recent-transactions
    table. */
module Dashboard {
  import opened Seqs
  import opened Ledger
  import opened Tallies
  import opened Buckets

  /** The three instants the filter compares against: now moved back by
      seven days, one month and one year. Computing them from the clock is
      not part of this model. */
  datatype Cutoffs = Cutoffs(week: int, month: int, year: int)

  /** The cutoff the selected range compares against; any other value of
      the selector ("all", in the page) sets none. */
  function Cutoff(range: string, cut: Cutoffs): (r: Option<int>)
    ensures r.Some? <==> range == "week" || range == "month" || range == "year"
    ensures r.Some? ==> r.value == cut.week || r.value == cut.month || r.value == cut.year
  {
    if range == "week" then Some(cut.week)
    else if range == "month" then Some(cut.month)
    else if range == "year" then Some(cut.year)
    else None
  }

  /** `transactionDate >= cutoff`: false for an invalid date, whose time is NaN. */
  predicate OnOrAfter(t: Transaction, c: int) {
    t.date.At? && t.date.ms >= c
  }

  function OnOrAfterTest(c: int): Transaction -> bool {
    t => OnOrAfter(t, c)
  }

  /** The filter callback: a transaction is kept when the range sets no
      cutoff or when it is dated at or after the cutoff. */
  predicate AfterCutoff(range: string, cut: Cutoffs, t: Transaction)
    ensures range != "week" && range != "month" && range != "year" ==> AfterCutoff(range, cut, t)
    ensures AfterCutoff(range, cut, t) && Cutoff(range, cut).Some? ==> t.date.At?
  {
    match Cutoff(range, cut)
    case None => true
    case Some(c) => OnOrAfter(t, c)
  }

  function CutoffTest(range: string, cut: Cutoffs): Transaction -> bool {
    t => AfterCutoff(range, cut, t)
  }

  /** `filteredTransactions`. */
  function FilterByRange(xs: seq<Transaction>, range: string, cut: Cutoffs): (r: seq<Transaction>)
    ensures IsSubseq(r, xs)
    ensures Cutoff(range, cut).Some? ==> forall i :: 0 <= i < |r| ==>
      r[i].date.At? && r[i].date.ms >= Cutoff(range, cut).value
    ensures forall i :: 0 <= i < |xs| && AfterCutoff(range, cut, xs[i]) ==> xs[i] in r
  {
    Keep(xs, CutoffTest(range, cut))
  }

  // ---------------------------------------------------------------------
  // prepareChartData

  /** The part of the `/report` response the charts read. A missing
      `categorySummary` is `None`. */
  datatype Report = Report(categorySummary: Option<seq<Entry<string>>>)

  /** `report.categorySummary || {}`. */
  function Summary(report: Report): seq<Entry<string>> {
    match report.categorySummary
    case None => []
    case Some(s) => s
  }

  /** The bucket key of the monthly chart: the short month name of the
      transaction's date in the user's locale, `monthName`. */
  function MonthKey(monthName: Date -> string): Transaction -> string {
    (t: Transaction) => monthName(t.date)
  }

  /** `monthlyData`: the filtered transactions grouped by month name, in
      the order the names first occur. */
  function MonthlyData(filtered: seq<Transaction>, monthName: Date -> string): (r: seq<Bucket<string>>)
    ensures |r| == |Distinct(Map(filtered, MonthKey(monthName)))|
    ensures BucketKeys(r) == Distinct(Map(filtered, MonthKey(monthName)))
    ensures SumOf(r, BucketIncome) == IncomeTotal(filtered)
    ensures SumOf(r, BucketExpense) == ExpenseTotal(filtered)
  {
    BucketKeysLength(Group(filtered, MonthKey(monthName)));
    Group(filtered, MonthKey(monthName))
  }

  /** One slice of the spending pie. */
  datatype Slice = Slice(name: string, value: int)

  function SliceValue(s: Slice): int { s.value }

  function Abs(v: int): (r: int)
    ensures r >= 0
    ensures r == v || r == -v
  {
    if v < 0 then -v else v
  }

  /** `categoryData`: every entry of the summary, in order, with the
      magnitude of its value. */
  function CategoryData(summary: seq<Entry<string>>): (r: seq<Slice>)
    ensures |r| == |summary|
    ensures forall i :: 0 <= i < |r| ==>
      r[i].name == summary[i].key && r[i].value >= 0 && (r[i].value == summary[i].value || r[i].value == -summary[i].value)
  {
    seq(|summary|, i requires 0 <= i < |summary| => Slice(summary[i].key, Abs(summary[i].value)))
  }

  /** One bar group of the budget chart. */
  datatype BudgetRow = BudgetRow(name: string, budget: int, spent: int, remaining: int)

  /** How much of category `c` was spent: the magnitude of its summary
      value when that value is negative, and 0 otherwise, including when
      the summary has no such key (`undefined < 0` is false). */
  function Spent(summary: seq<Entry<string>>, c: string): (r: int)
    ensures r >= 0
    ensures r > 0 <==> Lookup(summary, c) < 0
    ensures r > 0 ==> r == Abs(Lookup(summary, c))
    ensures c !in Keys(summary) ==> r == 0
  {
    if c !in Keys(summary) then
      LookupAbsent(summary, c);
      0
    else if Lookup(summary, c) < 0 then -Lookup(summary, c)
    else 0
  }

  /** `budgetData`: one row per budget, in the budgets' key order. */
  function BudgetData(budgets: seq<Entry<string>>, summary: seq<Entry<string>>): (r: seq<BudgetRow>)
    ensures |r| == |budgets|
    ensures forall i :: 0 <= i < |r| ==>
      && r[i].name == budgets[i].key
      && r[i].budget == budgets[i].value
      && r[i].spent == Spent(summary, budgets[i].key)
      && r[i].remaining == budgets[i].value - r[i].spent
  {
    seq(|budgets|, i requires 0 <= i < |budgets| =>
      BudgetRow(budgets[i].key, budgets[i].value, Spent(summary, budgets[i].key),
        budgets[i].value - Spent(summary, budgets[i].key)))
  }

  /** The three data sets `prepareChartData` returns. */
  datatype ChartData = ChartData(incomeExpense: seq<Bucket<string>>, categories: seq<Slice>, budgets: seq<BudgetRow>)

  /** `prepareChartData`. Without a report it returns an empty array, whose
      three destructured fields are all undefined: no chart data. */
  function PrepareChartData(report: Option<Report>, filtered: seq<Transaction>,
                            budgets: seq<Entry<string>>, monthName: Date -> string): (r: Option<ChartData>)
    ensures r.Some? <==> report.Some?
    ensures r.Some? ==> r.value.incomeExpense == MonthlyData(filtered, monthName)
    ensures r.Some? ==> r.value.categories == CategoryData(Summary(report.value))
    ensures r.Some? ==> r.value.budgets == BudgetData(budgets, Summary(report.value))
    ensures r.Some? ==>
      && NoDuplicates(BucketKeys(r.value.incomeExpense))
      && SumOf(r.value.incomeExpense, BucketIncome) == IncomeTotal(filtered)
      && SumOf(r.value.incomeExpense, BucketExpense) == ExpenseTotal(filtered)
    ensures r.Some? ==> |r.value.categories| == |Summary(report.value)| && forall i :: 0 <= i < |r.value.categories| ==>
      (&& r.value.categories[i].value >= 0
       && (r.value.categories[i].value == Summary(report.value)[i].value || r.value.categories[i].value == -Summary(report.value)[i].value))
    ensures r.Some? ==> |r.value.budgets| == |budgets| && forall i :: 0 <= i < |r.value.budgets| ==>
      (&& r.value.budgets[i].spent >= 0
       && r.value.budgets[i].spent + r.value.budgets[i].remaining == budgets[i].value)
  {
    match report
    case None => None
    case Some(rep) =>
      Some(ChartData(MonthlyData(filtered, monthName), CategoryData(Summary(rep)), BudgetData(budgets, Summary(rep))))
  }

  // ---------------------------------------------------------------------
  // Budget warnings and recent transactions

  predicate Exceeded(row: BudgetRow) { row.spent > row.budget }

  /** The amount by which a row is over budget, as the warning prints it. */
  function Overrun(row: BudgetRow): int { row.spent - row.budget }

  /** `budgetData.filter(item => item.spent > item.budget)`. */
  function Warnings(rows: seq<BudgetRow>): (r: seq<BudgetRow>)
    ensures IsSubseq(r, rows)
    ensures forall i :: 0 <= i < |r| ==> Exceeded(r[i]) && Overrun(r[i]) > 0
    ensures forall i :: 0 <= i < |rows| && Exceeded(rows[i]) ==> rows[i] in r
  {
    Keep(rows, Exceeded)
  }

  /** `filteredTransactions.slice(0, 5)`. */
  function Recent(xs: seq<Transaction>): (r: seq<Transaction>)
    ensures |r| == if |xs| < 5 then |xs| else 5
    ensures forall i :: 0 <= i < |r| ==> r[i] == xs[i]
  {
    if |xs| < 5 then xs else xs[..5]
  }

  // ---------------------------------------------------------------------

  /** The "All Time" selection, or any value other than the three ranges,
      keeps every transaction, invalid dates included. */
  lemma {:induction false} NoCutoffKeepsAll(xs: seq<Transaction>, range: string, cut: Cutoffs)
    requires range != "week" && range != "month" && range != "year"
    ensures FilterByRange(xs, range, cut) == xs
  {
    KeepAll(xs, CutoffTest(range, cut));
  }

  /** A range with a cutoff keeps exactly the transactions dated on or
      after it, in order. */
  lemma {:induction false} RangeIsCutoffFilter(xs: seq<Transaction>, range: string, cut: Cutoffs)
    requires Cutoff(range, cut).Some?
    ensures FilterByRange(xs, range, cut) == Keep(xs, OnOrAfterTest(Cutoff(range, cut).value))
  {
    KeepCongruent(xs, CutoffTest(range, cut), OnOrAfterTest(Cutoff(range, cut).value));
  }

  /** An earlier cutoff keeps everything a later one keeps, in the same
      order: with the usual `year <= month <= week` the week's list is a
      subsequence of the month's, which is one of the year's. */
  lemma {:induction false} EarlierCutoffKeepsMore(xs: seq<Transaction>, early: int, late: int)
    requires early <= late
    ensures IsSubseq(Keep(xs, OnOrAfterTest(late)), Keep(xs, OnOrAfterTest(early)))
  {
    var wide := Keep(xs, OnOrAfterTest(early));
    KeepKeep(xs, OnOrAfterTest(early), OnOrAfterTest(late));
    KeepCongruent(xs, Both(OnOrAfterTest(early), OnOrAfterTest(late)), OnOrAfterTest(late));
    assert Keep(wide, OnOrAfterTest(late)) == Keep(xs, OnOrAfterTest(late));
  }

  /** One bucket per distinct month name, holding that month's income and
      expense, and the buckets together holding all of both. */
  lemma {:induction false} MonthlyBuckets(filtered: seq<Transaction>, monthName: Date -> string, m: string)
    ensures NoDuplicates(BucketKeys(MonthlyData(filtered, monthName)))
    ensures m in BucketKeys(MonthlyData(filtered, monthName)) <==>
      exists i :: 0 <= i < |filtered| && monthName(filtered[i].date) == m
    ensures IncomeAt(MonthlyData(filtered, monthName), m) == IncomeTotal(Keep(filtered, KeyIs(MonthKey(monthName), m)))
    ensures ExpenseAt(MonthlyData(filtered, monthName), m) == ExpenseTotal(Keep(filtered, KeyIs(MonthKey(monthName), m)))
    ensures SumOf(MonthlyData(filtered, monthName), BucketIncome) == IncomeTotal(filtered)
    ensures SumOf(MonthlyData(filtered, monthName), BucketExpense) == ExpenseTotal(filtered)
  {
    GroupKeys(filtered, MonthKey(monthName), m);
  }

  /** What a budget row says: nothing is spent unless the summary value is
      negative, spending is never negative, and spent plus remaining is
      the budget. */
  lemma {:induction false} BudgetRowFacts(budgets: seq<Entry<string>>, summary: seq<Entry<string>>, i: int)
    requires 0 <= i < |budgets|
    ensures BudgetData(budgets, summary)[i].spent >= 0
    ensures BudgetData(budgets, summary)[i].spent > 0 <==> Lookup(summary, budgets[i].key) < 0
    ensures BudgetData(budgets, summary)[i].spent + BudgetData(budgets, summary)[i].remaining == budgets[i].value
    ensures budgets[i].key !in Keys(summary) ==> BudgetData(budgets, summary)[i].spent == 0
  {
    if budgets[i].key !in Keys(summary) {
      LookupAbsent(summary, budgets[i].key);
    }
  }

  /** A warning names a budget whose category's summary value is negative
      and larger in magnitude than the budget; the "No budgets exceeded!"
      message shows exactly when no row is over budget. */
  lemma {:induction false} WarningsMeaning(budgets: seq<Entry<string>>, summary: seq<Entry<string>>)
    ensures var w := Warnings(BudgetData(budgets, summary));
      forall i :: 0 <= i < |w| ==>
        (&& w[i].name in Keys(budgets)
         && Spent(summary, w[i].name) > w[i].budget
         && (w[i].budget >= 0 ==> Lookup(summary, w[i].name) < -w[i].budget))
    ensures |Warnings(BudgetData(budgets, summary))| == 0 <==>
      forall i :: 0 <= i < |budgets| ==> Spent(summary, budgets[i].key) <= budgets[i].value
  {
    var rows := BudgetData(budgets, summary);
    var w := Warnings(rows);
    KeysLength(budgets);
    forall i | 0 <= i < |w|
      ensures w[i].name in Keys(budgets)
      ensures Spent(summary, w[i].name) > w[i].budget
    {
      assert w[i] in rows;
      var j :| 0 <= j < |rows| && rows[j] == w[i];
      assert Keys(budgets)[j] == w[i].name;
    }
    if |w| == 0 {
      forall i | 0 <= i < |budgets|
        ensures Spent(summary, budgets[i].key) <= budgets[i].value
      {
      }
    } else {
      assert w[0] in rows;
      var j :| 0 <= j < |rows| && rows[j] == w[0];
      assert Spent(summary, budgets[j].key) > budgets[j].value;
    }
  }

  /** At most five rows are shown; a list of five or fewer is shown whole,
      and showing the shown rows again changes nothing. */
  lemma {:induction false} RecentFacts(xs: seq<Transaction>)
    ensures |xs| <= 5 ==> Recent(xs) == xs
    ensures Recent(Recent(xs)) == Recent(xs)
    ensures Recent(xs) == xs[..|Recent(xs)|]
  {
  }
}
