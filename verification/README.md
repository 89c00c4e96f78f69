# Pocketify analytics, modelled in Dafny

Pocketify is a personal-finance front end. This project models the part of
it that turns a list of transactions into what the user sees. It proves
properties of that model. There are four views.

- **Transaction history**
  - a search / category / date-range filter over the transaction list
  - the category drop-down
  - the "reset filters" action
- **CSV dashboard**
  - the row mapping of an uploaded file
  - `processStats`, which computes:
    - income and expense totals
    - a running-balance chart over the date-sorted list
    - per-category expense totals
  - the per-day income/expense buckets
  - the "Net Balance" and "Top Category" cards
- **Category pie chart**: `processData`, which gives per-type, per-category totals.
- **Server dashboard**
  - the week / month / year / all-time filter
  - `prepareChartData`, which builds:
    - monthly buckets
    - the category pie
    - budget-vs-actual rows
  - the budget warnings
  - the five most recent transactions

A transaction (`Ledger.Transaction`) has the following fields:

- a date: an instant in milliseconds, or the invalid date that a failed parse yields
- a free-text type
- a category
- an integer amount
- a description

`processStats`, `dailyData` and the server dashboard's `monthlyData`
decide between income and expense with an exact, case-sensitive
comparison of the type with `"income"`: every other type string takes the
expense branch there. The transaction tables colour and sign their rows by
the same test; they are not modelled. The pie chart's `processData` is
different: it indexes its counter object by the type, so a type other than
"income" or "expense" makes it throw.

JS objects used as counters become association lists (`Tallies.Entry`),
because `Object.keys` / `Object.entries` / `Object.values` report keys in
insertion order. That order reaches the per-day, monthly, category and
budget charts. The one exception is the CSV dashboard's Expense Categories
pie: the Top Category card sorts the category array in place, by value
from largest to smallest, while the page renders, and the pie reads the
same array afterwards. `FinanceDashboard.Displayed` models that order.

Every fold is defined from the last element, so the definitions line up
with the left-to-right `forEach`, `filter` and `reduce` passes.

Modules:

- `Seqs`: filtering (`Keep`), sums, first-occurrence de-duplication, subsequences
- `Tallies`: counter objects
- `Buckets`: the `{key, income, expense}` reduce
- `Text`: lower-casing, substring search, currency stripping
- `Sorting`: the stable sort by date
- `Ledger`: the transaction record and totals
- `TransactionHistory`, `FinanceDashboard`, `CategoryPieChart`, `Dashboard`: one module per view

Two points about the order and the totals:

- `dailyData` reduces the upload's unsorted `data`, so the per-day buckets
  come out in order of first occurrence, not in date order.
  `FinanceDashboard.DailyData` does the same.
- The expense total adds every type other than exactly "income", and
  `Ledger.ExpenseTotal` does the same.

## Model

| member | source | states |
|---|---|---|
| TransactionHistory.ApplyFilters | src/components/TransactionHistory.jsx:23-73 | the shown list is a subsequence of the transactions (order kept, nothing added or duplicated, so no transaction is shown more often than it occurs); every shown transaction passes every active filter; every transaction passing them all is shown |
| TransactionHistory.Matches | src/components/TransactionHistory.jsx:27-70 | the reset settings let every transaction through; with a date input filled in, only transactions with a valid date pass |
| TransactionHistory.ByText | src/components/TransactionHistory.jsx:27-31 | the search stage keeps a subsequence; switched off it keeps everything; switched on it keeps exactly the description matches |
| TransactionHistory.ByCategory | src/components/TransactionHistory.jsx:34-38 | the category stage keeps a subsequence; with "all" it keeps everything; otherwise it keeps exactly the category matches |
| TransactionHistory.ByDate | src/components/TransactionHistory.jsx:41-70 | the date stage keeps a subsequence; with both inputs empty it keeps everything; otherwise it keeps exactly the transactions in range |
| TransactionHistory.FiltersAreConjunction | src/components/TransactionHistory.jsx:24-70 | the three filters applied in a row equal one filter by the conjunction of the active predicates |
| TransactionHistory.TextStageIsKeep | src/components/TransactionHistory.jsx:26-31 | the search filter, switched on or off, keeps exactly the transactions whose lower-cased description contains the lower-cased term, or all of them when the term is empty |
| TransactionHistory.CategoryStageIsKeep | src/components/TransactionHistory.jsx:33-38 | the category filter keeps exactly the case-insensitive matches of the selection, or everything when "all" is selected |
| TransactionHistory.DateStageIsKeep | src/components/TransactionHistory.jsx:40-70 | the date filter keeps exactly the transactions in range when either input is filled, and everything otherwise |
| TransactionHistory.FilterIdempotent | src/components/TransactionHistory.jsx:23-73 | filtering the filtered list again with the same settings changes nothing |
| TransactionHistory.ResetShowsAll | src/components/TransactionHistory.jsx:158-162 | under the settings `resetFilters` installs, the shown list is the whole list, in order |
| TransactionHistory.InvalidDateExcluded | src/components/TransactionHistory.jsx:41-49 | with any date input filled in, a transaction with an invalid date is never shown |
| TransactionHistory.EndBoundIsWholeDay | src/components/TransactionHistory.jsx:57-62 | an instant passes the end bound exactly when its day is not after the end date's day |
| TransactionHistory.RangeIsInclusive | src/components/TransactionHistory.jsx:51-64 | a valid date passes two set bounds exactly when it is at or after the start and on or before the end day: both ends inclusive |
| TransactionHistory.UnparsedBoundIgnored | src/components/TransactionHistory.jsx:45-54 | a start input that does not parse imposes no bound; the result is the one without it, minus the transactions with invalid dates |
| TransactionHistory.UnparsedEndIgnored | src/components/TransactionHistory.jsx:46-62 | the same for an end input that does not parse |
| TransactionHistory.SameDayRangeExample | src/components/TransactionHistory.jsx:51-64 | with both bounds on 2 January 2024, a 1 January transaction is hidden and a 2 January one is shown |
| TransactionHistory.CategoryOptions | src/components/TransactionHistory.jsx:22 | "all" comes first, then every category of the list exactly once, nothing else, in order of first occurrence |
| Seqs.Keep | src/components/TransactionHistory.jsx:28-30 | `filter` returns a subsequence, every element of which passes the test, and which holds every passing element |
| Seqs.KeepFirst | src/components/TransactionHistory.jsx:28-30 | the first element `filter` keeps is the first element of the list that passes |
| Seqs.SubseqMultiset | src/components/TransactionHistory.jsx:28-30 | a subsequence holds no element more often than the list does |
| Seqs.KeepIdempotent | src/components/TransactionHistory.jsx:28-30 | filtering twice by the same test equals filtering once |
| Seqs.Distinct | src/components/TransactionHistory.jsx:22 | `new Set` over a list holds exactly the list's elements |
| Seqs.DistinctFirstSeen | src/components/TransactionHistory.jsx:22 | a `Set` built from a list has no duplicates and keeps first-occurrence order |
| Text.LowerChar | src/components/TransactionHistory.jsx:29 | lower-casing leaves no upper-case ASCII letter and changes no other character |
| Text.Lower | src/components/TransactionHistory.jsx:29 | lower-casing a string keeps its length and lower-cases each character in place |
| Text.Contains | src/components/TransactionHistory.jsx:29 | `includes` holds exactly when some window of the string spells the pattern |
| Text.StripCurrency | src/components/FinanceDashboard.jsx:33 | the stripped amount has no '₹' or ','; it keeps every other character, each as often as before, as a subsequence of the input |
| Text.StripIsFilter | src/components/FinanceDashboard.jsx:33 | stripping is exactly the order-preserving filter that drops '₹' and ',' |
| Text.StripIdempotent | src/components/FinanceDashboard.jsx:33 | stripping an already stripped amount changes nothing |
| FinanceDashboard.ImportRow | src/components/FinanceDashboard.jsx:29-35 | a row yields a transaction exactly when its date parses; it is dated at the midnight starting the parsed instant's day, carries the parsed amount of the stripped amount text, and copies type, category and description |
| FinanceDashboard.ImportRows | src/components/FinanceDashboard.jsx:29-35 | the upload yields transactions exactly when every row's date parses; then there is one per row, in order, dated at the start of its day, with its amount stripped and parsed and the other fields copied |
| Ledger.DayStart | src/components/FinanceDashboard.jsx:30 | cutting an instant to its date gives the midnight starting that instant's day |
| Ledger.EndOfDay | src/components/TransactionHistory.jsx:59-60 | the end of the day is in the same day, not before the instant and less than a day after it, and is that day's last millisecond |
| FinanceDashboard.ProcessStats | src/components/FinanceDashboard.jsx:46-75 | the totals are the income and non-income sums of the upload; the balance chart has one point per transaction of the date-sorted list, point k holding the signed sum of the first k+1; the last point is the net; the categories are the non-income categories in first-seen sorted order, summing to the expense total, each holding its expense sum |
| FinanceDashboard.Step | src/components/FinanceDashboard.jsx:54-69 | one entry moves the net by its signed amount, adds its amount to exactly one of the two totals, appends one chart point carrying the new net, and adds to the category counter only when the type is not "income" |
| FinanceDashboard.NetCard | src/components/FinanceDashboard.jsx:157 | the "Net Balance" card, income total minus expense total, equals the fold's net; the chart has one point per transaction and its last point is that net |
| FinanceDashboard.Accumulate | src/components/FinanceDashboard.jsx:54-69 | the loop over the sorted list computes the state of the left-to-right fold of one step per entry |
| FinanceDashboard.RunTotals | src/components/FinanceDashboard.jsx:54-69 | the fold's totals are the income and expense totals, and its chart is the running-balance series |
| FinanceDashboard.RunCategories | src/components/FinanceDashboard.jsx:61-66 | the fold's category map is the per-category tally of the non-income entries only |
| FinanceDashboard.Balances | src/components/FinanceDashboard.jsx:68 | the balance chart has one point per transaction, and point k carries transaction k's date and the signed sum of the first k+1 transactions |
| FinanceDashboard.StatsFacts | src/components/FinanceDashboard.jsx:51-74 | sorting changes no total, no signed sum and no per-category expense sum |
| FinanceDashboard.SortKeepsTies | src/components/FinanceDashboard.jsx:51 | the sorted list is in ascending date order, and transactions with the same date stay in upload order |
| Sorting.Insert | src/components/FinanceDashboard.jsx:51 | insertion adds exactly the one element |
| Sorting.InsertSorted | src/components/FinanceDashboard.jsx:51 | inserting into a sorted list keeps it sorted |
| Sorting.SortBy | src/components/FinanceDashboard.jsx:51 | the sort's result is sorted by the key and is a permutation of the input |
| Sorting.InsertKeepsKeyOrder | src/components/FinanceDashboard.jsx:51 | insertion puts the new element before all elements with its key |
| Sorting.SortIsStable | src/components/FinanceDashboard.jsx:51 | for every key, the elements with that key appear in the sorted list in their input order |
| Ledger.SignedSumIsNet | src/components/FinanceDashboard.jsx:57-65 | the running balance after a list is its income total minus its expense total |
| Ledger.ExpenseTotalIsKept | src/components/FinanceDashboard.jsx:57-66 | the expense total is the sum over every transaction whose type is not exactly "income" |
| Ledger.IncomeTotalIsKept | src/components/FinanceDashboard.jsx:57-60 | the income total is the sum over the transactions of type exactly "income" |
| Ledger.TotalsPermutation | src/components/FinanceDashboard.jsx:51-64 | reordering the transactions changes neither total |
| Tallies.AddFacts | src/components/FinanceDashboard.jsx:65 | adding to a counter object keeps existing keys in place and appends a new key last; it raises the total and the value under its key by the amount, and leaves the other keys alone |
| Tallies.TallyKeysAre | src/components/FinanceDashboard.jsx:54-74 | a counter built in one pass has the distinct keys in first-occurrence order |
| Tallies.TallySum | src/components/FinanceDashboard.jsx:54-74 | a counter's values sum to the total of the counted amounts |
| Tallies.TallyLookup | src/components/FinanceDashboard.jsx:54-74 | a counter's value under a key is the sum of the amounts of the elements with that key |
| Tallies.TallyFacts | src/components/FinanceDashboard.jsx:54-74 | the counter's keys, sum and per-key values together |
| Tallies.TallyKeys | src/components/CategoryPieChart.jsx:17-23 | a key is in the counter exactly when some element has it, and no key appears twice |
| Tallies.TallyPermutation | src/components/CategoryPieChart.jsx:17-23 | reordering the elements changes no per-key value and no key's presence |
| Tallies.LookupAbsent | src/components/Dashboard.jsx:118-119 | a key missing from an object reads as 0 |
| Buckets.Record | src/components/FinanceDashboard.jsx:78-84 | one reduce step creates the bucket for a new key at the end, or updates the existing one, and adds the amount to that bucket's income or expense only |
| Buckets.Group | src/components/FinanceDashboard.jsx:77-85 | the buckets' keys are the distinct keys in first-occurrence order; bucket incomes and expenses sum to the two totals; each bucket holds its key's totals |
| Buckets.GroupKeys | src/components/FinanceDashboard.jsx:77-85 | no key has two buckets, and a key has a bucket exactly when some transaction has that key |
| FinanceDashboard.DailyData | src/components/FinanceDashboard.jsx:77-85 | the per-day buckets are keyed by the distinct dates of the upload, in first-occurrence order, one per date, and their columns sum to the income and expense totals |
| FinanceDashboard.DailyDataBuckets | src/components/FinanceDashboard.jsx:77-85 | one bucket per distinct date of the upload; each holds that date's income and expense; the columns sum to the income and expense totals |
| FinanceDashboard.FirstMax | src/components/FinanceDashboard.jsx:164 | the stable descending sort's first entry is an entry of maximal value with no earlier entry of the same value |
| FinanceDashboard.Displayed | src/components/FinanceDashboard.jsx:164 | after the in-place sort the category array is a permutation of the categories, in non-increasing order of value |
| FinanceDashboard.DisplayedIsStable | src/components/FinanceDashboard.jsx:164 | categories of equal value keep their relative order from the counter |
| FinanceDashboard.DisplayedHeadIsMax | src/components/FinanceDashboard.jsx:164 | the first category after the sort has the largest value |
| FinanceDashboard.DisplayedHead | src/components/FinanceDashboard.jsx:164 | the first category after the sort is the earliest category of maximal value |
| FinanceDashboard.TopCategory | src/components/FinanceDashboard.jsx:164 | the card shows 'N/A' for no categories, and otherwise the name of the first maximal category, which heads the sorted array, or 'N/A' when that name is empty |
| CategoryPieChart.ProcessData | src/components/CategoryPieChart.jsx:10-26 | the pass yields a result exactly when every type is "income" or "expense" |
| CategoryPieChart.ProcessDataIsTally | src/components/CategoryPieChart.jsx:10-26 | each of the two maps is the per-category counter of that type's transactions |
| CategoryPieChart.PieSums | src/components/CategoryPieChart.jsx:17-23 | each map's values sum to the total amount of that type |
| CategoryPieChart.PieLookup | src/components/CategoryPieChart.jsx:17-23 | each map holds, under a category, the total of that type's amounts in the category |
| CategoryPieChart.PieKeys | src/components/CategoryPieChart.jsx:19-21 | each map's keys are exactly the categories occurring with its type |
| CategoryPieChart.OtherTypeUntouched | src/components/CategoryPieChart.jsx:18-22 | transactions of one type leave the other type's map unchanged, key order included |
| CategoryPieChart.NoDataBranches | src/components/CategoryPieChart.jsx:108-117 | no transactions give two empty maps; a chart is drawn instead of "No ... data available" exactly when a transaction of its type exists |
| CategoryPieChart.PiePermutation | src/components/CategoryPieChart.jsx:17-23 | reordering the transactions changes neither success nor any category's total or presence |
| Dashboard.Cutoff | src/components/Dashboard.jsx:75-85 | there is a cutoff exactly for "week", "month" and "year", and it is one of the three configured instants |
| Dashboard.AfterCutoff | src/components/Dashboard.jsx:71-86 | any other range passes every transaction; under a cutoff only transactions with a valid date pass |
| Dashboard.FilterByRange | src/components/Dashboard.jsx:71-86 | the filtered list is a subsequence of the transactions; with a cutoff, every kept transaction has a valid date at or after it; every transaction passing is kept |
| Dashboard.NoCutoffKeepsAll | src/components/Dashboard.jsx:85 | any range other than week, month and year keeps every transaction, in order |
| Dashboard.RangeIsCutoffFilter | src/components/Dashboard.jsx:75-84 | week, month and year keep exactly the transactions dated at or after their cutoff |
| Dashboard.EarlierCutoffKeepsMore | src/components/Dashboard.jsx:75-84 | a later cutoff keeps a subsequence of what an earlier one keeps |
| Dashboard.MonthlyData | src/components/Dashboard.jsx:93-108 | the monthly buckets are keyed by the distinct month names of the filtered list, in first-occurrence order, one per name, and their columns sum to its income and non-income totals |
| Dashboard.MonthlyBuckets | src/components/Dashboard.jsx:93-108 | one bucket per distinct month name; each holds that month's income and non-income totals; the buckets sum to the filtered list's totals |
| Dashboard.Abs | src/components/Dashboard.jsx:113 | `Math.abs` is non-negative and has the same magnitude as its argument |
| Dashboard.CategoryData | src/components/Dashboard.jsx:111-114 | one slice per summary key, in order, with that key's name and a non-negative value equal to the magnitude of its summary value |
| Dashboard.Spent | src/components/Dashboard.jsx:118-119 | spending is never negative; it is positive exactly when the summary value is negative, and then it is that value's magnitude; a category missing from the summary spends 0 |
| Dashboard.BudgetData | src/components/Dashboard.jsx:117-126 | one row per budget, in order, with its name, its budget, the spending read from the summary and the remainder |
| Dashboard.BudgetRowFacts | src/components/Dashboard.jsx:117-126 | spent is never negative; it is positive exactly when the summary value is negative; a missing key spends 0; spent plus remaining is the budget |
| Dashboard.PrepareChartData | src/components/Dashboard.jsx:89-129 | there is chart data exactly when there is a report; then the monthly buckets have no two equal keys and their columns sum to the filtered list's income and non-income totals; there is one non-negative slice per summary entry, of that entry's magnitude; there is one row per budget, whose spending is non-negative and adds up with the remainder to the budget |
| Dashboard.Warnings | src/components/Dashboard.jsx:290-292 | the warnings are a subsequence of the budget rows, each over budget by a positive amount; every row over budget is warned about |
| Dashboard.WarningsMeaning | src/components/Dashboard.jsx:290-301 | each warning names a budget whose spending exceeds it; "No budgets exceeded!" shows exactly when no budget is overspent |
| Dashboard.Recent | src/components/Dashboard.jsx:322 | the table shows the first min(5, n) filtered transactions, in order |
| Dashboard.RecentFacts | src/components/Dashboard.jsx:322 | a list of at most five is shown whole; the shown list is a prefix; taking the recent rows again changes nothing |

## Left out

- Network, authentication and asynchrony are not modelled, because they are I/O. This covers:
  - fetching transactions, the report and budgets
  - posting a budget
  - tokens
  - the 30-second polling (src/components/Dashboard.jsx:24-68)
  The report, budgets and transactions are parameters.
- The history view's export actions (src/components/TransactionHistory.jsx:76-155) are not modelled, because they are DOM and library I/O. These are:
  - the spreadsheet export
  - the print window
  - the CSV scraped from the page
  - the clipboard copy
- CSV tokenising (src/components/FinanceDashboard.jsx:25-28) is done by an external library, so the model starts from rows with named string fields (`FinanceDashboard.RawRow`).
- JS date semantics are external runtime behaviour.
  - **Parsing** of the uploaded date text is a parameter of `FinanceDashboard.ImportRow` and `FinanceDashboard.ImportRows` (`string -> Option<int>`). The history view and the server dashboard receive dates already parsed, as `Ledger.Date` and `TransactionHistory.Bound` values.
  - **Time zones:** days are UTC days (`Ledger.DayStart`, `Ledger.EndOfDay`), although `setHours` uses local time.
  - **Cutoffs:** the week / month / year cutoffs are fixed parameters (`Dashboard.Cutoffs`). The source reads the clock once per transaction, and calendar arithmetic (`setMonth`, `setFullYear`) is not modelled.
  - **Month names:** the locale month name is a parameter (`Date -> string`).
  - The `try`/`catch` around the range test cannot fire on the modelled values.
- Floating point is replaced by exact integer amounts, in minor units.
  - `parseFloat` is a parameter (`string -> int`).
  - `NaN` amounts are not modelled.
  - Not modelled either: `toFixed`, `toLocaleString` and the tooltip percentage.
- `Text.LowerChar`, `Text.Lower`: lower-case ASCII letters only; every other character, including non-ASCII letters that JS `toLowerCase` maps (such as 'É' to 'é'), is left unchanged, because Unicode case mapping is beyond this model.
- JS object key order is not modelled for integer-like keys, which JS moves to the front. Keys that collide with `Object.prototype` members are not modelled either. Counters are insertion-ordered lists.
- CategoryPieChart.ProcessData: any type other than "income" or "expense" yields no result. In JS a type naming an inherited member of the object (such as "constructor") does not throw.
- `FinanceDashboard.ProcessStats` requires every date to be valid. The upload cannot produce an invalid one, because `toISOString` throws first. The sort key of an invalid date is not modelled.
- The `daily` object built inside `processStats` (src/components/FinanceDashboard.jsx:48, 55, 59, 63) is never read, so it is not modelled. The per-day chart uses `dailyData`.
- When there is no report, `budgetData` is undefined and the warnings expression would throw. `Dashboard.PrepareChartData` returns `None` there, and `Dashboard.Warnings` takes the rows of a present report.
- React state, effects and re-rendering are not modelled: each effect or derived value is a pure function of its inputs.
- These presentation-only parts are not modelled:
  - the summary cards that only display the server report
  - the navigation, home, login, sign-up and profile pages
  - the forms
  - the chart widgets
  - the animated backgrounds
