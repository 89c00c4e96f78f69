/** The transaction record every view works on, and the income/expense
    classification and totals they share. */
module Ledger {
  import opened Seqs

  datatype Option<+T> = None | Some(value: T)

  /** The result of `new Date(s)`: an instant in milliseconds since the
      epoch, or the invalid date (whose `getTime()` is NaN). */
  datatype Date = Invalid | At(ms: int)

  const MsPerDay: int := 86_400_000

  /** A transaction as the views receive it. `kind` is the source's `type`
      field and is free text: the views decide what counts as income. */
  datatype Transaction = Transaction(
    date: Date,
    kind: string,
    category: string,
    amount: int,
    description: string)

  function DateOf(t: Transaction): Date { t.date }
  function CategoryOf(t: Transaction): string { t.category }
  function AmountOf(t: Transaction): int { t.amount }

  /** `t.type === 'income'`: exact, case-sensitive string equality. */
  predicate IsIncome(t: Transaction) { t.kind == "income" }

  /** The `else` branch of the income test: every other type string. */
  predicate TakesExpenseBranch(t: Transaction) { !IsIncome(t) }

  function IncomePart(t: Transaction): int { if IsIncome(t) then t.amount else 0 }
  function ExpensePart(t: Transaction): int { if IsIncome(t) then 0 else t.amount }

  /** The change a transaction makes to a running balance. */
  function Signed(t: Transaction): int { if IsIncome(t) then t.amount else -t.amount }

  function IncomeTotal(xs: seq<Transaction>): int { SumOf(xs, IncomePart) }
  function ExpenseTotal(xs: seq<Transaction>): int { SumOf(xs, ExpensePart) }

  /** Every transaction carries a valid date. */
  predicate AllDated(xs: seq<Transaction>) {
    forall i :: 0 <= i < |xs| ==> xs[i].date.At?
  }

  /** Midnight (UTC) of the day holding instant `ms`. */
  function DayStart(ms: int): (r: int)
    ensures r <= ms < r + MsPerDay
    ensures r % MsPerDay == 0
  {
    ms - ms % MsPerDay
  }

  /** The last millisecond (23:59:59.999) of the day holding instant `ms`. */
  function EndOfDay(ms: int): (r: int)
    ensures ms <= r < ms + MsPerDay
    ensures DayStart(r) == DayStart(ms)
    ensures (r + 1) % MsPerDay == 0
  {
    DayStart(ms) + MsPerDay - 1
  }

  // ---------------------------------------------------------------------

  /** The running balance after all of `xs` is income minus expense. */
  lemma {:induction false} SignedSumIsNet(xs: seq<Transaction>)
    ensures SumOf(xs, Signed) == IncomeTotal(xs) - ExpenseTotal(xs)
    decreases |xs|
  {
    if |xs| > 0 {
      SignedSumIsNet(xs[..|xs|-1]);
    }
  }

  /** The expense total is the sum of the amounts of the non-income entries. */
  lemma {:induction false} ExpenseTotalIsKept(xs: seq<Transaction>)
    ensures ExpenseTotal(xs) == SumOf(Keep(xs, TakesExpenseBranch), AmountOf)
  {
    SumKeep(xs, TakesExpenseBranch, AmountOf);
    SumCongruent(xs, ExpensePart, Masked(TakesExpenseBranch, AmountOf));
  }

  /** The income total is the sum of the amounts of the income entries. */
  lemma {:induction false} IncomeTotalIsKept(xs: seq<Transaction>)
    ensures IncomeTotal(xs) == SumOf(Keep(xs, IsIncome), AmountOf)
  {
    SumKeep(xs, IsIncome, AmountOf);
    SumCongruent(xs, IncomePart, Masked(IsIncome, AmountOf));
  }

  /** Totals do not depend on the order of the transactions. */
  lemma {:induction false} TotalsPermutation(a: seq<Transaction>, b: seq<Transaction>)
    requires multiset(a) == multiset(b)
    ensures IncomeTotal(a) == IncomeTotal(b)
    ensures ExpenseTotal(a) == ExpenseTotal(b)
  {
    SumPermutation(a, b, IncomePart);
    SumPermutation(a, b, ExpensePart);
  }
}
