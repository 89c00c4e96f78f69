/** The transaction history view: the search / category / date-range
    filter over the transaction list, the category options of its
    drop-down, and the reset of all filters. */
module TransactionHistory {
  import opened Seqs
  import opened Text
  import opened Ledger

  /** One date input of the range filter: left empty, holding text that
      does not parse as a date, or holding a date that parses to instant `ms`. */
  datatype Bound = Unset | Unparsed | On(ms: int)

  /** The filter state of the view. */
  datatype FilterSpec = FilterSpec(searchTerm: string, category: string, start: Bound, end: Bound)

  /** The state `resetFilters` installs; it is also the view's initial state. */
  function ResetSpec(): FilterSpec {
    FilterSpec("", "all", Unset, Unset)
  }

  /** Case-insensitive substring test of the search term in the description. */
  predicate MatchesText(t: Transaction, term: string) {
    Contains(Lower(t.description), Lower(term))
  }

  /** Case-insensitive equality of the category with the selected one. */
  predicate MatchesCategory(t: Transaction, selected: string) {
    Lower(t.category) == Lower(selected)
  }

  /** The date-range test applied to one transaction: an invalid transaction
      date never matches; a bound that is unset or does not parse imposes
      nothing; the start bound is inclusive, and the end bound admits the
      whole of its day. */
  predicate InRange(t: Transaction, start: Bound, end: Bound) {
    match t.date
    case Invalid => false
    case At(ms) =>
      (start.On? ==> ms >= start.ms) && (end.On? ==> ms <= EndOfDay(end.ms))
  }

  /** `if (searchTerm)`: the empty string switches the text filter off. */
  predicate TextActive(spec: FilterSpec) { spec.searchTerm != "" }

  predicate CategoryActive(spec: FilterSpec) { spec.category != "all" }

  /** `if (dateRange.start || dateRange.end)`: any non-empty input switches
      the date filter on, even one that does not parse. */
  predicate DateActive(spec: FilterSpec) { spec.start != Unset || spec.end != Unset }

  /** The conjunction of the active predicates. */
  predicate Matches(t: Transaction, spec: FilterSpec)
    ensures spec == ResetSpec() ==> Matches(t, spec)
    ensures Matches(t, spec) && DateActive(spec) ==> t.date.At?
  {
    && (TextActive(spec) ==> MatchesText(t, spec.searchTerm))
    && (CategoryActive(spec) ==> MatchesCategory(t, spec.category))
    && (DateActive(spec) ==> InRange(t, spec.start, spec.end))
  }

  function TextTest(term: string): Transaction -> bool {
    t => MatchesText(t, term)
  }

  function CategoryTest(selected: string): Transaction -> bool {
    t => MatchesCategory(t, selected)
  }

  function RangeTest(start: Bound, end: Bound): Transaction -> bool {
    t => InRange(t, start, end)
  }

  function Matcher(spec: FilterSpec): Transaction -> bool {
    t => Matches(t, spec)
  }

  /** `if (searchTerm) results = results.filter(...)` */
  function ByText(xs: seq<Transaction>, spec: FilterSpec): (r: seq<Transaction>)
    ensures IsSubseq(r, xs)
    ensures !TextActive(spec) ==> r == xs
    ensures TextActive(spec) ==> forall i :: 0 <= i < |r| ==> MatchesText(r[i], spec.searchTerm)
    ensures forall x :: x in xs && (TextActive(spec) ==> MatchesText(x, spec.searchTerm)) ==> x in r
  {
    if TextActive(spec) then Keep(xs, TextTest(spec.searchTerm))
    else
      SubseqRefl(xs);
      xs
  }

  /** `if (selectedCategory !== "all") results = results.filter(...)` */
  function ByCategory(xs: seq<Transaction>, spec: FilterSpec): (r: seq<Transaction>)
    ensures IsSubseq(r, xs)
    ensures !CategoryActive(spec) ==> r == xs
    ensures CategoryActive(spec) ==> forall i :: 0 <= i < |r| ==> MatchesCategory(r[i], spec.category)
    ensures forall x :: x in xs && (CategoryActive(spec) ==> MatchesCategory(x, spec.category)) ==> x in r
  {
    if CategoryActive(spec) then Keep(xs, CategoryTest(spec.category))
    else
      SubseqRefl(xs);
      xs
  }

  /** `if (dateRange.start || dateRange.end) results = results.filter(...)` */
  function ByDate(xs: seq<Transaction>, spec: FilterSpec): (r: seq<Transaction>)
    ensures IsSubseq(r, xs)
    ensures !DateActive(spec) ==> r == xs
    ensures DateActive(spec) ==> forall i :: 0 <= i < |r| ==> InRange(r[i], spec.start, spec.end)
    ensures forall x :: x in xs && (DateActive(spec) ==> InRange(x, spec.start, spec.end)) ==> x in r
  {
    if DateActive(spec) then Keep(xs, RangeTest(spec.start, spec.end))
    else
      SubseqRefl(xs);
      xs
  }

  /** The filter effect: the text, category and date filters applied one
      after another, each only when it is switched on. */
  function ApplyFilters(xs: seq<Transaction>, spec: FilterSpec): (r: seq<Transaction>)
    ensures IsSubseq(r, xs)
    ensures forall i :: 0 <= i < |r| ==> Matches(r[i], spec)
    ensures forall x :: x in xs && Matches(x, spec) ==> x in r
    ensures multiset(r) <= multiset(xs)
  {
    FiltersAreConjunction(xs, spec);
    var r := ByDate(ByCategory(ByText(xs, spec), spec), spec);
    SubseqMultiset(r, xs);
    r
  }

  /** The category drop-down: "all" first, then every category of the list
      once, in order of first occurrence. */
  function CategoryOptions(xs: seq<Transaction>): (r: seq<string>)
    ensures |r| > 0 && r[0] == "all"
    ensures NoDuplicates(r[1..])
    ensures forall c :: c in r[1..] <==> exists i :: 0 <= i < |xs| && xs[i].category == c
    ensures FirstSeenOrder(r[1..], Map(xs, CategoryOf))
  {
    var d := Distinct(Map(xs, CategoryOf));
    forall c
      ensures c in d <==> exists i :: 0 <= i < |xs| && xs[i].category == c
    {
      DistinctMap(xs, CategoryOf, c);
    }
    DistinctFirstSeen(Map(xs, CategoryOf));
    var r := ["all"] + d;
    assert r[1..] == d;
    r
  }

  // ---------------------------------------------------------------------

  /** Each filter stage, switched on or off, keeps the transactions
      passing "stage off, or its predicate holds". */
  function TextStage(spec: FilterSpec): Transaction -> bool {
    t => TextActive(spec) ==> MatchesText(t, spec.searchTerm)
  }

  function CategoryStage(spec: FilterSpec): Transaction -> bool {
    t => CategoryActive(spec) ==> MatchesCategory(t, spec.category)
  }

  function DateStage(spec: FilterSpec): Transaction -> bool {
    t => DateActive(spec) ==> InRange(t, spec.start, spec.end)
  }

  lemma {:induction false} TextStageIsKeep(xs: seq<Transaction>, spec: FilterSpec)
    ensures ByText(xs, spec) == Keep(xs, TextStage(spec))
  {
    if TextActive(spec) {
      KeepCongruent(xs, TextTest(spec.searchTerm), TextStage(spec));
    } else {
      KeepAll(xs, TextStage(spec));
    }
  }

  lemma {:induction false} CategoryStageIsKeep(xs: seq<Transaction>, spec: FilterSpec)
    ensures ByCategory(xs, spec) == Keep(xs, CategoryStage(spec))
  {
    if CategoryActive(spec) {
      KeepCongruent(xs, CategoryTest(spec.category), CategoryStage(spec));
    } else {
      KeepAll(xs, CategoryStage(spec));
    }
  }

  lemma {:induction false} DateStageIsKeep(xs: seq<Transaction>, spec: FilterSpec)
    ensures ByDate(xs, spec) == Keep(xs, DateStage(spec))
  {
    if DateActive(spec) {
      KeepCongruent(xs, RangeTest(spec.start, spec.end), DateStage(spec));
    } else {
      KeepAll(xs, DateStage(spec));
    }
  }

  /** The three filters in a row keep exactly the transactions that pass
      every active predicate, in their original order and multiplicity. */
  lemma {:induction false} FiltersAreConjunction(xs: seq<Transaction>, spec: FilterSpec)
    ensures ByDate(ByCategory(ByText(xs, spec), spec), spec) == Keep(xs, Matcher(spec))
  {
    var s1, s2, s3 := TextStage(spec), CategoryStage(spec), DateStage(spec);
    TextStageIsKeep(xs, spec);
    CategoryStageIsKeep(Keep(xs, s1), spec);
    KeepKeep(xs, s1, s2);
    DateStageIsKeep(Keep(xs, Both(s1, s2)), spec);
    KeepKeep(xs, Both(s1, s2), s3);
    forall i | 0 <= i < |xs|
      ensures Both(Both(s1, s2), s3)(xs[i]) == Matcher(spec)(xs[i])
    {
      StagesAt(xs[i], spec);
    }
    KeepCongruent(xs, Both(Both(s1, s2), s3), Matcher(spec));
  }

  lemma {:induction false} StagesAt(t: Transaction, spec: FilterSpec)
    ensures Both(Both(TextStage(spec), CategoryStage(spec)), DateStage(spec))(t) == Matcher(spec)(t)
  {
    assert Both(TextStage(spec), CategoryStage(spec))(t) == (TextStage(spec)(t) && CategoryStage(spec)(t));
  }

  /** Filtering the filtered list again with the same spec changes nothing. */
  lemma {:induction false} FilterIdempotent(xs: seq<Transaction>, spec: FilterSpec)
    ensures ApplyFilters(ApplyFilters(xs, spec), spec) == ApplyFilters(xs, spec)
  {
    FiltersAreConjunction(xs, spec);
    FiltersAreConjunction(ApplyFilters(xs, spec), spec);
    KeepIdempotent(xs, Matcher(spec));
  }

  /** After `resetFilters` (and initially) every transaction is shown, in order. */
  lemma {:induction false} ResetShowsAll(xs: seq<Transaction>)
    ensures ApplyFilters(xs, ResetSpec()) == xs
    ensures forall i :: 0 <= i < |xs| ==> Matches(xs[i], ResetSpec())
  {
  }

  /** With any date input filled in, a transaction whose date is invalid is
      never shown. */
  lemma {:induction false} InvalidDateExcluded(xs: seq<Transaction>, spec: FilterSpec, t: Transaction)
    requires DateActive(spec) && t.date == Invalid
    ensures t !in ApplyFilters(xs, spec)
  {
  }

  /** The end bound admits the whole of its day and nothing after it: an
      instant passes the end test exactly when its day is not after the end day. */
  lemma {:induction false} EndBoundIsWholeDay(ms: int, end: int)
    ensures ms <= EndOfDay(end) <==> DayStart(ms) <= DayStart(end)
  {
    var a, b := ms / MsPerDay, end / MsPerDay;
    assert DayStart(ms) == a * MsPerDay;
    assert DayStart(end) == b * MsPerDay;
    if ms <= EndOfDay(end) {
      assert a * MsPerDay < (b + 1) * MsPerDay;
      assert a <= b;
    } else {
      assert (b + 1) * MsPerDay <= ms;
      assert b + 1 <= a;
    }
  }

  /** Both bounds inclusive: a valid date passes two parsed bounds exactly
      when it is at or after the start instant and on or before the end day. */
  lemma {:induction false} RangeIsInclusive(t: Transaction, start: int, end: int)
    requires t.date.At?
    ensures InRange(t, On(start), On(end)) <==>
      start <= t.date.ms && DayStart(t.date.ms) <= DayStart(end)
  {
    EndBoundIsWholeDay(t.date.ms, end);
  }

  function HasDate(t: Transaction): bool { t.date.At? }

  lemma {:induction false} UnparsedBoundKeep(xs: seq<Transaction>, spec: FilterSpec)
    requires spec.start == Unparsed
    ensures Keep(xs, Matcher(spec)) == Keep(Keep(xs, Matcher(spec.(start := Unset))), HasDate)
  {
    var spec' := spec.(start := Unset);
    KeepKeep(xs, Matcher(spec'), HasDate);
    forall i | 0 <= i < |xs|
      ensures Both(Matcher(spec'), HasDate)(xs[i]) == Matcher(spec)(xs[i])
    {
      UnparsedBoundAt(xs[i], spec);
    }
    KeepCongruent(xs, Both(Matcher(spec'), HasDate), Matcher(spec));
  }

  lemma {:induction false} UnparsedBoundAt(t: Transaction, spec: FilterSpec)
    requires spec.start == Unparsed
    ensures Both(Matcher(spec.(start := Unset)), HasDate)(t) == Matcher(spec)(t)
  {
    var spec' := spec.(start := Unset);
    assert Both(Matcher(spec'), HasDate)(t) == (Matches(t, spec') && HasDate(t));
    assert Matcher(spec)(t) == Matches(t, spec);
    assert InRange(t, spec.start, spec.end) == (t.date.At? && InRange(t, spec'.start, spec'.end));
  }

  /** A date input that does not parse is ignored as if empty, except that
      it switches the date filter on and so removes the transactions with
      invalid dates. */
  lemma {:induction false} UnparsedBoundIgnored(xs: seq<Transaction>, spec: FilterSpec)
    requires spec.start == Unparsed
    ensures ApplyFilters(xs, spec) == Keep(ApplyFilters(xs, spec.(start := Unset)), HasDate)
  {
    FiltersAreConjunction(xs, spec);
    FiltersAreConjunction(xs, spec.(start := Unset));
    UnparsedBoundKeep(xs, spec);
  }

  lemma {:induction false} UnparsedEndKeep(xs: seq<Transaction>, spec: FilterSpec)
    requires spec.end == Unparsed
    ensures Keep(xs, Matcher(spec)) == Keep(Keep(xs, Matcher(spec.(end := Unset))), HasDate)
  {
    var spec' := spec.(end := Unset);
    KeepKeep(xs, Matcher(spec'), HasDate);
    forall i | 0 <= i < |xs|
      ensures Both(Matcher(spec'), HasDate)(xs[i]) == Matcher(spec)(xs[i])
    {
      UnparsedEndAt(xs[i], spec);
    }
    KeepCongruent(xs, Both(Matcher(spec'), HasDate), Matcher(spec));
  }

  lemma {:induction false} UnparsedEndAt(t: Transaction, spec: FilterSpec)
    requires spec.end == Unparsed
    ensures Both(Matcher(spec.(end := Unset)), HasDate)(t) == Matcher(spec)(t)
  {
    var spec' := spec.(end := Unset);
    assert Both(Matcher(spec'), HasDate)(t) == (Matches(t, spec') && HasDate(t));
    assert Matcher(spec)(t) == Matches(t, spec);
    assert InRange(t, spec.start, spec.end) == (t.date.At? && InRange(t, spec'.start, spec'.end));
  }

  /** The same for an end input that does not parse. */
  lemma {:induction false} UnparsedEndIgnored(xs: seq<Transaction>, spec: FilterSpec)
    requires spec.end == Unparsed
    ensures ApplyFilters(xs, spec) == Keep(ApplyFilters(xs, spec.(end := Unset)), HasDate)
  {
    FiltersAreConjunction(xs, spec);
    FiltersAreConjunction(xs, spec.(end := Unset));
    UnparsedEndKeep(xs, spec);
  }

  /** Filtering a pair whose first element fails the filters and whose
      second passes leaves the second alone. */
  lemma HiddenThenShown(a: Transaction, b: Transaction, spec: FilterSpec)
    requires !Matches(a, spec) && Matches(b, spec)
    ensures ApplyFilters([a, b], spec) == [b]
  {
    var p := Matcher(spec);
    FiltersAreConjunction([a, b], spec);
    assert [a, b][..1] == [a] && [a][..0] == [];
    KeepSnoc([a, b], p);
    KeepSnoc([a], p);
  }

  /** Example: with both date inputs on 2 January 2024, a transaction dated
      1 January 2024 is hidden and one dated 2 January 2024 is shown. */
  lemma {:induction false} SameDayRangeExample()
    ensures
      var newYear := Transaction(At(1_704_067_200_000), "income", "Gift", 5000, "From family");
      var rent := Transaction(At(1_704_153_600_000), "expense", "Rent", 120000, "January rent");
      ApplyFilters([newYear, rent], FilterSpec("", "all", On(1_704_153_600_000), On(1_704_153_600_000))) == [rent]
  {
    var newYear := Transaction(At(1_704_067_200_000), "income", "Gift", 5000, "From family");
    var rent := Transaction(At(1_704_153_600_000), "expense", "Rent", 120000, "January rent");
    var spec := FilterSpec("", "all", On(1_704_153_600_000), On(1_704_153_600_000));
    assert !Matches(newYear, spec) && Matches(rent, spec);
    HiddenThenShown(newYear, rent, spec);
  }
}
