/**
 * The expense report (src/components/ExpenseReport.jsx): the period ranges,
 * the filtered and sorted expense list, and the summary figures over it.
 * Instants are milliseconds since the epoch with local time taken as UTC;
 * `now` is the current instant and `today` its date.
 */
module ExpenseReport {
  import opened Wrappers
  import opened Strings
  import opened Dates
  import Seqs

  /** An expense; `amount` is in cents. */
  datatype Expense = Expense(id: int, description: string, category: string, amount: int, date: Civil)

  /** An inclusive range of instants, `start <= t && t <= end`. */
  datatype Range = Range(start: int, end: int)

  predicate InRange(t: int, r: Range) {
    r.start <= t <= r.end
  }

  /** The report's filter and sort state; an empty amount box is `None`. */
  datatype ReportFilters = ReportFilters(
    period: string,
    category: string,
    search: string,
    sortBy: string,
    sortOrder: string,
    minAmount: Option<int>,
    maxAmount: Option<int>,
    customStart: Option<Civil>,
    customEnd: Option<Civil>)

  /** The state the report opens with and `resetFilters` restores. */
  const InitialFilters := ReportFilters("all", "all", "", "date", "desc", None, None, None, None)

  /** `resetFilters`: every filter and sort field back to its initial value, whatever it was. */
  function ResetFilters(f: ReportFilters): (r: ReportFilters)
    ensures r.period == "all" && r.category == "all" && r.search == ""
    ensures r.sortBy == "date" && r.sortOrder == "desc"
    ensures r.minAmount.None? && r.maxAmount.None? && r.customStart.None? && r.customEnd.None?
  {
    InitialFilters
  }

  /** `getDateRange(period)`. */
  function DateRange(period: string, now: int, today: Civil, customStart: Option<Civil>, customEnd: Option<Civil>): Range {
    if period == "today" then Range(Instant(today), Instant(today) + MsPerDay)
    else if period == "week" then Range(Instant(today) - 7 * MsPerDay, Instant(today))
    else if period == "month" then Range(Instant(Civil(today.year, today.month, 1)), Instant(today))
    else if period == "quarter" then Range(Instant(Civil(today.year, QuarterStartMonth(today.month), 1)), Instant(today))
    else if period == "year" then Range(Instant(Civil(today.year, 1, 1)), Instant(today))
    else if period == "custom" then
      Range(if customStart.Some? then Instant(customStart.value) else 0,
        if customEnd.Some? then Instant(customEnd.value) else now)
    else Range(0, now)
  }

  /** `Math.floor(getMonth() / 3) * 3`, with months counted from 1. */
  function QuarterStartMonth(month: int): (m: int)
    ensures 1 <= month <= 12 ==> m in {1, 4, 7, 10} && m <= month < m + 3
  {
    (month - 1) / 3 * 3 + 1
  }

  /** A date's instant lies in a range exactly when its day number lies between the bounds' day numbers. */
  lemma InstantBetween(d: Civil, lo: Civil, hi: Civil)
    ensures Instant(lo) <= Instant(d) <= Instant(hi) <==> DayNumber(lo) <= DayNumber(d) <= DayNumber(hi)
  {
  }

  /**
   * The period ranges, on an expense date `d`, in day numbers. 'today' reaches
   * midnight at the end of the day inclusively, so it also keeps expenses dated
   * tomorrow; 'week' spans the seven days before today and today; 'month',
   * 'quarter' and 'year' run from the first of the month, of the quarter's first
   * month and of January; any other period runs from the epoch to now, so
   * expenses dated after today are dropped.
   */
  lemma DateRangeDays(d: Civil, period: string, now: int, today: Civil)
    requires Valid(today)
    requires DayNumber(today) == now / MsPerDay
    ensures var r := DateRange(period, now, today, None, None);
      var n, t := DayNumber(d), DayNumber(today);
      && (period == "today" ==> (InRange(Instant(d), r) <==> t <= n <= t + 1))
      && (period == "week" ==> (InRange(Instant(d), r) <==> t - 7 <= n <= t))
      && (period == "month" ==> (InRange(Instant(d), r) <==> DayNumber(Civil(today.year, today.month, 1)) <= n <= t))
      && (period == "quarter" ==>
            (InRange(Instant(d), r) <==> DayNumber(Civil(today.year, QuarterStartMonth(today.month), 1)) <= n <= t))
      && (period == "year" ==> (InRange(Instant(d), r) <==> DayNumber(Civil(today.year, 1, 1)) <= n <= t))
      && (period !in {"today", "week", "month", "quarter", "year", "custom"} ==>
            (InRange(Instant(d), r) <==> 0 <= n <= t))
  {
    var q, rem := now / MsPerDay, now % MsPerDay;
    assert now == q * MsPerDay + rem && 0 <= rem < MsPerDay;
  }

  /** A custom range with a missing bound falls back to the epoch or to now. */
  lemma CustomRangeDefaults(now: int, today: Civil, customStart: Option<Civil>, customEnd: Option<Civil>)
    ensures var r := DateRange("custom", now, today, customStart, customEnd);
      && r.start == (if customStart.Some? then Instant(customStart.value) else 0)
      && r.end == (if customEnd.Some? then Instant(customEnd.value) else now)
  {
  }

  /** The five tests `filteredExpenses` combines. */
  predicate Matches(e: Expense, f: ReportFilters, range: Range) {
    && InRange(Instant(e.date), range)
    && (f.category == "all" || e.category == f.category)
    && (IncludesIgnoringCase(e.description, f.search) || IncludesIgnoringCase(e.category, f.search))
    && (f.minAmount.None? || e.amount >= f.minAmount.value)
    && (f.maxAmount.None? || e.amount <= f.maxAmount.value)
  }

  /** The sort key's comparison is at most 0: amount, category, description, or (by default) date. */
  predicate KeyLe(sortBy: string, a: Expense, b: Expense) {
    if sortBy == "amount" then a.amount <= b.amount
    else if sortBy == "category" then LexLe(a.category, b.category)
    else if sortBy == "description" then LexLe(a.description, b.description)
    else Instant(a.date) <= Instant(b.date)
  }

  /** `a` may stay before `b`: the comparison, negated unless the order is 'asc'. */
  predicate Precedes(f: ReportFilters, a: Expense, b: Expense) {
    if f.sortOrder == "asc" then KeyLe(f.sortBy, a, b) else KeyLe(f.sortBy, b, a)
  }

  /** `filteredExpenses`: filter, then a stable sort by the comparator. */
  function FilteredExpenses(expenses: seq<Expense>, f: ReportFilters, now: int, today: Civil): seq<Expense> {
    var range := DateRange(f.period, now, today, f.customStart, f.customEnd);
    Seqs.SortBy(Seqs.Filter(expenses, (e: Expense) => Matches(e, f, range)), (a: Expense, b: Expense) => Precedes(f, a, b))
  }

  /** Every sort key gives a comparator consistent enough to sort by. */
  lemma PrecedesPreorder(f: ReportFilters)
    ensures Seqs.TotalPreorder((a: Expense, b: Expense) => Precedes(f, a, b))
  {
    forall a: Expense, b: Expense
      ensures KeyLe(f.sortBy, a, b) || KeyLe(f.sortBy, b, a)
    {
      LexLeTotal(a.category, b.category);
      LexLeTotal(a.description, b.description);
    }
    forall a: Expense, b: Expense, c: Expense | KeyLe(f.sortBy, a, b) && KeyLe(f.sortBy, b, c)
      ensures KeyLe(f.sortBy, a, c)
    {
      if f.sortBy == "category" {
        LexLeTransitive(a.category, b.category, c.category);
      } else if f.sortBy == "description" {
        LexLeTransitive(a.description, b.description, c.description);
      }
    }
  }

  /**
   * The list is a permutation of exactly the expenses meeting all five tests,
   * ordered by the chosen key: ascending for 'asc', descending otherwise.
   */
  lemma FilteredExpensesSpec(expenses: seq<Expense>, f: ReportFilters, now: int, today: Civil)
    ensures var range := DateRange(f.period, now, today, f.customStart, f.customEnd);
      var r := FilteredExpenses(expenses, f, now, today);
      && multiset(r) == multiset(Seqs.Filter(expenses, (e: Expense) => Matches(e, f, range)))
      && (forall e :: e in r <==> e in expenses && Matches(e, f, range))
      && (forall i, j :: 0 <= i < j < |r| ==> Precedes(f, r[i], r[j]))
  {
    var range := DateRange(f.period, now, today, f.customStart, f.customEnd);
    PrecedesPreorder(f);
    Seqs.FilterThenSort(expenses, (e: Expense) => Matches(e, f, range), (a: Expense, b: Expense) => Precedes(f, a, b));
  }

  /** 'all' category, an empty search and empty amount boxes impose no constraint. */
  lemma InactiveCriteria(e: Expense, f: ReportFilters, range: Range)
    requires f.category == "all" && f.search == "" && f.minAmount.None? && f.maxAmount.None?
    ensures Matches(e, f, range) <==> InRange(Instant(e.date), range)
  {
    IncludesEmptyTerm(e.description);
  }

  /** After `resetFilters` the report shows exactly the expenses dated from the epoch to today, newest first. */
  lemma ResetShowsAllToToday(expenses: seq<Expense>, old_filters: ReportFilters, now: int, today: Civil)
    requires Valid(today)
    requires DayNumber(today) == now / MsPerDay
    ensures var r := FilteredExpenses(expenses, ResetFilters(old_filters), now, today);
      && (forall e :: e in r <==> e in expenses && 0 <= DayNumber(e.date) <= DayNumber(today))
      && (forall i, j :: 0 <= i < j < |r| ==> DayNumber(r[j].date) <= DayNumber(r[i].date))
  {
    var f := ResetFilters(old_filters);
    FilteredExpensesSpec(expenses, f, now, today);
    forall e | e in expenses
      ensures Matches(e, f, DateRange(f.period, now, today, None, None)) <==> 0 <= DayNumber(e.date) <= DayNumber(today)
    {
      InactiveCriteria(e, f, DateRange(f.period, now, today, None, None));
      DateRangeDays(e.date, f.period, now, today);
    }
  }

  /** The month a date falls in, the key `toLocaleDateString` gives it. */
  function MonthOf(e: Expense): (int, int) {
    (e.date.year, e.date.month)
  }

  /**
   * The category with the largest total: the first entry after a stable sort
   * by total, descending, so on equal totals the earliest such entry.
   */
  function TopCategory(entries: seq<(string, int)>): (r: (string, int))
    ensures entries == [] ==> r == ("N/A", 0)
    ensures entries != [] ==> r in entries && forall i :: 0 <= i < |entries| ==> entries[i].1 <= r.1
    ensures entries != [] ==>
      exists k :: 0 <= k < |entries| && entries[k] == r && forall i :: 0 <= i < k ==> entries[i].1 < r.1
  {
    if entries == [] then ("N/A", 0)
    else
      var byTotal := (a: (string, int), b: (string, int)) => b.1 <= a.1;
      Seqs.SortedHead(entries, byTotal);
      Seqs.SortedHeadIsFirst(entries, byTotal);
      Seqs.SortBy(entries, byTotal)[0]
  }

  /** `count > 0 ? total / count : 0`. */
  function Average(total: int, count: nat): (a: real)
    ensures count > 0 ==> a * (count as real) == total as real
    ensures count == 0 ==> a == 0.0
  {
    if count > 0 then total as real / count as real else 0.0
  }

  datatype Summary = Summary(
    total: int,
    average: real,
    count: nat,
    categoryTotals: seq<(string, int)>,
    monthlyTotals: seq<((int, int), int)>,
    topCategory: (string, int),
    averagePerDay: real)

  function Amount(e: Expense): int {
    e.amount
  }

  function Category(e: Expense): string {
    e.category
  }

  /** `categoryTotals`: one entry per category present, in order of first appearance, holding that category's sum. */
  function CategoryTotals(filtered: seq<Expense>): (r: seq<(string, int)>)
    ensures Seqs.SumValues(r) == Seqs.Sum(filtered, Amount)
    ensures Seqs.NoDuplicates(Seqs.Keys(r))
    ensures forall c :: c in Seqs.Keys(r) <==> Seqs.HasKey(filtered, Category, c)
    ensures forall i :: 0 <= i < |r| ==> r[i].1 == Seqs.SumWhere(filtered, Category, Amount, r[i].0)
  {
    Seqs.TotalsEntries(filtered, Category, Amount);
    Seqs.Totals(filtered, Category, Amount)
  }

  /** `monthlyTotals`: one entry per (year, month) present, in order of first appearance, holding that month's sum. */
  function MonthlyTotals(filtered: seq<Expense>): (r: seq<((int, int), int)>)
    ensures Seqs.SumValues(r) == Seqs.Sum(filtered, Amount)
    ensures Seqs.NoDuplicates(Seqs.Keys(r))
    ensures forall m :: m in Seqs.Keys(r) <==> Seqs.HasKey(filtered, MonthOf, m)
    ensures forall i :: 0 <= i < |r| ==> r[i].1 == Seqs.SumWhere(filtered, MonthOf, Amount, r[i].0)
    ensures r == [] <==> filtered == []
  {
    Seqs.TotalsEntries(filtered, MonthOf, Amount);
    var r := Seqs.Totals(filtered, MonthOf, Amount);
    assert filtered != [] ==> Seqs.HasKey(filtered, MonthOf, MonthOf(filtered[0]));
    r
  }

  /** `summary` over the filtered list. */
  function SummaryOf(filtered: seq<Expense>): (s: Summary)
    ensures s.count == |filtered|
    ensures s.total == Seqs.Sum(filtered, Amount)
    ensures s.average == Average(s.total, s.count)
    ensures s.categoryTotals == CategoryTotals(filtered)
    ensures s.monthlyTotals == MonthlyTotals(filtered)
    ensures s.categoryTotals == [] ==> s.topCategory == ("N/A", 0)
    ensures s.categoryTotals != [] ==>
      s.topCategory in s.categoryTotals && forall i :: 0 <= i < |s.categoryTotals| ==> s.categoryTotals[i].1 <= s.topCategory.1
    ensures s.averagePerDay == PerDay(s.total, |s.monthlyTotals|)
  {
    var total := Seqs.Sum(filtered, Amount);
    var count := |filtered|;
    var categories := CategoryTotals(filtered);
    var months := MonthlyTotals(filtered);
    Summary(total, Average(total, count), count, categories, months, TopCategory(categories), PerDay(total, |months|))
  }

  /** `Math.max(1, monthCount * 30)`: thirty days per month shown, and at least one. */
  function PerDayDivisor(monthCount: nat): (d: nat)
    ensures monthCount == 0 ==> d == 1
    ensures monthCount > 0 ==> d == 30 * monthCount
  {
    if monthCount * 30 > 1 then monthCount * 30 else 1
  }

  /** `total / Math.max(1, monthCount * 30)`. */
  function PerDay(total: int, monthCount: nat): (a: real)
    ensures a * PerDayDivisor(monthCount) as real == total as real
  {
    total as real / PerDayDivisor(monthCount) as real
  }

  /** The top category is the one with the largest sum of amounts among the categories present. */
  lemma TopCategoryIsLargestSum(filtered: seq<Expense>, c: string)
    requires Seqs.HasKey(filtered, Category, c)
    ensures Seqs.HasKey(filtered, Category, SummaryOf(filtered).topCategory.0)
    ensures SummaryOf(filtered).topCategory.1 == Seqs.SumWhere(filtered, Category, Amount, SummaryOf(filtered).topCategory.0)
    ensures Seqs.SumWhere(filtered, Category, Amount, c) <= SummaryOf(filtered).topCategory.1
  {
    var s := SummaryOf(filtered);
    var entries := s.categoryTotals;
    var keys := Seqs.Keys(entries);
    assert c in keys;
    var i :| 0 <= i < |keys| && keys[i] == c;
    var j :| 0 <= j < |entries| && entries[j] == s.topCategory;
    assert keys[j] == s.topCategory.0;
  }

  /** The category filter's options: each category once, in order of first appearance. */
  function Categories(expenses: seq<Expense>): (r: seq<string>)
    ensures Seqs.NoDuplicates(r)
    ensures forall c :: c in r <==> exists i :: 0 <= i < |expenses| && expenses[i].category == c
    ensures forall i, j, k :: 0 <= i < j < |r| && 0 <= k < |expenses| && expenses[k].category == r[j] ==>
      exists m :: 0 <= m < k && expenses[m].category == r[i]
  {
    var cats := Seqs.Map(expenses, (e: Expense) => e.category);
    assert forall c :: c in cats <==> exists i :: 0 <= i < |expenses| && expenses[i].category == c by {
      forall c | c in cats ensures exists i :: 0 <= i < |expenses| && expenses[i].category == c {
        var i :| 0 <= i < |cats| && cats[i] == c;
      }
    }
    var r := Seqs.Distinct(cats);
    assert forall i, j, k :: 0 <= i < j < |r| && 0 <= k < |expenses| && expenses[k].category == r[j] ==>
      exists m :: 0 <= m < k && expenses[m].category == r[i] by {
      forall i, j, k | 0 <= i < j < |r| && 0 <= k < |expenses| && expenses[k].category == r[j]
        ensures exists m :: 0 <= m < k && expenses[m].category == r[i]
      {
        assert cats[k] == r[j];
        var m :| 0 <= m < k && cats[..k][m] == r[i];
        assert cats[m] == r[i];
      }
    }
    r
  }
}
