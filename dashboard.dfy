/** The dashboard: totals for all time, this month and the previous month,
    the change between the two months, and the five newest expenses. */
module Dashboard {
  import opened Records
  import opened Sorting

  /** A calendar month: month 0..11 of a year. */
  datatype MonthOfYear = MonthOfYear(month: Month, year: int)

  /** Months counted from year 0, so consecutive months differ by one. */
  function MonthIndex(m: MonthOfYear): int {
    m.year * 12 + m.month
  }

  function MonthOf(d: Date): MonthOfYear {
    MonthOfYear(d.month, d.year)
  }

  /** The month before `m`: January wraps to December of the year before. */
  function PreviousMonth(m: MonthOfYear): (r: MonthOfYear)
    ensures MonthIndex(r) == MonthIndex(m) - 1
    ensures r != m
  {
    if m.month == 0 then MonthOfYear(11, m.year - 1) else MonthOfYear(m.month - 1, m.year)
  }

  /** `PreviousMonth` is the only month one step back: it is determined by
      the month index alone. */
  lemma PreviousMonthUnique(m: MonthOfYear, p: MonthOfYear)
    requires MonthIndex(p) == MonthIndex(m) - 1
    ensures p == PreviousMonth(m)
  {
    var r := PreviousMonth(m);
    assert MonthIndex(p) == MonthIndex(r);
    assert p.year == r.year;
  }

  /** The expense falls in the month: same month number and same year. */
  predicate InMonth(e: Expense, m: MonthOfYear) {
    e.date.month == m.month && e.date.year == m.year
  }

  function InMonthOf(m: MonthOfYear): Expense -> bool {
    (e: Expense) => InMonth(e, m)
  }

  /** The four figures of the summary cards. */
  datatype Summary = Summary(totalExpenses: int, thisMonth: int, lastMonth: int, percentChange: real)

  /** The state before anything is computed. */
  const InitialSummary := Summary(0, 0, 0, 0.0)

  /** The change from last month to this month in percent, or 100 when last
      month is zero. */
  function PercentChange(thisMonth: int, lastMonth: int): (r: real)
    ensures lastMonth == 0 ==> r == 100.0
    ensures lastMonth != 0 ==> r * lastMonth as real == (thisMonth - lastMonth) as real * 100.0
  {
    if lastMonth == 0 then 100.0
    else ((thisMonth - lastMonth) as real / lastMonth as real) * 100.0
  }

  /** With last month positive, the change is positive exactly when this
      month is higher, and zero exactly when the two are equal. */
  lemma PercentChangeSign(thisMonth: int, lastMonth: int)
    requires lastMonth > 0
    ensures PercentChange(thisMonth, lastMonth) > 0.0 <==> thisMonth > lastMonth
    ensures PercentChange(thisMonth, lastMonth) == 0.0 <==> thisMonth == lastMonth
  {
    var r := PercentChange(thisMonth, lastMonth);
    var d := (thisMonth - lastMonth) as real;
    var l := lastMonth as real;
    assert r * l == d * 100.0;
    if r > 0.0 { assert r * l > 0.0; }
    if r <= 0.0 { assert r * l <= 0.0; }
    if r == 0.0 { assert d * 100.0 == 0.0; }
  }

  /** What the summary should be for these expenses on this day. */
  ghost function SummaryOf(expenses: seq<Expense>, today: Date): Summary {
    var cur := MonthOf(today);
    var thisMonth := SumIf(expenses, InMonthOf(cur));
    var lastMonth := SumIf(expenses, InMonthOf(PreviousMonth(cur)));
    Summary(SumAmounts(expenses), thisMonth, lastMonth, PercentChange(thisMonth, lastMonth))
  }

  /** The loop of `calculateSummary`: one pass that adds every amount to
      the total, and also to this month's or last month's sum when the
      expense falls in that month. */
  method ComputeSummary(expenses: seq<Expense>, today: Date) returns (s: Summary)
    ensures s.totalExpenses == SumAmounts(expenses)
    ensures s.thisMonth == SumIf(expenses, InMonthOf(MonthOf(today)))
    ensures s.lastMonth == SumIf(expenses, InMonthOf(PreviousMonth(MonthOf(today))))
    ensures s.percentChange == PercentChange(s.thisMonth, s.lastMonth)
    ensures s == SummaryOf(expenses, today)
  {
    var cur := MonthOf(today);
    var prev := PreviousMonth(cur);
    var total, thisMonth, lastMonth := 0, 0, 0;
    var i := 0;
    while i < |expenses|
      invariant 0 <= i <= |expenses|
      invariant total == SumAmounts(expenses[..i])
      invariant thisMonth == SumIf(expenses[..i], InMonthOf(cur))
      invariant lastMonth == SumIf(expenses[..i], InMonthOf(prev))
    {
      var e := expenses[i];
      assert expenses[..i + 1][..i] == expenses[..i];
      total := total + e.amount;
      if e.date.month == cur.month && e.date.year == cur.year {
        thisMonth := thisMonth + e.amount;
      }
      if e.date.month == prev.month && e.date.year == prev.year {
        lastMonth := lastMonth + e.amount;
      }
      i := i + 1;
    }
    assert expenses[..i] == expenses;
    s := Summary(total, thisMonth, lastMonth, PercentChange(thisMonth, lastMonth));
  }

  /** No expense counts for both months, so the two month sums add up to
      the sum over the two months together. */
  lemma MonthsDisjoint(expenses: seq<Expense>, today: Date)
    ensures var cur := MonthOf(today);
            var prev := PreviousMonth(cur);
            SumIf(expenses, (e: Expense) => InMonth(e, cur) || InMonth(e, prev))
            == SumIf(expenses, InMonthOf(cur)) + SumIf(expenses, InMonthOf(prev))
  {
    var cur := MonthOf(today);
    var prev := PreviousMonth(cur);
    SumIfDisjoint(expenses, InMonthOf(cur), InMonthOf(prev), (e: Expense) => InMonth(e, cur) || InMonth(e, prev));
  }

  /** The month sums never exceed the total when amounts are positive. */
  lemma {:induction false} MonthSumBounded(expenses: seq<Expense>, m: MonthOfYear)
    requires forall e :: e in expenses ==> e.amount > 0
    ensures 0 <= SumIf(expenses, InMonthOf(m)) <= SumAmounts(expenses)
  {
    if expenses != [] {
      var init := expenses[..|expenses| - 1];
      forall e | e in init ensures e.amount > 0 {
        assert e in expenses;
      }
      MonthSumBounded(init, m);
    }
  }

  /** The comparator of `recentExpenses`, `new Date(b.date) - new Date(a.date)`:
      newest first. */
  const ByDateNewest := SortConfig(ByDate, Desc)

  /** In a sequence sorted newest first, the first `n` are newest first,
      and nothing after position `n` is newer than anything before it. */
  lemma PrefixIsNewest(sorted: seq<Expense>, n: nat)
    requires n <= |sorted|
    requires Sorted(sorted, ByDateNewest)
    ensures forall i, j :: 0 <= i < j < n ==> !DateBefore(sorted[i].date, sorted[j].date)
    ensures forall i, e :: 0 <= i < n && e in multiset(sorted) - multiset(sorted[..n]) ==>
      !DateBefore(sorted[i].date, e.date)
  {
    forall i, j | 0 <= i < j < n ensures !DateBefore(sorted[i].date, sorted[j].date) {
      CompareMeaning(sorted[i], sorted[j], ByDateNewest);
    }
    var rest := sorted[n..];
    assert multiset(sorted) - multiset(sorted[..n]) == multiset(rest) by {
      assert sorted == sorted[..n] + rest;
    }
    forall i: int, e: Expense | 0 <= i < n && e in multiset(rest)
      ensures !DateBefore(sorted[i].date, e.date)
    {
      var k :| 0 <= k < |rest| && rest[k] == e;
      CompareMeaning(sorted[i], sorted[n + k], ByDateNewest);
    }
  }

  /** `recentExpenses`: the first five of a copy sorted newest first. */
  function RecentExpenses(expenses: seq<Expense>): (r: seq<Expense>)
    ensures |r| == if |expenses| < 5 then |expenses| else 5
    ensures multiset(r) <= multiset(expenses)
  {
    var sorted := SortBy(expenses, ByDateNewest);
    TakeSplits(sorted, 5);
    Take(sorted, 5)
  }

  /** The recent list holds five expenses (fewer only when there are fewer),
      newest first, all taken from the list, and none of the expenses left
      out is newer than any that is shown. */
  lemma RecentExpensesCorrect(expenses: seq<Expense>)
    ensures var r := RecentExpenses(expenses);
            |r| == if |expenses| < 5 then |expenses| else 5
    ensures var r := RecentExpenses(expenses);
            forall i, j :: 0 <= i < j < |r| ==> !DateBefore(r[i].date, r[j].date)
    ensures multiset(RecentExpenses(expenses)) <= multiset(expenses)
    ensures var r := RecentExpenses(expenses);
            forall i, e :: 0 <= i < |r| && e in multiset(expenses) - multiset(r) ==> !DateBefore(r[i].date, e.date)
  {
    var sorted := SortBy(expenses, ByDateNewest);
    var r := RecentExpenses(expenses);
    assert r == sorted[..|r|];
    assert multiset(expenses) == multiset(sorted);
    assert Sorted(sorted, ByDateNewest) by {
      SortByCorrect(expenses, ByDateNewest);
    }
    PrefixIsNewest(sorted, |r|);
  }

  class DashboardPage {
    var summary: Summary

    constructor ()
      ensures summary == InitialSummary
    {
      summary := InitialSummary;
    }

    /** `calculateSummary`: computes the summary and stores it only when
        some figure differs from the stored one.  `updated` is whether the
        state was set. */
    method CalculateSummary(expenses: seq<Expense>, today: Date) returns (updated: bool)
      modifies this
      ensures updated <==> old(summary) != SummaryOf(expenses, today)
      ensures summary == SummaryOf(expenses, today)
    {
      var computed := ComputeSummary(expenses, today);
      updated := false;
      if summary.totalExpenses != computed.totalExpenses
         || summary.thisMonth != computed.thisMonth
         || summary.lastMonth != computed.lastMonth
         || summary.percentChange != computed.percentChange
      {
        summary := computed;
        updated := true;
      }
    }

    /** The effect that runs when the expenses or the loading flag change:
        it computes only once loading is over and there is something to
        sum, and otherwise keeps the summary as it is. */
    method OnExpensesChanged(expenses: seq<Expense>, loading: bool, today: Date)
      modifies this
      ensures !loading && |expenses| > 0 ==> summary == SummaryOf(expenses, today)
      ensures loading || |expenses| == 0 ==> summary == old(summary)
    {
      if !loading && |expenses| > 0 {
        var _ := CalculateSummary(expenses, today);
      }
    }
  }

  /** Computing again on the same data stores nothing new. */
  method RecalculateIsStable(page: DashboardPage, expenses: seq<Expense>, today: Date) returns (again: bool)
    modifies page
    ensures page.summary == SummaryOf(expenses, today)
    ensures !again
  {
    var _ := page.CalculateSummary(expenses, today);
    again := page.CalculateSummary(expenses, today);
  }

  /** The summary stays all zeros while loading, and with no expenses. */
  method ZeroUntilLoaded(expenses: seq<Expense>, today: Date) returns (whileLoading: Summary, whenEmpty: Summary)
    ensures whileLoading == InitialSummary && whenEmpty == InitialSummary
  {
    var page := new DashboardPage();
    page.OnExpensesChanged(expenses, true, today);
    whileLoading := page.summary;
    page.OnExpensesChanged([], false, today);
    whenEmpty := page.summary;
  }
}
