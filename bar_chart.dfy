/** The bar chart of the dashboard: the current year's expenses summed
    into twelve monthly buckets. */
module BarChart {
  import opened Records

  /** The labels of the twelve bars. */
  const MonthNames: seq<string> :=
    ["Jan", "Feb", "Mar", "Apr", "May", "Jun", "Jul", "Aug", "Sep", "Oct", "Nov", "Dec"]

  /** The expense falls in month `m` of `year`. */
  function InYearMonth(year: int, m: Month): Expense -> bool {
    (e: Expense) => e.date.year == year && e.date.month == m
  }

  /** The expense falls in `year`. */
  function InYear(year: int): Expense -> bool {
    (e: Expense) => e.date.year == year
  }

  /** The buckets after adding the expenses of `s` one after the other:
      twelve zeros to start with, and each expense of `year` adds its
      amount to the bucket of its month. */
  ghost function MonthlyBuckets(s: seq<Expense>, year: int): (r: seq<int>)
    ensures |r| == 12
  {
    if s == [] then seq(12, m => 0)
    else
      var b := MonthlyBuckets(s[..|s| - 1], year);
      var e := s[|s| - 1];
      if e.date.year == year then b[e.date.month := b[e.date.month] + e.amount] else b
  }

  /** Each bucket holds the sum of that month's amounts in `year`; other
      years count nowhere. */
  lemma {:induction false} BucketIsMonthSum(s: seq<Expense>, year: int)
    ensures forall m: Month :: MonthlyBuckets(s, year)[m] == SumIf(s, InYearMonth(year, m))
  {
    if s != [] {
      BucketIsMonthSum(s[..|s| - 1], year);
    }
  }

  /** The buckets together hold the sum of the year's amounts. */
  lemma {:induction false} BucketsSumToYear(s: seq<Expense>, year: int)
    ensures SumSeq(MonthlyBuckets(s, year)) == SumIf(s, InYear(year))
  {
    if s != [] {
      var init := s[..|s| - 1];
      var e := s[|s| - 1];
      BucketsSumToYear(init, year);
      if e.date.year == year {
        SumSeqAddAt(MonthlyBuckets(init, year), e.date.month, e.amount);
      }
    } else {
      SumOfZeros(12);
    }
  }

  lemma {:induction false} SumOfZeros(n: nat)
    ensures SumSeq(seq(n, m => 0)) == 0
  {
    if n > 0 {
      assert seq(n, m => 0)[..n - 1] == seq(n - 1, m => 0);
      SumOfZeros(n - 1);
    }
  }

  /** The aggregation of the chart's effect: nothing for an empty list,
      otherwise the twelve monthly totals of `currentYear`, one per label,
      accumulated in an array. */
  method MonthlyTotals(expenses: seq<Expense>, currentYear: int) returns (r: Option<seq<int>>)
    ensures r.None? <==> |expenses| == 0
    ensures r.Some? ==> |r.value| == |MonthNames| == 12
    ensures r.Some? ==> r.value == MonthlyBuckets(expenses, currentYear)
    ensures r.Some? ==> forall m: Month :: r.value[m] == SumIf(expenses, InYearMonth(currentYear, m))
    ensures r.Some? ==> SumSeq(r.value) == SumIf(expenses, InYear(currentYear))
  {
    if |expenses| == 0 {
      return None;
    }
    var totals := new int[12](m => 0);
    var i := 0;
    while i < |expenses|
      invariant 0 <= i <= |expenses|
      invariant totals[..] == MonthlyBuckets(expenses[..i], currentYear)
    {
      var e := expenses[i];
      assert expenses[..i + 1][..i] == expenses[..i];
      if e.date.year == currentYear {
        totals[e.date.month] := totals[e.date.month] + e.amount;
      }
      i := i + 1;
    }
    assert expenses[..i] == expenses;
    BucketIsMonthSum(expenses, currentYear);
    BucketsSumToYear(expenses, currentYear);
    r := Some(totals[..]);
  }

  /** An expense of another year leaves every bucket as it was. */
  lemma OtherYearIgnored(s: seq<Expense>, e: Expense, year: int)
    requires e.date.year != year
    ensures MonthlyBuckets(s + [e], year) == MonthlyBuckets(s, year)
  {
    assert (s + [e])[..|s|] == s;
  }
}
