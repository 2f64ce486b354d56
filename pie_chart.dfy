/** The pie chart of the dashboard: a total per predefined category, with
    every other category gathered under `Other`, and the slices for the
    categories whose total is positive.  The list of predefined categories
    is a parameter. */
module PieChart {
  import opened Records

  const OtherLabel := "Other"

  /** No element occurs twice. */
  predicate Distinct(s: seq<string>) {
    forall i, j :: 0 <= i < j < |s| ==> s[i] != s[j]
  }

  /** The slice an expense of category `c` goes to. */
  function Slice(categories: seq<string>, c: string): (r: string)
    ensures r == c || r == OtherLabel
    ensures c in categories ==> r == c
    ensures c !in categories ==> r == OtherLabel
  {
    if c in categories then c else OtherLabel
  }

  function InSlice(categories: seq<string>, name: string): Expense -> bool {
    (e: Expense) => Slice(categories, e.category) == name
  }

  /** The categories in the order of the predefined list, each once. */
  function Dedup(s: seq<string>): (r: seq<string>)
    ensures forall x :: x in r <==> x in s
    ensures Distinct(r)
  {
    if s == [] then []
    else
      var d := Dedup(s[..|s| - 1]);
      var x := s[|s| - 1];
      assert forall y :: y in s <==> y in s[..|s| - 1] || y == x by {
        assert s == s[..|s| - 1] + [x];
      }
      if x in d then d else d + [x]
  }

  /** Some expense has a category that is not predefined. */
  predicate HasUnknown(categories: seq<string>, s: seq<Expense>) {
    exists e :: e in s && e.category !in categories
  }

  /** The keys of the totals object in the order they were created: the
      predefined categories, then `Other` if an expense needed it. */
  function ChartKeys(categories: seq<string>, s: seq<Expense>): (r: seq<string>)
    ensures forall k :: k in r <==> k in categories || (k == OtherLabel && HasUnknown(categories, s))
    ensures Distinct(r)
  {
    Dedup(categories) + (if OtherLabel !in categories && HasUnknown(categories, s) then [OtherLabel] else [])
  }

  /** The sum of the totals of the slices `keys`. */
  ghost function SliceTotals(keys: seq<string>, categories: seq<string>, s: seq<Expense>): int {
    if keys == [] then 0
    else SliceTotals(keys[..|keys| - 1], categories, s) + SumIf(s, InSlice(categories, keys[|keys| - 1]))
  }

  /** One more expense adds its amount to the slice totals once, if its
      slice is among the distinct `keys`. */
  lemma {:induction false} SliceTotalsStep(keys: seq<string>, categories: seq<string>, s: seq<Expense>, e: Expense)
    requires Distinct(keys)
    ensures SliceTotals(keys, categories, s + [e]) ==
      SliceTotals(keys, categories, s) + (if Slice(categories, e.category) in keys then e.amount else 0)
  {
    if keys != [] {
      var init := keys[..|keys| - 1];
      var k := keys[|keys| - 1];
      SliceTotalsStep(init, categories, s, e);
      assert (s + [e])[..|s|] == s;
      assert k !in init;
      assert forall x :: x in keys <==> x in init || x == k by {
        assert keys == init + [k];
      }
    }
  }

  /** When every expense's slice is among the distinct `keys`, the slice
      totals add up to the sum of all amounts. */
  lemma {:induction false} SliceTotalsCoverAll(keys: seq<string>, categories: seq<string>, s: seq<Expense>)
    requires Distinct(keys)
    requires forall e :: e in s ==> Slice(categories, e.category) in keys
    ensures SliceTotals(keys, categories, s) == SumAmounts(s)
  {
    if s == [] {
      SliceTotalsOfNothing(keys, categories);
    } else {
      var init := s[..|s| - 1];
      var e := s[|s| - 1];
      assert s == init + [e];
      SliceTotalsCoverAll(keys, categories, init);
      SliceTotalsStep(keys, categories, init, e);
    }
  }

  lemma {:induction false} SliceTotalsOfNothing(keys: seq<string>, categories: seq<string>)
    ensures SliceTotals(keys, categories, []) == 0
  {
    if keys != [] {
      SliceTotalsOfNothing(keys[..|keys| - 1], categories);
    }
  }

  /** The totals of all chart keys add up to the sum of all amounts: no
      expense is lost and none is counted twice. */
  lemma ChartTotalsSumToAll(categories: seq<string>, s: seq<Expense>)
    ensures SliceTotals(ChartKeys(categories, s), categories, s) == SumAmounts(s)
  {
    forall e | e in s ensures Slice(categories, e.category) in ChartKeys(categories, s) {
      if e.category !in categories {
        assert HasUnknown(categories, s);
      }
    }
    SliceTotalsCoverAll(ChartKeys(categories, s), categories, s);
  }

  /** A predefined category no expense has keeps its starting total 0, so
      it gets no slice. */
  lemma UnusedCategoryIsZero(categories: seq<string>, s: seq<Expense>, c: string)
    requires c in categories && c != OtherLabel
    requires forall e :: e in s ==> e.category != c
    ensures SumIf(s, InSlice(categories, c)) == 0
  {
    SumIfNone(s, InSlice(categories, c));
  }

  /** The labels and values of the chart, index by index. */
  datatype PieSeries = PieSeries(labels: seq<string>, data: seq<int>)

  function PositiveIn(totals: map<string, int>): string -> bool {
    (k: string) => k in totals && totals[k] > 0
  }

  /** A chart key whose slice has a positive sum over `s`. */
  function PositiveSlice(categories: seq<string>, s: seq<Expense>): string -> bool {
    (k: string) => SumIf(s, InSlice(categories, k)) > 0
  }

  /** The keys whose total is positive, and their totals in the same order. */
  function Slices(keys: seq<string>, totals: map<string, int>): (r: PieSeries)
    requires forall k :: k in keys ==> k in totals
    ensures |r.data| == |r.labels|
    ensures forall k :: k in r.labels <==> k in keys && totals[k] > 0
    ensures forall i :: 0 <= i < |r.labels| ==> r.data[i] == totals[r.labels[i]] && r.data[i] > 0
  {
    var labels := Filter(keys, PositiveIn(totals));
    forall k ensures k in labels <==> k in keys && totals[k] > 0 {
      FilterMember(keys, PositiveIn(totals), k);
    }
    PieSeries(labels, seq(|labels|, i requires 0 <= i < |labels| => totals[labels[i]]))
  }

  /** The labels keep the order of the chart keys: the labels of an earlier
      run of keys come before those of a later one. */
  lemma SlicesInKeyOrder(a: seq<string>, b: seq<string>, totals: map<string, int>)
    requires forall k :: k in a || k in b ==> k in totals
    ensures Slices(a + b, totals).labels == Slices(a, totals).labels + Slices(b, totals).labels
  {
    FilterConcat(a, b, PositiveIn(totals));
  }

  /** The stored totals are the sums of their slices over `s`. */
  ghost predicate TotalsMatch(totals: map<string, int>, categories: seq<string>, s: seq<Expense>) {
    forall k :: k in totals ==> totals[k] == SumIf(s, InSlice(categories, k))
  }

  /** Filtering keeps distinct elements distinct. */
  lemma {:induction false} FilterDistinct(s: seq<string>, p: string -> bool)
    requires Distinct(s)
    ensures Distinct(Filter(s, p))
  {
    if s != [] {
      var t := Filter(s[1..], p);
      FilterDistinct(s[1..], p);
      assert s[0] !in s[1..];
      if p(s[0]) {
        var r := Filter(s, p);
        assert r == [s[0]] + t;
        forall i, j | 0 <= i < j < |r| ensures r[i] != r[j] {
          if i == 0 {
            assert r[j] == t[j - 1] && r[j] in t;
            assert r[j] in s[1..];
          } else {
            assert r[i] == t[i - 1] && r[j] == t[j - 1];
            assert t[i - 1] != t[j - 1];
          }
        }
      }
    }
  }

  /** The first loop of the chart's effect: every predefined category
      starts at 0, the keys created in list order. */
  method InitialTotals(categories: seq<string>) returns (keys: seq<string>, totals: map<string, int>)
    ensures keys == Dedup(categories)
    ensures forall k :: k in totals <==> k in categories
    ensures forall k :: k in totals ==> totals[k] == 0
  {
    keys := [];
    totals := map[];
    var j := 0;
    while j < |categories|
      invariant 0 <= j <= |categories|
      invariant keys == Dedup(categories[..j])
      invariant forall k :: k in totals <==> k in categories[..j]
      invariant forall k :: k in totals ==> totals[k] == 0
    {
      var c := categories[j];
      assert categories[..j + 1][..j] == categories[..j];
      assert categories[..j + 1] == categories[..j] + [c];
      if c !in totals {
        keys := keys + [c];
      }
      totals := totals[c := 0];
      j := j + 1;
    }
    assert categories[..j] == categories;
  }

  /** The second loop: each expense adds its amount to its own category if
      that already has a total, and to `Other` otherwise, creating it on
      first use.  Afterwards every key holds the sum of its slice. */
  method CategoryTotals(expenses: seq<Expense>, categories: seq<string>) returns (keys: seq<string>, totals: map<string, int>)
    ensures keys == ChartKeys(categories, expenses)
    ensures forall k :: k in totals <==> k in keys
    ensures TotalsMatch(totals, categories, expenses)
  {
    keys, totals := InitialTotals(categories);
    assert TotalsMatch(totals, categories, []);
    ghost var seen: seq<Expense> := [];
    var i := 0;
    while i < |expenses|
      invariant 0 <= i <= |expenses| && seen == expenses[..i]
      invariant Accumulated(keys, totals, categories, seen)
    {
      var e := expenses[i];
      keys, totals := AddExpense(keys, totals, categories, seen, e);
      PrefixStep(expenses, i);
      seen := seen + [e];
      i := i + 1;
    }
    assert expenses[..i] == expenses;
  }

  /** One turn of the second loop: the amount goes to the expense's own
      slice when the chart has one, and otherwise to "Other", which is
      created, at the end of the keys, by the first expense that needs it. */
  method AddExpense(keys: seq<string>, totals: map<string, int>, categories: seq<string>, ghost prefix: seq<Expense>, e: Expense)
    returns (keys': seq<string>, totals': map<string, int>)
    requires Accumulated(keys, totals, categories, prefix)
    ensures Accumulated(keys', totals', categories, prefix + [e])
  {
    keys' := keys;
    if e.category in totals {
      AddKnown(keys, totals, categories, prefix, e);
      totals' := totals[e.category := totals[e.category] + e.amount];
    } else if OtherLabel !in totals {
      OpenOther(keys, totals, categories, prefix, e);
      keys' := keys + [OtherLabel];
      totals' := totals[OtherLabel := e.amount];
    } else {
      GrowOther(keys, totals, categories, prefix, e);
      totals' := totals[OtherLabel := totals[OtherLabel] + e.amount];
    }
  }

  /** The state of the second loop after the expenses of `prefix`: the
      keys created so far, each holding the sum of its slice. */
  ghost predicate Accumulated(keys: seq<string>, totals: map<string, int>, categories: seq<string>, prefix: seq<Expense>) {
    && keys == ChartKeys(categories, prefix)
    && (forall k :: k in totals <==> k in keys)
    && TotalsMatch(totals, categories, prefix)
  }

  /** The facts both kinds of step rely on: what one more expense does to
      the membership test and to the unknown-category test. */
  lemma OneMore(categories: seq<string>, prefix: seq<Expense>, e: Expense)
    ensures (prefix + [e])[..|prefix|] == prefix
    ensures HasUnknown(categories, prefix + [e]) <==> HasUnknown(categories, prefix) || e.category !in categories
  {
    var s := prefix + [e];
    assert forall x :: x in s <==> x in prefix || x == e;
  }

  /** A step for an expense whose category already has a total. */
  lemma AddKnown(keys: seq<string>, totals: map<string, int>, categories: seq<string>, prefix: seq<Expense>, e: Expense)
    requires Accumulated(keys, totals, categories, prefix)
    requires e.category in totals
    ensures Accumulated(keys, totals[e.category := totals[e.category] + e.amount], categories, prefix + [e])
  {
    OneMore(categories, prefix, e);
    assert Slice(categories, e.category) == e.category;
  }

  /** A step for an expense whose category has no total while `Other` has
      none either: `Other` is created holding the amount. */
  lemma OpenOther(keys: seq<string>, totals: map<string, int>, categories: seq<string>, prefix: seq<Expense>, e: Expense)
    requires Accumulated(keys, totals, categories, prefix)
    requires e.category !in totals && OtherLabel !in totals
    ensures Accumulated(keys + [OtherLabel], totals[OtherLabel := e.amount], categories, prefix + [e])
  {
    var t := totals[OtherLabel := e.amount];
    assert keys + [OtherLabel] == ChartKeys(categories, prefix + [e]) by {
      OtherKeys(keys, totals, categories, prefix, e);
    }
    assert TotalsMatch(t, categories, prefix + [e]) by {
      OtherBefore(keys, totals, categories, prefix);
      AddToOther(totals, categories, prefix, e, 0);
    }
    assert forall k :: k in t <==> k in keys + [OtherLabel] by {
      forall k ensures k in t <==> k in keys + [OtherLabel] {
        assert k in keys + [OtherLabel] <==> k in keys || k == OtherLabel;
      }
    }
  }

  /** A step for an expense whose category has no total once `Other`
      exists: the amount is added to `Other`. */
  lemma GrowOther(keys: seq<string>, totals: map<string, int>, categories: seq<string>, prefix: seq<Expense>, e: Expense)
    requires Accumulated(keys, totals, categories, prefix)
    requires e.category !in totals && OtherLabel in totals
    ensures Accumulated(keys, totals[OtherLabel := totals[OtherLabel] + e.amount], categories, prefix + [e])
  {
    var t := totals[OtherLabel := totals[OtherLabel] + e.amount];
    assert keys == ChartKeys(categories, prefix + [e]) by {
      OtherKeys(keys, totals, categories, prefix, e);
    }
    assert TotalsMatch(t, categories, prefix + [e]) by {
      OtherBefore(keys, totals, categories, prefix);
      AddToOther(totals, categories, prefix, e, totals[OtherLabel]);
    }
    assert t.Keys == totals.Keys;
  }

  /** An expense of an unknown category creates the `Other` key if it is
      not there yet, and leaves the keys as they are otherwise. */
  lemma OtherKeys(keys: seq<string>, totals: map<string, int>, categories: seq<string>, prefix: seq<Expense>, e: Expense)
    requires keys == ChartKeys(categories, prefix)
    requires forall k :: k in totals <==> k in keys
    requires e.category !in totals
    ensures e.category !in categories
    ensures (if OtherLabel !in totals then keys + [OtherLabel] else keys) == ChartKeys(categories, prefix + [e])
  {
    OneMore(categories, prefix, e);
    if OtherLabel !in totals {
      assert OtherLabel !in categories && !HasUnknown(categories, prefix);
    } else {
      assert OtherLabel in categories || HasUnknown(categories, prefix);
    }
  }

  /** The `Other` total so far, absent read as 0, is the sum of its slice. */
  lemma OtherBefore(keys: seq<string>, totals: map<string, int>, categories: seq<string>, prefix: seq<Expense>)
    requires Accumulated(keys, totals, categories, prefix)
    ensures (if OtherLabel in totals then totals[OtherLabel] else 0) == SumIf(prefix, InSlice(categories, OtherLabel))
  {
    if OtherLabel !in totals {
      OtherUnused(categories, prefix);
    }
  }

  /** While `Other` has no key, no expense seen so far belongs to it. */
  lemma OtherUnused(categories: seq<string>, prefix: seq<Expense>)
    requires OtherLabel !in categories && !HasUnknown(categories, prefix)
    ensures SumIf(prefix, InSlice(categories, OtherLabel)) == 0
  {
    forall x | x in prefix ensures !InSlice(categories, OtherLabel)(x) {
      assert x.category in categories;
    }
    SumIfNone(prefix, InSlice(categories, OtherLabel));
  }

  /** Adding an expense of the `Other` slice to the `Other` total keeps
      every total in line. */
  lemma AddToOther(totals: map<string, int>, categories: seq<string>, prefix: seq<Expense>, e: Expense, before: int)
    requires TotalsMatch(totals, categories, prefix)
    requires e.category !in categories
    requires before == SumIf(prefix, InSlice(categories, OtherLabel))
    ensures TotalsMatch(totals[OtherLabel := before + e.amount], categories, prefix + [e])
  {
    var s := prefix + [e];
    assert s[..|s| - 1] == prefix;
    var t := totals[OtherLabel := before + e.amount];
    forall k | k in t ensures t[k] == SumIf(s, InSlice(categories, k)) {
      if k != OtherLabel {
        assert !InSlice(categories, k)(e);
      }
    }
  }

  /** The aggregation of the chart's effect: nothing for an empty list;
      otherwise one slice for each chart key whose total is positive, with
      the total as its value, the keys in the order they were created. */
  method PieData(expenses: seq<Expense>, categories: seq<string>) returns (r: Option<PieSeries>)
    ensures r.None? <==> |expenses| == 0
    ensures r.Some? ==> |r.value.data| == |r.value.labels|
    ensures r.Some? ==> forall k ::
      k in r.value.labels <==> k in ChartKeys(categories, expenses) && SumIf(expenses, InSlice(categories, k)) > 0
    ensures r.Some? ==> forall i :: 0 <= i < |r.value.labels| ==>
      r.value.data[i] == SumIf(expenses, InSlice(categories, r.value.labels[i]))
    ensures r.Some? ==> Distinct(r.value.labels)
    ensures r.Some? ==> r.value.labels == Filter(ChartKeys(categories, expenses), PositiveSlice(categories, expenses))
  {
    if |expenses| == 0 {
      return None;
    }
    var keys, totals := CategoryTotals(expenses, categories);
    var series := Slices(keys, totals);
    assert series.labels == Filter(keys, PositiveIn(totals));
    FilterDistinct(keys, PositiveIn(totals));
    FilterAgree(keys, PositiveIn(totals), PositiveSlice(categories, expenses));
    r := Some(series);
  }
}
