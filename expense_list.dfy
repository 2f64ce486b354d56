/** The expense list page: search, category and date-range filters over the
    loaded expenses, a sortable table, and the controls that change them. */
module ExpenseList {
  import opened Text
  import opened Records
  import opened Sorting

  /** The search test: the lower-cased term occurs in the lower-cased title
      or description (a missing one counts as empty). */
  predicate MatchesSearch(e: Expense, term: string)
    ensures term == "" ==> MatchesSearch(e, term)
  {
    IncludesEmpty(ToLower(e.title));
    var t := ToLower(term);
    Includes(ToLower(e.title), t) || Includes(ToLower(e.description), t)
  }

  /** The search ignores case: a term matches exactly when its lower-cased
      form does, and lower-casing the title changes nothing. */
  lemma SearchIgnoresCase(e: Expense, term: string)
    ensures MatchesSearch(e, term) <==> MatchesSearch(e, ToLower(term))
    ensures MatchesSearch(e, term) <==> MatchesSearch(e.(title := ToLower(e.title)), term)
  {
    assert ToLower(ToLower(term)) == ToLower(term);
    assert ToLower(ToLower(e.title)) == ToLower(e.title);
  }

  predicate MatchesCategory(e: Expense, category: string) {
    e.category == category
  }

  /** `new Date(expense.date) >= new Date(from)`. */
  predicate OnOrAfter(e: Expense, from: Date) {
    !DateBefore(e.date, from)
  }

  /** `new Date(expense.date) <= new Date(to)`. */
  predicate OnOrBefore(e: Expense, to: Date) {
    !DateBefore(to, e.date)
  }

  /** An empty date input is the empty string, here `None`. */
  datatype DateRange = DateRange(from: Option<Date>, to: Option<Date>)

  /** The filters of the page, as the page's state holds them. */
  datatype Criteria = Criteria(searchTerm: string, category: string, range: DateRange)

  /** An expense passes every filter that is set; an empty filter passes
      everything. */
  predicate Passes(e: Expense, c: Criteria)
    ensures c == Criteria("", "", DateRange(None, None)) ==> Passes(e, c)
    ensures Passes(e, c) ==> c.category == "" || e.category == c.category
  {
    && (c.searchTerm == "" || MatchesSearch(e, c.searchTerm))
    && (c.category == "" || MatchesCategory(e, c.category))
    && (c.range.from.None? || OnOrAfter(e, c.range.from.value))
    && (c.range.to.None? || OnOrBefore(e, c.range.to.value))
  }

  /** The first `k` of the four filters, in the order the page applies
      them; all four together are `Passes`. */
  predicate PassesFirst(e: Expense, c: Criteria, k: nat) {
    && (k < 1 || c.searchTerm == "" || MatchesSearch(e, c.searchTerm))
    && (k < 2 || c.category == "" || MatchesCategory(e, c.category))
    && (k < 3 || c.range.from.None? || OnOrAfter(e, c.range.from.value))
    && (k < 4 || c.range.to.None? || OnOrBefore(e, c.range.to.value))
  }

  /** The test `filterExpenses` applies, as one predicate. */
  function Matching(c: Criteria): Expense -> bool {
    (e: Expense) => Passes(e, c)
  }

  function Stage(c: Criteria, k: nat): Expense -> bool {
    (e: Expense) => PassesFirst(e, c, k)
  }

  /** `handleSort`: the same column that is ascending becomes descending;
      anything else becomes ascending on the clicked column. */
  function NextSort(current: SortConfig, key: SortKey): (r: SortConfig)
    ensures r.key == key
    ensures r.direction == Desc <==> current.key == key && current.direction == Asc
  {
    SortConfig(key, if current.key == key && current.direction == Asc then Desc else Asc)
  }

  /** Clicking the same header again always flips the direction. */
  lemma NextSortAlternates(current: SortConfig, key: SortKey)
    ensures NextSort(NextSort(current, key), key).direction != NextSort(current, key).direction
  {
  }

  /** The multiset characterisation of "exactly the expenses that pass": each
      passing expense as often as in `s`, no other. */
  ghost predicate ExactlyPassing(r: seq<Expense>, s: seq<Expense>, p: Expense -> bool) {
    forall e :: multiset(r)[e] == if p(e) then multiset(s)[e] else 0
  }

  /** One filter step narrows an exact selection by one more predicate. */
  lemma NarrowSelection(r: seq<Expense>, s: seq<Expense>, p: Expense -> bool, q: Expense -> bool, pq: Expense -> bool)
    requires ExactlyPassing(r, s, p)
    requires forall e :: pq(e) == (p(e) && q(e))
    ensures ExactlyPassing(Filter(r, q), s, pq)
  {
    forall e ensures multiset(Filter(r, q))[e] == if pq(e) then multiset(s)[e] else 0 {
      FilterCount(r, q, e);
    }
  }

  /** The sorted selection holds each passing expense as often as the list
      does, no other, in sorted order. */
  lemma SelectionSorted(expenses: seq<Expense>, c: Criteria, cfg: SortConfig)
    ensures var r := SortBy(Filter(expenses, Matching(c)), cfg);
      && (forall e :: multiset(r)[e] == if Passes(e, c) then multiset(expenses)[e] else 0)
      && Sorted(r, cfg)
  {
    var f := Filter(expenses, Matching(c));
    SortByCorrect(f, cfg);
    forall e ensures multiset(f)[e] == if Passes(e, c) then multiset(expenses)[e] else 0 {
      FilterCount(expenses, Matching(c), e);
    }
  }

  class ExpenseListPage {
    var filteredExpenses: seq<Expense>
    var searchTerm: string
    var selectedCategory: string
    var dateRange: DateRange
    var sortConfig: SortConfig
    var showFilters: bool

    function Filters(): Criteria
      reads this
    {
      Criteria(searchTerm, selectedCategory, dateRange)
    }

    /** The page's initial state: no filters, sorted by date, newest first. */
    constructor ()
      ensures filteredExpenses == [] && searchTerm == "" && selectedCategory == ""
      ensures dateRange == DateRange(None, None) && !showFilters
      ensures sortConfig == SortConfig(ByDate, Desc)
    {
      filteredExpenses := [];
      searchTerm := "";
      selectedCategory := "";
      dateRange := DateRange(None, None);
      sortConfig := SortConfig(ByDate, Desc);
      showFilters := false;
    }

    /** `filterExpenses`: narrows a copy of the list by each filter that is
        set, sorts it with the page's comparator, and stores the result.  The
        result holds exactly the expenses that pass, in sorted order. */
    method FilterExpenses(expenses: seq<Expense>)
      modifies this`filteredExpenses
      ensures filteredExpenses == SortBy(Filter(expenses, Matching(Filters())), sortConfig)
      ensures forall e :: multiset(filteredExpenses)[e] == if Passes(e, Filters()) then multiset(expenses)[e] else 0
      ensures Sorted(filteredExpenses, sortConfig)
    {
      var filtered := Narrow(expenses);
      SelectionSorted(expenses, Filters(), sortConfig);
      filteredExpenses := SortBy(filtered, sortConfig);
    }

    /** The filtering half of `filterExpenses`: each filter that is set
        narrows the copy in turn, and together they keep exactly the
        expenses that pass, in list order. */
    method Narrow(expenses: seq<Expense>) returns (filtered: seq<Expense>)
      ensures filtered == Filter(expenses, Matching(Filters()))
    {
      filtered := expenses;
      ghost var c := Filters();
      assert filtered == Filter(expenses, Stage(c, 0)) by {
        FilterKeepsAll(expenses, Stage(c, 0));
      }

      if searchTerm != "" {
        var term := searchTerm;
        assert Filter(filtered, (e: Expense) => MatchesSearch(e, term)) == Filter(expenses, Stage(c, 1)) by {
          FilterTwice(expenses, Stage(c, 0), (e: Expense) => MatchesSearch(e, term), Stage(c, 1));
        }
        filtered := Filter(filtered, (e: Expense) => MatchesSearch(e, term));
      } else {
        assert filtered == Filter(expenses, Stage(c, 1)) by {
          FilterAgree(expenses, Stage(c, 0), Stage(c, 1));
        }
      }
      if selectedCategory != "" {
        var category := selectedCategory;
        assert Filter(filtered, (e: Expense) => MatchesCategory(e, category)) == Filter(expenses, Stage(c, 2)) by {
          FilterTwice(expenses, Stage(c, 1), (e: Expense) => MatchesCategory(e, category), Stage(c, 2));
        }
        filtered := Filter(filtered, (e: Expense) => MatchesCategory(e, category));
      } else {
        assert filtered == Filter(expenses, Stage(c, 2)) by {
          FilterAgree(expenses, Stage(c, 1), Stage(c, 2));
        }
      }
      if dateRange.from.Some? {
        var from := dateRange.from.value;
        assert Filter(filtered, (e: Expense) => OnOrAfter(e, from)) == Filter(expenses, Stage(c, 3)) by {
          FilterTwice(expenses, Stage(c, 2), (e: Expense) => OnOrAfter(e, from), Stage(c, 3));
        }
        filtered := Filter(filtered, (e: Expense) => OnOrAfter(e, from));
      } else {
        assert filtered == Filter(expenses, Stage(c, 3)) by {
          FilterAgree(expenses, Stage(c, 2), Stage(c, 3));
        }
      }
      if dateRange.to.Some? {
        var to := dateRange.to.value;
        assert Filter(filtered, (e: Expense) => OnOrBefore(e, to)) == Filter(expenses, Stage(c, 4)) by {
          FilterTwice(expenses, Stage(c, 3), (e: Expense) => OnOrBefore(e, to), Stage(c, 4));
        }
        filtered := Filter(filtered, (e: Expense) => OnOrBefore(e, to));
      } else {
        assert filtered == Filter(expenses, Stage(c, 4)) by {
          FilterAgree(expenses, Stage(c, 3), Stage(c, 4));
        }
      }
      assert filtered == Filter(expenses, Matching(c)) by {
        FilterAgree(expenses, Stage(c, 4), Matching(c));
      }
    }

    /** `handleSort`. */
    method HandleSort(key: SortKey)
      modifies this`sortConfig
      ensures sortConfig == NextSort(old(sortConfig), key)
    {
      sortConfig := NextSort(sortConfig, key);
    }

    /** `resetFilters`: clears the search, the category and both dates and
        hides the filter panel; the sort order stays.  The `filterExpenses`
        call it ends with still sees the filters of the render it was made
        in, so the list it stores is filtered by the old criteria; the
        page's effect then filters again with the cleared ones. */
    method ResetFilters(expenses: seq<Expense>)
      modifies this
      ensures searchTerm == "" && selectedCategory == "" && dateRange == DateRange(None, None)
      ensures !showFilters
      ensures sortConfig == old(sortConfig)
      ensures Sorted(filteredExpenses, sortConfig)
      ensures forall e ::
        multiset(filteredExpenses)[e] == if Passes(e, old(Filters())) then multiset(expenses)[e] else 0
      ensures filteredExpenses == SortBy(Filter(expenses, Matching(old(Filters()))), sortConfig)
    {
      FilterExpenses(expenses);
      searchTerm := "";
      selectedCategory := "";
      dateRange := DateRange(None, None);
      showFilters := false;
    }

    /** The page's effect: once loading is over, filter again. */
    method Refresh(expenses: seq<Expense>, loading: bool)
      modifies this`filteredExpenses
      ensures loading ==> filteredExpenses == old(filteredExpenses)
      ensures !loading ==> Sorted(filteredExpenses, sortConfig)
      ensures !loading ==> (forall e ::
        multiset(filteredExpenses)[e] == if Passes(e, Filters()) then multiset(expenses)[e] else 0)
      ensures !loading ==> filteredExpenses == SortBy(Filter(expenses, Matching(Filters())), sortConfig)
    {
      if !loading {
        FilterExpenses(expenses);
      }
    }
  }

  /** With every filter empty, nothing is filtered out. */
  lemma EmptyCriteriaPassAll(e: Expense)
    ensures Passes(e, Criteria("", "", DateRange(None, None)))
  {
  }

  /** An empty search term matches every expense, as `includes("")` does. */
  lemma EmptyTermMatches(e: Expense)
    ensures MatchesSearch(e, "")
  {
    IncludesEmpty(ToLower(e.title));
  }

  /** Search ignores letter case in the term. */
  lemma SearchIgnoresTermCase(e: Expense, term: string, other: string)
    requires ToLower(term) == ToLower(other)
    ensures MatchesSearch(e, term) == MatchesSearch(e, other)
  {
  }

  /** Both ends of the date range are inclusive. */
  lemma RangeInclusive(e: Expense)
    ensures Passes(e, Criteria("", "", DateRange(Some(e.date), Some(e.date))))
  {
  }

  /** After a reset and the effect that follows it, every loaded expense is
      listed again, in the order of the kept sort. */
  method ResetThenRefresh(page: ExpenseListPage, expenses: seq<Expense>)
    modifies page
    ensures multiset(page.filteredExpenses) == multiset(expenses)
    ensures Sorted(page.filteredExpenses, old(page.sortConfig))
    ensures page.filteredExpenses == SortBy(expenses, old(page.sortConfig))
  {
    page.ResetFilters(expenses);
    page.Refresh(expenses, false);
    assert forall e :: Passes(e, page.Filters());
    assert multiset(page.filteredExpenses) == multiset(expenses);
    FilterKeepsAll(expenses, Matching(page.Filters()));
  }
}
