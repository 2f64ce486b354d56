/** The comparator the expense list hands to `Array.prototype.sort`, and a
    sort that stands for the engine's: it returns the input rearranged so
    that the comparator never puts a later element strictly before an
    earlier one. */
module Sorting {
  import opened Text
  import opened Records

  /** The columns a table header can sort by. */
  datatype SortKey = ByTitle | ByCategory | ByAmount | ByDate

  datatype Direction = Asc | Desc

  datatype SortConfig = SortConfig(key: SortKey, direction: Direction)

  /** Whether the key of `a` is smaller than the key of `b`: `<` on strings
      for the text columns, on numbers for the amount, in time for the date. */
  predicate KeyLess(a: Expense, b: Expense, key: SortKey) {
    match key
    case ByTitle => StrLess(a.title, b.title)
    case ByCategory => StrLess(a.category, b.category)
    case ByAmount => a.amount < b.amount
    case ByDate => DateBefore(a.date, b.date)
  }

  /** Both expenses have the same value in the sorted column. */
  predicate SameKey(a: Expense, b: Expense, key: SortKey) {
    match key
    case ByTitle => a.title == b.title
    case ByCategory => a.category == b.category
    case ByAmount => a.amount == b.amount
    case ByDate => a.date == b.date
  }

  /** `KeyLess` is a strict order in which elements with equal keys are
      incomparable and all others are comparable. */
  lemma KeyLessTrichotomy(a: Expense, b: Expense, key: SortKey)
    ensures SameKey(a, b, key) ==> !KeyLess(a, b, key) && !KeyLess(b, a, key)
    ensures !SameKey(a, b, key) ==> (KeyLess(a, b, key) <==> !KeyLess(b, a, key))
  {
    match key
    case ByTitle =>
      if a.title == b.title {
        StrLessIrreflexive(a.title);
      } else {
        StrLessConnected(a.title, b.title);
        if StrLess(a.title, b.title) { StrLessAsymmetric(a.title, b.title); }
      }
    case ByCategory =>
      if a.category == b.category {
        StrLessIrreflexive(a.category);
      } else {
        StrLessConnected(a.category, b.category);
        if StrLess(a.category, b.category) { StrLessAsymmetric(a.category, b.category); }
      }
    case ByAmount =>
    case ByDate =>
      if a.date != b.date {
        DateBeforeConnected(a.date, b.date);
      }
  }

  lemma KeyLessTransitive(a: Expense, b: Expense, c: Expense, key: SortKey)
    requires KeyLess(a, b, key) && KeyLess(b, c, key)
    ensures KeyLess(a, c, key)
  {
    match key
    case ByTitle => StrLessTransitive(a.title, b.title, c.title);
    case ByCategory => StrLessTransitive(a.category, b.category, c.category);
    case ByAmount =>
    case ByDate =>
  }

  /** The comparator of the expense list: negative when `a` goes first,
      positive when `b` goes first, zero on equal keys. */
  function Compare(a: Expense, b: Expense, cfg: SortConfig): (r: int)
    ensures -1 <= r <= 1
    ensures r == 0 <==> SameKey(a, b, cfg.key)
  {
    KeyLessTrichotomy(a, b, cfg.key);
    if KeyLess(a, b, cfg.key) then (if cfg.direction == Asc then -1 else 1)
    else if KeyLess(b, a, cfg.key) then (if cfg.direction == Asc then 1 else -1)
    else 0
  }

  /** The comparator answers zero exactly on equal keys, is antisymmetric,
      and in ascending order puts the smaller key first. */
  lemma CompareMeaning(a: Expense, b: Expense, cfg: SortConfig)
    ensures Compare(a, b, cfg) == 0 <==> SameKey(a, b, cfg.key)
    ensures Compare(a, b, cfg) == -Compare(b, a, cfg)
    ensures Compare(a, b, cfg) < 0 <==>
      (if cfg.direction == Asc then KeyLess(a, b, cfg.key) else KeyLess(b, a, cfg.key))
  {
    KeyLessTrichotomy(a, b, cfg.key);
  }

  lemma CompareTransitive(a: Expense, b: Expense, c: Expense, cfg: SortConfig)
    requires Compare(a, b, cfg) <= 0 && Compare(b, c, cfg) <= 0
    ensures Compare(a, c, cfg) <= 0
  {
    var k := cfg.key;
    KeyLessTrichotomy(a, b, k);
    KeyLessTrichotomy(b, c, k);
    KeyLessTrichotomy(a, c, k);
    if KeyLess(a, b, k) && KeyLess(b, c, k) { KeyLessTransitive(a, b, c, k); }
    if KeyLess(b, a, k) && KeyLess(c, b, k) { KeyLessTransitive(c, b, a, k); }
    if KeyLess(c, a, k) && KeyLess(a, b, k) { KeyLessTransitive(c, a, b, k); }
    if KeyLess(a, c, k) && KeyLess(b, a, k) { KeyLessTransitive(b, a, c, k); }
    if KeyLess(b, c, k) && KeyLess(c, a, k) { KeyLessTransitive(b, c, a, k); }
    if KeyLess(c, b, k) && KeyLess(a, c, k) { KeyLessTransitive(a, c, b, k); }
  }

  /** No element is placed after one the comparator wants after it. */
  predicate Sorted(s: seq<Expense>, cfg: SortConfig) {
    forall i, j :: 0 <= i < j < |s| ==> Compare(s[i], s[j], cfg) <= 0
  }

  /** Inserts `x` before the first element that must follow it. */
  function Insert(x: Expense, s: seq<Expense>, cfg: SortConfig): (r: seq<Expense>)
    ensures multiset(r) == multiset(s) + multiset{x}
  {
    if s == [] then [x]
    else if Compare(x, s[0], cfg) < 0 then [x] + s
    else
      assert s == [s[0]] + s[1..];
      [s[0]] + Insert(x, s[1..], cfg)
  }

  lemma {:induction false} InsertSorted(x: Expense, s: seq<Expense>, cfg: SortConfig)
    requires Sorted(s, cfg)
    ensures Sorted(Insert(x, s, cfg), cfg)
  {
    if s == [] {
    } else if Compare(x, s[0], cfg) < 0 {
      forall j | 0 < j < |s| ensures Compare(x, s[j], cfg) <= 0 {
        CompareTransitive(x, s[0], s[j], cfg);
      }
    } else {
      InsertSorted(x, s[1..], cfg);
      var t := Insert(x, s[1..], cfg);
      CompareMeaning(x, s[0], cfg);
      forall j | 0 <= j < |t| ensures Compare(s[0], t[j], cfg) <= 0 {
        assert t[j] in multiset(t);
        if t[j] != x {
          assert t[j] in multiset(s[1..]);
          var k :| 0 <= k < |s[1..]| && s[1..][k] == t[j];
          assert s[k + 1] == t[j];
        }
      }
    }
  }

  /** Stand-in for `Array.prototype.sort` with comparator `Compare`: an
      insertion sort, which like the engine's sort is stable. */
  function SortBy(s: seq<Expense>, cfg: SortConfig): (r: seq<Expense>)
    ensures multiset(r) == multiset(s)
    ensures |r| == |s|
  {
    if s == [] then []
    else
      assert s == s[..|s| - 1] + [s[|s| - 1]];
      var r := Insert(s[|s| - 1], SortBy(s[..|s| - 1], cfg), cfg);
      assert |multiset(r)| == |multiset(s)|;
      r
  }

  /** Same key as `y` in the sorted column. */
  function SameKeyAs(y: Expense, key: SortKey): Expense -> bool {
    (e: Expense) => SameKey(e, y, key)
  }

  /** The comparator looks only at the sorted column, so elements with the
      same key compare alike against anything. */
  lemma CompareSameKey(a: Expense, b: Expense, c: Expense, cfg: SortConfig)
    requires SameKey(a, b, cfg.key)
    ensures Compare(c, a, cfg) == Compare(c, b, cfg)
  {
  }

  /** In a sorted list, an element that must go before the head has a key
      unlike every element of the list. */
  lemma {:induction false} BeforeHeadDiffers(x: Expense, t: seq<Expense>, cfg: SortConfig)
    requires Sorted(t, cfg) && t != [] && Compare(x, t[0], cfg) < 0
    ensures forall j :: 0 <= j < |t| ==> !SameKey(x, t[j], cfg.key)
  {
    forall j | 0 <= j < |t| ensures !SameKey(x, t[j], cfg.key) {
      if SameKey(x, t[j], cfg.key) {
        CompareSameKey(x, t[j], t[0], cfg);
        CompareMeaning(x, t[0], cfg);
        assert false;
      }
    }
  }

  /** Filtering with a predicate no element satisfies gives nothing. */
  lemma {:induction false} FilterNoneOf(t: seq<Expense>, p: Expense -> bool)
    requires forall j :: 0 <= j < |t| ==> !p(t[j])
    ensures Filter(t, p) == []
  {
    if t != [] {
      FilterNoneOf(t[1..], p);
    }
  }

  /** Inserting `x` puts it after every element with its key: the elements
      of one key keep their order, with `x` last among its own. */
  lemma {:induction false} InsertStable(x: Expense, t: seq<Expense>, cfg: SortConfig, y: Expense)
    requires Sorted(t, cfg)
    ensures var p := SameKeyAs(y, cfg.key);
      Filter(Insert(x, t, cfg), p) == Filter(t, p) + (if p(x) then [x] else [])
  {
    var p := SameKeyAs(y, cfg.key);
    if t == [] {
    } else if Compare(x, t[0], cfg) < 0 {
      assert Insert(x, t, cfg) == [x] + t;
      InsertBeforeHeadStable(x, t, cfg, y);
    } else {
      var u := Insert(x, t[1..], cfg);
      assert Insert(x, t, cfg) == [t[0]] + u;
      InsertStable(x, t[1..], cfg, y);
      FilterConsExtra(t[0], u, t[1..], p, if p(x) then [x] else []);
      assert t == [t[0]] + t[1..];
    }
  }

  /** Placing `x` before the head of a sorted list keeps the order within
      each key, `x` being alone in its key. */
  lemma InsertBeforeHeadStable(x: Expense, t: seq<Expense>, cfg: SortConfig, y: Expense)
    requires Sorted(t, cfg) && t != [] && Compare(x, t[0], cfg) < 0
    ensures var p := SameKeyAs(y, cfg.key);
      Filter([x] + t, p) == Filter(t, p) + (if p(x) then [x] else [])
  {
    var p := SameKeyAs(y, cfg.key);
    FilterConcat([x], t, p);
    if p(x) {
      BeforeHeadDiffers(x, t, cfg);
      FilterNoneOf(t, p);
    }
  }

  /** The sort is stable: for every key, the elements with that key come
      out in the order they went in. */
  lemma {:induction false} SortByStable(s: seq<Expense>, cfg: SortConfig, y: Expense)
    ensures Filter(SortBy(s, cfg), SameKeyAs(y, cfg.key)) == Filter(s, SameKeyAs(y, cfg.key))
  {
    if s != [] {
      var init := s[..|s| - 1];
      var p := SameKeyAs(y, cfg.key);
      SortByStable(init, cfg, y);
      SortByCorrect(init, cfg);
      InsertStable(s[|s| - 1], SortBy(init, cfg), cfg, y);
      FilterConcat(init, [s[|s| - 1]], p);
      assert s == init + [s[|s| - 1]];
    }
  }

  /** The sorted list is ordered by the comparator and holds the same
      elements as the input, as many times each. */
  lemma {:induction false} SortByCorrect(s: seq<Expense>, cfg: SortConfig)
    ensures Sorted(SortBy(s, cfg), cfg)
    ensures multiset(SortBy(s, cfg)) == multiset(s)
  {
    if s != [] {
      var init := s[..|s| - 1];
      SortByCorrect(init, cfg);
      InsertSorted(s[|s| - 1], SortBy(init, cfg), cfg);
      assert s == init + [s[|s| - 1]];
    }
  }
}
