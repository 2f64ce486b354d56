/** The values shared by the server and the client: dates, expense records,
    HTTP replies, and the filters and sums both sides compute over lists of
    expenses.  Amounts are whole numbers of the smallest currency unit. */
module Records {

  datatype Option<T> = None | Some(value: T)

  /** What a controller sends back: a success status with a body, or an
      error status with the `msg` text of the JSON reply. */
  datatype Response<T> = Ok(status: int, body: T) | Error(status: int, msg: string)

  /** A calendar month as `Date.prototype.getMonth` numbers it. */
  type Month = m: int | 0 <= m < 12

  type Day = d: int | 1 <= d <= 31 witness 1

  /** A calendar date.  The time of day is not modelled. */
  datatype Date = Date(year: int, month: Month, day: Day)

  /** Chronological order on dates. */
  predicate DateBefore(a: Date, b: Date) {
    a.year < b.year
    || (a.year == b.year && (a.month < b.month || (a.month == b.month && a.day < b.day)))
  }

  lemma DateBeforeConnected(a: Date, b: Date)
    requires a != b
    ensures DateBefore(a, b) || DateBefore(b, a)
  {
  }

  /** Document identifiers (MongoDB ObjectIds), abstracted to numbers. */
  type Id = nat

  /** An identifier taken from a request path: either one that
      `ObjectId.isValid` accepts, standing for the id it denotes, or text
      that it rejects. */
  datatype RawId = Wellformed(id: Id) | Malformed(text: string)

  /** A stored expense, as the server keeps it and as the client receives it.
      A missing description is the empty string. */
  datatype Expense = Expense(
    id: Id,
    userId: Id,
    title: string,
    description: string,
    amount: int,
    category: string,
    date: Date)

  /** `s.filter(p)`: the elements of `s` that satisfy `p`, in order. */
  function Filter<T>(s: seq<T>, p: T -> bool): (r: seq<T>)
    ensures |r| <= |s|
    ensures forall x :: x in r ==> x in s && p(x)
  {
    if s == [] then [] else (if p(s[0]) then [s[0]] else []) + Filter(s[1..], p)
  }

  /** `Filter` keeps every copy of an element that satisfies the predicate
      and no copy of one that does not. */
  lemma {:induction false} FilterCount<T>(s: seq<T>, p: T -> bool, x: T)
    ensures multiset(Filter(s, p))[x] == if p(x) then multiset(s)[x] else 0
  {
    if s != [] {
      FilterCount(s[1..], p, x);
      assert s == [s[0]] + s[1..];
    }
  }

  /** An element is kept exactly when it occurs and satisfies the predicate. */
  lemma FilterMember<T>(s: seq<T>, p: T -> bool, x: T)
    ensures x in Filter(s, p) <==> x in s && p(x)
  {
    FilterCount(s, p, x);
  }

  /** Filtering distributes over concatenation, so it keeps relative order. */
  lemma {:induction false} FilterConcat<T>(a: seq<T>, b: seq<T>, p: T -> bool)
    ensures Filter(a + b, p) == Filter(a, p) + Filter(b, p)
  {
    if a != [] {
      assert (a + b)[1..] == a[1..] + b;
      FilterConcat(a[1..], b, p);
    } else {
      assert a + b == b;
    }
  }

  /** A common head keeps an equation between two filtered tails. */
  lemma FilterConsExtra<T>(h: T, u: seq<T>, r: seq<T>, p: T -> bool, extra: seq<T>)
    requires Filter(u, p) == Filter(r, p) + extra
    ensures Filter([h] + u, p) == Filter([h] + r, p) + extra
  {
    var fh: seq<T> := if p(h) then [h] else [];
    calc {
      Filter([h] + u, p);
    == { FilterCons(h, u, p); }
      fh + Filter(u, p);
    ==
      fh + (Filter(r, p) + extra);
    == { AppendAssoc(fh, Filter(r, p), extra); }
      (fh + Filter(r, p)) + extra;
    == { FilterCons(h, r, p); }
      Filter([h] + r, p) + extra;
    }
  }

  lemma AppendAssoc<T>(a: seq<T>, b: seq<T>, c: seq<T>)
    ensures a + (b + c) == (a + b) + c
  {
  }

  /** Filtering a list with a head is the head, if it passes, before the
      filtered tail. */
  lemma FilterCons<T>(h: T, u: seq<T>, p: T -> bool)
    ensures Filter([h] + u, p) == (if p(h) then [h] else []) + Filter(u, p)
  {
    assert ([h] + u)[1..] == u;
  }

  /** Filtering with a predicate every element satisfies changes nothing. */
  lemma {:induction false} FilterKeepsAll<T>(s: seq<T>, p: T -> bool)
    requires forall x :: x in s ==> p(x)
    ensures Filter(s, p) == s
  {
    if s != [] {
      FilterKeepsAll(s[1..], p);
    }
  }

  /** Predicates that agree on every element select the same elements. */
  lemma {:induction false} FilterAgree<T>(s: seq<T>, p: T -> bool, q: T -> bool)
    requires forall x :: x in s ==> p(x) == q(x)
    ensures Filter(s, p) == Filter(s, q)
  {
    if s != [] {
      FilterAgree(s[1..], p, q);
    }
  }

  /** Filtering twice is filtering once by both predicates. */
  lemma {:induction false} FilterTwice<T>(s: seq<T>, p: T -> bool, q: T -> bool, pq: T -> bool)
    requires forall x :: pq(x) == (p(x) && q(x))
    ensures Filter(Filter(s, p), q) == Filter(s, pq)
  {
    if s != [] {
      var h, t := s[0], s[1..];
      assert s == [h] + t;
      FilterTwice(t, p, q, pq);
      FilterCons(h, t, p);
      FilterCons(h, t, pq);
      if p(h) {
        FilterCons(h, Filter(t, p), q);
      } else {
        assert Filter(s, p) == Filter(t, p);
      }
    }
  }

  /** Total amount of a list of expenses. */
  function SumAmounts(s: seq<Expense>): int
  {
    if s == [] then 0 else SumAmounts(s[..|s| - 1]) + s[|s| - 1].amount
  }

  /** Total amount of the expenses of `s` that satisfy `p`. */
  function SumIf(s: seq<Expense>, p: Expense -> bool): int
  {
    if s == [] then 0
    else SumIf(s[..|s| - 1], p) + (if p(s[|s| - 1]) then s[|s| - 1].amount else 0)
  }

  /** The sums over two disjoint selections add up to the sum over their
      union. */
  lemma {:induction false} SumIfDisjoint(s: seq<Expense>, p: Expense -> bool, q: Expense -> bool, pq: Expense -> bool)
    requires forall e :: e in s ==> !(p(e) && q(e)) && (pq(e) <==> p(e) || q(e))
    ensures SumIf(s, pq) == SumIf(s, p) + SumIf(s, q)
  {
    if s != [] {
      SumIfDisjoint(s[..|s| - 1], p, q, pq);
    }
  }

  /** Summing with a predicate every element satisfies is the plain sum. */
  lemma {:induction false} SumIfAll(s: seq<Expense>, p: Expense -> bool)
    requires forall e :: e in s ==> p(e)
    ensures SumIf(s, p) == SumAmounts(s)
  {
    if s != [] {
      SumIfAll(s[..|s| - 1], p);
    }
  }

  /** Summing with a predicate no element satisfies gives zero. */
  lemma {:induction false} SumIfNone(s: seq<Expense>, p: Expense -> bool)
    requires forall e :: e in s ==> !p(e)
    ensures SumIf(s, p) == 0
  {
    if s != [] {
      SumIfNone(s[..|s| - 1], p);
    }
  }

  /** Sum of a list of numbers. */
  function SumSeq(s: seq<int>): int
  {
    if s == [] then 0 else SumSeq(s[..|s| - 1]) + s[|s| - 1]
  }

  /** Adding `v` to one entry adds `v` to the sum. */
  lemma {:induction false} SumSeqAddAt(s: seq<int>, k: nat, v: int)
    requires k < |s|
    ensures SumSeq(s[k := s[k] + v]) == SumSeq(s) + v
  {
    var t := s[k := s[k] + v];
    if k < |s| - 1 {
      assert t[..|t| - 1] == s[..|s| - 1][k := s[k] + v];
      SumSeqAddAt(s[..|s| - 1], k, v);
    } else {
      assert t[..|t| - 1] == s[..|s| - 1];
    }
  }

  /** `s.slice(0, n)`. */
  function Take<T>(s: seq<T>, n: nat): (r: seq<T>)
  {
    if n < |s| then s[..n] else s
  }

  /** `slice(0, n)` keeps the front of the list in order: the rest of the
      list follows it, it draws on the list's elements only, taking again
      changes nothing, and it is the whole list once `n` reaches the length. */
  lemma TakeSplits<T>(s: seq<T>, n: nat)
    ensures Take(s, n) + s[|Take(s, n)|..] == s
    ensures multiset(Take(s, n)) <= multiset(s)
    ensures Take(Take(s, n), n) == Take(s, n)
    ensures |s| <= n ==> Take(s, n) == s
    ensures |Take(s, n)| == if n < |s| then n else |s|
  {
    var t := Take(s, n);
    assert s == t + s[|t|..];
    assert multiset(s) == multiset(t) + multiset(s[|t|..]);
  }

  /** A prefix one element longer is the prefix with that element added. */
  lemma PrefixStep<T>(s: seq<T>, i: nat)
    requires i < |s|
    ensures s[..i + 1] == s[..i] + [s[i]]
  {
  }
}
