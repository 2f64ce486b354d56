/** The expense controller of the server: create, list, update and delete
    expenses, each scoped to the requesting user, and a per-category sum.
    The collection is a sequence in insertion order with unique ids. */
module ExpenseController {
  import opened Records
  import opened Sorting

  /** The body of a create request.  An absent amount is `None`. */
  datatype ExpenseInput = ExpenseInput(
    title: string,
    description: string,
    amount: Option<int>,
    category: string,
    date: Option<Date>)

  /** The body of an update request.  Mongoose 6 and later drop the fields
      that are `undefined` in an update, so `None` keeps the stored value. */
  datatype ExpensePatch = ExpensePatch(
    title: Option<string>,
    description: Option<string>,
    amount: Option<int>,
    category: Option<string>,
    date: Option<Date>)

  /** `!title || !amount || !category || !date` is false: every required
      field is present and truthy (an amount of 0 is falsy). */
  predicate Complete(input: ExpenseInput) {
    input.title != "" && input.amount.Some? && input.amount.value != 0
    && input.category != "" && input.date.Some?
  }

  /** The stored expense with the supplied fields of `patch` written over it. */
  function Patched(e: Expense, patch: ExpensePatch): (r: Expense)
    ensures r.id == e.id && r.userId == e.userId
  {
    e.(title := if patch.title.Some? then patch.title.value else e.title,
       description := if patch.description.Some? then patch.description.value else e.description,
       amount := if patch.amount.Some? then patch.amount.value else e.amount,
       category := if patch.category.Some? then patch.category.value else e.category,
       date := if patch.date.Some? then patch.date.value else e.date)
  }

  /** An update with no fields keeps the expense; applying the same update
      twice is the same as once; and an update that supplies every field
      leaves nothing of the old contents but the id and the owner. */
  lemma PatchLaws(e: Expense, patch: ExpensePatch, other: Expense)
    ensures Patched(e, ExpensePatch(None, None, None, None, None)) == e
    ensures Patched(Patched(e, patch), patch) == Patched(e, patch)
    ensures patch.title.Some? && patch.description.Some? && patch.amount.Some?
            && patch.category.Some? && patch.date.Some?
            && other.id == e.id && other.userId == e.userId
            ==> Patched(other, patch) == Patched(e, patch)
  {
  }

  /** The expense is the one the query `{ _id: id, userId }` selects. */
  predicate Selects(e: Expense, id: Id, userId: Id) {
    e.id == id && e.userId == userId
  }

  /** Position of the expense with that id and owner, if any. */
  function FindOwned(s: seq<Expense>, id: Id, userId: Id): (r: Option<nat>)
    ensures r.Some? ==> r.value < |s| && Selects(s[r.value], id, userId)
    ensures r.None? ==> forall i :: 0 <= i < |s| ==> !Selects(s[i], id, userId)
  {
    if s == [] then None
    else if Selects(s[0], id, userId) then Some(0)
    else
      match FindOwned(s[1..], id, userId)
      case None => None
      case Some(k) => Some(k + 1)
  }

  /** Sort order of `getExpenses`: newest date first. */
  const NewestFirst := SortConfig(ByDate, Desc)

  function Owned(s: seq<Expense>, userId: Id): seq<Expense> {
    Filter(s, (e: Expense) => e.userId == userId)
  }

  /** Total per category: adds the last expense onto the totals of the rest. */
  function CategoryTotals(s: seq<Expense>): (r: map<string, int>)
    ensures forall i :: 0 <= i < |s| ==> s[i].category in r
  {
    if s == [] then map[]
    else
      var m := CategoryTotals(s[..|s| - 1]);
      var e := s[|s| - 1];
      m[e.category := (if e.category in m then m[e.category] else 0) + e.amount]
  }

  /** There is one total per category that occurs, and it is the sum of the
      amounts of that category. */
  lemma {:induction false} CategoryTotalsCorrect(s: seq<Expense>)
    ensures forall c :: c in CategoryTotals(s) <==> exists e :: e in s && e.category == c
    ensures forall c :: c in CategoryTotals(s) ==>
      CategoryTotals(s)[c] == SumIf(s, (e: Expense) => e.category == c)
  {
    if s != [] {
      var init := s[..|s| - 1];
      var last := s[|s| - 1];
      CategoryTotalsCorrect(init);
      assert s == init + [last];
      forall c ensures c in CategoryTotals(s) <==> exists e :: e in s && e.category == c {
        if c != last.category && c !in CategoryTotals(init) {
          forall e | e in s ensures e.category != c {
            if e != last { assert e in init; }
          }
        }
      }
      forall c | c in CategoryTotals(s)
        ensures CategoryTotals(s)[c] == SumIf(s, (e: Expense) => e.category == c)
      {
        if c == last.category && c !in CategoryTotals(init) {
          SumIfNone(init, (e: Expense) => e.category == c);
        }
      }
    }
  }

  /** Ids are unique and below `nextId`. */
  ghost predicate IdsValid(s: seq<Expense>, nextId: Id) {
    && (forall i :: 0 <= i < |s| ==> s[i].id < nextId)
    && (forall i, j :: 0 <= i < j < |s| ==> s[i].id != s[j].id)
  }

  /** Removing the entry at `k` keeps ids unique, keeps every other entry,
      and adds nothing. */
  lemma RemoveAtKeeps(s: seq<Expense>, k: nat, nextId: Id)
    requires k < |s| && IdsValid(s, nextId)
    ensures IdsValid(s[..k] + s[k + 1..], nextId)
    ensures forall e :: e in s && e != s[k] ==> e in s[..k] + s[k + 1..]
    ensures forall e :: e in s[..k] + s[k + 1..] ==> e in s
  {
    var t := s[..k] + s[k + 1..];
    assert forall i :: 0 <= i < |t| ==> t[i] == if i < k then s[i] else s[i + 1];
    forall e | e in s && e != s[k] ensures e in t {
      var i :| 0 <= i < |s| && s[i] == e;
      if i < k { assert t[i] == e; } else { assert t[i - 1] == e; }
    }
  }

  class ExpenseStore {
    /** The expense collection, in insertion order. */
    var expenses: seq<Expense>
    /** The next expense id to hand out. */
    var nextId: Id

    /** Ids are unique and below `nextId`. */
    ghost predicate Valid()
      reads this
    {
      IdsValid(expenses, nextId)
    }

    constructor ()
      ensures Valid() && expenses == []
    {
      expenses := [];
      nextId := 0;
    }

    /** `addExpense`: with a required field missing answers 400 and stores
        nothing; otherwise stores one new expense owned by the caller and
        answers 201 with it.  The description is optional. */
    method AddExpense(userId: Id, input: ExpenseInput) returns (r: Response<Expense>)
      requires Valid()
      modifies this
      ensures Valid()
      ensures !Complete(input) ==>
        r == Error(400, "Title, amount, category, and date are required.")
        && expenses == old(expenses) && nextId == old(nextId)
      ensures Complete(input) ==>
        var e := Expense(old(nextId), userId, input.title, input.description,
                         input.amount.value, input.category, input.date.value);
        && r == Ok(201, e)
        && expenses == old(expenses) + [e]
        && nextId == old(nextId) + 1
      ensures r.Ok? ==> forall i :: 0 <= i < |old(expenses)| ==> old(expenses)[i].id != r.body.id
    {
      if !Complete(input) {
        return Error(400, "Title, amount, category, and date are required.");
      }
      var e := Expense(nextId, userId, input.title, input.description,
                       input.amount.value, input.category, input.date.value);
      expenses := expenses + [e];
      nextId := nextId + 1;
      r := Ok(201, e);
    }

    /** `getExpenses`: exactly the caller's expenses, newest first. */
    function GetExpenses(userId: Id): (r: seq<Expense>)
      reads this
      ensures forall e :: multiset(r)[e] == if e.userId == userId then multiset(expenses)[e] else 0
      ensures Sorted(r, NewestFirst)
      ensures forall i, j :: 0 <= i < j < |r| ==> !DateBefore(r[i].date, r[j].date)
    {
      var mine := Owned(expenses, userId);
      var r := SortBy(mine, NewestFirst);
      SortByCorrect(mine, NewestFirst);
      forall e ensures multiset(r)[e] == if e.userId == userId then multiset(expenses)[e] else 0 {
        FilterCount(expenses, (e: Expense) => e.userId == userId, e);
      }
      forall i, j | 0 <= i < j < |r| ensures !DateBefore(r[i].date, r[j].date) {
        CompareMeaning(r[i], r[j], NewestFirst);
      }
      r
    }

    /** `updateExpense`: writes the supplied fields over the one expense with
        that id and owner.  Another user's expense, or no expense, gives 404;
        an id that is not an ObjectId makes the query throw, answered with
        500.  Nothing else changes. */
    method UpdateExpense(userId: Id, rawId: RawId, patch: ExpensePatch) returns (r: Response<Expense>)
      requires Valid()
      modifies this`expenses
      ensures Valid()
      ensures rawId.Malformed? ==> r.Error? && r.status == 500 && expenses == old(expenses)
      ensures rawId.Wellformed? ==>
        match FindOwned(old(expenses), rawId.id, userId)
        case None => r == Error(404, "Expense not found") && expenses == old(expenses)
        case Some(k) =>
          && r == Ok(200, Patched(old(expenses)[k], patch))
          && expenses == old(expenses)[k := r.body]
      ensures |expenses| == |old(expenses)|
      ensures forall i :: 0 <= i < |expenses| && !(rawId.Wellformed? && Selects(old(expenses)[i], rawId.id, userId)) ==>
        expenses[i] == old(expenses)[i]
    {
      if rawId.Malformed? {
        return Error(500, "Server error: Cast to ObjectId failed");
      }
      var found := FindOwned(expenses, rawId.id, userId);
      if found.None? {
        return Error(404, "Expense not found");
      }
      var k := found.value;
      var updated := Patched(expenses[k], patch);
      expenses := expenses[k := updated];
      r := Ok(200, updated);
    }

    /** `deleteExpense`: rejects an id that is not an ObjectId with 400 before
        any query; otherwise removes the one expense with that id and owner,
        or answers 404 and removes nothing. */
    method DeleteExpense(userId: Id, rawId: RawId) returns (r: Response<string>)
      requires Valid()
      modifies this`expenses
      ensures Valid()
      ensures rawId.Malformed? ==> r == Error(400, "Invalid expense ID") && expenses == old(expenses)
      ensures rawId.Wellformed? ==>
        match FindOwned(old(expenses), rawId.id, userId)
        case None => r == Error(404, "Expense not found") && expenses == old(expenses)
        case Some(k) =>
          r == Ok(200, "Expense deleted successfully")
          && expenses == old(expenses)[..k] + old(expenses)[k + 1..]
      ensures forall e :: e in old(expenses) && !(rawId.Wellformed? && Selects(e, rawId.id, userId)) ==> e in expenses
      ensures forall e :: e in expenses ==> e in old(expenses)
    {
      if rawId.Malformed? {
        return Error(400, "Invalid expense ID");
      }
      var found := FindOwned(expenses, rawId.id, userId);
      if found.None? {
        return Error(404, "Expense not found");
      }
      var k := found.value;
      RemoveAtKeeps(expenses, k, nextId);
      expenses := expenses[..k] + expenses[k + 1..];
      r := Ok(200, "Expense deleted successfully");
    }

    /** `getSummary`: one total per category among the caller's expenses,
        the sum of that category's amounts. */
    function GetSummary(userId: Id): (r: map<string, int>)
      reads this
      ensures forall c :: c in r <==> exists e :: e in expenses && e.userId == userId && e.category == c
      ensures forall c :: c in r ==>
        r[c] == SumIf(Owned(expenses, userId), (e: Expense) => e.category == c)
    {
      var mine := Owned(expenses, userId);
      CategoryTotalsCorrect(mine);
      forall e ensures e in mine <==> e in expenses && e.userId == userId {
        FilterMember(expenses, (e: Expense) => e.userId == userId, e);
      }
      CategoryTotals(mine)
    }
  }
}
