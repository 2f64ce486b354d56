/** The client's expense store (the React context provider): the list of
    expenses last received from the server, a loading flag, and the list
    updates made after each server reply.  A server reply is a parameter:
    `None` stands for a failed request. */
module ExpenseContext {
  import opened Records

  /** `prev.map(e => e._id === id ? updated : e)`. */
  function ReplaceById(s: seq<Expense>, id: Id, updated: Expense): (r: seq<Expense>)
    ensures |r| == |s|
    ensures forall i :: 0 <= i < |s| ==> r[i] == if s[i].id == id then updated else s[i]
  {
    if s == [] then []
    else [if s[0].id == id then updated else s[0]] + ReplaceById(s[1..], id, updated)
  }

  function HasOtherId(id: Id): Expense -> bool {
    (e: Expense) => e.id != id
  }

  /** `prev.filter(e => e._id !== id)`: every entry with that id goes, every
      other entry stays, as often as before and in the same relative order. */
  function RemoveById(s: seq<Expense>, id: Id): (r: seq<Expense>)
    ensures forall e :: multiset(r)[e] == if e.id == id then 0 else multiset(s)[e]
  {
    forall e ensures multiset(Filter(s, HasOtherId(id)))[e] == if e.id == id then 0 else multiset(s)[e] {
      FilterCount(s, HasOtherId(id), e);
    }
    Filter(s, HasOtherId(id))
  }

  /** Removing from a concatenation removes from each part in place, so the
      survivors keep their relative order. */
  lemma RemoveByIdConcat(a: seq<Expense>, b: seq<Expense>, id: Id)
    ensures RemoveById(a + b, id) == RemoveById(a, id) + RemoveById(b, id)
  {
    FilterConcat(a, b, HasOtherId(id));
  }

  /** Index of the first entry with that id. */
  function FirstIndexOf(s: seq<Expense>, id: Id): (r: Option<nat>)
    ensures r.Some? ==> r.value < |s| && s[r.value].id == id
    ensures r.Some? ==> forall j :: 0 <= j < r.value ==> s[j].id != id
    ensures r.None? ==> forall j :: 0 <= j < |s| ==> s[j].id != id
  {
    if s == [] then None
    else if s[0].id == id then Some(0)
    else
      match FirstIndexOf(s[1..], id)
      case None => None
      case Some(k) => Some(k + 1)
  }

  /** A failed call rethrows with this message. */
  datatype Outcome<T> = Done(value: T) | Thrown(message: string)

  class ExpenseProvider {
    var expenses: seq<Expense>
    var loading: bool

    constructor ()
      ensures expenses == [] && loading
    {
      expenses := [];
      loading := true;
    }

    /** `fetchExpenses`: takes the server's list on success, keeps the old one
        on failure, and clears `loading` either way. */
    method FetchExpenses(reply: Option<seq<Expense>>)
      modifies this
      ensures expenses == if reply.Some? then reply.value else old(expenses)
      ensures !loading
    {
      if reply.Some? {
        expenses := reply.value;
      }
      loading := false;
    }

    /** `addExpense`: appends the expense the server returns. */
    method AddExpense(reply: Option<Expense>) returns (r: Outcome<Expense>)
      modifies this`expenses
      ensures reply.None? ==> r == Thrown("Failed to add expense") && expenses == old(expenses)
      ensures reply.Some? ==> r == Done(reply.value) && expenses == old(expenses) + [reply.value]
    {
      if reply.None? {
        return Thrown("Failed to add expense");
      }
      expenses := expenses + [reply.value];
      r := Done(reply.value);
    }

    /** `updateExpense`: puts the returned expense in place of every entry
        with that id; length and every other entry stay as they were. */
    method UpdateExpense(id: Id, reply: Option<Expense>) returns (r: Outcome<Expense>)
      modifies this`expenses
      ensures reply.None? ==> r == Thrown("Failed to update expense") && expenses == old(expenses)
      ensures reply.Some? ==> r == Done(reply.value) && expenses == ReplaceById(old(expenses), id, reply.value)
    {
      if reply.None? {
        return Thrown("Failed to update expense");
      }
      expenses := ReplaceById(expenses, id, reply.value);
      r := Done(reply.value);
    }

    /** `deleteExpense`: drops every entry with that id once the server
        confirms.  `reply` is whether the request succeeded. */
    method DeleteExpense(id: Id, reply: bool) returns (r: Outcome<bool>)
      modifies this`expenses
      ensures !reply ==> r == Thrown("Failed to delete expense") && expenses == old(expenses)
      ensures reply ==> r == Done(true) && expenses == RemoveById(old(expenses), id)
    {
      if !reply {
        return Thrown("Failed to delete expense");
      }
      expenses := RemoveById(expenses, id);
      r := Done(true);
    }

    /** `getExpense`: the first entry with that id, or nothing. */
    function GetExpense(id: Id): (r: Option<Expense>)
      reads this
      ensures r.None? <==> forall j :: 0 <= j < |expenses| ==> expenses[j].id != id
      ensures r.Some? ==> r.value.id == id
      ensures r.Some? ==>
        exists k :: 0 <= k < |expenses| && expenses[k] == r.value && (forall j :: 0 <= j < k ==> expenses[j].id != id)
    {
      match FirstIndexOf(expenses, id)
      case None => None
      case Some(k) => Some(expenses[k])
    }
  }

  /** After an update, looking the id up finds the returned expense. */
  lemma UpdateThenGet(s: seq<Expense>, id: Id, updated: Expense)
    requires updated.id == id
    requires exists j :: 0 <= j < |s| && s[j].id == id
    ensures FirstIndexOf(ReplaceById(s, id, updated), id).Some?
    ensures var t := ReplaceById(s, id, updated); t[FirstIndexOf(t, id).value] == updated
  {
  }

  /** After a delete, looking the id up finds nothing. */
  lemma DeleteThenGet(s: seq<Expense>, id: Id)
    ensures FirstIndexOf(RemoveById(s, id), id).None?
  {
    var t := RemoveById(s, id);
    forall j | 0 <= j < |t| ensures t[j].id != id {
      assert multiset(t)[t[j]] > 0;
    }
  }
}
