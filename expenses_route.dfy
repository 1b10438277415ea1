/**
 * The expense routes: the date-descending list, create with the owner
 * default, fetch, the truthiness-guarded partial update, and delete.
 */
module ExpensesRoute {
  import opened Js
  import opened Calendar
  import opened Folds
  import opened Sorting
  import opened Store
  import opened Records

  /** The fields of a POST body; `None` is an absent field. */
  datatype ExpenseBody = ExpenseBody(
    category: Option<string>,
    amount: Option<real>,
    date: Option<Instant>,
    description: Option<string>,
    userId: Option<string>)

  /**
   * The document `save()` stores for a POST body, or `None` when a required
   * field (category, amount, description) is missing. An absent date is
   * the instant of saving.
   */
  function NewExpense(body: ExpenseBody, id: string, now: Instant): (r: Option<Expense>)
    ensures r.Some? <==> body.category.Some? && body.category.value != "" && body.amount.Some?
                         && body.description.Some? && body.description.value != ""
    ensures r.Some? ==> r.value.id == id && r.value.category == body.category.value
                        && r.value.amount == body.amount.value && r.value.description == body.description.value
                        && r.value.date == (if body.date.Some? then body.date.value else now)
  {
    if body.category.None? || body.category.value == "" || body.amount.None?
       || body.description.None? || body.description.value == "" then None
    else Some(Expense(id, body.category.value, body.amount.value,
                      if body.date.Some? then body.date.value else now,
                      body.description.value, OwnerOr(body.userId)))
  }

  /** An expense posted without a user belongs to the demo user. */
  lemma CreateDefaultUser(body: ExpenseBody, id: string, now: Instant)
    requires NewExpense(body, id, now).Some?
    requires body.userId.None? || body.userId == Some("")
    ensures NewExpense(body, id, now).value.userId == DemoUser
  {
  }

  /** The fields of a PUT body. `None` is an absent field; for `date` it also stands for any falsy value. */
  datatype ExpensePatch = ExpensePatch(
    category: Option<string>,
    amount: Option<real>,
    date: Option<Instant>,
    description: Option<string>)

  /** PUT assigns each of the four fields only when the body's value is truthy. */
  function ExpensePatched(e: Expense, p: ExpensePatch): (r: Expense)
    ensures r.id == e.id && r.userId == e.userId
    ensures r.category == (if p.category.Some? && p.category.value != "" then p.category.value else e.category)
    ensures r.amount == (if p.amount.Some? && p.amount.value != 0.0 then p.amount.value else e.amount)
    ensures r.date == (if p.date.Some? then p.date.value else e.date)
    ensures r.description == (if p.description.Some? && p.description.value != "" then p.description.value else e.description)
  {
    var e1 := if p.category.Some? && p.category.value != "" then e.(category := p.category.value) else e;
    var e2 := if p.amount.Some? && p.amount.value != 0.0 then e1.(amount := p.amount.value) else e1;
    var e3 := if p.date.Some? then e2.(date := p.date.value) else e2;
    if p.description.Some? && p.description.value != "" then e3.(description := p.description.value) else e3
  }

  /** A zero amount or an empty description in a PUT keeps the stored value. */
  lemma FalsyPatchKeeps(e: Expense)
    ensures ExpensePatched(e, ExpensePatch(Some(""), Some(0.0), None, Some(""))) == e
  {
  }

  class ExpenseCollection {
    var docs: seq<Expense>

    ghost predicate Valid()
      reads this
    {
      UniqueKeys(docs, ExpenseId)
    }

    constructor ()
      ensures Valid() && docs == []
    {
      docs := [];
    }

    /** GET `/`: the user's expenses, newest first. */
    method List(requested: Option<string>) returns (found: seq<Expense>)
      ensures multiset(found) == multiset(Filter(docs, ExpenseOwnedBy(OwnerOr(requested))))
      ensures forall e :: e in found <==> e in docs && e.userId == OwnerOr(requested)
      ensures SortedDesc(found, ExpenseTime)
    {
      var owned := Filter(docs, ExpenseOwnedBy(OwnerOr(requested)));
      found := SortDesc(owned, ExpenseTime);
      SortDescSorted(owned, ExpenseTime);
      forall e ensures e in found <==> e in docs && e.userId == OwnerOr(requested) {
        assert e in found <==> e in multiset(found);
        assert e in owned <==> e in multiset(owned);
        assert e in owned <==> e in docs && ExpenseOwnedBy(OwnerOr(requested))(e);
      }
    }

    /** POST `/`. */
    method Create(body: ExpenseBody, newId: string, now: Instant) returns (out: Outcome<Expense>)
      requires Valid() && !HasKey(docs, ExpenseId, newId)
      modifies this
      ensures Valid()
      ensures NewExpense(body, newId, now).None? ==> out == BadRequest && docs == old(docs)
      ensures NewExpense(body, newId, now).Some? ==>
                out == Created(NewExpense(body, newId, now).value) && docs == old(docs) + [out.value]
    {
      var made := NewExpense(body, newId, now);
      if made.None? {
        return BadRequest;
      }
      docs := docs + [made.value];
      out := Created(made.value);
    }

    /** GET `/:id`. */
    method Get(id: string) returns (out: Outcome<Expense>)
      ensures out.NotFound? <==> !HasKey(docs, ExpenseId, id)
      ensures out.Ok? ==> out.value in docs && out.value.id == id
      ensures out.NotFound? || out.Ok?
    {
      var i := IndexOf(docs, ExpenseId, id);
      if i.None? {
        return NotFound;
      }
      out := Ok(docs[i.value]);
    }

    /** PUT `/:id`. */
    method Update(id: string, patch: ExpensePatch) returns (out: Outcome<Expense>)
      requires Valid()
      modifies this
      ensures Valid()
      ensures !HasKey(old(docs), ExpenseId, id) ==> out == NotFound && docs == old(docs)
      ensures HasKey(old(docs), ExpenseId, id) ==>
                var i := IndexOf(old(docs), ExpenseId, id).value;
                out == Ok(ExpensePatched(old(docs)[i], patch)) && docs == old(docs)[i := out.value]
    {
      var i := IndexOf(docs, ExpenseId, id);
      if i.None? {
        return NotFound;
      }
      var expense := ExpensePatched(docs[i.value], patch);
      docs := docs[i.value := expense];
      out := Ok(expense);
    }

    /** DELETE `/:id`. */
    method Delete(id: string) returns (out: Outcome<()>)
      requires Valid()
      modifies this
      ensures Valid()
      ensures !HasKey(old(docs), ExpenseId, id) ==> out == NotFound && docs == old(docs)
      ensures HasKey(old(docs), ExpenseId, id) ==>
                out == Ok(()) && docs == Without(old(docs), ExpenseId, id) && |docs| == |old(docs)| - 1
    {
      var i := IndexOf(docs, ExpenseId, id);
      if i.None? {
        return NotFound;
      }
      WithoutRemovesOne(docs, ExpenseId, i.value);
      FilterUnique(docs, ExpenseId, KeyIsNot(ExpenseId, id));
      docs := Without(docs, ExpenseId, id);
      out := Ok(());
    }
  }
}
