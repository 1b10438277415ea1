/**
 * The savings-goal routes: list, create with defaults, fetch, the
 * truthiness-guarded partial update, contributions, and delete.
 */
module SavingsRoute {
  import opened Js
  import opened Calendar
  import opened Folds
  import opened Store
  import opened Records

  /** The fields of a POST body; `None` is an absent field. */
  datatype GoalBody = GoalBody(
    name: Option<string>,
    targetAmount: Option<real>,
    currentAmount: Option<real>,
    deadline: Option<Instant>,
    userId: Option<string>)

  /**
   * The document `save()` stores for a POST body, or `None` when a required
   * field (name, target, deadline) is missing. `currentAmount || 0` and the
   * owner default fill the rest.
   */
  function NewGoal(body: GoalBody, id: string): (r: Option<SavingsGoal>)
    ensures r.Some? <==> body.name.Some? && body.name.value != "" && body.targetAmount.Some? && body.deadline.Some?
    ensures r.Some? ==> r.value.id == id && r.value.name == body.name.value
                        && r.value.targetAmount == body.targetAmount.value && r.value.deadline == body.deadline.value
  {
    if body.name.None? || body.name.value == "" || body.targetAmount.None? || body.deadline.None? then None
    else Some(SavingsGoal(id, body.name.value, body.targetAmount.value,
                          ParsedOrZero(body.currentAmount, 0.0), body.deadline.value, OwnerOr(body.userId)))
  }

  /** A goal created without a current amount or user starts at 0 for the demo user. */
  lemma CreateDefaults(name: string, target: real, deadline: Instant, id: string)
    requires name != ""
    ensures var r := NewGoal(GoalBody(Some(name), Some(target), None, Some(deadline), None), id);
            r.Some? && r.value.currentAmount == 0.0 && r.value.userId == DemoUser
  {
  }

  /**
   * The fields of a PUT body. `None` is an absent field; for `deadline` it
   * also stands for any falsy value.
   */
  datatype GoalPatch = GoalPatch(
    name: Option<string>,
    targetAmount: Option<real>,
    currentAmount: Option<real>,
    deadline: Option<Instant>)

  /**
   * PUT assigns name, target and deadline only when truthy, but the current
   * amount whenever it is present.
   */
  function GoalPatched(g: SavingsGoal, p: GoalPatch): (r: SavingsGoal)
    ensures r.id == g.id && r.userId == g.userId
    ensures r.name == (if p.name.Some? && p.name.value != "" then p.name.value else g.name)
    ensures r.targetAmount == (if p.targetAmount.Some? && p.targetAmount.value != 0.0 then p.targetAmount.value else g.targetAmount)
    ensures r.currentAmount == (if p.currentAmount.Some? then p.currentAmount.value else g.currentAmount)
    ensures r.deadline == (if p.deadline.Some? then p.deadline.value else g.deadline)
  {
    var g1 := if p.name.Some? && p.name.value != "" then g.(name := p.name.value) else g;
    var g2 := if p.targetAmount.Some? && p.targetAmount.value != 0.0 then g1.(targetAmount := p.targetAmount.value) else g1;
    var g3 := if p.currentAmount.Some? then g2.(currentAmount := p.currentAmount.value) else g2;
    if p.deadline.Some? then g3.(deadline := p.deadline.value) else g3
  }

  /** A zero current amount is applied while a zero target is ignored. */
  lemma ZeroAmountsAsymmetric(g: SavingsGoal)
    ensures GoalPatched(g, GoalPatch(None, None, Some(0.0), None)).currentAmount == 0.0
    ensures GoalPatched(g, GoalPatch(None, Some(0.0), None, None)) == g
  {
  }

  /** The goal after an accepted contribution. */
  function Contributed(g: SavingsGoal, amount: real): (r: SavingsGoal)
    requires amount > 0.0
    ensures r.currentAmount > g.currentAmount
    ensures r.currentAmount - g.currentAmount == amount
    ensures r == g.(currentAmount := r.currentAmount)
  {
    g.(currentAmount := g.currentAmount + amount)
  }

  /** Contributions are not capped: a fully funded goal goes past its target. */
  lemma ContributionUncapped(g: SavingsGoal, amount: real)
    requires amount > 0.0 && g.currentAmount >= g.targetAmount
    ensures Contributed(g, amount).currentAmount > g.targetAmount
  {
  }

  /** Two accepted contributions add up to one of their sum. */
  lemma ContributionsAdd(g: SavingsGoal, a: real, b: real)
    requires a > 0.0 && b > 0.0
    ensures Contributed(Contributed(g, a), b) == Contributed(g, a + b)
  {
  }

  class GoalCollection {
    var docs: seq<SavingsGoal>

    ghost predicate Valid()
      reads this
    {
      UniqueKeys(docs, GoalId)
    }

    constructor ()
      ensures Valid() && docs == []
    {
      docs := [];
    }

    /** GET `/`: the goals of the requested user, default the demo user. */
    method List(requested: Option<string>) returns (found: seq<SavingsGoal>)
      ensures found == Filter(docs, GoalOwnedBy(OwnerOr(requested)))
      ensures forall g :: g in found <==> g in docs && g.userId == OwnerOr(requested)
    {
      found := Filter(docs, GoalOwnedBy(OwnerOr(requested)));
    }

    /** POST `/`. */
    method Create(body: GoalBody, newId: string) returns (out: Outcome<SavingsGoal>)
      requires Valid() && !HasKey(docs, GoalId, newId)
      modifies this
      ensures Valid()
      ensures NewGoal(body, newId).None? ==> out == BadRequest && docs == old(docs)
      ensures NewGoal(body, newId).Some? ==>
                out == Created(NewGoal(body, newId).value) && docs == old(docs) + [out.value]
    {
      var made := NewGoal(body, newId);
      if made.None? {
        return BadRequest;
      }
      docs := docs + [made.value];
      out := Created(made.value);
    }

    /** GET `/:id`. */
    method Get(id: string) returns (out: Outcome<SavingsGoal>)
      ensures out.NotFound? <==> !HasKey(docs, GoalId, id)
      ensures out.Ok? ==> out.value in docs && out.value.id == id
      ensures out.NotFound? || out.Ok?
    {
      var i := IndexOf(docs, GoalId, id);
      if i.None? {
        return NotFound;
      }
      out := Ok(docs[i.value]);
    }

    /** PUT `/:id`. */
    method Update(id: string, patch: GoalPatch) returns (out: Outcome<SavingsGoal>)
      requires Valid()
      modifies this
      ensures Valid()
      ensures !HasKey(old(docs), GoalId, id) ==> out == NotFound && docs == old(docs)
      ensures HasKey(old(docs), GoalId, id) ==>
                var i := IndexOf(old(docs), GoalId, id).value;
                out == Ok(GoalPatched(old(docs)[i], patch)) && docs == old(docs)[i := out.value]
    {
      var i := IndexOf(docs, GoalId, id);
      if i.None? {
        return NotFound;
      }
      var goal := GoalPatched(docs[i.value], patch);
      docs := docs[i.value := goal];
      out := Ok(goal);
    }

    /**
     * POST `/:id/contribute`. `parsed` is `parseFloat` of the body's amount,
     * `None` when that is NaN. The id is looked up before the amount is checked.
     */
    method Contribute(id: string, parsed: Option<real>) returns (out: Outcome<SavingsGoal>)
      requires Valid()
      modifies this
      ensures Valid()
      ensures !HasKey(old(docs), GoalId, id) ==> out == NotFound && docs == old(docs)
      ensures HasKey(old(docs), GoalId, id) && (parsed.None? || parsed.value <= 0.0) ==>
                out == BadRequest && docs == old(docs)
      ensures HasKey(old(docs), GoalId, id) && parsed.Some? && parsed.value > 0.0 ==>
                var i := IndexOf(old(docs), GoalId, id).value;
                out == Ok(Contributed(old(docs)[i], parsed.value)) && docs == old(docs)[i := out.value]
    {
      var i := IndexOf(docs, GoalId, id);
      if i.None? {
        return NotFound;
      }
      if parsed.None? || parsed.value <= 0.0 {
        return BadRequest;
      }
      var goal := docs[i.value];
      goal := goal.(currentAmount := goal.currentAmount + parsed.value);
      docs := docs[i.value := goal];
      out := Ok(goal);
    }

    /** DELETE `/:id`. */
    method Delete(id: string) returns (out: Outcome<()>)
      requires Valid()
      modifies this
      ensures Valid()
      ensures !HasKey(old(docs), GoalId, id) ==> out == NotFound && docs == old(docs)
      ensures HasKey(old(docs), GoalId, id) ==>
                out == Ok(()) && docs == Without(old(docs), GoalId, id) && |docs| == |old(docs)| - 1
    {
      var i := IndexOf(docs, GoalId, id);
      if i.None? {
        return NotFound;
      }
      WithoutRemovesOne(docs, GoalId, i.value);
      FilterUnique(docs, GoalId, KeyIsNot(GoalId, id));
      docs := Without(docs, GoalId, id);
      out := Ok(());
    }
  }
}
