/** app/goals/page.tsx: contributions to a savings goal, the new-goal form and the progress
    bar. The page asks the ledger hook for `addGoal` and `updateGoal`, which the hook does not
    export (hooks/useFinancial.ts:118-125); `HookExports` records which of the two exist, so
    the handlers are modelled both as written against the real hook and as intended. */
module GoalsPage {
  import opened FinanceTypes
  import opened JsNumber
  import Ledger

  /** One year in milliseconds: the default deadline is `Date.now()` plus this. */
  const YearMs: int := 365 * 24 * 60 * 60 * 1000

  /** Which goal operations the ledger hook hands to the page. */
  datatype HookExports = HookExports(addGoal: bool, updateGoal: bool)

  /** What `useFinancial` actually returns: neither of the two. */
  const UseFinancialExports := HookExports(false, false)

  /** `Math.min(goal.currentAmount + amount, goal.targetAmount)`. */
  function Contributed(g: Goal, amount: real): (r: real)
    ensures r <= g.targetAmount && r <= g.currentAmount + amount
    ensures r == g.currentAmount + amount || r == g.targetAmount
  {
    if g.currentAmount + amount <= g.targetAmount then g.currentAmount + amount else g.targetAmount
  }

  /** A contribution that fits below the target is added in full. */
  lemma ContributionThatFits(g: Goal, amount: real)
    requires g.currentAmount + amount <= g.targetAmount
    ensures Contributed(g, amount) == g.currentAmount + amount
  {
  }

  /** Contributing again once the target is reached keeps the goal at its target. */
  lemma ContributionSaturates(g: Goal, a: real, b: real)
    requires 0.0 <= a && 0.0 <= b && g.currentAmount + a >= g.targetAmount
    ensures Contributed(g.(currentAmount := Contributed(g, a)), b) == g.targetAmount
  {
  }

  /** `data?.goals.find((g) => g.id === id)`. */
  function FindGoal(goals: seq<Goal>, id: string): (r: Option<Goal>)
    ensures r.None? <==> forall i :: 0 <= i < |goals| ==> goals[i].id != id
    ensures r.Some? ==> exists i :: 0 <= i < |goals| && goals[i] == r.value && forall k :: 0 <= k < i ==> goals[k].id != id
    ensures r.Some? ==> r.value.id == id
  {
    if goals == [] then None
    else if goals[0].id == id then Some(goals[0])
    else
      var r := FindGoal(goals[1..], id);
      if r.Some? then
        ghost var j :| 0 <= j < |goals[1..]| && goals[1..][j] == r.value && forall k :: 0 <= k < j ==> goals[1..][k].id != id;
        assert goals[j + 1] == r.value && forall k :: 0 <= k < j + 1 ==> goals[k].id != id;
        r
      else r
  }

  /** The `{ currentAmount }` patch passed to `updateGoal` for goal `id`. */
  datatype GoalUpdate = GoalUpdate(id: string, currentAmount: real)

  /** `handleUpdateProgress` as intended: the clamped amount for the first goal with that id,
      and no update at all when there is no data, no goal list or no such goal. */
  function UpdateProgress(data: Option<FinancialData>, id: string, amount: real): (r: Option<GoalUpdate>)
    ensures data.None? || data.value.goals.None? ==> r.None?
    ensures data.Some? && data.value.goals.Some? ==>
      (r.None? <==> forall i :: 0 <= i < |data.value.goals.value| ==> data.value.goals.value[i].id != id)
    ensures r.Some? ==> r.value.id == id
    ensures r.Some? ==> var g := FindGoal(data.value.goals.value, id).value;
      && r.value.currentAmount <= g.targetAmount
      && (g.currentAmount + amount <= g.targetAmount ==> r.value.currentAmount == g.currentAmount + amount)
      && (g.currentAmount + amount > g.targetAmount ==> r.value.currentAmount == g.targetAmount)
  {
    if data.None? || data.value.goals.None? then None
    else
      var goal := FindGoal(data.value.goals.value, id);
      if goal.Some? then Some(GoalUpdate(id, Contributed(goal.value, amount))) else None
  }

  /** What a click on a handler does when it reaches a hook function. */
  datatype CallOutcome<T> = NoCall | Called(argument: T) | ThrowsTypeError

  /** `handleUpdateProgress` as written: `data?.goals.find` throws when the aggregate has no
      goal list; otherwise the clamp is computed, then `updateGoal` is called, which throws when
      the hook does not provide it. */
  function UpdateProgressAsWritten(data: Option<FinancialData>, id: string, amount: real, hook: HookExports): (r: CallOutcome<GoalUpdate>)
    ensures data.Some? && data.value.goals.None? ==> r == ThrowsTypeError
    ensures (data.None? || data.value.goals.Some?) && UpdateProgress(data, id, amount).None? ==> r == NoCall
    ensures UpdateProgress(data, id, amount).Some? ==>
      r == if hook.updateGoal then Called(UpdateProgress(data, id, amount).value) else ThrowsTypeError
  {
    if data.Some? && data.value.goals.None? then ThrowsTypeError
    else
      match UpdateProgress(data, id, amount)
      case None => NoCall
      case Some(u) => if hook.updateGoal then Called(u) else ThrowsTypeError
  }

  /** Against the real hook, every contribution to an existing goal throws. */
  lemma ContributionThrowsWithRealHook(d: FinancialData, i: nat, amount: real)
    requires d.goals.Some? && i < |d.goals.value|
    ensures UpdateProgressAsWritten(Some(d), d.goals.value[i].id, amount, UseFinancialExports) == ThrowsTypeError
  {
  }

  /** What `data?.goals.map(...)` gives the page to render: nothing without data, the goals in
      order, or a `TypeError` when the aggregate has no goal list. */
  datatype GoalCards = NoCards | Cards(goals: seq<Goal>) | CardsThrow

  function GoalCardsOf(data: Option<FinancialData>): (r: GoalCards)
    ensures data.None? <==> r.NoCards?
    ensures r.CardsThrow? <==> data.Some? && data.value.goals.None?
    ensures r.Cards? ==> data.value.goals == Some(r.goals)
  {
    if data.None? then NoCards
    else if data.value.goals.None? then CardsThrow
    else Cards(data.value.goals.value)
  }

  /** The seed data a first visit loads has no goal list, so the goals page throws while
      rendering, and so does every contribution. */
  lemma SeedBreaksGoalsPage(seed: Ledger.SeedDates, id: string, amount: real, hook: HookExports)
    ensures GoalCardsOf(Ledger.Loaded(None, seed)) == CardsThrow
    ensures UpdateProgressAsWritten(Ledger.Loaded(None, seed), id, amount, hook) == ThrowsTypeError
  {
  }

  /** With the seed as its type declares it, the page shows an empty list and a contribution
      finds no goal to update. */
  lemma IntendedSeedShowsNoGoals(seed: Ledger.SeedDates, id: string, amount: real)
    ensures GoalCardsOf(Some(Ledger.IntendedMockData(seed))) == Cards([])
    ensures UpdateProgress(Some(Ledger.IntendedMockData(seed)), id, amount).None?
  {
  }

  /** `new Date(formData.deadline || Date.now() + 365 days)`: the typed date, or one year on. */
  datatype DeadlineArg = FromText(text: string) | FromMillis(ms: int)

  /** The goal record `handleAddGoal` passes to `addGoal`. */
  datatype GoalInput = GoalInput(name: string, targetAmount: Num, currentAmount: real, deadline: DeadlineArg, category: string)

  /** The record built from the form: `Number.parseFloat` is given as `parseNumber`. */
  function NewGoal(name: string, target: string, deadline: string, parseNumber: string -> Num, nowMs: int): (g: GoalInput)
    ensures g.name == name && g.targetAmount == parseNumber(target)
    ensures g.currentAmount == 0.0 && g.category == "savings"
    ensures deadline != "" ==> g.deadline == FromText(deadline)
    ensures deadline == "" ==> g.deadline == FromMillis(nowMs + YearMs)
  {
    GoalInput(name, parseNumber(target), 0.0,
      if deadline != "" then FromText(deadline) else FromMillis(nowMs + YearMs), "savings")
  }

  /** `handleAddGoal` as written, on the form's values: nothing without a name and a target;
      otherwise `addGoal` is called, which throws when the hook does not provide it (and the
      form reset and modal close after it are then never reached). */
  function AddGoalAsWritten(name: string, target: string, deadline: string, parseNumber: string -> Num, nowMs: int, hook: HookExports): (r: CallOutcome<GoalInput>)
    ensures (name == "" || target == "") ==> r == NoCall
    ensures name != "" && target != "" && !hook.addGoal ==> r == ThrowsTypeError
    ensures name != "" && target != "" && hook.addGoal ==> r == Called(NewGoal(name, target, deadline, parseNumber, nowMs))
  {
    if name == "" || target == "" then NoCall
    else if hook.addGoal then Called(NewGoal(name, target, deadline, parseNumber, nowMs))
    else ThrowsTypeError
  }

  /** A concrete form that the real hook cannot save. */
  lemma AddGoalThrowsWithRealHook(parseNumber: string -> Num, nowMs: int)
    ensures AddGoalAsWritten("Car", "1000", "", parseNumber, nowMs, UseFinancialExports) == ThrowsTypeError
  {
  }

  /** The goal form and its dialog, with `addGoal` in place. */
  class GoalsPageState {
    var name: string
    var target: string
    var deadline: string
    var modalOpen: bool
    /** The goals handed to `addGoal`, oldest first. */
    var added: seq<GoalInput>

    constructor()
      ensures name == target == deadline == "" && !modalOpen && added == []
    {
      name, target, deadline, modalOpen, added := "", "", "", false, [];
    }

    /** `handleAddGoal` as intended: a goal is added only when the name and the target are
        filled in; it starts at zero in the "savings" category, and then the form is cleared
        and the dialog closed. */
    method HandleAddGoal(parseNumber: string -> Num, nowMs: int)
      modifies this
      ensures old(name) == "" || old(target) == "" ==>
        name == old(name) && target == old(target) && deadline == old(deadline)
        && modalOpen == old(modalOpen) && added == old(added)
      ensures old(name) != "" && old(target) != "" ==>
        && added == old(added) + [NewGoal(old(name), old(target), old(deadline), parseNumber, nowMs)]
        && name == "" && target == "" && deadline == "" && !modalOpen
    {
      if name != "" && target != "" {
        added := added + [NewGoal(name, target, deadline, parseNumber, nowMs)];
        name, target, deadline := "", "", "";
        modalOpen := false;
      }
    }
  }

  /** `Math.min((current / target) * 100, 100)`, the bar's width in percent. */
  function ProgressWidth(g: Goal): (w: Num)
    ensures !Greater(w, 100.0)
  {
    MinWith(Percentage(g.currentAmount, g.targetAmount), 100.0)
  }

  /** Once contributions have reached a positive target the bar is exactly full. */
  lemma ReachedGoalFillsBar(g: Goal)
    requires g.targetAmount > 0.0 && g.currentAmount >= g.targetAmount
    ensures ProgressWidth(g) == Finite(100.0)
  {
    assert g.currentAmount / g.targetAmount >= 1.0;
  }

  /** Below a positive target, the bar shows the exact percentage. */
  lemma PartialGoalBar(g: Goal)
    requires g.targetAmount > 0.0 && 0.0 <= g.currentAmount <= g.targetAmount
    ensures ProgressWidth(g) == Finite(g.currentAmount / g.targetAmount * 100.0)
  {
    assert g.currentAmount / g.targetAmount <= 1.0;
  }

  /** A target of zero makes the percentage infinite or NaN; the width is then 100 or NaN,
      never more than 100. */
  lemma ZeroTargetBar(g: Goal)
    requires g.targetAmount == 0.0
    ensures g.currentAmount > 0.0 ==> ProgressWidth(g) == Finite(100.0)
    ensures g.currentAmount == 0.0 ==> ProgressWidth(g) == NaN
  {
  }
}
