/** app/budgets/page.tsx: for each budget, whether it is over its limit, the colour of its
    bar and the bar's width. The percentage follows JavaScript number rules, so a zero limit
    gives an infinite or NaN percentage. */
module BudgetsPage {
  import opened FinanceTypes
  import opened JsNumber
  import Ledger

  /** `budget.spent > budget.limit`. */
  predicate IsOverBudget(b: Budget) {
    b.spent > b.limit
  }

  /** `(budget.spent / budget.limit) * 100`: the exact percentage for a non-zero limit; for a
      zero limit, an infinity of the sign of the spending, or NaN when nothing was spent. */
  function UsedPercentage(b: Budget): (p: Num)
    ensures b.limit != 0.0 ==> p == Finite(b.spent / b.limit * 100.0)
    ensures b.limit == 0.0 && b.spent > 0.0 ==> p == PosInfinity
    ensures b.limit == 0.0 && b.spent < 0.0 ==> p == NegInfinity
    ensures b.limit == 0.0 && b.spent == 0.0 ==> p == NaN
  {
    Percentage(b.spent, b.limit)
  }

  datatype Band = Red | Yellow | Green

  /** `percentage > 100 ? red : percentage > 80 ? yellow : green`. */
  function BandOf(b: Budget): (r: Band)
    ensures r == Red <==> Greater(UsedPercentage(b), 100.0)
    ensures r == Yellow <==> !Greater(UsedPercentage(b), 100.0) && Greater(UsedPercentage(b), 80.0)
    ensures r == Green <==> !Greater(UsedPercentage(b), 80.0)
  {
    var p := UsedPercentage(b);
    if Greater(p, 100.0) then Red else if Greater(p, 80.0) then Yellow else Green
  }

  /** A green bar is at most 80 percent used, or its percentage is NaN (nothing spent of a
      zero limit). */
  lemma GreenBand(b: Budget)
    requires BandOf(b) == Green
    ensures UsedPercentage(b).Finite? ==> UsedPercentage(b).v <= 80.0
    ensures !UsedPercentage(b).Finite? ==> (UsedPercentage(b) == NaN || UsedPercentage(b) == NegInfinity)
  {
  }

  /** For a limit that is not negative, the bar is red exactly when the budget is over. */
  lemma {:induction false} OverBudgetIsRed(b: Budget)
    requires b.limit >= 0.0
    ensures IsOverBudget(b) <==> BandOf(b) == Red
  {
    if b.limit > 0.0 {
      var q := b.spent / b.limit;
      assert UsedPercentage(b) == Finite(q * 100.0);
      assert Greater(UsedPercentage(b), 100.0) <==> q > 1.0;
      assert q * b.limit == b.spent;
      SignOfProduct(q - 1.0, b.limit);
      assert (q - 1.0) * b.limit == b.spent - b.limit;
    } else {
      assert UsedPercentage(b) == Divide(b.spent, 0.0);
    }
  }

  lemma SignOfProduct(x: real, y: real)
    requires y > 0.0
    ensures x * y > 0.0 <==> x > 0.0
  {
  }

  /** A negative limit breaks the agreement: spending less than it shows red without being over. */
  lemma NegativeLimitRedButNotOver()
    ensures var b := Budget("b", "food", -10.0, -20.0, "2024-01");
      BandOf(b) == Red && !IsOverBudget(b)
  {
  }

  /** `Math.min(percentage, 100)`. */
  function BarWidth(b: Budget): (w: Num)
    ensures !Greater(w, 100.0)
    ensures BandOf(b) != Red ==> w == UsedPercentage(b)
    ensures BandOf(b) == Red ==> w == Finite(100.0)
  {
    MinWith(UsedPercentage(b), 100.0)
  }

  /** What `data?.budgets.map(...)` gives the page to render: nothing without data, the
      budgets in order, or a `TypeError` when the aggregate has no budget list. */
  datatype BudgetCards = NoCards | Cards(budgets: seq<Budget>) | CardsThrow

  function BudgetCardsOf(data: Option<FinancialData>): (r: BudgetCards)
    ensures data.None? <==> r.NoCards?
    ensures r.CardsThrow? <==> data.Some? && data.value.budgets.None?
    ensures r.Cards? ==> data.value.budgets == Some(r.budgets)
  {
    if data.None? then NoCards
    else if data.value.budgets.None? then CardsThrow
    else Cards(data.value.budgets.value)
  }

  /** The seed data a first visit loads has no budget list, so the budgets page throws while
      rendering. */
  lemma SeedBreaksBudgetsPage(seed: Ledger.SeedDates)
    ensures BudgetCardsOf(Ledger.Loaded(None, seed)) == CardsThrow
  {
  }

  /** With the seed as its type declares it, the page shows an empty list. */
  lemma IntendedSeedShowsNoBudgets(seed: Ledger.SeedDates)
    ensures BudgetCardsOf(Some(Ledger.IntendedMockData(seed))) == Cards([])
  {
  }

  /** Saving through the store never adds a budget list: every change copies the aggregate's
      other keys, so a seed without budgets keeps breaking the page. */
  lemma StoreKeepsMissingBudgets(d: FinancialData, ts: seq<Transaction>)
    requires d.budgets.None?
    ensures BudgetCardsOf(Some(d.(transactions := ts))) == CardsThrow
    ensures BudgetCardsOf(Some(Ledger.DeserializeData(Ledger.Serialize(d)))) == CardsThrow
  {
  }
}
