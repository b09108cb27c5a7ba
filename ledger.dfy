/** hooks/useFinancial.ts: the ledger store. It holds one `FinancialData` aggregate
    (or nothing while loading), replaces it as a whole on every change and writes the
    serialized aggregate to browser storage under one fixed key. The clock is an input:
    `Date.now()` becomes a parameter, `new Date()` an `Instant`, and the dates of the
    seed data are given by the caller. */
module Ledger {
  import opened FinanceTypes
  import opened Lists
  import Text

  const StorageKey := "financial_planner_data"

  /** A transaction as `JSON.parse` gives it back: its date may be a string. */
  datatype StoredTransaction = StoredTransaction(
    id: string, kind: TxType, amount: real, category: string, description: string, date: DateField)

  /** A parsed aggregate, before `deserializeData`. */
  datatype StoredData = StoredData(
    transactions: seq<StoredTransaction>, budgets: Option<seq<Budget>>, goals: Option<seq<Goal>>, settings: Settings)

  /** What storage holds under a key: a text on which the load callback throws (one that
      `JSON.parse` rejects, or whose value has no `transactions` array to map), or the empty
      text; or the JSON text of an aggregate, represented by its parsed value. */
  datatype StoredBlob = Raw(text: string) | Saved(data: StoredData)

  /** `JSON.stringify` turns every `Date` into its ISO text. */
  function StringifyDate(f: DateField): (g: DateField)
    ensures g.DateText?
    ensures f.DateValue? ==> g.text == f.instant.iso
    ensures f.DateText? ==> g == f
  {
    match f
    case DateValue(d) => DateText(d.iso)
    case DateText(_) => f
  }

  function StringifyTransaction(t: Transaction): StoredTransaction {
    StoredTransaction(t.id, t.kind, t.amount, t.category, t.description, DateText(t.date.iso))
  }

  function StringifyGoal(g: Goal): Goal {
    g.(deadline := StringifyDate(g.deadline))
  }

  /** A missing `goals` key stays missing: `JSON.stringify` writes no key for `undefined`. */
  function StringifyGoals(goals: Option<seq<Goal>>): (r: Option<seq<Goal>>)
    ensures r.Some? <==> goals.Some?
    ensures r.Some? ==> |r.value| == |goals.value|
    ensures r.Some? ==> forall i :: 0 <= i < |r.value| ==>
      r.value[i] == goals.value[i].(deadline := StringifyDate(goals.value[i].deadline))
  {
    if goals.None? then None
    else Some(seq(|goals.value|, i requires 0 <= i < |goals.value| => StringifyGoal(goals.value[i])))
  }

  /** The value `JSON.parse(JSON.stringify(d))` gives back. */
  function Serialize(d: FinancialData): (s: StoredData)
    ensures |s.transactions| == |d.transactions| && s.goals == StringifyGoals(d.goals)
    ensures s.budgets == d.budgets && s.settings == d.settings
    ensures forall i :: 0 <= i < |s.transactions| ==> s.transactions[i].date == DateText(d.transactions[i].date.iso)
  {
    StoredData(
      seq(|d.transactions|, i requires 0 <= i < |d.transactions| => StringifyTransaction(d.transactions[i])),
      d.budgets,
      StringifyGoals(d.goals),
      d.settings)
  }

  /** `new Date(x)` for a transaction date that came back as text. */
  function ReviveDate(f: DateField): (d: Instant)
    ensures f.DateValue? ==> d == f.instant
    ensures f.DateText? ==> d.iso == f.text
  {
    match f
    case DateValue(d) => d
    case DateText(s) => Instant(s)
  }

  function ReviveTransaction(t: StoredTransaction): Transaction {
    Transaction(t.id, t.kind, t.amount, t.category, t.description, ReviveDate(t.date))
  }

  /** `deserializeData`: transaction dates given as text become dates again; every other
      field, goal deadlines included, is kept as parsed. */
  function DeserializeData(s: StoredData): (d: FinancialData)
    ensures |d.transactions| == |s.transactions|
    ensures d.budgets == s.budgets && d.goals == s.goals && d.settings == s.settings
    ensures forall i :: 0 <= i < |d.transactions| ==>
      var (t, u) := (d.transactions[i], s.transactions[i]);
      t.id == u.id && t.kind == u.kind && t.amount == u.amount && t.category == u.category
      && t.description == u.description && t.date == ReviveDate(u.date)
  {
    FinancialData(
      seq(|s.transactions|, i requires 0 <= i < |s.transactions| => ReviveTransaction(s.transactions[i])),
      s.budgets, s.goals, s.settings)
  }

  /** Saving and loading again gives the same transactions, budgets and settings; goal
      deadlines come back as their ISO text. */
  lemma {:induction false} SerializeRoundTrip(d: FinancialData)
    ensures DeserializeData(Serialize(d)).transactions == d.transactions
    ensures DeserializeData(Serialize(d)).budgets == d.budgets
    ensures DeserializeData(Serialize(d)).settings == d.settings
    ensures DeserializeData(Serialize(d)).goals == Serialize(d).goals
  {
    var r := DeserializeData(Serialize(d));
    forall i | 0 <= i < |d.transactions|
      ensures r.transactions[i] == d.transactions[i]
    {
      var t := d.transactions[i];
      assert Serialize(d).transactions[i] == StringifyTransaction(t);
      assert r.transactions[i] == ReviveTransaction(StringifyTransaction(t));
    }
  }

  /** Goals whose deadlines are already text survive the round trip unchanged, so such an
      aggregate is a fixed point of saving and loading. */
  lemma {:induction false} SerializeRoundTripTextDeadlines(d: FinancialData)
    requires d.goals.Some? ==> forall i :: 0 <= i < |d.goals.value| ==> d.goals.value[i].deadline.DateText?
    ensures DeserializeData(Serialize(d)) == d
  {
    SerializeRoundTrip(d);
    var r := DeserializeData(Serialize(d));
    if d.goals.Some? {
      var gs := d.goals.value;
      assert |r.goals.value| == |gs|;
      forall i | 0 <= i < |gs|
        ensures r.goals.value[i] == gs[i]
      {
        assert r.goals.value[i] == gs[i].(deadline := StringifyDate(gs[i].deadline));
      }
      assert r.goals.value == gs;
    }
  }

  /** The dates `generateMockData` computes from today's local date: the first of the month,
      and one, two, three and five days ago. */
  datatype SeedDates = SeedDates(firstOfMonth: Instant, back1: Instant, back2: Instant, back3: Instant, back5: Instant)

  /** `generateMockData`: one salary and four expenses, USD and the light theme. The object
      has no `budgets` and no `goals` key at all. */
  function MockData(seed: SeedDates): (d: FinancialData)
    ensures |d.transactions| == 5 && d.budgets.None? && d.goals.None?
    ensures d.settings == Settings("USD", Light)
    ensures Distinct(TransactionIds(d.transactions))
  {
    var ts := [
      Transaction("1", Income, 5000.0, "salary", "Monthly Salary", seed.firstOfMonth),
      Transaction("2", Expense, 45.5, "food", "Coffee & Lunch", seed.back1),
      Transaction("3", Expense, 120.0, "transport", "Gas", seed.back2),
      Transaction("4", Expense, 80.0, "entertainment", "Movie tickets", seed.back3),
      Transaction("5", Expense, 150.0, "utilities", "Electricity bill", seed.back5)
    ];
    assert TransactionIds(ts) == ["1", "2", "3", "4", "5"];
    FinancialData(ts, None, None, Settings("USD", Light))
  }

  /** The seed as its declared type promises it: the same transactions and settings, with
      empty budget and goal lists. */
  function IntendedMockData(seed: SeedDates): (d: FinancialData)
    ensures d.transactions == MockData(seed).transactions && d.settings == MockData(seed).settings
    ensures d.budgets == Some([]) && d.goals == Some([])
  {
    MockData(seed).(budgets := Some([]), goals := Some([]))
  }

  function TransactionIds(ts: seq<Transaction>): (ids: seq<string>)
    ensures |ids| == |ts| && forall i :: 0 <= i < |ts| ==> ids[i] == ts[i].id
  {
    seq(|ts|, i requires 0 <= i < |ts| => ts[i].id)
  }

  /** The outcome of the load callback: `None` when it throws (`JSON.parse` rejects the text,
      or its value has no `transactions` array to map), in which case `data` stays null and
      `loading` stays true. */
  function Loaded(stored: Option<StoredBlob>, seed: SeedDates): (r: Option<FinancialData>)
    ensures (stored.None? || stored == Some(Raw(""))) ==> r == Some(MockData(seed))
    ensures stored.Some? && stored.value.Saved? ==> r == Some(DeserializeData(stored.value.data))
    ensures r.None? <==> stored.Some? && stored.value.Raw? && stored.value.text != ""
  {
    match stored
    case None => Some(MockData(seed))
    case Some(Raw(text)) => if text == "" then Some(MockData(seed)) else None
    case Some(Saved(s)) => Some(DeserializeData(s))
  }

  /** After a save, the next load gives back the saved transactions, budgets and settings. */
  lemma SaveThenLoad(storage: map<string, StoredBlob>, d: FinancialData, seed: SeedDates)
    ensures var r := Loaded(Some(storage[StorageKey := Saved(Serialize(d))][StorageKey]), seed);
      r.Some? && r.value.transactions == d.transactions && r.value.budgets == d.budgets
      && r.value.settings == d.settings
  {
    SerializeRoundTrip(d);
  }

  /** `transactions.filter((t) => t.id !== id)`. */
  function WithoutId(ts: seq<Transaction>, id: string): (r: seq<Transaction>)
    ensures forall t :: t in r <==> t in ts && t.id != id
  {
    Filter(ts, (t: Transaction) => t.id != id)
  }

  /** Deleting keeps the other transactions in their order. */
  lemma WithoutIdIsSubsequence(ts: seq<Transaction>, id: string)
    ensures IsSubsequence(WithoutId(ts, id), ts)
  {
    FilterIsSubsequence(ts, (t: Transaction) => t.id != id);
  }

  /** Deleting an id no transaction carries changes nothing. */
  lemma WithoutAbsentId(ts: seq<Transaction>, id: string)
    requires forall i :: 0 <= i < |ts| ==> ts[i].id != id
    ensures WithoutId(ts, id) == ts
  {
    FilterKeepsAll(ts, (t: Transaction) => t.id != id);
  }

  /** Deleting the id just added, when no older transaction carries it, restores the list. */
  lemma DeleteAfterAdd(ts: seq<Transaction>, input: TransactionInput, id: string)
    requires forall i :: 0 <= i < |ts| ==> ts[i].id != id
    ensures WithoutId([WithId(input, id)] + ts, id) == ts
  {
    var p := (t: Transaction) => t.id != id;
    FilterAppend([WithId(input, id)], ts, p);
    FilterKeepsAll(ts, p);
    assert Filter([WithId(input, id)], p) == [];
  }

  /** `Partial<Settings>`: each field is present or absent. */
  datatype SettingsPatch = SettingsPatch(currency: Option<string>, theme: Option<Theme>)

  /** `{ ...settings, ...patch }`. */
  function MergeSettings(s: Settings, p: SettingsPatch): (r: Settings)
    ensures p.currency.Some? ==> r.currency == p.currency.value
    ensures p.currency.None? ==> r.currency == s.currency
    ensures p.theme.Some? ==> r.theme == p.theme.value
    ensures p.theme.None? ==> r.theme == s.theme
  {
    Settings(
      if p.currency.Some? then p.currency.value else s.currency,
      if p.theme.Some? then p.theme.value else s.theme)
  }

  /** Applying the same patch twice is applying it once; an empty patch changes nothing. */
  lemma MergeSettingsIdempotent(s: Settings, p: SettingsPatch)
    ensures MergeSettings(MergeSettings(s, p), p) == MergeSettings(s, p)
    ensures MergeSettings(s, SettingsPatch(None, None)) == s
  {
  }

  /** `(t) => t.date.toISOString().slice(0, 7) === month`. */
  function MonthIs(month: string): Transaction -> bool {
    (t: Transaction) => MonthKey(t.date) == month
  }

  /** The transactions whose UTC month is `month`. */
  function InMonth(ts: seq<Transaction>, month: string): (r: seq<Transaction>)
    ensures forall t :: t in r <==> t in ts && MonthKey(t.date) == month
  {
    Filter(ts, MonthIs(month))
  }

  /** `(t) => t.type === k`. */
  function KindIs(k: TxType): Transaction -> bool {
    (t: Transaction) => t.kind == k
  }

  function OfKind(ts: seq<Transaction>, k: TxType): (r: seq<Transaction>)
    ensures forall t :: t in r <==> t in ts && t.kind == k
  {
    Filter(ts, KindIs(k))
  }

  /** `reduce((sum, t) => sum + t.amount, 0)`. */
  function SumAmounts(ts: seq<Transaction>): real {
    if ts == [] then 0.0 else ts[0].amount + SumAmounts(ts[1..])
  }

  lemma {:induction false} SumAmountsAppend(a: seq<Transaction>, b: seq<Transaction>)
    ensures SumAmounts(a + b) == SumAmounts(a) + SumAmounts(b)
  {
    if a == [] {
      assert a + b == b;
    } else {
      assert (a + b)[1..] == a[1..] + b;
      SumAmountsAppend(a[1..], b);
    }
  }

  /** Both totals of a list with one more transaction in front. */
  lemma OfKindCons(t: Transaction, m: seq<Transaction>)
    ensures SumAmounts(OfKind([t] + m, Income)) == SumAmounts(OfKind(m, Income)) + (if t.kind == Income then t.amount else 0.0)
    ensures SumAmounts(OfKind([t] + m, Expense)) == SumAmounts(OfKind(m, Expense)) + (if t.kind == Expense then t.amount else 0.0)
  {
    FilterCons(t, m, KindIs(Income));
    FilterCons(t, m, KindIs(Expense));
    SumAmountsAppend(if t.kind == Income then [t] else [], OfKind(m, Income));
    SumAmountsAppend(if t.kind == Expense then [t] else [], OfKind(m, Expense));
  }

  /** Every transaction is an income or an expense, so the two totals add up to the whole. */
  lemma {:induction false} IncomePlusExpenses(ts: seq<Transaction>)
    ensures SumAmounts(OfKind(ts, Income)) + SumAmounts(OfKind(ts, Expense)) == SumAmounts(ts)
  {
    if ts != [] {
      IncomePlusExpenses(ts[1..]);
      assert [ts[0]] + ts[1..] == ts;
      OfKindCons(ts[0], ts[1..]);
    }
  }

  datatype MonthlyStats = MonthlyStats(income: real, expenses: real)

  /** `getMonthlyStats` with `new Date()` given as `now`. */
  function StatsFor(data: Option<FinancialData>, now: Instant): (r: MonthlyStats)
    ensures data.None? ==> r == MonthlyStats(0.0, 0.0)
    ensures data.Some? ==>
      var m := InMonth(data.value.transactions, MonthKey(now));
      r.income == SumAmounts(OfKind(m, Income)) && r.expenses == SumAmounts(OfKind(m, Expense))
  {
    if data.None? then MonthlyStats(0.0, 0.0)
    else
      var m := InMonth(data.value.transactions, MonthKey(now));
      MonthlyStats(SumAmounts(OfKind(m, Income)), SumAmounts(OfKind(m, Expense)))
  }

  /** Income plus expenses is the total of the month's transactions. */
  lemma StatsCoverMonth(d: FinancialData, now: Instant)
    ensures var r := StatsFor(Some(d), now);
      r.income + r.expenses == SumAmounts(InMonth(d.transactions, MonthKey(now)))
  {
    IncomePlusExpenses(InMonth(d.transactions, MonthKey(now)));
  }

  /** Adding a transaction moves this month's totals by its amount on its own side when it
      falls in the current month, and leaves them alone otherwise. */
  lemma {:induction false} StatsAfterAdd(d: FinancialData, t: Transaction, now: Instant)
    ensures var before := StatsFor(Some(d), now);
      var after := StatsFor(Some(d.(transactions := [t] + d.transactions)), now);
      var here := MonthKey(t.date) == MonthKey(now);
      && after.income == before.income + (if here && t.kind == Income then t.amount else 0.0)
      && after.expenses == before.expenses + (if here && t.kind == Expense then t.amount else 0.0)
  {
    var month := MonthKey(now);
    var m0 := InMonth(d.transactions, month);
    var m1 := InMonth([t] + d.transactions, month);
    FilterCons(t, d.transactions, MonthIs(month));
    if MonthKey(t.date) == month {
      assert m1 == [t] + m0;
      OfKindCons(t, m0);
    } else {
      assert m1 == m0;
    }
  }

  /** The store behind `useFinancial`. */
  class FinancialStore {
    var data: Option<FinancialData>
    var loading: bool
    var storage: map<string, StoredBlob>

    /** The hook's initial state, over the given browser storage. */
    constructor(initialStorage: map<string, StoredBlob>)
      ensures data.None? && loading && storage == initialStorage
    {
      data, loading, storage := None, true, initialStorage;
    }

    /** The load callback: the stored aggregate if there is one, the seed data if there is
        none; when parsing throws, nothing changes. */
    method Load(seed: SeedDates)
      modifies this`data, this`loading
      ensures var r := Loaded(if StorageKey in storage then Some(storage[StorageKey]) else None, seed);
        if r.Some? then data == r && !loading else data == old(data) && loading == old(loading)
    {
      var stored := if StorageKey in storage then Some(storage[StorageKey]) else None;
      var r := Loaded(stored, seed);
      if r.Some? {
        data := r;
        loading := false;
      }
    }

    /** `saveData`: the new aggregate replaces the old one in memory and in storage. */
    method SaveData(newData: FinancialData)
      modifies this`data, this`storage
      ensures data == Some(newData)
      ensures storage == old(storage)[StorageKey := Saved(Serialize(newData))]
    {
      data := Some(newData);
      storage := storage[StorageKey := Saved(Serialize(newData))];
    }

    /** `addTransaction`: the new transaction, with the decimal text of `nowMs` as its id,
        goes in front of the others. */
    method AddTransaction(input: TransactionInput, nowMs: nat)
      modifies this`data, this`storage
      ensures old(data).None? ==> data == old(data) && storage == old(storage)
      ensures old(data).Some? ==>
        var d := old(data).value;
        && data == Some(d.(transactions := [WithId(input, Text.DecimalText(nowMs))] + d.transactions))
        && storage == old(storage)[StorageKey := Saved(Serialize(data.value))]
    {
      if data.None? {
        return;
      }
      var d := data.value;
      var t := WithId(input, Text.DecimalText(nowMs));
      SaveData(d.(transactions := [t] + d.transactions));
    }

    /** `deleteTransaction`. */
    method DeleteTransaction(id: string)
      modifies this`data, this`storage
      ensures old(data).None? ==> data == old(data) && storage == old(storage)
      ensures old(data).Some? ==>
        var d := old(data).value;
        && data == Some(d.(transactions := WithoutId(d.transactions, id)))
        && storage == old(storage)[StorageKey := Saved(Serialize(data.value))]
    {
      if data.None? {
        return;
      }
      var d := data.value;
      SaveData(d.(transactions := WithoutId(d.transactions, id)));
    }

    /** `updateSettings`. */
    method UpdateSettings(patch: SettingsPatch)
      modifies this`data, this`storage
      ensures old(data).None? ==> data == old(data) && storage == old(storage)
      ensures old(data).Some? ==>
        var d := old(data).value;
        && data == Some(d.(settings := MergeSettings(d.settings, patch)))
        && storage == old(storage)[StorageKey := Saved(Serialize(data.value))]
    {
      if data.None? {
        return;
      }
      var d := data.value;
      SaveData(d.(settings := MergeSettings(d.settings, patch)));
    }

    /** `getMonthlyStats`, with the current time given. */
    function GetMonthlyStats(now: Instant): (r: MonthlyStats)
      reads this
      ensures data.None? ==> r == MonthlyStats(0.0, 0.0)
      ensures r == StatsFor(data, now)
      ensures data.Some? ==> r.income + r.expenses == SumAmounts(InMonth(data.value.transactions, MonthKey(now)))
    {
      if data.None? then StatsFor(data, now)
      else StatsCoverMonth(data.value, now); StatsFor(data, now)
    }
  }

  /** Adding a transaction and deleting its id again leaves the transaction list as it was,
      provided no older transaction had that id. */
  method AddThenDelete(store: FinancialStore, input: TransactionInput, nowMs: nat)
    requires store.data.Some?
    requires forall i :: 0 <= i < |store.data.value.transactions| ==>
      store.data.value.transactions[i].id != Text.DecimalText(nowMs)
    modifies store
    ensures store.data.Some? && store.data.value == old(store.data.value)
  {
    store.AddTransaction(input, nowMs);
    store.DeleteTransaction(Text.DecimalText(nowMs));
    DeleteAfterAdd(old(store.data.value.transactions), input, Text.DecimalText(nowMs));
  }
}
