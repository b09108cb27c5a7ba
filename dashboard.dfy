/** app/page.tsx: the dashboard's figures. The month's savings, the per-category totals
    that feed the pie chart (an accumulator grown in place, one transaction at a time),
    and the five most recent transactions. */
module Dashboard {
  import opened FinanceTypes
  import opened Lists
  import opened Ledger

  /** `stats.income - stats.expenses`. */
  function Savings(stats: MonthlyStats): real {
    stats.income - stats.expenses
  }

  /** A transaction's effect on the balance: income counts up, expense counts down. */
  function Signed(t: Transaction): real {
    if t.kind == Income then t.amount else -t.amount
  }

  function SignedSum(ts: seq<Transaction>): real {
    if ts == [] then 0.0 else Signed(ts[0]) + SignedSum(ts[1..])
  }

  lemma {:induction false} SignedSumSplit(ts: seq<Transaction>)
    ensures SignedSum(ts) == SumAmounts(OfKind(ts, Income)) - SumAmounts(OfKind(ts, Expense))
  {
    if ts != [] {
      var t, rest := ts[0], ts[1..];
      SignedSumSplit(rest);
      assert ts == [t] + rest;
      OfKindCons(t, rest);
      assert SignedSum(ts) == Signed(t) + SignedSum(rest);
    }
  }

  /** The savings shown are the balance of the month's transactions. */
  lemma SavingsIsMonthBalance(d: FinancialData, now: Instant)
    ensures Savings(StatsFor(Some(d), now)) == SignedSum(InMonth(d.transactions, MonthKey(now)))
  {
    SignedSumSplit(InMonth(d.transactions, MonthKey(now)));
  }

  /** One entry of `categoryData`. */
  datatype CategoryTotal = CategoryTotal(category: string, amount: real)

  /** The categories of `ts`, each once, in order of first appearance. */
  function CategoryOrder(ts: seq<Transaction>): seq<string> {
    if ts == [] then []
    else
      var prev := CategoryOrder(ts[..|ts| - 1]);
      var last := ts[|ts| - 1];
      if last.category in prev then prev else prev + [last.category]
  }

  /** The list holds exactly the categories that occur among the transactions. */
  lemma {:induction false} CategoryOrderMembers(ts: seq<Transaction>)
    ensures forall c :: c in CategoryOrder(ts) <==> exists t :: t in ts && t.category == c
  {
    if ts != [] {
      var prefix, last := ts[..|ts| - 1], ts[|ts| - 1];
      CategoryOrderMembers(prefix);
      assert ts == prefix + [last];
      assert forall t :: t in ts <==> t in prefix || t == last;
    }
  }

  /** The sum of the amounts of every transaction of category `c`, whatever its type. */
  function CategorySum(ts: seq<Transaction>, c: string): real {
    if ts == [] then 0.0
    else CategorySum(ts[..|ts| - 1], c) + (if ts[|ts| - 1].category == c then ts[|ts| - 1].amount else 0.0)
  }

  /** One entry per category of `cs`, in that order, with the category's total in `ts`. */
  function Entries(cs: seq<string>, ts: seq<Transaction>): (r: seq<CategoryTotal>)
    ensures |r| == |cs|
  {
    if cs == [] then [] else [CategoryTotal(cs[0], CategorySum(ts, cs[0]))] + Entries(cs[1..], ts)
  }

  lemma {:induction false} EntriesAt(cs: seq<string>, ts: seq<Transaction>, i: nat)
    requires i < |cs|
    ensures Entries(cs, ts)[i] == CategoryTotal(cs[i], CategorySum(ts, cs[i]))
  {
    if i > 0 {
      EntriesAt(cs[1..], ts, i - 1);
    }
  }

  /** What the `reduce` builds: per category, in order of first appearance, the total. */
  function CategoryData(ts: seq<Transaction>): (r: seq<CategoryTotal>)
    ensures |r| == |CategoryOrder(ts)|
  {
    Entries(CategoryOrder(ts), ts)
  }

  /** Entry `i` holds the `i`-th category to appear and the sum of its amounts. */
  lemma CategoryDataEntry(ts: seq<Transaction>, i: nat)
    requires i < |CategoryOrder(ts)|
    ensures CategoryData(ts)[i] == CategoryTotal(CategoryOrder(ts)[i], CategorySum(ts, CategoryOrder(ts)[i]))
  {
    EntriesAt(CategoryOrder(ts), ts, i);
  }

  lemma {:induction false} CategoryOrderDistinct(ts: seq<Transaction>)
    ensures Distinct(CategoryOrder(ts))
  {
    if ts != [] {
      CategoryOrderDistinct(ts[..|ts| - 1]);
    }
  }

  /** Each category takes the place where it first occurs among the transactions: for two
      entries, the earlier one's category shows up first. */
  lemma {:induction false} CategoryOrderByFirstAppearance(ts: seq<Transaction>, i: nat, j: nat)
    requires i < j < |CategoryOrder(ts)|
    ensures FirstIndexOfCategory(ts, CategoryOrder(ts)[i]) < FirstIndexOfCategory(ts, CategoryOrder(ts)[j])
  {
    var prefix := ts[..|ts| - 1];
    var last := ts[|ts| - 1];
    var prev := CategoryOrder(prefix);
    CategoryOrderSnoc(prefix, last);
    assert ts == prefix + [last];
    if j < |prev| {
      CategoryOrderByFirstAppearance(prefix, i, j);
      FirstIndexSnoc(prefix, last, prev[i]);
      FirstIndexSnoc(prefix, last, prev[j]);
    } else {
      assert CategoryOrder(ts)[j] == last.category && last.category !in prev;
      FirstIndexSnoc(prefix, last, prev[i]);
      FirstIndexNew(prefix, last);
    }
  }

  /** The categories of the transactions, one per transaction, in list order. */
  function CategoriesOf(ts: seq<Transaction>): (cs: seq<string>)
    ensures |cs| == |ts| && forall i :: 0 <= i < |ts| ==> cs[i] == ts[i].category
  {
    seq(|ts|, i requires 0 <= i < |ts| => ts[i].category)
  }

  /** The position of the first transaction of category `c`. */
  function FirstIndexOfCategory(ts: seq<Transaction>, c: string): nat
    requires c in CategoryOrder(ts)
  {
    CategoryOrderMembers(ts);
    var cs := CategoriesOf(ts);
    var t :| t in ts && t.category == c;
    var k :| 0 <= k < |ts| && ts[k] == t;
    assert cs[k] == c;
    IndexOf(cs, c)
  }

  lemma CategoryOrderSnoc(ts: seq<Transaction>, t: Transaction)
    ensures CategoryOrder(ts + [t]) ==
      if t.category in CategoryOrder(ts) then CategoryOrder(ts) else CategoryOrder(ts) + [t.category]
  {
    assert (ts + [t])[..|ts|] == ts;
  }

  lemma CategoriesOfSnoc(ts: seq<Transaction>, t: Transaction)
    ensures CategoriesOf(ts + [t]) == CategoriesOf(ts) + [t.category]
  {
  }

  lemma FirstIndexSnoc(ts: seq<Transaction>, t: Transaction, c: string)
    requires c in CategoryOrder(ts)
    ensures c in CategoryOrder(ts + [t])
    ensures FirstIndexOfCategory(ts + [t], c) == FirstIndexOfCategory(ts, c)
  {
    CategoryOrderSnoc(ts, t);
    CategoriesOfSnoc(ts, t);
    CategoryOrderMembers(ts);
    var cs := CategoriesOf(ts);
    var w :| w in ts && w.category == c;
    var k :| 0 <= k < |ts| && ts[k] == w;
    assert cs[k] == c;
    IndexOfSnoc(cs, t.category, c);
  }

  lemma FirstIndexNew(ts: seq<Transaction>, t: Transaction)
    requires t.category !in CategoryOrder(ts)
    ensures t.category in CategoryOrder(ts + [t])
    ensures FirstIndexOfCategory(ts + [t], t.category) == |ts|
  {
    CategoryOrderSnoc(ts, t);
    CategoriesOfSnoc(ts, t);
    CategoryOrderMembers(ts);
    var cs := CategoriesOf(ts);
    var cs' := CategoriesOf(ts + [t]);
    forall k | 0 <= k < |cs|
      ensures cs[k] != t.category
    {
      assert ts[k] in ts;
    }
    assert cs' == cs + [t.category];
    IndexOfConcat(cs, [t.category], t.category);
  }

  /** The amounts of the entries, added up. */
  function Total(acc: seq<CategoryTotal>): real {
    if acc == [] then 0.0 else acc[0].amount + Total(acc[1..])
  }

  lemma {:induction false} TotalSnoc(acc: seq<CategoryTotal>, e: CategoryTotal)
    ensures Total(acc + [e]) == Total(acc) + e.amount
  {
    if acc != [] {
      assert (acc + [e])[1..] == acc[1..] + [e];
      TotalSnoc(acc[1..], e);
    }
  }

  lemma {:induction false} TotalUpdate(acc: seq<CategoryTotal>, j: nat, x: real)
    requires j < |acc|
    ensures Total(acc[j := acc[j].(amount := acc[j].amount + x)]) == Total(acc) + x
  {
    if j == 0 {
      assert acc[j := acc[j].(amount := acc[j].amount + x)][1..] == acc[1..];
    } else {
      assert acc[j := acc[j].(amount := acc[j].amount + x)][1..] == acc[1..][j - 1 := acc[j].(amount := acc[j].amount + x)];
      TotalUpdate(acc[1..], j - 1, x);
    }
  }

  lemma CategorySumSnoc(ts: seq<Transaction>, t: Transaction, c: string)
    ensures CategorySum(ts + [t], c) == CategorySum(ts, c) + (if t.category == c then t.amount else 0.0)
  {
    assert (ts + [t])[..|ts|] == ts;
  }

  /** A transaction of a category not in `cs` leaves every entry for `cs` as it was. */
  lemma {:induction false} EntriesSnocAbsent(cs: seq<string>, ts: seq<Transaction>, t: Transaction)
    requires t.category !in cs
    ensures Entries(cs, ts + [t]) == Entries(cs, ts)
  {
    if cs != [] {
      CategorySumSnoc(ts, t, cs[0]);
      EntriesSnocAbsent(cs[1..], ts, t);
    }
  }

  /** Appending a category appends its entry. */
  lemma {:induction false} EntriesSnoc(cs: seq<string>, c: string, ts: seq<Transaction>)
    ensures Entries(cs + [c], ts) == Entries(cs, ts) + [CategoryTotal(c, CategorySum(ts, c))]
  {
    if cs == [] {
      assert cs + [c] == [c];
    } else {
      assert (cs + [c])[1..] == cs[1..] + [c];
      EntriesSnoc(cs[1..], c, ts);
    }
  }

  /** One more transaction of a category already present adds its amount to that entry. */
  lemma CategoryDataSnocPresent(ts: seq<Transaction>, t: Transaction)
    requires t.category in CategoryOrder(ts)
    ensures var j := IndexOf(CategoryOrder(ts), t.category);
      CategoryData(ts + [t]) == CategoryData(ts)[j := CategoryData(ts)[j].(amount := CategoryData(ts)[j].amount + t.amount)]
  {
    var cs := CategoryOrder(ts);
    CategoryOrderSnoc(ts, t);
    var j := IndexOf(cs, t.category);
    var e, e' := Entries(cs, ts), Entries(cs, ts + [t]);
    var updated := e[j := e[j].(amount := e[j].amount + t.amount)];
    forall i | 0 <= i < |cs|
      ensures e'[i] == updated[i]
    {
      EntrySnoc(cs, ts, t, i);
      OnlyAtFirstIndex(ts, t.category, i);
    }
    assert e' == updated;
  }

  /** A category sits at one place only in the list: where `IndexOf` finds it. */
  lemma OnlyAtFirstIndex(ts: seq<Transaction>, c: string, i: nat)
    requires c in CategoryOrder(ts) && i < |CategoryOrder(ts)|
    ensures CategoryOrder(ts)[i] == c <==> i == IndexOf(CategoryOrder(ts), c)
  {
    CategoryOrderDistinct(ts);
  }

  /** Entry `i` after one more transaction: its amount grows when the categories match. */
  lemma EntrySnoc(cs: seq<string>, ts: seq<Transaction>, t: Transaction, i: nat)
    requires i < |cs|
    ensures var e := Entries(cs, ts)[i];
      Entries(cs, ts + [t])[i] == e.(amount := e.amount + if cs[i] == t.category then t.amount else 0.0)
  {
    EntriesAt(cs, ts, i);
    EntriesAt(cs, ts + [t], i);
    CategorySumSnoc(ts, t, cs[i]);
  }

  /** One more transaction of a new category opens an entry at the end. */
  lemma CategoryDataSnocNew(ts: seq<Transaction>, t: Transaction)
    requires t.category !in CategoryOrder(ts)
    ensures CategoryData(ts + [t]) == CategoryData(ts) + [CategoryTotal(t.category, t.amount)]
  {
    var cs := CategoryOrder(ts);
    CategoryOrderSnoc(ts, t);
    EntriesSnoc(cs, t.category, ts + [t]);
    EntriesSnocAbsent(cs, ts, t);
    CategorySumSnoc(ts, t, t.category);
    CategorySumAbsent(ts, t.category);
  }

  lemma {:induction false} CategorySumAbsent(ts: seq<Transaction>, c: string)
    requires c !in CategoryOrder(ts)
    ensures CategorySum(ts, c) == 0.0
  {
    if ts != [] {
      assert c !in CategoryOrder(ts[..|ts| - 1]);
      CategorySumAbsent(ts[..|ts| - 1], c);
    }
  }

  /** Nothing is lost or counted twice: the entries add up to the sum of all the amounts. */
  lemma {:induction false} CategoryDataTotal(ts: seq<Transaction>)
    ensures Total(CategoryData(ts)) == SumAmounts(ts)
  {
    if ts != [] {
      var prefix := ts[..|ts| - 1];
      var t := ts[|ts| - 1];
      assert ts == prefix + [t];
      CategoryDataTotal(prefix);
      if t.category in CategoryOrder(prefix) {
        CategoryDataSnocPresent(prefix, t);
        TotalUpdate(CategoryData(prefix), IndexOf(CategoryOrder(prefix), t.category), t.amount);
      } else {
        CategoryDataSnocNew(prefix, t);
        TotalSnoc(CategoryData(prefix), CategoryTotal(t.category, t.amount));
      }
      SumAmountsAppend(prefix, [t]);
    }
  }

  /** `acc.find((c) => c.category === category)`, as the position of the entry found
      (`|acc|` when there is none). */
  method FindCategory(acc: seq<CategoryTotal>, category: string) returns (j: nat)
    ensures j <= |acc|
    ensures forall i :: 0 <= i < j ==> acc[i].category != category
    ensures j < |acc| ==> acc[j].category == category
  {
    j := 0;
    while j < |acc| && acc[j].category != category
      invariant j <= |acc|
      invariant forall i :: 0 <= i < j ==> acc[i].category != category
    {
      j := j + 1;
    }
  }

  /** The `reduce` over the month's transactions: the entry for each transaction's category
      is looked up, then increased in place or, when there is none, pushed. */
  method GroupByCategory(ts: seq<Transaction>) returns (acc: seq<CategoryTotal>)
    ensures acc == CategoryData(ts)
  {
    acc := [];
    for k := 0 to |ts|
      invariant acc == CategoryData(ts[..k])
    {
      var t := ts[k];
      var prefix := ts[..k];
      assert ts[..k + 1] == prefix + [t];
      var order := CategoryOrder(prefix);
      var j := FindCategory(acc, t.category);
      if j < |acc| {
        forall i | 0 <= i <= j
          ensures order[i] == acc[i].category
        {
          CategoryDataEntry(prefix, i);
        }
        IndexOfIsFirst(order, t.category, j);
        CategoryDataSnocPresent(prefix, t);
        acc := acc[j := acc[j].(amount := acc[j].amount + t.amount)];
      } else {
        forall i | 0 <= i < |order|
          ensures order[i] != t.category
        {
          CategoryDataEntry(prefix, i);
        }
        CategoryDataSnocNew(prefix, t);
        acc := acc + [CategoryTotal(t.category, t.amount)];
      }
    }
    assert ts[..|ts|] == ts;
  }

  /** A position holding `x` with no `x` before it is the position `IndexOf` finds. */
  lemma IndexOfIsFirst<T>(s: seq<T>, x: T, j: nat)
    requires j < |s| && s[j] == x && forall i :: 0 <= i < j ==> s[i] != x
    ensures IndexOf(s, x) == j
  {
    var k := IndexOf(s, x);
    assert forall i | 0 <= i < k :: s[..k][i] == s[i];
  }

  /** `categoryData` as the page computes it: empty while there is no data. */
  method CategoryDataFor(data: Option<FinancialData>, now: Instant) returns (r: seq<CategoryTotal>)
    ensures data.None? ==> r == []
    ensures data.Some? ==> r == CategoryData(InMonth(data.value.transactions, MonthKey(now)))
  {
    if data.None? {
      return [];
    }
    r := GroupByCategory(InMonth(data.value.transactions, MonthKey(now)));
  }

  /** `transactions.slice(0, 5)`: the first five transactions in stored order, which are the
      latest added since the store puts new ones in front. */
  function Recent(ts: seq<Transaction>): (r: seq<Transaction>)
    ensures |r| == if |ts| < 5 then |ts| else 5
    ensures r <= ts
  {
    if |ts| < 5 then ts else ts[..5]
  }

  /** A transaction just added is the first recent one, and the rest slide down by one. */
  lemma RecentAfterAdd(ts: seq<Transaction>, t: Transaction)
    ensures Recent([t] + ts)[0] == t
    ensures Recent([t] + ts)[1..] == Recent(ts)[..|Recent([t] + ts)| - 1]
  {
  }
}
