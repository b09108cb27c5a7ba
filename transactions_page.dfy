/** app/transactions/page.tsx: the list of transactions the page shows, narrowed by a
    search text and by type and category filters. */
module TransactionsPage {
  import opened FinanceTypes
  import opened Lists
  import opened Text

  /** The type filter's three settings. */
  datatype TypeFilter = AllTypes | OnlyType(kind: TxType)

  /** The category filter's setting meaning "no filter". */
  const AllCategories := "all"

  /** `t.description.toLowerCase().includes(searchQuery.toLowerCase())`. */
  predicate MatchesSearch(t: Transaction, query: string) {
    Includes(Lower(t.description), Lower(query))
  }

  predicate MatchesType(t: Transaction, f: TypeFilter) {
    f.AllTypes? || t.kind == f.kind
  }

  predicate MatchesCategory(t: Transaction, category: string) {
    category == AllCategories || t.category == category
  }

  /** The three tests together. */
  predicate Matches(t: Transaction, query: string, f: TypeFilter, category: string) {
    MatchesSearch(t, query) && MatchesType(t, f) && MatchesCategory(t, category)
  }

  /** `filtered`: the matching transactions in list order, or nothing when there is no data. */
  function Filtered(data: Option<FinancialData>, query: string, f: TypeFilter, category: string): (r: seq<Transaction>)
    ensures data.None? ==> r == []
    ensures data.Some? ==> forall t :: t in r <==> t in data.value.transactions && Matches(t, query, f, category)
  {
    if data.None? then []
    else Filter(data.value.transactions, (t: Transaction) => Matches(t, query, f, category))
  }

  /** The list shown keeps the stored order and only drops transactions. */
  lemma FilteredIsSubsequence(d: FinancialData, query: string, f: TypeFilter, category: string)
    ensures IsSubsequence(Filtered(Some(d), query, f, category), d.transactions)
  {
    FilterIsSubsequence(d.transactions, (t: Transaction) => Matches(t, query, f, category));
  }

  /** With an empty search and both filters on "all", every transaction is shown. */
  lemma NoFilterShowsAll(d: FinancialData)
    ensures Filtered(Some(d), "", AllTypes, AllCategories) == d.transactions
  {
    var p := (t: Transaction) => Matches(t, "", AllTypes, AllCategories);
    forall i | 0 <= i < |d.transactions|
      ensures p(d.transactions[i])
    {
      IncludesEmpty(Lower(d.transactions[i].description));
    }
    FilterKeepsAll(d.transactions, p);
  }

  /** Search ignores the case of the query: lowering it first changes nothing. */
  lemma SearchIgnoresQueryCase(data: Option<FinancialData>, query: string, f: TypeFilter, category: string)
    ensures Filtered(data, Lower(query), f, category) == Filtered(data, query, f, category)
  {
    LowerIdempotent(query);
    if data.Some? {
      FilterSamePredicate(data.value.transactions,
        (t: Transaction) => Matches(t, Lower(query), f, category),
        (t: Transaction) => Matches(t, query, f, category));
    }
  }

  /** A description that contains the query as typed matches it, whatever the case. */
  lemma ContainedQueryMatches(t: Transaction, query: string)
    requires Includes(t.description, query)
    ensures MatchesSearch(t, query)
  {
    var d := t.description;
    var i :| 0 <= i <= |d| && query <= d[i..];
    var ld, lq := Lower(d), Lower(query);
    forall k | 0 <= k < |lq|
      ensures lq[k] == ld[i..][k]
    {
      assert query[k] == d[i + k];
    }
    assert lq <= ld[i..];
  }

  /** Accented capitals are lowered too: the query "água" finds the description "ÁGUA". */
  lemma AccentedCapitalsMatch(t: Transaction)
    requires t.description == "\U{C1}GUA"
    ensures MatchesSearch(t, "\U{E1}gua")
  {
    assert Lower(t.description) == "\U{E1}gua";
    assert "\U{E1}gua" <= Lower(t.description)[0..];
  }

  /** The income view and the expense view together hold as many transactions as the
      unfiltered type view. */
  lemma {:induction false} TypeViewsPartition(ts: seq<Transaction>, query: string, category: string)
    ensures |Filtered(Some(FinancialData(ts, None, None, Settings("", Light))), query, OnlyType(Income), category)|
      + |Filtered(Some(FinancialData(ts, None, None, Settings("", Light))), query, OnlyType(Expense), category)|
      == |Filtered(Some(FinancialData(ts, None, None, Settings("", Light))), query, AllTypes, category)|
  {
    var pi := (t: Transaction) => Matches(t, query, OnlyType(Income), category);
    var pe := (t: Transaction) => Matches(t, query, OnlyType(Expense), category);
    var pa := (t: Transaction) => Matches(t, query, AllTypes, category);
    FilterSplitsByKind(ts, pi, pe, pa);
  }

  lemma {:induction false} FilterSplitsByKind(ts: seq<Transaction>, pi: Transaction -> bool, pe: Transaction -> bool, pa: Transaction -> bool)
    requires forall t :: pi(t) == (pa(t) && t.kind == Income)
    requires forall t :: pe(t) == (pa(t) && t.kind == Expense)
    ensures |Filter(ts, pi)| + |Filter(ts, pe)| == |Filter(ts, pa)|
  {
    if ts != [] {
      FilterSplitsByKind(ts[1..], pi, pe, pa);
    }
  }
}
