/** components/transaction-modal.tsx: the add-transaction dialog. Its form fields are state
    that `handleSave` reads, hands to `onSave` and clears; the category choices depend on the
    selected type. `Number.parseFloat` and `new Date()` are given by the caller. */
module TransactionModal {
  import opened FinanceTypes
  import opened Lists

  /** The category ids offered for income; every other category is an expense category. */
  const IncomeCategoryIds: seq<string> := ["salary", "freelance"]

  /** The filter's test for one category. */
  predicate OfferedFor(kind: TxType, c: Category) {
    (kind == Income && c.id in IncomeCategoryIds) || (kind == Expense && c.id !in IncomeCategoryIds)
  }

  /** `filteredCategories`. */
  function FilteredCategories(kind: TxType): (r: seq<Category>)
    ensures forall c :: c in r <==> c in Categories && OfferedFor(kind, c)
  {
    Filter(Categories, (c: Category) => OfferedFor(kind, c))
  }

  /** The last two categories are the income ones. */
  lemma IncomeIdsAtEnd()
    ensures forall i :: 0 <= i < |Categories| ==> (Categories[i].id in IncomeCategoryIds <==> 6 <= i)
  {
    forall i | 0 <= i < |Categories|
      ensures Categories[i].id in IncomeCategoryIds <==> 6 <= i
    {
      var id := Categories[i].id;
      if i < 6 {
        assert id[0] != 's' || id[1] != 'a';
        assert id[0] != 'f' || id[1] != 'r';
      }
    }
  }

  /** Income offers exactly salary and freelance, in list order. */
  lemma IncomeChoices()
    ensures FilteredCategories(Income) == Categories[6..]
  {
    var p := (c: Category) => OfferedFor(Income, c);
    IncomeIdsAtEnd();
    var front, back := Categories[..6], Categories[6..];
    assert Categories == front + back;
    forall i | 0 <= i < |front| ensures !p(front[i]) {
      assert front[i] == Categories[i];
    }
    forall i | 0 <= i < |back| ensures p(back[i]) {
      assert back[i] == Categories[i + 6];
    }
    FilterAppend(front, back, p);
    FilterNone(front, p);
    FilterKeepsAll(back, p);
  }

  /** Expense offers the six other categories, in list order. */
  lemma ExpenseChoices()
    ensures FilteredCategories(Expense) == Categories[..6]
  {
    var p := (c: Category) => OfferedFor(Expense, c);
    IncomeIdsAtEnd();
    var front, back := Categories[..6], Categories[6..];
    assert Categories == front + back;
    forall i | 0 <= i < |front| ensures p(front[i]) {
      assert front[i] == Categories[i];
    }
    forall i | 0 <= i < |back| ensures !p(back[i]) {
      assert back[i] == Categories[i + 6];
    }
    FilterAppend(front, back, p);
    FilterKeepsAll(front, p);
    FilterNone(back, p);
  }

  lemma {:induction false} FilterNone<T>(s: seq<T>, p: T -> bool)
    requires forall i :: 0 <= i < |s| ==> !p(s[i])
    ensures Filter(s, p) == []
  {
    if s != [] {
      FilterNone(s[1..], p);
    }
  }

  /** The two lists split the category list: each category is offered for exactly one type,
      and together they are as long as the list. */
  lemma CategoriesPartitioned()
    ensures |FilteredCategories(Income)| + |FilteredCategories(Expense)| == |Categories|
    ensures forall c :: c in Categories ==> (c in FilteredCategories(Income) <==> c !in FilteredCategories(Expense))
    ensures IsSubsequence(FilteredCategories(Income), Categories) && IsSubsequence(FilteredCategories(Expense), Categories)
  {
    var pi := (c: Category) => OfferedFor(Income, c);
    var pe := (c: Category) => OfferedFor(Expense, c);
    assert forall c :: pe(c) == !pi(c);
    FilterComplementLength(Categories, pi, pe);
    FilterIsSubsequence(Categories, pi);
    FilterIsSubsequence(Categories, pe);
  }

  /** The dialog's state; `open` stands for the parent's `modalOpen`, which `onOpenChange`
      sets, and `saved` for the records passed to `onSave`, oldest first. */
  class TransactionDialog {
    var kind: TxType
    var amount: string
    var category: string
    var description: string
    var open: bool
    var saved: seq<TransactionInput>

    constructor(open: bool)
      ensures kind == Expense && amount == category == description == ""
      ensures this.open == open && saved == []
    {
      kind, amount, category, description := Expense, "", "", "";
      this.open, saved := open, [];
    }

    /** `handleSave`: with amount, category and description all filled in, the record goes to
        `onSave`, those three fields are cleared (the type is kept) and the dialog closes;
        otherwise nothing happens. */
    method HandleSave(parseAmount: string -> real, now: Instant)
      modifies this
      ensures old(amount) == "" || old(category) == "" || old(description) == "" ==>
        kind == old(kind) && amount == old(amount) && category == old(category)
        && description == old(description) && open == old(open) && saved == old(saved)
      ensures old(amount) != "" && old(category) != "" && old(description) != "" ==>
        && saved == old(saved) + [TransactionInput(old(kind), parseAmount(old(amount)), old(category), old(description), now)]
        && amount == "" && category == "" && description == "" && kind == old(kind) && !open
    {
      if amount != "" && category != "" && description != "" {
        saved := saved + [TransactionInput(kind, parseAmount(amount), category, description, now)];
        amount, category, description := "", "", "";
        open := false;
      }
    }
  }
}
