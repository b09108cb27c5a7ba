/** The records of types/index.ts and the reference tables of lib/constants.ts.
    Money is a `real`; a point in time is the UTC ISO-8601 text that
    `Date.prototype.toISOString` gives for it. */
module FinanceTypes {

  datatype Option<T> = None | Some(value: T)

  /** `TransactionType`. (`type` is a Dafny keyword, so the field is called `kind`.) */
  datatype TxType = Income | Expense

  function TxTypeText(k: TxType): string {
    match k
    case Income => "income"
    case Expense => "expense"
  }

  /** A `Date`, identified by its `toISOString()` text ("YYYY-MM-DDTHH:mm:ss.sssZ"). */
  datatype Instant = Instant(iso: string)

  /** `date.toISOString().slice(0, 7)`: the UTC "YYYY-MM" month of an instant. */
  function MonthKey(d: Instant): (k: string)
    ensures |k| == (if |d.iso| <= 7 then |d.iso| else 7) && k <= d.iso
  {
    if |d.iso| <= 7 then d.iso else d.iso[..7]
  }

  /** A date-typed field as the aggregate may hold it: a `Date`, or the ISO text that
      `JSON.stringify` wrote for one and that `JSON.parse` gave back as a string. */
  datatype DateField = DateValue(instant: Instant) | DateText(text: string)

  datatype Transaction = Transaction(
    id: string, kind: TxType, amount: real, category: string, description: string, date: Instant)

  /** `Omit<Transaction, "id">`: what the transaction form hands to the store. */
  datatype TransactionInput = TransactionInput(
    kind: TxType, amount: real, category: string, description: string, date: Instant)

  /** `{ ...input, id }`. */
  function WithId(input: TransactionInput, id: string): (t: Transaction)
    ensures t.id == id && t.kind == input.kind && t.amount == input.amount
    ensures t.category == input.category && t.description == input.description && t.date == input.date
  {
    Transaction(id, input.kind, input.amount, input.category, input.description, input.date)
  }

  datatype Budget = Budget(id: string, category: string, limit: real, spent: real, month: string)

  datatype Goal = Goal(
    id: string, name: string, targetAmount: real, currentAmount: real, deadline: DateField, category: string)

  datatype Theme = Light | Dark

  datatype Settings = Settings(currency: string, theme: Theme)

  /** The aggregate root kept by the ledger store. The declared type requires `budgets` and
      `goals`, but an object built without them (the seed data is one) carries `undefined`
      there at run time; `None` is that missing key. */
  datatype FinancialData = FinancialData(
    transactions: seq<Transaction>, budgets: Option<seq<Budget>>, goals: Option<seq<Goal>>, settings: Settings)

  datatype Category = Category(id: string, name: string, icon: string, color: string)

  const Categories: seq<Category> := [
    Category("food", "Alimentacao", "\U{1F354}", "#FF6B6B"),
    Category("transport", "Transporte", "\U{1F697}", "#4ECDC4"),
    Category("entertainment", "Entretenimento", "\U{1F3AC}", "#FFE66D"),
    Category("utilities", "Contas de casa", "\U{1F4A1}", "#95E1D3"),
    Category("healthcare", "Saude", "\U{2695}\U{FE0F}", "#C7CEEA"),
    Category("shopping", "Compras", "\U{1F6CD}\U{FE0F}", "#FF85B3"),
    Category("salary", "Salario", "\U{1F4B0}", "#52B788"),
    Category("freelance", "Freelance", "\U{1F4BB}", "#2D6A4F")
  ]

  const Currencies: seq<string> := ["BRL", "USD", "EUR", "GBP"]
}
