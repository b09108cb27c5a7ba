# Personal-finance front end: a Dafny model of its logic

This project models the deterministic logic inside a small personal-finance web front end
(Next.js/React, TypeScript). The parts modelled are:

- the ledger store behind `useFinancial`. It holds one `FinancialData` aggregate of
  transactions, budgets, goals and settings, replaces it as a whole on every change and
  writes it to browser storage under the key `financial_planner_data`;
- the authentication client. It maps login and register responses to error messages and
  keeps the session token and user in browser storage;
- the registration form: the CPF and phone input masks, the CPF check-digit validator
  (the Receita Federal modulo-11 rule), the field rule table and the submit gate;
- the sign-in form's checks and submit handler;
- the figures the pages compute:
  - the dashboard's savings, per-category totals and recent list;
  - the transaction filter;
  - the CSV export text;
  - the goal contribution clamp, the add-goal guard and the progress bar;
  - the budget over-limit flag, colour band and bar width;
  - the add-transaction dialog's save guard and its category choices.

There is one Dafny module per source file: `Ledger`, `Auth`, `RegisterForm`, `LoginForm`,
`Dashboard`, `TransactionsPage`, `ReportsPage`, `GoalsPage`, `BudgetsPage` and
`TransactionModal`. Four shared modules support them:

- `FinanceTypes`: the records of `types/index.ts` and the tables of `lib/constants.ts`;
- `JsNumber`: JavaScript division by zero, `Math.min` and comparisons with NaN;
- `Text`: the string operations the pages use;
- `Lists`: `filter` and `indexOf`.

State the source changes in place is a class whose methods name what they modify:
`Ledger.FinancialStore`, `Auth.AuthClient`, `RegisterForm.RegisterFormState`,
`LoginForm.LoginFormState`, `GoalsPage.GoalsPageState` and `TransactionModal.TransactionDialog`.
The accumulator loops become methods with loop invariants: the category reduce of the
dashboard and the two weighted sums of `isValidCpf`.

The environment is made explicit:

- Money is a Dafny `real`. Finite values are exact; there is no rounding.
- A point in time is the UTC ISO text that `toISOString` gives for it. The month key is its
  first seven characters.
- `fetch` is replaced by its settled outcome, which is an input: a network failure, a
  non-ok status with a body, or an ok response.
- `localStorage` is a map from keys to stored values.
- `Date.now()`, `new Date()`, `Number.parseFloat`, `JSON.parse` (when reading the stored
  user), `toLocaleDateString` and number-to-text conversion are parameters.
- JavaScript's `length` counts UTF-16 code units, so a character outside the Basic
  Multilingual Plane counts twice (`Text.JsLength`); the register form's length rules use it.

Behaviour worth noting:

- Stored ledger text on which the load callback throws is not replaced by the seed data.
  When `JSON.parse` rejects the text, or its value has no `transactions` array for
  `deserializeData` to map, `data` stays null and `loading` stays true
  (`Ledger.Loaded`, `Ledger.FinancialStore.Load`).
- A login or register error response whose body parses as JSON shows the body's `message`,
  else its `error`, else the default message, whatever the status. Status 401/403 (login)
  and 409 and ≥ 500 (register) decide only when the body does not parse.
- The CPF rule does not reject every single-digit change of a valid number. Because a
  remainder of 10 is mapped to 0, both 00000100900 and 00000300900 pass
  (`RegisterForm.SingleDigitChangeNotAlwaysDetected`). A change to one of the two check
  digits is always rejected (`RegisterForm.CheckDigitChangeRejected`).
- The seed data holds five transactions and has no `budgets` or `goals` key at all
  (`Ledger.MockData`). The goals and budgets pages then throw on their first read of those
  lists; see Findings.

## Model

| member | source | states |
|---|---|---|
| FinanceTypes.MonthKey | hooks/useFinancial.ts:107-110 | the month key is the prefix of the instant's ISO text of length min(7, its length), as `slice(0, 7)` gives |
| FinanceTypes.WithId | hooks/useFinancial.ts:91 | the new transaction carries the given id and every field of the input unchanged |
| Text.Digits | components/register-form.tsx:14 | `replace(/\D/g, "")` yields only digits and is never longer than its input |
| Text.TrimStart | components/register-form.tsx:71 | the result is a suffix of the input, and every character dropped in front of it is whitespace |
| Text.TrimEnd | components/register-form.tsx:71 | the result is a prefix of the input, and every character dropped behind it is whitespace |
| Text.Trim | components/register-form.tsx:71 | `trim()` keeps one contiguous piece of its input, starting where `trimStart` stops; every character before and after that piece is whitespace |
| Text.TrimEnds | components/register-form.tsx:71 | what `trim` returns neither starts nor ends with whitespace |
| Text.TrimIdempotent | components/register-form.tsx:71 | trimming twice is trimming once |
| Text.Lower | app/transactions/page.tsx:23 | `toLowerCase` lowers each character on its own and keeps the length, as it does for Latin text |
| Text.LowerChar | app/transactions/page.tsx:23 | a capital A-Z or U+00C0-U+00DE other than U+00D7 becomes the small letter 32 code points above it; every other character is kept; no result is such a capital |
| Text.LowerIdempotent | app/transactions/page.tsx:23 | lowering an already lowered string changes nothing |
| Text.DecimalText | hooks/useFinancial.ts:91 | `Date.now().toString()` is a non-empty string of digits with no leading zero |
| Text.DecimalTextValue | hooks/useFinancial.ts:91 | the decimal text of n reads back as n |
| Text.DecimalTextInjective | hooks/useFinancial.ts:91 | two different times give two different ids |
| Text.JsLength | components/register-form.tsx:83 | `length` counts UTF-16 code units: at least the number of characters and at most twice it |
| Text.JsLengthBmp | components/register-form.tsx:83 | for text inside the Basic Multilingual Plane, `length` is the number of characters |
| Text.JsLengthAstral | components/register-form.tsx:83 | one character outside the Basic Multilingual Plane makes `length` exceed the number of characters |
| Ledger.StringifyDate | hooks/useFinancial.ts:86 | `JSON.stringify` writes a date as its ISO text and leaves text as it is |
| Ledger.StringifyGoals | hooks/useFinancial.ts:86 | a missing goal list stays missing; a present one keeps its length, and each goal keeps its fields with its deadline written as text |
| Ledger.Serialize | hooks/useFinancial.ts:86 | the stored value keeps the number of transactions, the budgets (missing or not) and the settings; each transaction date becomes its ISO text; goals are stringified as `StringifyGoals` says |
| Ledger.ReviveDate | hooks/useFinancial.ts:65 | a date stored as text is revived to the instant with that ISO text; a date value is kept |
| Ledger.DeserializeData | hooks/useFinancial.ts:60-68 | `deserializeData` keeps every transaction field and revives only the dates; budgets, goals and settings are kept as parsed |
| Ledger.SerializeRoundTrip | hooks/useFinancial.ts:60-68 | saving and loading again gives back the same transactions, budgets and settings |
| Ledger.SerializeRoundTripTextDeadlines | hooks/useFinancial.ts:60-68 | an aggregate whose goal deadlines are text is a fixed point of saving and loading |
| Ledger.MockData | hooks/useFinancial.ts:8-58 | the seed has five transactions with distinct ids, the settings USD and light, and no `budgets` or `goals` key |
| Ledger.IntendedMockData | types/index.ts:36-44 | the seed as its declared type promises it: the same transactions and settings, with empty budget and goal lists |
| Ledger.TransactionIds | hooks/useFinancial.ts:13-50 | the ids of the transactions, position by position |
| Ledger.Loaded | hooks/useFinancial.ts:76-80 | no stored value or an empty one gives the seed data; a stored aggregate is deserialized; nothing is loaded exactly when the text makes the callback throw (it does not parse, or its value has no `transactions` array) |
| Ledger.SaveThenLoad | hooks/useFinancial.ts:77-78 | after a save, the next load gives back the saved transactions, budgets and settings |
| Ledger.WithoutId | hooks/useFinancial.ts:97 | the result holds exactly the transactions whose id differs |
| Ledger.WithoutIdIsSubsequence | hooks/useFinancial.ts:97 | deleting keeps the remaining transactions in their order |
| Ledger.WithoutAbsentId | hooks/useFinancial.ts:97 | deleting an id that no transaction carries changes nothing |
| Ledger.DeleteAfterAdd | hooks/useFinancial.ts:91-97 | deleting the id just prepended, when no older transaction carries it, restores the list |
| Ledger.MergeSettings | hooks/useFinancial.ts:102 | each field present in the patch replaces the old one; each absent field is kept |
| Ledger.MergeSettingsIdempotent | hooks/useFinancial.ts:102 | applying a patch twice is applying it once; an empty patch changes nothing |
| Ledger.InMonth | hooks/useFinancial.ts:108-111 | the result holds exactly the transactions whose month key is the given month |
| Ledger.OfKind | hooks/useFinancial.ts:113-114 | the result holds exactly the transactions of the given type |
| Ledger.SumAmountsAppend | hooks/useFinancial.ts:113-114 | the `reduce` total of two lists one after the other is the sum of their totals |
| Ledger.IncomePlusExpenses | hooks/useFinancial.ts:113-114 | the income and expense totals add up to the total of all amounts |
| Ledger.StatsFor | hooks/useFinancial.ts:105-116 | with no data the stats are zero; otherwise income and expenses are the sums of the current month's income and expense amounts |
| Ledger.StatsCoverMonth | hooks/useFinancial.ts:105-116 | income plus expenses is the total of the month's transactions |
| Ledger.StatsAfterAdd | hooks/useFinancial.ts:91-116 | adding a transaction moves the month's total on its own side by its amount when it falls in the current month, and changes nothing otherwise |
| Ledger.FinancialStore.constructor | hooks/useFinancial.ts:71-72 | the store starts with no data and loading, over the given storage |
| Ledger.FinancialStore.Load | hooks/useFinancial.ts:76-80 | data becomes what `Loaded` gives for the stored value and loading ends; when parsing throws, nothing changes |
| Ledger.FinancialStore.SaveData | hooks/useFinancial.ts:84-87 | data becomes the new aggregate and storage holds its serialization under the fixed key; no other key changes |
| Ledger.FinancialStore.AddTransaction | hooks/useFinancial.ts:89-93 | a no-op without data; otherwise the input, with the decimal text of `nowMs` as its id, is prepended; budgets, goals and settings are unchanged; the new aggregate is persisted |
| Ledger.FinancialStore.DeleteTransaction | hooks/useFinancial.ts:95-98 | a no-op without data; otherwise exactly the transactions with another id remain, and the result is persisted |
| Ledger.FinancialStore.UpdateSettings | hooks/useFinancial.ts:100-103 | a no-op without data; otherwise the settings are merged with the patch, the rest is unchanged, and the result is persisted |
| Ledger.FinancialStore.GetMonthlyStats | hooks/useFinancial.ts:105-116 | zero without data; otherwise the income and expense totals of the current month's transactions as `StatsFor` defines them, which add up to the month's total |
| Ledger.AddThenDelete | hooks/useFinancial.ts:89-98 | `addTransaction` followed by `deleteTransaction` of the new id leaves the aggregate as it was, when that id was fresh |
| Auth.MessageOr | lib/auth.ts:46 | `message \|\| error \|\| fallback`: a non-empty message wins; otherwise a non-empty error, else the fallback |
| Auth.LoginFailureMessage | lib/auth.ts:41-52 | a parsed body decides the message; otherwise status 401 or 403, and only those, give "Email ou senha incorretos", and every other status gives the default |
| Auth.RegisterFailureMessage | lib/auth.ts:86-100 | a parsed body decides the message; otherwise 409 gives "email in use", ≥ 500 the server-error message, and the rest the default, each if and only if |
| Auth.ParsedBodyIgnoresStatus | lib/auth.ts:44-47 | when the body parses, the status plays no part in either message |
| Auth.Register | lib/auth.ts:72-101 | a network failure gives the connection message; a non-ok response gives the register failure message; success if and only if the response is ok; no storage is written |
| Auth.UserJson | lib/auth.ts:59-66 | the stored user text is non-empty and starts with `{` |
| Auth.UserOf | lib/auth.ts:116-123 | null for a missing key or an empty text; the record `login` wrote; for any other text, what `JSON.parse` gives, null when it throws |
| Auth.UserEncodingsAgree | lib/auth.ts:115-124 | a user stored as `login`'s JSON text or as the record reads back as the same user, for a `JSON.parse` that reads that text back |
| Auth.AuthClient.constructor | lib/auth.ts:57 | the client starts over the given storage |
| Auth.AuthClient.GetToken | lib/auth.ts:110-113 | a token is returned if and only if the key is present, and it is the stored text |
| Auth.AuthClient.GetUser | lib/auth.ts:115-124 | null when the key is absent; otherwise what `UserOf` gives for the stored item, with `JSON.parse` as a parameter |
| Auth.AuthClient.IsAuthenticated | lib/auth.ts:126-128 | true if and only if a token is stored and it is not empty |
| Auth.AuthClient.Login | lib/auth.ts:24-70 | failures give the connection or login failure message and leave storage unchanged; success stores the token and the user with the email argument, and then `getUser` returns that user whatever `JSON.parse` does |
| Auth.AuthClient.Logout | lib/auth.ts:103-108 | both session keys are removed and nothing else; afterwards there is no token, no user and no authentication |
| RegisterForm.Capped | components/register-form.tsx:14 | `slice(0, k)` is the prefix of length min(k, length) |
| RegisterForm.MaskDigits | components/register-form.tsx:14 | the mask keeps at most eleven digits |
| RegisterForm.FormatCpf | components/register-form.tsx:13-19 | for n kept digits the masked text has n plus 0, 1, 2 or 3 separators by length band, with "." at positions 3 and 7 and "-" at 11 once the digits reach them |
| RegisterForm.FormatPhone | components/register-form.tsx:21-26 | for n kept digits the masked text is n long up to 2 digits, 3 more up to 7 and 4 more beyond, with "(", ") " and "-" in place |
| RegisterForm.FormatCpfDigits | components/register-form.tsx:14-18 | stripping the CPF mask gives back exactly the first min(11, #digits) typed digits, in order |
| RegisterForm.FormatPhoneDigits | components/register-form.tsx:22-25 | stripping the phone mask gives back exactly the first min(11, #digits) typed digits, in order |
| RegisterForm.FormatCpfIdempotent | components/register-form.tsx:14 | masking a masked CPF changes nothing |
| RegisterForm.FormatPhoneIdempotent | components/register-form.tsx:22 | masking a masked phone number changes nothing |
| RegisterForm.CheckDigit | components/register-form.tsx:35-36 | a check digit is between 0 and 9 (a remainder of 10 becomes 0) |
| RegisterForm.IsValidCpf | components/register-form.tsx:28-44 | the two loops compute the weighted sums; the result is true if and only if there are eleven digits, not all equal, and both check digits hold |
| RegisterForm.RepeatedDigitRejected | components/register-form.tsx:31 | eleven copies of one digit are rejected |
| RegisterForm.CheckDigitChangeRejected | components/register-form.tsx:33-43 | changing either check digit of a valid CPF makes it invalid |
| RegisterForm.FormatCpfKeepsValidity | components/register-form.tsx:13-44 | masking keeps a CPF's validity when at most eleven digits were typed |
| RegisterForm.ExampleDigitsValid | components/register-form.tsx:28-44 | 52998224725 satisfies the rule |
| RegisterForm.MaskedCpfAccepted | components/register-form.tsx:28-44 | eleven valid digits are accepted as typed and as masked |
| RegisterForm.SixthDigitOneAccepted | components/register-form.tsx:28-44 | 00000100900 is accepted |
| RegisterForm.SixthDigitThreeAccepted | components/register-form.tsx:28-44 | 00000300900 is accepted |
| RegisterForm.SingleDigitChangeNotAlwaysDetected | components/register-form.tsx:33-43 | two numbers that differ in one non-check digit are both accepted |
| RegisterForm.ValidationErrors | components/register-form.tsx:68-91 | each field has an error if and only if its rule fails: trimmed name under 3 UTF-16 code units, email without "@" or ".", non-empty invalid CPF, non-empty phone under 10 digits, password under 6 code units, confirmation differing |
| RegisterForm.TwoEmojiNamePasses | components/register-form.tsx:71 | a name of two emoji has length 4 and passes the three-character rule |
| RegisterForm.ValidationMessages | components/register-form.tsx:71-88 | each failing field shows its own message |
| RegisterForm.OptionalFieldsMayBeEmpty | components/register-form.tsx:77-82 | empty CPF and phone fields are never reported |
| RegisterForm.ShownMessage | components/register-form.tsx:102-107 | no message on success; otherwise the message `register` throws |
| RegisterForm.RegisterFormState.constructor | components/register-form.tsx:57-66 | all fields empty, no errors, not successful, not loading |
| RegisterForm.RegisterFormState.TypeCpf | components/register-form.tsx:184 | the CPF field holds the masked input, whose digits are the kept digits |
| RegisterForm.RegisterFormState.TypePhone | components/register-form.tsx:196 | the phone field holds the masked input, whose digits are the kept digits |
| RegisterForm.RegisterFormState.Validate | components/register-form.tsx:68-91 | the errors filled in field by field are the rule table's errors for the current fields |
| RegisterForm.RegisterFormState.HandleSubmit | components/register-form.tsx:93-111 | errors become the rule table's result; `register` is called if and only if there are none, with the trimmed name, the email and the password only; after it the form shows its message, success on an ok outcome, and loading off |
| RegisterForm.RegisterFormState.SendRegistration | components/register-form.tsx:101-110 | after `register` settles, the shown error is its message, success is set on an ok outcome, and loading is off |
| LoginForm.CheckFields | components/login-form.tsx:26-33 | no "@" gives "Digite um email valido"; else an empty password gives "Digite sua senha"; the checks pass if and only if both hold |
| LoginForm.ChecksMatchFormValidity | components/login-form.tsx:20-33 | a submit passes the checks if and only if `isFormValid` holds |
| LoginForm.EmailCheckFirst | components/login-form.tsx:26-33 | with both fields wrong, only the email message is shown |
| LoginForm.SubmitEnabledReachesLogin | components/login-form.tsx:91 | the button is enabled if and only if nothing is loading and a submit would reach `login` |
| LoginForm.LoginFailureNonEmpty | lib/auth.ts:41-52 | every message `login` throws is non-empty |
| LoginForm.LoginOutcomeMessage | components/login-form.tsx:36-40 | the error is empty if and only if the login succeeded; otherwise it is the message `login` threw |
| LoginForm.LoginFormState.constructor | components/login-form.tsx:15-18 | empty fields, no error, not loading |
| LoginForm.LoginFormState.HandleSubmit | components/login-form.tsx:22-44 | `login` is attempted if and only if the checks pass; a failed check shows its message and changes no session state; after an attempt the login outcome's message is shown, loading is off, the page goes home on success, and storage changes exactly as `login` writes it |
| Dashboard.SignedSumSplit | app/page.tsx:32 | the signed sum of transactions is income minus expenses |
| Dashboard.SavingsIsMonthBalance | app/page.tsx:31-32 | the savings shown are the balance of the current month's transactions |
| Dashboard.CategoryOrderMembers | app/page.tsx:39-41 | the categories listed are exactly those of some transaction |
| Dashboard.Entries | app/page.tsx:38-42 | one entry per listed category |
| Dashboard.CategoryData | app/page.tsx:34-45 | there is one entry per distinct category |
| Dashboard.CategoryDataEntry | app/page.tsx:36-42 | entry i holds the i-th category to appear and the sum of that category's amounts, income and expense alike |
| Dashboard.CategoryOrderDistinct | app/page.tsx:39-41 | no category has two entries |
| Dashboard.CategoryOrderByFirstAppearance | app/page.tsx:41 | of two entries, the earlier one's category occurs first in the transactions |
| Dashboard.CategoryDataSnocPresent | app/page.tsx:39-40 | a further transaction of a listed category adds its amount to that entry only |
| Dashboard.CategoryDataSnocNew | app/page.tsx:41 | a transaction of a new category appends an entry with its amount |
| Dashboard.CategoryDataTotal | app/page.tsx:36-44 | the entries add up to the sum of all the amounts |
| Dashboard.FindCategory | app/page.tsx:39 | `acc.find` returns the position of the first entry of the category, or the length when there is none |
| Dashboard.GroupByCategory | app/page.tsx:37-45 | the reduce, which increases an entry or pushes a new one, builds exactly the category totals |
| Dashboard.CategoryDataFor | app/page.tsx:34-45 | empty without data; otherwise the category totals of the current month's transactions |
| Dashboard.Recent | app/page.tsx:141 | the first min(5, n) transactions in stored order |
| Dashboard.RecentAfterAdd | app/page.tsx:141 | a transaction just added is shown first, and the others move down one place |
| TransactionsPage.Filtered | app/transactions/page.tsx:21-27 | empty without data; otherwise exactly the transactions that pass the search, type and category tests together |
| TransactionsPage.FilteredIsSubsequence | app/transactions/page.tsx:21-22 | the list shown keeps the stored order and only drops transactions |
| TransactionsPage.NoFilterShowsAll | app/transactions/page.tsx:23-25 | an empty search with both filters on "all" shows every transaction |
| TransactionsPage.SearchIgnoresQueryCase | app/transactions/page.tsx:23 | lowering the query first changes nothing |
| TransactionsPage.ContainedQueryMatches | app/transactions/page.tsx:23 | a description that contains the query as typed matches it |
| TransactionsPage.AccentedCapitalsMatch | app/transactions/page.tsx:23 | the query "água" finds the description "ÁGUA" |
| TransactionsPage.TypeViewsPartition | app/transactions/page.tsx:24 | the income view and the expense view together are as long as the unfiltered type view |
| ReportsPage.Cells | app/reports/page.tsx:24-30 | a row has five cells in header order: the rendered date, the type text, the category, the rendered amount and the description |
| ReportsPage.Rows | app/reports/page.tsx:23-32 | one line per transaction, in list order |
| ReportsPage.Lines | app/reports/page.tsx:32 | the header line first, then the rows |
| ReportsPage.Csv | app/reports/page.tsx:22-32 | the file starts with the header line, and without data it is the header line alone |
| ReportsPage.CsvWithoutData | app/reports/page.tsx:30-32 | without data the file is the header line alone, and its cells are the five column names |
| ReportsPage.CsvLines | app/reports/page.tsx:23-32 | when no cell holds a newline, splitting at newlines gives the header and one line per transaction, in order |
| ReportsPage.CsvEndsWithLastLine | app/reports/page.tsx:32 | the file ends with the last transaction's line, with no trailing newline |
| ReportsPage.CommaInDescriptionAddsColumns | app/reports/page.tsx:32 | a comma in a description splits its line into more than five columns |
| GoalsPage.Contributed | app/goals/page.tsx:34 | the new amount is at most the target and at most current plus amount, and is one of the two |
| GoalsPage.ContributionThatFits | app/goals/page.tsx:34 | a contribution that fits below the target is added in full |
| GoalsPage.ContributionSaturates | app/goals/page.tsx:34 | once the target is reached, further contributions keep the goal at its target |
| GoalsPage.FindGoal | app/goals/page.tsx:32 | none if and only if no goal has the id; otherwise the first goal with it |
| GoalsPage.UpdateProgress | app/goals/page.tsx:31-36 | no update without data, without a goal list or for an unknown id; otherwise the update for the first goal with the id is current plus amount when that fits and exactly the target when it overshoots |
| GoalsPage.UpdateProgressAsWritten | app/goals/page.tsx:13-36 | the handler as written throws when the aggregate has no goal list; otherwise it calls `updateGoal` when the hook provides it and throws when it does not |
| GoalsPage.ContributionThrowsWithRealHook | hooks/useFinancial.ts:118-125 | against the real hook, every contribution to an existing goal throws |
| GoalsPage.NewGoal | app/goals/page.tsx:19-25 | the new goal keeps the name and parsed target, starts at 0 in "savings", and its deadline is the typed date or now plus one year |
| GoalsPage.AddGoalAsWritten | app/goals/page.tsx:13-29 | nothing without a name and target; otherwise `addGoal` is called when the hook provides it, and the handler throws when it does not |
| GoalsPage.AddGoalThrowsWithRealHook | hooks/useFinancial.ts:118-125 | against the real hook, a filled-in goal form throws |
| GoalsPage.GoalCardsOf | app/goals/page.tsx:55 | nothing to render without data, a TypeError when the aggregate has no goal list, and the goals in order otherwise |
| GoalsPage.SeedBreaksGoalsPage | app/goals/page.tsx:32-55 | with the seed a first visit loads, rendering the page throws and so does every contribution |
| GoalsPage.IntendedSeedShowsNoGoals | app/goals/page.tsx:32-55 | with the intended seed, the page shows an empty list and a contribution updates nothing |
| GoalsPage.GoalsPageState.constructor | app/goals/page.tsx:14-15 | an empty form and a closed dialog |
| GoalsPage.GoalsPageState.HandleAddGoal | app/goals/page.tsx:17-29 | a goal is added only with a name and target; then the form is cleared and the dialog closed; otherwise nothing changes |
| GoalsPage.ProgressWidth | app/goals/page.tsx:56-82 | the bar width never exceeds 100 |
| GoalsPage.ReachedGoalFillsBar | app/goals/page.tsx:56-82 | a reached positive target gives a full bar |
| GoalsPage.PartialGoalBar | app/goals/page.tsx:56-82 | below a positive target the bar shows the exact percentage |
| GoalsPage.ZeroTargetBar | app/goals/page.tsx:56-82 | a zero target gives 100 with something saved and NaN with nothing |
| JsNumber.Divide | app/budgets/page.tsx:25 | division by a non-zero number is exact; division by zero gives +∞, −∞ or NaN by the sign of the dividend |
| JsNumber.MinWith | app/budgets/page.tsx:53 | `Math.min(n, k)` is never greater than k, is k when n is greater, and is n otherwise |
| BudgetsPage.BandOf | app/budgets/page.tsx:51 | red if and only if the percentage exceeds 100; yellow if and only if it is above 80 and not above 100; green if and only if it is not above 80 |
| BudgetsPage.UsedPercentage | app/budgets/page.tsx:25 | the exact percentage for a non-zero limit; for a zero limit +∞ or −∞ by the sign of the spending, NaN when nothing was spent |
| BudgetsPage.GreenBand | app/budgets/page.tsx:51 | a green bar is at most 80 percent used, or its percentage is NaN or −∞ |
| BudgetsPage.OverBudgetIsRed | app/budgets/page.tsx:25-51 | for a non-negative limit, `isOverBudget` (spent above limit) holds if and only if the bar is red |
| BudgetsPage.NegativeLimitRedButNotOver | app/budgets/page.tsx:25-51 | with a negative limit, a red bar need not mean over budget |
| BudgetsPage.BarWidth | app/budgets/page.tsx:53 | the width never exceeds 100, is 100 for a red bar and is the percentage otherwise |
| BudgetsPage.BudgetCardsOf | app/budgets/page.tsx:23 | nothing to render without data, a TypeError when the aggregate has no budget list, and the budgets in order otherwise |
| BudgetsPage.SeedBreaksBudgetsPage | app/budgets/page.tsx:23 | with the seed a first visit loads, rendering the page throws |
| BudgetsPage.IntendedSeedShowsNoBudgets | app/budgets/page.tsx:23 | with the intended seed, the page shows an empty list |
| BudgetsPage.StoreKeepsMissingBudgets | hooks/useFinancial.ts:84-102 | replacing the transactions, and saving and loading, keep a missing budget list missing, so the page keeps throwing |
| TransactionModal.FilteredCategories | components/transaction-modal.tsx:39-43 | exactly the categories offered for the selected type |
| TransactionModal.IncomeIdsAtEnd | components/transaction-modal.tsx:41-42 | the income ids are exactly the last two categories |
| TransactionModal.IncomeChoices | components/transaction-modal.tsx:39-43 | income offers salary and freelance, in list order |
| TransactionModal.ExpenseChoices | components/transaction-modal.tsx:39-43 | expense offers the six other categories, in list order |
| TransactionModal.CategoriesPartitioned | components/transaction-modal.tsx:39-43 | each category is offered for exactly one type, the two lists are as long as the whole, and both keep its order |
| TransactionModal.TransactionDialog.constructor | components/transaction-modal.tsx:18-21 | type expense, empty fields, nothing saved |
| TransactionModal.TransactionDialog.HandleSave | components/transaction-modal.tsx:23-37 | with amount, category and description filled in, a record with the current type, parsed amount, category, description and time is saved, those three fields are cleared, the type is kept and the dialog closes; otherwise nothing changes |

## Left out

- Rendering, charts, styling and navigation are not modelled. The hard-coded chart arrays
  (app/page.tsx:47-53, app/reports/page.tsx:13-19) are constants, not behaviour.
- The 300 ms load delay and React's re-render timing are not modelled: load is one
  immediate step.
- Real `fetch`, `localStorage` and JSON text are not modelled.
  - A fetch is its settled outcome.
  - Storage is a map.
  - A stored aggregate is held as its parsed value.
  - The model does not cover JSON text escaping.
- The `loading` flags raised while a request is in flight are not modelled: a request
  settles within one step, so only the final value is visible.
- The fallback "Erro ao fazer login" for a thrown value that is not an `Error`
  (components/login-form.tsx:40) and its register counterpart
  (components/register-form.tsx:107) are not modelled. Both `login` and `register` only throw
  `Error`s, so these branches cannot be reached.
- `router.push` and the two-second redirect timer are not modelled. After a login, the model
  records only a flag.
- Number formatting is not modelled: `toFixed`, `toLocaleDateString`, the amount's text in
  the CSV, and the goal page's days-left count (app/goals/page.tsx:57, which reads the
  clock).
- Download mechanics are not modelled: Blob, object URL and anchor click.
- Floating point is not modelled: amounts are exact reals and have no rounding.
  `TransactionModal.TransactionDialog.HandleSave` takes the parsed amount as a `real`, so it
  does not represent the NaN that `Number.parseFloat` gives for text that is not a number.
- Goal and budget store operations are not modelled: the hook provides none. The goal page's
  handlers are modelled both as written (throwing) and as intended (see Findings).
- The settings page, the auth guard, the navigation and the register API route are not
  modelled. They only forward to modelled operations or render.
- Auth.UserJson: states only that the stored user text starts with `{`. JSON string
  escaping is not modelled, so a `"` or `\` inside `nome` or the email gives text that is
  not the JSON `JSON.stringify` writes.
- Auth.AuthClient.GetUser: `JSON.parse` is a parameter that yields a user record or null. A
  stored text that parses to a value of another shape (`{}`, a number) is returned as it is
  by the source and has no counterpart in the model.
- The `typeof window === "undefined"` guards of lib/auth.ts (lines 57, 104, 111 and 116),
  which make `getToken` and `getUser` return null and `login` and `logout` skip storage
  during server rendering, are not modelled: the model is the browser, where `window`
  exists.
- Ledger.Loaded: a stored object that has a `transactions` array but no `settings` key,
  such as `{"transactions":[]}`, loads in the source with `settings` undefined. The model's
  stored aggregate always carries settings, so such a text is not represented.
- Ledger.ReviveDate: a date stored as text is revived to the instant whose ISO text is that
  text. This holds for the text `JSON.stringify` writes. A text in another format
  ("2024-03-15" becomes "2024-03-15T00:00:00.000Z") or an invalid one (on which
  `toISOString` throws in `getMonthlyStats`) is not modelled.
- Text.Lower: lowers A-Z and the Latin-1 capitals only. Capitals of other scripts (Latin
  Extended, Greek, Cyrillic) are kept, and the characters whose lower case is longer than
  themselves, such as "İ", are not modelled, so the model always keeps the length.
- LoginForm.LoginFormState.HandleSubmit: does not state the `error` reset at the start of a
  submit or the `loading` flag raised during the call. Both are overwritten before the
  handler ends.
- RegisterForm.RegisterFormState.HandleSubmit: does not state the `loading` flag raised while
  `register` runs, for the same reason.

## Findings

| source | as written | input that shows it | evidently intended | confidence | as-written member | corrected member |
|---|---|---|---|---|---|---|
| app/goals/page.tsx:13, 19, 34 | The goals page takes `addGoal` and `updateGoal` from `useFinancial`, which returns neither (hooks/useFinancial.ts:118-125). Both are `undefined`, and calling one throws a TypeError. | Adding the goal "Car" with target "1000"; or contributing 100 to any existing goal | The goal is added, then the form is cleared and the dialog closed; a contribution stores min(current + amount, target) for that goal | high (not executed) | GoalsPage.AddGoalAsWritten, GoalsPage.AddGoalThrowsWithRealHook, GoalsPage.UpdateProgressAsWritten, GoalsPage.ContributionThrowsWithRealHook | GoalsPage.GoalsPageState.HandleAddGoal, GoalsPage.UpdateProgress |
| hooks/useFinancial.ts:10-57 | `generateMockData` builds the seed without `budgets` and `goals` keys, although `FinancialData` declares both (types/index.ts:38-39), and no later save adds them. On a first visit `data?.goals.map` (app/goals/page.tsx:55), `data?.goals.find` (:32) and `data?.budgets.map` (app/budgets/page.tsx:23) read a property of `undefined` and throw a TypeError. | Empty storage, so the first load gives the seed; then open the goals or the budgets page | The seed carries empty budget and goal lists, and both pages show empty lists | high (not executed) | Ledger.MockData, GoalsPage.SeedBreaksGoalsPage, BudgetsPage.SeedBreaksBudgetsPage, BudgetsPage.StoreKeepsMissingBudgets | Ledger.IntendedMockData, GoalsPage.IntendedSeedShowsNoGoals, BudgetsPage.IntendedSeedShowsNoBudgets |
