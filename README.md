# Freelance ledger: a Dafny model

This project models the browser side of a small freelance bookkeeping
application built on React/Next.js and a hosted database with
authentication. The repository holds two variants of the application.

- **Unified-transaction variant.** One `transactions` table, with income and
  expense as a `type` field. The app component lists transactions, switches
  between a dashboard and a table, adds a transaction and exports a CSV file.
  The dashboard computes income, expense and net totals. The entry form has
  an inline "add client" sub-form. The table looks up client names.
- **Ledger variant.** Separate `fet-income`, `fet-expenses` and `fet-clients`
  tables. The home page gates everything on the session. It shows:
  - a monthly summary card that navigates month by month;
  - an income card, an expense card and a client card, each a list with add,
    edit and two-step delete flows;
  - a dialog form per entity, validated by a zod schema.

  An auth callback route turns an emailed link into a session and a
  redirect. A reset-password page validates and sends a new password.

The model is organised as follows.

- **Components.** Each stateful React component is a `class Component`. Its
  fields are the state the component keeps. Each handler is a method whose
  `ensures` clauses give the whole new state.
- **Effects.** Everything a handler sends or triggers is an out-parameter:
  the query or write, the redirect, the callback it fires.
- **Outside calls.** Whatever the database or auth service answers is a
  parameter: a `Reply` (`Ok` with data that may be `null`, or `Err`) or an
  `Outcome` (`Pass` or `Fail`). An asynchronous handler is one atomic step
  with those replies given.
- **Pure computations.** Totals, CSV text, validation issues, payloads, cell
  labels and the redirect rule are functions. Lemmas relate them to
  reference definitions.
  - `Dashboard.TotalsCoverAll`: income plus expenses is the sum of all
    amounts.
  - `MonthlySummary.SelectIsMonth`: the text-range query selects exactly the
    rows of the calendar month.
  - `App.ExportLines`: the CSV splits back into a header and one line per
    transaction.
  - `Money.UsdRoundTrip`: the currency text reads back as the amount.
- **Shared vocabulary.** The helper modules `Js`, `Calendar`, `Money`,
  `Backend`, `Forms`, `Ledger`, `Types` and `Wrappers` model the JavaScript
  behaviour the components rely on:
  - truthiness, `trim`, `join`/`split`, UTF-16 length and `reduce` into an
    object;
  - `yyyy-MM-dd` formatting and whole-month steps;
  - `String(n)`, `toFixed(2)` and en-US dollar formatting of exact cents.

The CSV of an empty list is the header line with no trailing newline,
because `join('\n')` on one element adds none (`App.ExportHeader`).

React effects are separate steps in the model, run by the environment after
the state change that triggers them. The summary card's effect is an
example: it reruns `FetchSummaryData` whenever the month cursor changes.
`MonthlySummary.Component.NavigatePrevious` and `NavigateNext` model each
chevron click followed by that refetch.

## Model

| member | source | states |
|---|---|---|
| App.CsvFields | src/App.tsx:63-64 | each transaction gives the six header columns; the category column is always empty, because a transaction has no category |
| App.ExportCsv | src/App.tsx:61-66 | the header line alone for an empty list; otherwise the header line, a newline, and the transaction lines joined by newlines |
| App.ExportHeader | src/App.tsx:60-66 | the export starts with `Type,Date,Category,Description,Amount,Currency`; an empty list exports that line alone with no newline, and otherwise a newline follows it |
| App.ExportLines | src/App.tsx:61-66 | when no field holds a newline, splitting the export at newlines gives the header and then exactly one line per transaction, in list order |
| App.LineFields | src/App.tsx:64 | when no field holds a comma, a line splits back into exactly its six fields |
| App.CommaInDescription | src/App.tsx:64 | fields are not quoted: a description holding one comma makes its line split into seven fields |
| Money.AmountRoundTrip | src/App.tsx:64 | the amount column (`String(amount)`) reads back as the amount |
| Money.AmountTextInjective | src/App.tsx:64 | two amounts give the same column text exactly when they are equal |
| App.Component.constructor | src/App.tsx:10-12 | no transactions yet, dashboard view, loading |
| App.Component.FetchTransactions | src/App.tsx:18-37 | rows returned replace the list; an error or `null` keeps the old list; loading ends either way |
| App.Component.HandleAddTransaction | src/App.tsx:39-57 | sends the new transaction with `user_id` set to the current user's id; a stored row goes first in the list; an error leaves the list unchanged |
| App.Component.SetView | src/App.tsx:92-112 | the view switch changes only the view |
| App.Component.Render | src/App.tsx:75-137 | the loading screen exactly while loading, then the dashboard or the table as the view says |
| Dashboard.OfType | src/components/Dashboard.tsx:28-34 | the filter keeps exactly the transactions of the given type |
| Dashboard.TotalsConcat | src/components/Dashboard.tsx:28-36 | the totals of two lists together are the sums of their totals |
| Dashboard.TotalsCoverAll | src/components/Dashboard.tsx:28-34 | income plus expenses is the sum of every amount, so each transaction is counted once |
| Dashboard.AddTransaction | src/components/Dashboard.tsx:28-36 | inserting a transaction anywhere raises its own total by its amount, leaves the other total alone, and moves the net up for income and down for an expense |
| Dashboard.TotalIncome | src/components/Dashboard.tsx:28-30 | nothing from a list of expenses only; the sum of every amount for a list of income only |
| Dashboard.OfTypeSingle | src/components/Dashboard.tsx:28-34 | the type filter keeps the whole list when every transaction has the type, and nothing when none has it |
| Dashboard.TotalExpenses | src/components/Dashboard.tsx:32-34 | nothing from a list of income only; the sum of every amount for a list of expenses only |
| Dashboard.NetIncome | src/components/Dashboard.tsx:36 | the sum of every amount for a list of income only, and its negation for a list of expenses only |
| Dashboard.ChartData | src/components/Dashboard.tsx:38-43 | the series is the income total, the expense total and the net, in label order, the third the difference of the first two |
| Dashboard.NetClass | src/components/Dashboard.tsx:78-81 | the net figure is green exactly when the net is not negative |
| Dashboard.CardText | src/components/Dashboard.tsx:62-85 | a card shows `$` followed by the amount to two decimals, which reads back as the amount |
| Money.Fixed2 | src/components/Dashboard.tsx:65 | `toFixed(2)`: at least one whole digit, a point and exactly two decimals, with a minus sign exactly for a negative amount |
| Money.Fixed2RoundTrip | src/components/Dashboard.tsx:65 | `toFixed(2)` of an amount reads back as that amount |
| TransactionForm.Component.constructor | src/components/TransactionForm.tsx:11-19 | the initial field values: income, empty amount, client and description, USD, no clients, sub-form closed |
| TransactionForm.Component.FetchClients | src/components/TransactionForm.tsx:25-40 | rows returned replace the picker's clients; a non-empty result selects its first client; an error or `null` changes nothing |
| Js.Trim | src/components/TransactionForm.tsx:44 | the trimmed name is empty exactly when the name is all white space, and otherwise neither starts nor ends with white space |
| Js.TrimIsMiddle | src/components/TransactionForm.tsx:51 | the trimmed name is the part of the typed name between its leading and its trailing white space |
| TransactionForm.Component.HandleAddClient | src/components/TransactionForm.tsx:42-69 | a name that trims to empty sends nothing and changes nothing; otherwise inserts the trimmed name for the current user; a stored row is appended and selected, the input is cleared and the sub-form closes; the busy flag is off afterwards |
| TransactionForm.Component.HandleSubmit | src/components/TransactionForm.tsx:71-83 | the draft carries the type, amount, client, description, submission time and currency; afterwards only the amount and the description are cleared |
| TransactionForm.Component.SetType | src/components/TransactionForm.tsx:89-110 | the Income and Expense buttons change only the type |
| TransactionForm.Component.ToggleNewClientForm | src/components/TransactionForm.tsx:149-156 | the toggle flips the sub-form and keeps what was typed |
| TransactionList.ClientMapEntries | src/components/TransactionList.tsx:23-26 | each fetched client is stored under its id unless a later client has the same id (the later entry wins) |
| TransactionList.ClientMapKeys | src/components/TransactionList.tsx:23-26 | the lookup object has an entry for exactly the fetched ids |
| TransactionList.ClientCell | src/components/TransactionList.tsx:74 | the client's name when the id is known and the name non-empty, `Loading...` otherwise |
| TransactionList.AmountSign | src/components/TransactionList.tsx:82 | `+` exactly for income, `-` exactly for an expense |
| TransactionList.ClientMap | src/components/TransactionList.tsx:23-26 | the object has a key for every fetched client, and each entry is a fetched client stored under its own id |
| TransactionList.AmountCell | src/components/TransactionList.tsx:79-83 | starts with `+` exactly for income, and ends with the two-decimal amount, which reads back as the amount |
| TransactionList.Rows | src/components/TransactionList.tsx:61-62 | one row per transaction, in list order, keyed by its id |
| TransactionList.EmptyMapLoading | src/components/TransactionList.tsx:12 | before the clients arrive, or when their fetch fails, every client cell reads `Loading...` |
| TransactionList.MissingClientLoading | src/components/TransactionList.tsx:74 | a transaction whose client was not fetched shows `Loading...` |
| TransactionList.Component.constructor | src/components/TransactionList.tsx:12 | the lookup object starts empty |
| TransactionList.Component.FetchClients | src/components/TransactionList.tsx:15-35 | fetched clients, keyed by id, replace the lookup object; an error or `null` leaves it as it was |
| TransactionList.Component.Render | src/components/TransactionList.tsx:61-84 | one row per transaction, in list order, keyed by its id, whose client cell is the one the current lookup object gives and whose amount cell is the signed two-decimal amount |
| Ledger.Fetched | src/components/IncomeList.jsx:41-64 | the `data \|\| []` rule of the ledger's fetches: the rows when signed in and the reply has data, otherwise no rows |
| MonthlySummary.SummaryOf | src/components/MonthlySummary.jsx:37-91 | net is income minus expenses; the totals are zero unless a user is signed in and both queries return data; otherwise each total is the sum of its amounts |
| MonthlySummary.QueriesOf | src/components/MonthlySummary.jsx:44-71 | no query without a user; the income query over the month's first to last day; the expense query only after income data arrived |
| MonthlySummary.MonthQuery | src/components/MonthlySummary.jsx:46-55 | the query is on the given table for the given user, and for four-digit years its lower date bound sorts strictly before its upper one |
| MonthlySummary.Select | src/components/MonthlySummary.jsx:50-55 | at most one amount per stored row; which rows, `MonthlySummary.SelectIsMonth` states |
| MonthlySummary.MatchesInMonth | src/components/MonthlySummary.jsx:46-55 | for four-digit years, the inclusive `yyyy-MM-dd` text range matches a row exactly when the row is the user's and dated in that month |
| MonthlySummary.SelectIsMonth | src/components/MonthlySummary.jsx:46-69 | the month query returns exactly the user's amounts dated in the calendar month |
| MonthlySummary.SummaryIsMonthTotals | src/components/MonthlySummary.jsx:37-81 | when both queries succeed, the card holds the month's income total, expense total and their difference |
| MonthlySummary.Figures | src/components/MonthlySummary.jsx:130-148 | the three figures in the en-US dollar format, each reading back as its total |
| Money.UsdText | src/components/MonthlySummary.jsx:24-29 | the dollar text starts with `-` exactly for a negative amount and with `$` otherwise, and ends with a point and two decimals |
| Money.UsdRoundTrip | src/components/MonthlySummary.jsx:24-29 | removing `$` and `,` from the dollar text gives `toFixed(2)` of the amount, which reads back as the amount |
| Calendar.StartOfMonth | src/components/MonthlySummary.jsx:46 | a valid date of the month with no earlier day in it |
| Calendar.EndOfMonth | src/components/MonthlySummary.jsx:47 | a valid date of the month with no later day in it |
| Calendar.MonthBounds | src/components/MonthlySummary.jsx:46-47 | a date lies between start and end of month exactly when it is in that month |
| Calendar.FormatDateOrder | src/components/MonthlySummary.jsx:46-47 | for years 1 to 9999, `yyyy-MM-dd` texts compare as the dates do, and equal texts mean equal dates |
| Calendar.PrevMonth | src/components/MonthlySummary.jsx:98 | `subMonths(prev, 1)` on the cursor: a valid month, one month earlier |
| Calendar.NextMonth | src/components/MonthlySummary.jsx:102 | `addMonths(prev, 1)` on the cursor: a valid month, one month later |
| Calendar.NavigationRoundTrip | src/components/MonthlySummary.jsx:97-103 | a step back undoes a step forward and vice versa |
| MonthlySummary.Component.constructor | src/components/MonthlySummary.jsx:33-35 | zero totals, loading, the cursor on today's month |
| MonthlySummary.Component.FetchSummaryData | src/components/MonthlySummary.jsx:37-91 | sends the queries of the current month, stores their summary, ends loading, keeps the cursor and the net invariant |
| MonthlySummary.Component.HandlePreviousMonth | src/components/MonthlySummary.jsx:97-99 | the cursor moves exactly one calendar month back |
| MonthlySummary.Component.HandleNextMonth | src/components/MonthlySummary.jsx:101-103 | the cursor moves exactly one calendar month forward |
| MonthlySummary.Component.NavigatePrevious | src/components/MonthlySummary.jsx:93-99 | a left-chevron click and the effect it triggers: the cursor moves one month back, the queries sent are that month's, and the stored summary is theirs, no longer loading |
| MonthlySummary.Component.NavigateNext | src/components/MonthlySummary.jsx:93-103 | a right-chevron click and the refetch it triggers: the cursor moves one month forward, the queries sent are that month's, and the stored summary is theirs |
| MonthlySummary.Component.Render | src/components/MonthlySummary.jsx:127-150 | the loading note exactly while loading, the figures otherwise |
| Forms.WriteFor | src/components/IncomeForm.jsx:96-111 | an update keyed by the row's id exactly when it has a truthy id, an insert otherwise, with the same payload |
| Calendar.LocalDayOfUtcMidnight | src/components/IncomeForm.jsx:61 | `new Date("yyyy-MM-dd")` read in local time falls on the same day at UTC or east of it, and west of UTC exactly on the day before (`PrevDay`), strictly earlier than the stored day |
| Calendar.PrevDayImmediate | src/components/IncomeForm.jsx:61 | no valid date lies strictly between the day before a date and that date, so the west-of-UTC reading is the immediately preceding day |
| Forms.EditedDateAsWritten | src/components/IncomeForm.jsx:71-85 | as written, the saved text is the stored date's at a non-negative offset from UTC, and the previous day's west of UTC |
| Forms.EditedDateShifts | src/components/IncomeForm.jsx:71-85 | as written, the date saving an edit unchanged writes back equals the stored date exactly when the offset is not negative, and is the previous day otherwise |
| Forms.EditedDateExample | src/components/ExpenseForm.jsx:56-68 | as written, the first of May 2024 edited at four hours behind UTC is saved as the thirtieth of April |
| IncomeForm.Issues | src/components/IncomeForm.jsx:39-44 | the description is never rejected; a missing or non-positive amount, a missing date, and a client id that is not a UUID each give an issue on their field; no issue exactly when the schema accepts |
| IncomeForm.Defaults | src/components/IncomeForm.jsx:58-73 | a new entry starts with an empty description, an empty amount (zero once coerced), today's date and no client; an edited row gives its amount and stored calendar day, its description when truthy (else empty) and its client id when truthy (else none). The stored day is what `new Date(row.date)` shows at UTC or east of it; for the previous day shown west of UTC see the first row under "## Findings" |
| IncomeForm.Blank | src/components/IncomeForm.jsx:119-124 | the reset after a save is the new-entry defaults: empty description and amount, today, no client |
| IncomeForm.PayloadOf | src/components/IncomeForm.jsx:85-93 | the payload holds the description, the positive amount, the date as `yyyy-MM-dd`, the client id or `null`, and the user's id |
| IncomeForm.BlankNeedsAmount | src/components/IncomeForm.jsx:58-63 | an untouched new entry fails only on its amount |
| IncomeForm.EditRoundTrip | src/components/IncomeForm.jsx:66-93 | with the stored date as its default, opening a valid row and saving it untouched writes back exactly what is stored |
| IncomeForm.Component.constructor | src/components/IncomeForm.jsx:54-64 | the fields start from the defaults of the given row, not submitting |
| IncomeForm.Component.SetIncome | src/components/IncomeForm.jsx:66-74 | a new `income` prop resets the fields to its defaults |
| IncomeForm.Component.Submit | src/components/IncomeForm.jsx:76-131 | rejected values only show their issues; with no user nothing is written; otherwise the insert or update is sent, and success notifies, closes and resets to blank while failure keeps the fields; not submitting afterwards |
| ExpenseForm.Issues | src/components/ExpenseForm.jsx:32-36 | an empty description, a missing or non-positive amount and a missing date each give an issue on their field; no issue exactly when accepted |
| ExpenseForm.Defaults | src/components/ExpenseForm.jsx:44-57 | a new entry starts with an empty description, an empty amount (zero once coerced) and today's date; an edited row gives its description, amount and stored calendar day. The stored day is what `new Date(row.date)` shows at UTC or east of it; for the previous day shown west of UTC see the first row under "## Findings" |
| ExpenseForm.Blank | src/components/ExpenseForm.jsx:103-107 | the reset after a save is the new-entry defaults |
| ExpenseForm.PayloadOf | src/components/ExpenseForm.jsx:68-75 | the payload is exactly description, amount, date as `yyyy-MM-dd` and the user's id |
| ExpenseForm.BlankNeedsDescriptionAndAmount | src/components/ExpenseForm.jsx:44-48 | an untouched new entry fails on its description and its amount, in that order |
| ExpenseForm.EditRoundTrip | src/components/ExpenseForm.jsx:52-75 | with the stored date as its default, a valid row saved untouched writes back exactly what is stored |
| ExpenseForm.Component.constructor | src/components/ExpenseForm.jsx:40-49 | the fields start from the defaults of the given row |
| ExpenseForm.Component.SetExpense | src/components/ExpenseForm.jsx:52-58 | a new `expense` prop resets the fields |
| ExpenseForm.Component.Submit | src/components/ExpenseForm.jsx:60-114 | as for the income form, with the expense payload, keyed by `expense.id` |
| ClientForm.Issues | src/components/ClientForm.jsx:30-34 | a name shorter than two UTF-16 units gives the one name issue, any other name none |
| ClientForm.Defaults | src/components/ClientForm.jsx:41-48 | the name is empty for a new client and the edited client's name otherwise |
| ClientForm.Component.constructor | src/components/ClientForm.jsx:39-44 | the name starts as the client's name or empty |
| ClientForm.Component.SetClient | src/components/ClientForm.jsx:46-49 | a new `client` prop resets the name to the client's |
| ClientForm.Component.Submit | src/components/ClientForm.jsx:51-89 | rejected names send nothing; with no user nothing is written; otherwise the values plus `user_id` are updated by `client.id` or inserted; success notifies, closes and resets to the current default, failure changes nothing |
| IncomeList.ClientNames | src/components/IncomeList.jsx:34-39 | the object has a key for every client passed down, and each entry is the name of a client with that id |
| IncomeList.DescriptionCell | src/components/IncomeList.jsx:131 | the description, or `-` when it is empty or missing |
| IncomeList.ClientCell | src/components/IncomeList.jsx:132-136 | `-` without a client id, the mapped name when it is known and non-empty, `Unknown Client` otherwise |
| IncomeList.KnownClientCell | src/components/IncomeList.jsx:34-39 | a client not followed by another with the same id shows under its own name (the later entry wins) |
| IncomeList.UnknownClientCell | src/components/IncomeList.jsx:133-135 | a client id matching no passed client shows `Unknown Client` |
| IncomeList.Rows | src/components/IncomeList.jsx:128-137 | one row per income row, in list order and keyed by id; each row's description cell is its description or the dash, its client cell is the looked-up client's name or the fallback, and the amount text reads back as the amount |
| IncomeList.Component.constructor | src/components/IncomeList.jsx:26-31 | empty, loading, both dialogs closed, nothing being edited or deleted |
| IncomeList.Component.FetchIncome | src/components/IncomeList.jsx:41-64 | the fetched rows or none on failure; loading ends |
| IncomeList.Component.HandleAddIncome | src/components/IncomeList.jsx:70-73 | opens the form with nothing being edited |
| IncomeList.Component.HandleEditIncome | src/components/IncomeList.jsx:75-78 | opens the form on the row |
| IncomeList.Component.HandleDeleteIncome | src/components/IncomeList.jsx:80-83 | remembers the id and opens the confirmation |
| IncomeList.Component.ConfirmDelete | src/components/IncomeList.jsx:85-106 | without a pending id nothing happens; otherwise deletes it; success refetches and notifies; both outcomes close and clear |
| IncomeList.Component.HandleIncomeUpdated | src/components/IncomeList.jsx:108-111 | refetches and notifies the parent |
| IncomeList.Component.Render | src/components/IncomeList.jsx:122-162 | the loading note, the table of rows, or the empty-list note |
| ExpenseList.Rows | src/components/ExpenseList.jsx:119-125 | one row per expense row, in list order, with its description; the amount text reads back |
| ExpenseList.Component.constructor | src/components/ExpenseList.jsx:26-31 | empty, loading, dialogs closed |
| ExpenseList.Component.FetchExpenses | src/components/ExpenseList.jsx:33-57 | the fetched rows or none on failure; loading ends |
| ExpenseList.Component.HandleAddExpense | src/components/ExpenseList.jsx:63-66 | opens the form with nothing being edited |
| ExpenseList.Component.HandleEditExpense | src/components/ExpenseList.jsx:68-71 | opens the form on the row |
| ExpenseList.Component.HandleDeleteExpense | src/components/ExpenseList.jsx:73-76 | remembers the id and opens the confirmation |
| ExpenseList.Component.ConfirmDelete | src/components/ExpenseList.jsx:78-99 | as for income: no-op without an id, refetch and notify on success, close and clear on both outcomes |
| ExpenseList.Component.HandleExpenseUpdated | src/components/ExpenseList.jsx:101-104 | refetches and notifies the parent |
| ExpenseList.Component.Render | src/components/ExpenseList.jsx:115-140 | loading note, table or empty-list note |
| ClientList.Rows | src/components/ClientList.jsx:107-109 | one row per client, in list order, with id and name |
| ClientList.Component.constructor | src/components/ClientList.jsx:17-22 | empty, loading, dialogs closed |
| ClientList.Component.FetchClients | src/components/ClientList.jsx:24-47 | the fetched clients or none on failure; loading ends |
| ClientList.Component.HandleAddClient | src/components/ClientList.jsx:53-56 | opens the form with nothing being edited |
| ClientList.Component.HandleEditClient | src/components/ClientList.jsx:58-61 | opens the form on the client |
| ClientList.Component.HandleDeleteClient | src/components/ClientList.jsx:63-66 | remembers the id and opens the confirmation |
| ClientList.Component.ConfirmDelete | src/components/ClientList.jsx:68-88 | no-op without an id; success refetches; no parent is notified; close and clear on both outcomes |
| ClientList.Component.HandleClientUpdated | src/components/ClientList.jsx:90-92 | only the local refetch |
| ClientList.Component.Render | src/components/ClientList.jsx:103-134 | loading note exactly while loading, empty-list note exactly for no clients, otherwise a table with one row per client in order, keyed by its id and showing its name |
| HomePage.Component.constructor | src/app/page.js:18-22 | no user, loading, no clients, clients loading, counter zero, the summary on today's month |
| HomePage.Component.FetchClients | src/app/page.js:25-46 | the clients of the user, `[]` on failure, not loading afterwards |
| HomePage.Component.CheckSession | src/app/page.js:49-70 | a session error only stops loading (when mounted) and does not redirect; no user sends the browser to `/login`; a user is stored, loading ends and that user's clients are fetched |
| HomePage.Component.OnAuthStateChange | src/app/page.js:75-86 | after unmount nothing happens; `SIGNED_OUT` redirects to `/login`; another event with a user stores it and fetches its clients; otherwise `/login` |
| HomePage.Component.Unmount | src/app/page.js:88-91 | only the mounted flag is cleared |
| HomePage.Component.HandleLogout | src/app/page.js:94-106 | a failed sign-out ends loading and keeps the user; a successful one clears the user and the clients and keeps loading |
| HomePage.Component.HandleDataChanged | src/app/page.js:109-113 | the counter goes up by exactly one, and the summary it keys is mounted afresh on the current month |
| HomePage.Component.HandleClientListChanged | src/app/page.js:116-119 | refetches only with a user, bumps the counter either way |
| HomePage.Component.Render | src/app/page.js:121-161 | loading note while loading, nothing without a user, else the dashboard, whose income card gets the clients once loaded |
| HomePage.SignInShowsClients | src/app/page.js:49-70 | from mounting, a session with a user and a successful fetch show the dashboard with exactly the fetched clients |
| HomePage.LogoutShowsLoading | src/app/page.js:94-127 | after a successful logout the page shows the loading note, whatever the session check did |
| AuthCallback.Param | src/app/auth/callback/route.js:9-11 | the first value given for a query parameter, or none when it is absent |
| AuthCallback.Get | src/app/auth/callback/route.js:7-27 | the code is exchanged exactly when it is truthy; a recovery link redirects to `/auth/reset-password`, ignoring `next`; otherwise to where `next` resolves when it is non-empty, else `/` (how far resolution is modelled: see "## Left out") |
| AuthCallback.Resolve | src/app/auth/callback/route.js:26 | `next` resolves to a URL with its own scheme, to a network path naming a host, or to a path on the origin that has neither a scheme nor a host part |
| AuthCallback.PlainPathStays | src/app/auth/callback/route.js:26 | an ordinary path such as `/dashboard` (one leading slash, no spaces or controls) resolves to that path on the origin, unchanged |
| AuthCallback.NetworkPathLeaves | src/app/auth/callback/route.js:26 | a reference starting with `//` resolves to another host, not to a path on the origin |
| AuthCallback.OpenRedirect | src/app/auth/callback/route.js:26 | as written, `?next=//evil.example` redirects off the origin |
| AuthCallback.SafeNext | src/app/auth/callback/route.js:26 | the corrected target is always a path on the origin, and it is `next` whenever `next` already is |
| AuthCallback.SafeGet | src/app/auth/callback/route.js:13-26 | the corrected route always stays on the origin; it exchanges as the route does and redirects as the route does whenever that stays on the origin, else to `/` |
| ResetPassword.Issues | src/app/auth/reset-password/page.js:22-32 | the password issue exactly when it is shorter than six UTF-16 units, the `confirmPassword` issue exactly when the two differ, both possible at once, none exactly when valid |
| ResetPassword.Component.constructor | src/app/auth/reset-password/page.js:37-45 | both fields empty, not submitting |
| ResetPassword.Component.Submit | src/app/auth/reset-password/page.js:47-64 | invalid values send nothing; valid ones send the password, navigate to `/` exactly on success, and leave the page not submitting |

## Left out

- Rendering: JSX, the chart library, `DataTable`, dialogs and icons, and
  `PPP`/`MMM d, yyyy` date display. Toast notifications and `console.error`
  carry no logic. Render functions return which section shows, with the
  cell texts where they are computed.
- Floating point. Amounts are whole cents, and `toFixed(2)` and the dollar
  format are modelled on exact cents. `parseFloat` and `z.coerce.number()`
  are taken as already applied: the form models receive the number, or
  `None` for "not a number". Rounding of amounts that are not whole cents is
  not modelled, nor exponent notation for amounts of 10^21 or more.
- The `amount || 0` fallback in the summary's formatter
  applies only to `null`/`undefined`, which a `Cents` value cannot be.
- Time zones, except where the date shift in "## Findings" depends on them.
  The model's dates are calendar days. The summary's cursor is the (year,
  month) it uses, so the day-of-month clamping of `addMonths` never arises.
- `Calendar.FormatDateOrder` and the summary lemmas are stated for years 1 to 9999 only.
  Outside that range `yyyy-MM-dd` text order stops matching calendar order.
- The database: filtering by `user_id`, `.order(...)`, row-level security
  and the exact rows returned are oracle replies. The month filter is
  modelled (`MonthlySummary.Select`) because the application chooses its
  bounds.
- Concurrency. Overlapping fetches completing out of order are out of
  scope. The brief `loading = true` / `isSubmitting = true` states inside
  one handler run are not observable in the atomic model.
- Input `onChange` setters, which only copy a field's text into state.
- IncomeForm.IsUuid: the UUID shape is eight, four, four, four and twelve
  hex digits; the rules of particular zod versions on version and variant
  digits are not modelled.
- The `code` to session exchange, `getSession`, `getUser`, `signOut` and
  `updateUser` are replies given to the model. The login page
  (`src/app/login/page.js`), `src/lib/supabaseClient.js`, the payment
  webhook, `layout.js` and the build scripts are not part of this model.
- The CSV download: the `Blob`, the object URL and the link click. Only the
  CSV text is modelled.
- AuthCallback.Resolve classifies a reference only as far as leaving the
  origin goes (a path on the origin, `//host`, or a URL with its own
  scheme). Full URL parsing is not modelled. An absolute URL naming the
  origin itself is also classed as leaving it.
- AuthCallback.Get: resolution never fails in the model. For `?next=https://`
  or `?next=http://`, `new URL` throws, because a special scheme needs a
  host. The handler then rejects and sends no redirect, while the model
  answers `Absolute("https://")`.
- AuthCallback.SafeGet: `?next=https:foo` against an `https` origin is a
  relative reference with the origin's own scheme, and the route resolves
  it to `/foo` on the origin. The model classes it as `Absolute`, so the
  corrected route sends it to `/` instead of following it.
- The page's `handleClientListChanged` is modelled but nothing calls it: the
  page renders `<ClientList />` with no callback (`src/app/page.js:153`). So
  clients added, renamed or deleted in the client card do not reach the
  income card's picker or names until the page reloads.
- ExpenseList reads dates back with `parseISO` (local midnight) and
  IncomeList with `new Date` (UTC midnight). This only affects the `PPP`
  display, which is left out.

## Findings

| source | as written | input that shows it | evidently intended | confidence | as-written member | corrected member |
|---|---|---|---|---|---|---|
| src/components/IncomeForm.jsx:61 (also :71, :85; ExpenseForm.jsx:47, :56, :68) | the edit dialog starts from `new Date(row.date)`, which is midnight UTC, and saves `format(date, "yyyy-MM-dd")` in local time | a row dated `2024-05-01`, edited and saved unchanged in a browser at UTC−4, is written back as `2024-04-30`; every further save moves it one more day | saving an edit unchanged keeps the stored date | not executed; high, from the documented `Date` parsing and date-fns local formatting | Forms.EditedDateShifts, Forms.EditedDateExample | IncomeForm.EditRoundTrip, ExpenseForm.EditRoundTrip |
| src/app/auth/callback/route.js:26 | the redirect goes to `new URL(next \|\| "/", origin)` for any `next` from the link | `?next=//evil.example` resolves to another host, and so can `?next=https://evil.example` | redirect only to paths of the application's own origin | not executed; high, from the URL resolution rules for network-path references | AuthCallback.OpenRedirect | AuthCallback.SafeGet |
