/** The monthly summary card of the ledger variant: the income, expense
    and net totals of the signed-in user for one calendar month, with
    buttons that step the month back and forward. */
module MonthlySummary {
  import opened Wrappers
  import opened Js
  import opened Backend
  import opened Calendar
  import opened Money

  datatype Totals = Totals(income: Cents, expenses: Cents, net: Cents)

  const Zero: Totals := Totals(0, 0, 0)

  const IncomeTable: string := "fet-income"
  const ExpenseTable: string := "fet-expenses"

  /** `from(table).select("amount").eq("user_id", ..).gte("date", from).lte("date", to)`. */
  datatype Query = Query(table: string, userId: string, from: string, to: string)

  /** The query for one table over the month of `c`: its first and last
      day, rendered `yyyy-MM-dd`. */
  function MonthQuery(table: string, userId: string, c: Month): (q: Query)
    requires ValidMonth(c)
    ensures q.table == table && q.userId == userId
    ensures 1 <= c.year <= 9999 ==> LexLe(q.from, q.to) && q.from != q.to
  {
    var first, last := StartOfMonth(c), EndOfMonth(c);
    if 1 <= c.year <= 9999 then
      FormatDateOrder(first, last);
      Query(table, userId, FormatDate(first), FormatDate(last))
    else
      Query(table, userId, FormatDate(first), FormatDate(last))
  }

  /** `.reduce((sum, item) => sum + item.amount, 0)`. */
  function Sum(amounts: seq<Cents>): Cents {
    if amounts == [] then 0 else amounts[0] + Sum(amounts[1..])
  }

  /** What `fetchSummaryData` sets. It resets to zero when nobody is signed
      in, when either query fails, and when either returns `null` (the
      `reduce` on it throws, and the catch resets); otherwise each total is
      the sum of the amounts returned and the net is their difference. */
  function SummaryOf(user: Option<User>, income: Reply<seq<Cents>>, expenses: Reply<seq<Cents>>): (t: Totals)
    ensures t.net == t.income - t.expenses
    ensures !(user.Some? && income.HasData() && expenses.HasData()) ==> t == Zero
    ensures user.Some? && income.HasData() && expenses.HasData() ==>
      t.income == Sum(income.data.value) && t.expenses == Sum(expenses.data.value)
  {
    if user.Some? && income.HasData() && expenses.HasData() then
      var i := Sum(income.data.value);
      var e := Sum(expenses.data.value);
      Totals(i, e, i - e)
    else
      Zero
  }

  /** The queries `fetchSummaryData` sends, in order: none without a user;
      the income query; and the expense query only if the income query
      returned data. */
  function QueriesOf(c: Month, user: Option<User>, income: Reply<seq<Cents>>): (qs: seq<Query>)
    requires ValidMonth(c)
    ensures user.None? ==> qs == []
    ensures user.Some? ==> |qs| == (if income.HasData() then 2 else 1)
    ensures user.Some? ==> qs[0] == MonthQuery(IncomeTable, user.value.id, c)
    ensures user.Some? && income.HasData() ==> qs[1] == MonthQuery(ExpenseTable, user.value.id, c)
  {
    if user.None? then []
    else if income.HasData() then
      [MonthQuery(IncomeTable, user.value.id, c), MonthQuery(ExpenseTable, user.value.id, c)]
    else [MonthQuery(IncomeTable, user.value.id, c)]
  }

  // ---------------------------------------------------------------------
  // What the queries select

  /** A stored row as the filters see it: its owner, amount and date. */
  datatype Stored = Stored(userId: string, amount: Cents, date: Date)

  /** The row filters of a query, with the date column compared to the
      bounds as `yyyy-MM-dd` text. */
  predicate Matches(r: Stored, q: Query) {
    r.userId == q.userId && LexLe(q.from, FormatDate(r.date)) && LexLe(FormatDate(r.date), q.to)
  }

  /** The amounts the server returns for a query, in table order. */
  function Select(rows: seq<Stored>, q: Query): (r: seq<Cents>)
    ensures |r| <= |rows|
  {
    if rows == [] then []
    else (if Matches(rows[0], q) then [rows[0].amount] else []) + Select(rows[1..], q)
  }

  /** The reference: the amounts of a user's rows dated in a calendar month. */
  function InMonth(rows: seq<Stored>, userId: string, c: Month): seq<Cents>
    requires forall i :: 0 <= i < |rows| ==> ValidDate(rows[i].date)
  {
    if rows == [] then []
    else
      var head := if rows[0].userId == userId && MonthOf(rows[0].date) == c then [rows[0].amount] else [];
      head + InMonth(rows[1..], userId, c)
  }

  predicate FourDigitYears(rows: seq<Stored>) {
    forall i :: 0 <= i < |rows| ==> ValidDate(rows[i].date) && 1 <= rows[i].date.year <= 9999
  }

  /** For four-digit years the month query matches a row exactly when the
      row is the user's and dated in that month: the first and last day
      are both included, and nothing outside the month is. */
  lemma MatchesInMonth(r: Stored, userId: string, t: string, c: Month)
    requires ValidDate(r.date) && 1 <= r.date.year <= 9999
    requires ValidMonth(c) && 1 <= c.year <= 9999
    ensures Matches(r, MonthQuery(t, userId, c)) <==> r.userId == userId && MonthOf(r.date) == c
  {
    FormatDateOrder(StartOfMonth(c), r.date);
    FormatDateOrder(r.date, EndOfMonth(c));
    MonthBounds(r.date, c);
  }

  /** The month query selects exactly the amounts the calendar month holds. */
  lemma {:induction false} SelectIsMonth(rows: seq<Stored>, userId: string, t: string, c: Month)
    requires FourDigitYears(rows)
    requires ValidMonth(c) && 1 <= c.year <= 9999
    ensures Select(rows, MonthQuery(t, userId, c)) == InMonth(rows, userId, c)
  {
    if rows != [] {
      MatchesInMonth(rows[0], userId, t, c);
      SelectIsMonth(rows[1..], userId, t, c);
    }
  }

  /** When both queries succeed on the user's tables, the card shows the
      month's income and expense totals and their difference. */
  lemma SummaryIsMonthTotals(user: User, c: Month, incomeRows: seq<Stored>, expenseRows: seq<Stored>)
    requires FourDigitYears(incomeRows) && FourDigitYears(expenseRows)
    requires ValidMonth(c) && 1 <= c.year <= 9999
    ensures var t := SummaryOf(Some(user),
        Ok(Some(Select(incomeRows, MonthQuery(IncomeTable, user.id, c)))),
        Ok(Some(Select(expenseRows, MonthQuery(ExpenseTable, user.id, c)))));
      t.income == Sum(InMonth(incomeRows, user.id, c)) &&
      t.expenses == Sum(InMonth(expenseRows, user.id, c)) &&
      t.net == t.income - t.expenses
  {
    var a := Select(incomeRows, MonthQuery(IncomeTable, user.id, c));
    var b := Select(expenseRows, MonthQuery(ExpenseTable, user.id, c));
    SelectIsMonth(incomeRows, user.id, IncomeTable, c);
    SelectIsMonth(expenseRows, user.id, ExpenseTable, c);
    var t := SummaryOf(Some(user), Ok(Some(a)), Ok(Some(b)));
    assert t.income == Sum(a) && t.expenses == Sum(b);
  }

  // ---------------------------------------------------------------------
  // The component

  /** The three figures, in the en-US dollar format. */
  function Figures(t: Totals): (r: seq<string>)
    ensures |r| == 3
    ensures AmountValue(Plain(r[0])) == t.income && AmountValue(Plain(r[1])) == t.expenses
    ensures AmountValue(Plain(r[2])) == t.net
  {
    UsdRoundTrip(t.income);
    UsdRoundTrip(t.expenses);
    UsdRoundTrip(t.net);
    [UsdText(t.income), UsdText(t.expenses), UsdText(t.net)]
  }

  class Component {
    var summary: Totals
    var loading: bool
    var currentMonth: Month

    predicate Valid()
      reads this
    {
      ValidMonth(currentMonth) && summary.net == summary.income - summary.expenses
    }

    /** Mounting: zero totals, loading, the cursor on today's month. */
    constructor (today: Date)
      requires ValidDate(today)
      ensures Valid()
      ensures summary == Zero && loading && currentMonth == MonthOf(today)
    {
      summary := Zero;
      loading := true;
      currentMonth := MonthOf(today);
    }

    /** `fetchSummaryData(currentMonth)`, given the signed-in user and the
        replies to the two queries; returns the queries it sends. */
    method FetchSummaryData(user: Option<User>, income: Reply<seq<Cents>>, expenses: Reply<seq<Cents>>)
      returns (sent: seq<Query>)
      requires Valid()
      modifies this
      ensures Valid()
      ensures sent == QueriesOf(currentMonth, user, income)
      ensures summary == SummaryOf(user, income, expenses)
      ensures !loading && currentMonth == old(currentMonth)
    {
      sent := QueriesOf(currentMonth, user, income);
      summary := SummaryOf(user, income, expenses);
      loading := false;
    }

    /** The left chevron: one calendar month back. */
    method HandlePreviousMonth()
      requires Valid()
      modifies this
      ensures Valid()
      ensures currentMonth == PrevMonth(old(currentMonth))
      ensures summary == old(summary) && loading == old(loading)
    {
      currentMonth := PrevMonth(currentMonth);
    }

    /** The right chevron: one calendar month forward. */
    method HandleNextMonth()
      requires Valid()
      modifies this
      ensures Valid()
      ensures currentMonth == NextMonth(old(currentMonth))
      ensures summary == old(summary) && loading == old(loading)
    {
      currentMonth := NextMonth(currentMonth);
    }

    /** A click on the left chevron followed by the effect it triggers:
        changing `currentMonth` reruns `fetchSummaryData` on the new cursor,
        so the figures shown next are the previous month's. */
    method NavigatePrevious(user: Option<User>, income: Reply<seq<Cents>>, expenses: Reply<seq<Cents>>)
      returns (sent: seq<Query>)
      requires Valid()
      modifies this
      ensures Valid()
      ensures currentMonth == PrevMonth(old(currentMonth))
      ensures sent == QueriesOf(PrevMonth(old(currentMonth)), user, income)
      ensures summary == SummaryOf(user, income, expenses) && !loading
    {
      HandlePreviousMonth();
      sent := FetchSummaryData(user, income, expenses);
    }

    /** A click on the right chevron followed by the refetch of the month
        it moves to. */
    method NavigateNext(user: Option<User>, income: Reply<seq<Cents>>, expenses: Reply<seq<Cents>>)
      returns (sent: seq<Query>)
      requires Valid()
      modifies this
      ensures Valid()
      ensures currentMonth == NextMonth(old(currentMonth))
      ensures sent == QueriesOf(NextMonth(old(currentMonth)), user, income)
      ensures summary == SummaryOf(user, income, expenses) && !loading
    {
      HandleNextMonth();
      sent := FetchSummaryData(user, income, expenses);
    }

    /** "Loading summary..." while loading, the three figures otherwise. */
    function Render(): (r: Option<seq<string>>)
      reads this
      ensures r.None? <==> loading
      ensures !loading ==> r == Some(Figures(summary))
    {
      if loading then None else Some(Figures(summary))
    }
  }
}
