/** The expense dialog of the ledger variant: its validation schema, the
    values it starts from, and the insert-or-update its submit sends. */
module ExpenseForm {
  import opened Wrappers
  import opened Js
  import opened Backend
  import opened Calendar
  import opened Forms
  import opened Ledger

  /** The values as the schema sees them; `amount` as in the income form. */
  datatype Values = Values(description: string, amount: Option<Cents>, date: Option<Date>)

  /** The row sent to `fet-expenses`. */
  datatype Payload = Payload(description: string, amount: Cents, date: string, userId: string)

  const DescriptionMessage: string := "Description is required."
  const AmountMessage: string := "Amount must be positive."
  const NotANumberMessage: string := "Expected number, received nan"
  const DateMessage: string := "Please select a date."

  /** When the schema accepts the values: a description of at least one
      UTF-16 unit, a positive amount and a date. */
  predicate Accepted(v: Values) {
    v.description != "" && v.amount.Some? && v.amount.value > 0 && v.date.Some?
  }

  function DescriptionIssues(d: string): seq<Issue> {
    if Utf16Length(d) < 1 then [Issue("description", DescriptionMessage)] else []
  }

  function AmountIssues(a: Option<Cents>): seq<Issue> {
    if a.None? then [Issue("amount", NotANumberMessage)]
    else if a.value <= 0 then [Issue("amount", AmountMessage)]
    else []
  }

  function DateIssues(d: Option<Date>): seq<Issue> {
    if d.None? then [Issue("date", DateMessage)] else []
  }

  /** The schema's issues, in field order: an empty description, a
      non-positive amount and a missing date each give one issue; the values
      pass exactly when there is none. A description of white space only is
      accepted. */
  function Issues(v: Values): (r: seq<Issue>)
    ensures "description" in Paths(r) <==> v.description == ""
    ensures Issue("description", DescriptionMessage) in r <==> v.description == ""
    ensures "amount" in Paths(r) <==> !(v.amount.Some? && v.amount.value > 0)
    ensures Issue("amount", AmountMessage) in r <==> v.amount.Some? && v.amount.value <= 0
    ensures "date" in Paths(r) <==> v.date.None?
    ensures Issue("date", DateMessage) in r <==> v.date.None?
    ensures r == [] <==> Accepted(v)
  {
    var r := DescriptionIssues(v.description) + AmountIssues(v.amount) + DateIssues(v.date);
    assert forall i :: i in r <==> i in DescriptionIssues(v.description) || i in AmountIssues(v.amount) || i in DateIssues(v.date);
    r
  }

  /** `defaultValues`, and what the effect resets to when the edited row
      changes; the date is the row's own date (see `EditRoundTrip`). */
  function Defaults(expense: Option<ExpenseRow>, today: Date): (v: Values)
    ensures expense.None? ==> v.description == "" && v.amount == Some(0) && v.date == Some(today)
    ensures expense.Some? ==> (
      v.description == expense.value.description && v.amount == Some(expense.value.amount) &&
      v.date == Some(expense.value.date))
  {
    match expense
    case None => Values("", Some(0), Some(today))
    case Some(row) => Values(row.description, Some(row.amount), Some(row.date))
  }

  function Blank(today: Date): (v: Values)
    ensures v == Defaults(None, today)
  {
    Values("", Some(0), Some(today))
  }

  /** `expenseData`: the date rendered `yyyy-MM-dd` and the user's id. */
  function PayloadOf(v: Values, userId: string): (p: Payload)
    requires Accepted(v)
    ensures p.description == v.description != ""
    ensures p.amount == v.amount.value > 0 && p.date == FormatDate(v.date.value) && p.userId == userId
  {
    Payload(v.description, v.amount.value, FormatDate(v.date.value), userId)
  }

  function RowId(expense: Option<ExpenseRow>): Option<string> {
    if expense.Some? then Some(expense.value.id) else None
  }

  /** A new entry cannot be saved untouched: it lacks a description and an
      amount. */
  lemma BlankNeedsDescriptionAndAmount(today: Date)
    ensures Issues(Blank(today)) == [Issue("description", DescriptionMessage), Issue("amount", AmountMessage)]
  {
  }

  /** Opening a stored row and saving it untouched sends back what is
      stored. */
  lemma EditRoundTrip(row: ExpenseRow, today: Date, userId: string)
    requires row.description != "" && row.amount > 0
    ensures Accepted(Defaults(Some(row), today))
    ensures PayloadOf(Defaults(Some(row), today), userId) ==
      Payload(row.description, row.amount, FormatDate(row.date), userId)
  {
  }

  class Component {
    var values: Values
    var errors: seq<Issue>
    var isSubmitting: bool
    var expense: Option<ExpenseRow>

    constructor (row: Option<ExpenseRow>, today: Date)
      ensures values == Defaults(row, today) && errors == [] && !isSubmitting && expense == row
    {
      values := Defaults(row, today);
      errors := [];
      isSubmitting := false;
      expense := row;
    }

    /** The effect on a new `expense` prop: the fields reset to its values. */
    method SetExpense(row: Option<ExpenseRow>, today: Date)
      modifies this
      ensures expense == row && values == Defaults(row, today) && errors == []
      ensures isSubmitting == old(isSubmitting)
    {
      expense := row;
      values := Defaults(row, today);
      errors := [];
    }

    /** `form.handleSubmit(onSubmit)`, given the signed-in user and the
        reply to the write; the same steps as the income form's. */
    method Submit(user: Option<User>, reply: Outcome, today: Date)
      returns (write: Option<Write<Payload>>, effects: seq<Effect>)
      modifies this
      ensures errors == Issues(old(values)) && expense == old(expense)
      ensures !Accepted(old(values)) ==>
        write == None && effects == [] && values == old(values) && isSubmitting == old(isSubmitting)
      ensures Accepted(old(values)) ==> !isSubmitting
      ensures Accepted(old(values)) && user.None? ==> write == None && effects == [] && values == old(values)
      ensures Accepted(old(values)) && user.Some? ==>
        write == Some(WriteFor(RowId(expense), PayloadOf(old(values), user.value.id)))
      ensures Accepted(old(values)) && user.Some? && reply.Pass? ==>
        effects == SuccessEffects && values == Blank(today)
      ensures Accepted(old(values)) && user.Some? && reply.Fail? ==> effects == [] && values == old(values)
    {
      var v := values;
      errors := Issues(v);
      write, effects := None, [];
      if Accepted(v) {
        if user.Some? {
          write := Some(WriteFor(RowId(expense), PayloadOf(v, user.value.id)));
          if reply.Pass? {
            effects := SuccessEffects;
            values := Blank(today);
          }
        }
        isSubmitting := false;
      }
    }
  }
}
