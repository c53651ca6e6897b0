/** The income dialog of the ledger variant: its validation schema, the
    values it starts from, and the insert-or-update its submit sends. */
module IncomeForm {
  import opened Wrappers
  import opened Js
  import opened Backend
  import opened Calendar
  import opened Forms
  import opened Ledger

  /** The values as the schema sees them. `amount` is the field's text
      coerced to a number (`None` when it is not a number; the empty text
      coerces to zero); `date` is `None` when no date is picked; `clientId`
      is `None` for "-- No Client --". */
  datatype Values = Values(description: Option<string>, amount: Option<Cents>, date: Option<Date>, clientId: Option<string>)

  /** The row sent to `fet-income`. */
  datatype Payload = Payload(description: Option<string>, amount: Cents, date: string, clientId: Option<string>, userId: string)

  const AmountMessage: string := "Amount must be positive."
  const NotANumberMessage: string := "Expected number, received nan"
  const DateMessage: string := "Please select a date."
  const UuidMessage: string := "Invalid uuid"

  predicate IsHex(c: char) {
    IsDigit(c) || 'a' <= c <= 'f' || 'A' <= c <= 'F'
  }

  /** Eight, four, four, four and twelve hex digits, separated by hyphens. */
  predicate IsUuid(s: string) {
    |s| == 36 && s[8] == '-' && s[13] == '-' && s[18] == '-' && s[23] == '-' &&
    forall i :: 0 <= i < 36 && i != 8 && i != 13 && i != 18 && i != 23 ==> IsHex(s[i])
  }

  /** When the schema accepts the values. */
  predicate Accepted(v: Values) {
    v.amount.Some? && v.amount.value > 0 && v.date.Some? && (v.clientId.Some? ==> IsUuid(v.clientId.value))
  }

  function AmountIssues(a: Option<Cents>): seq<Issue> {
    if a.None? then [Issue("amount", NotANumberMessage)]
    else if a.value <= 0 then [Issue("amount", AmountMessage)]
    else []
  }

  function DateIssues(d: Option<Date>): seq<Issue> {
    if d.None? then [Issue("date", DateMessage)] else []
  }

  function ClientIssues(c: Option<string>): seq<Issue> {
    if c.Some? && !IsUuid(c.value) then [Issue("client_id", UuidMessage)] else []
  }

  /** The schema's issues, in field order: the description is never
      rejected, a non-positive amount, a missing date and a client id that is
      not a UUID each give one issue; the values pass exactly when there is
      none. */
  function Issues(v: Values): (r: seq<Issue>)
    ensures "description" !in Paths(r)
    ensures "amount" in Paths(r) <==> !(v.amount.Some? && v.amount.value > 0)
    ensures Issue("amount", AmountMessage) in r <==> v.amount.Some? && v.amount.value <= 0
    ensures "date" in Paths(r) <==> v.date.None?
    ensures Issue("date", DateMessage) in r <==> v.date.None?
    ensures "client_id" in Paths(r) <==> v.clientId.Some? && !IsUuid(v.clientId.value)
    ensures r == [] <==> Accepted(v)
  {
    var r := AmountIssues(v.amount) + DateIssues(v.date) + ClientIssues(v.clientId);
    assert forall i :: i in r <==> i in AmountIssues(v.amount) || i in DateIssues(v.date) || i in ClientIssues(v.clientId);
    r
  }

  /** `defaultValues`, and what the effect resets to when the edited row
      changes; the date is the row's own date (see `EditRoundTrip`). */
  function Defaults(income: Option<IncomeRow>, today: Date): (v: Values)
    ensures income.None? ==>
      v.description == Some("") && v.amount == Some(0) && v.date == Some(today) && v.clientId.None?
    ensures income.Some? ==> (
      v.amount == Some(income.value.amount) && v.date == Some(income.value.date) &&
      (Truthy(income.value.description) ==> v.description == income.value.description) &&
      (!Truthy(income.value.description) ==> v.description == Some("")) &&
      (Truthy(income.value.clientId) ==> v.clientId == income.value.clientId) &&
      (!Truthy(income.value.clientId) ==> v.clientId.None?))
  {
    match income
    case None => Values(Some(""), Some(0), Some(today), None)
    case Some(row) =>
      Values(
        Some(if Truthy(row.description) then row.description.value else ""),
        Some(row.amount),
        Some(row.date),
        if Truthy(row.clientId) then row.clientId else None)
  }

  /** The reset after a successful save: empty, today, no client. */
  function Blank(today: Date): (v: Values)
    ensures v == Defaults(None, today)
  {
    Values(Some(""), Some(0), Some(today), None)
  }

  /** `incomeData`: the date rendered `yyyy-MM-dd`, an empty client id sent
      as `null`, and the signed-in user's id. */
  function PayloadOf(v: Values, userId: string): (p: Payload)
    requires Accepted(v)
    ensures p.amount == v.amount.value > 0 && p.date == FormatDate(v.date.value)
    ensures p.clientId == (if Truthy(v.clientId) then v.clientId else None)
    ensures p.description == v.description && p.userId == userId
  {
    Payload(v.description, v.amount.value, FormatDate(v.date.value), if Truthy(v.clientId) then v.clientId else None, userId)
  }

  function RowId(income: Option<IncomeRow>): Option<string> {
    if income.Some? then Some(income.value.id) else None
  }

  /** A new entry cannot be saved untouched: its only issue is the amount. */
  lemma BlankNeedsAmount(today: Date)
    ensures Issues(Blank(today)) == [Issue("amount", AmountMessage)]
  {
  }

  /** Opening a stored row and saving it untouched sends back what is
      stored (a missing description becomes the empty text). */
  lemma EditRoundTrip(row: IncomeRow, today: Date, userId: string)
    requires row.amount > 0 && (Truthy(row.clientId) ==> IsUuid(row.clientId.value))
    ensures Accepted(Defaults(Some(row), today))
    ensures PayloadOf(Defaults(Some(row), today), userId) ==
      Payload(Some(if Truthy(row.description) then row.description.value else ""), row.amount,
              FormatDate(row.date), if Truthy(row.clientId) then row.clientId else None, userId)
  {
  }

  class Component {
    var values: Values
    var errors: seq<Issue>
    var isSubmitting: bool
    var income: Option<IncomeRow>

    constructor (row: Option<IncomeRow>, today: Date)
      ensures values == Defaults(row, today) && errors == [] && !isSubmitting && income == row
    {
      values := Defaults(row, today);
      errors := [];
      isSubmitting := false;
      income := row;
    }

    /** The effect on a new `income` prop: the fields reset to its values. */
    method SetIncome(row: Option<IncomeRow>, today: Date)
      modifies this
      ensures income == row && values == Defaults(row, today) && errors == []
      ensures isSubmitting == old(isSubmitting)
    {
      income := row;
      values := Defaults(row, today);
      errors := [];
    }

    /** `form.handleSubmit(onSubmit)`, given the signed-in user and the
        reply to the write. Values the schema rejects show their issues and
        send nothing. Accepted values with nobody signed in send nothing
        either. Otherwise the payload is written, as an update of the edited
        row when it has an id and as an insert otherwise; on success the
        parent is notified, the dialog closes and the fields reset, and on
        failure the fields stay for another try. */
    method Submit(user: Option<User>, reply: Outcome, today: Date)
      returns (write: Option<Write<Payload>>, effects: seq<Effect>)
      modifies this
      ensures errors == Issues(old(values)) && income == old(income)
      ensures !Accepted(old(values)) ==>
        write == None && effects == [] && values == old(values) && isSubmitting == old(isSubmitting)
      ensures Accepted(old(values)) ==> !isSubmitting
      ensures Accepted(old(values)) && user.None? ==> write == None && effects == [] && values == old(values)
      ensures Accepted(old(values)) && user.Some? ==>
        write == Some(WriteFor(RowId(income), PayloadOf(old(values), user.value.id)))
      ensures Accepted(old(values)) && user.Some? && reply.Pass? ==>
        effects == SuccessEffects && values == Blank(today)
      ensures Accepted(old(values)) && user.Some? && reply.Fail? ==> effects == [] && values == old(values)
    {
      var v := values;
      errors := Issues(v);
      write, effects := None, [];
      if Accepted(v) {
        if user.Some? {
          write := Some(WriteFor(RowId(income), PayloadOf(v, user.value.id)));
          if reply.Pass? {
            effects := SuccessEffects;
            values := Blank(today);
          }
        }
        isSubmitting := false;
      }
    }
  }
}
