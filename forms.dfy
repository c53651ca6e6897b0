/** The vocabulary shared by the ledger's three entry forms: zod validation
    issues, the insert-or-update choice, and the effects of a successful
    save. */
module Forms {
  import opened Wrappers
  import opened Js
  import opened Calendar

  /** One validation issue: the field it is attached to and its message. */
  datatype Issue = Issue(path: string, message: string)

  function Paths(issues: seq<Issue>): set<string> {
    set i | i in issues :: i.path
  }

  /** The write a submit handler sends to its table. */
  datatype Write<+P> = Insert(payload: P) | Update(id: string, payload: P)

  /** `if (row?.id) update(payload).eq("id", row.id) else insert(payload)`:
      an update keyed by the edited row's id when it has a (truthy) id, an
      insert otherwise. */
  function WriteFor<P>(id: Option<string>, payload: P): (w: Write<P>)
    ensures w.payload == payload
    ensures w.Update? <==> Truthy(id)
    ensures w.Update? ==> w.id == id.value
  {
    if Truthy(id) then Update(id.value, payload) else Insert(payload)
  }

  /** What a submit handler does after a successful write: notify the
      parent, close the dialog (`onOpenChange(false)`), reset the fields. */
  datatype Effect = Notified | Closed | Reset

  const SuccessEffects: seq<Effect> := [Notified, Closed, Reset]

  // ---------------------------------------------------------------------
  // The date an edit dialog starts from

  /** As written, the income and expense forms start an edit from
      `new Date(row.date)` and save `format(date, "yyyy-MM-dd")`: the text
      they write back for a row that is saved without touching its date. */
  function EditedDateAsWritten(d: Date, offsetMinutes: int): (s: string)
    requires ValidDate(d) && -1440 < offsetMinutes < 1440
    ensures offsetMinutes >= 0 ==> s == FormatDate(d)
    ensures offsetMinutes < 0 ==> s == FormatDate(PrevDay(d))
  {
    FormatDate(LocalDayOfUtcMidnight(d, offsetMinutes))
  }

  /** Saving an edit unchanged keeps the row's date exactly when the
      browser is not west of UTC; west of UTC it moves the row one day
      earlier, on every save. */
  lemma EditedDateShifts(d: Date, offsetMinutes: int)
    requires ValidDate(d) && 2 <= d.year <= 9999
    requires -1440 < offsetMinutes < 1440
    ensures EditedDateAsWritten(d, offsetMinutes) == FormatDate(d) <==> offsetMinutes >= 0
    ensures offsetMinutes < 0 ==> EditedDateAsWritten(d, offsetMinutes) == FormatDate(PrevDay(d))
  {
    FormatDateOrder(LocalDayOfUtcMidnight(d, offsetMinutes), d);
  }

  /** The first of May 2024, edited in New York (four hours behind UTC in
      May), is saved as the thirtieth of April. */
  lemma EditedDateExample()
    ensures EditedDateAsWritten(Date(2024, 5, 1), -240) == FormatDate(Date(2024, 4, 30))
    ensures FormatDate(Date(2024, 4, 30)) != FormatDate(Date(2024, 5, 1))
  {
    EditedDateShifts(Date(2024, 5, 1), -240);
    FormatDateOrder(Date(2024, 4, 30), Date(2024, 5, 1));
  }
}
