/** The rows of the ledger variant's three tables, as the list components
    select them, and the rule all three lists follow when they load. */
module Ledger {
  import opened Wrappers
  import opened Backend
  import opened Calendar

  /** A row of `fet-clients`. */
  datatype ClientRow = ClientRow(id: string, name: string, createdAt: Option<string>)

  /** A row of `fet-income`; the description and the client are optional. */
  datatype IncomeRow = IncomeRow(id: string, description: Option<string>, amount: Cents, date: Date, clientId: Option<string>)

  /** A row of `fet-expenses`. */
  datatype ExpenseRow = ExpenseRow(id: string, description: string, amount: Cents, date: Date)

  /** What a list holds after its fetch: nothing when nobody is signed in
      or the query fails (the catch sets the empty list), the rows when
      they arrive, and the empty list for a `null` result (`data || []`). */
  function Fetched<R>(user: Option<User>, reply: Reply<seq<R>>): (rows: seq<R>)
    ensures rows != [] ==> user.Some? && reply == Ok(Some(rows))
    ensures user.Some? && reply.HasData() ==> rows == reply.data.value
    ensures user.None? || reply.Err? ==> rows == []
  {
    if user.Some? && reply.HasData() then reply.data.value else []
  }
}
