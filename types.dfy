/** The records of the unified-transaction variant of the application. */
module Types {
  import opened Wrappers
  import opened Backend

  datatype TxType = Income | Expense

  datatype Client = Client(id: string, userId: Option<string>, name: string, createdAt: Option<string>)

  /** A row of the `transactions` table. It has no `category` field. */
  datatype Transaction = Transaction(
    id: string,
    userId: Option<string>,
    txType: TxType,
    amount: Cents,
    clientId: string,
    description: string,
    date: string,
    currency: string,
    createdAt: Option<string>)

  /** `Omit<Transaction, 'id'>`: what the entry form hands to the app. */
  datatype Draft = Draft(
    userId: Option<string>,
    txType: TxType,
    amount: Cents,
    clientId: string,
    description: string,
    date: string,
    currency: string,
    createdAt: Option<string>)
}
