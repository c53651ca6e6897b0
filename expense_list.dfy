/** The expense card of the ledger variant: the signed-in user's expense
    rows, newest first, and the add, edit and delete flows. */
module ExpenseList {
  import opened Wrappers
  import opened Js
  import opened Backend
  import opened Calendar
  import opened Money
  import opened Ledger

  datatype Row = Row(key: string, date: Date, description: string, amount: string)

  /** One table row per expense row, in list order. */
  function Rows(rows: seq<ExpenseRow>): (r: seq<Row>)
    ensures |r| == |rows|
    ensures forall i :: 0 <= i < |rows| ==>
      (r[i].key == rows[i].id && r[i].date == rows[i].date && r[i].description == rows[i].description &&
       AmountValue(Plain(r[i].amount)) == rows[i].amount)
  {
    UsdRoundTripAll();
    seq(|rows|, i requires 0 <= i < |rows| =>
      Row(rows[i].id, rows[i].date, rows[i].description, UsdText(rows[i].amount)))
  }

  /** The card's body: a loading note, the table, or the empty-list note. */
  datatype Body = LoadingNote | Table(rows: seq<Row>) | EmptyNote

  class Component {
    var expenseList: seq<ExpenseRow>
    var loading: bool
    var isFormOpen: bool
    var editingExpense: Option<ExpenseRow>
    var isConfirmOpen: bool
    var deletingExpenseId: Option<string>

    constructor ()
      ensures expenseList == [] && loading && !isFormOpen && editingExpense == None
      ensures !isConfirmOpen && deletingExpenseId == None
    {
      expenseList := [];
      loading := true;
      isFormOpen := false;
      editingExpense := None;
      isConfirmOpen := false;
      deletingExpenseId := None;
    }

    /** `fetchExpenses`, given the signed-in user and the query's reply. */
    method FetchExpenses(user: Option<User>, reply: Reply<seq<ExpenseRow>>)
      modifies this
      ensures expenseList == Fetched(user, reply) && !loading
      ensures isFormOpen == old(isFormOpen) && editingExpense == old(editingExpense)
      ensures isConfirmOpen == old(isConfirmOpen) && deletingExpenseId == old(deletingExpenseId)
    {
      expenseList := Fetched(user, reply);
      loading := false;
    }

    /** "Add Expense": the dialog opens on an empty form. */
    method HandleAddExpense()
      modifies this
      ensures isFormOpen && editingExpense == None
      ensures expenseList == old(expenseList) && loading == old(loading)
      ensures isConfirmOpen == old(isConfirmOpen) && deletingExpenseId == old(deletingExpenseId)
    {
      editingExpense := None;
      isFormOpen := true;
    }

    /** The edit button of a row: the dialog opens on that row. */
    method HandleEditExpense(row: ExpenseRow)
      modifies this
      ensures isFormOpen && editingExpense == Some(row)
      ensures expenseList == old(expenseList) && loading == old(loading)
      ensures isConfirmOpen == old(isConfirmOpen) && deletingExpenseId == old(deletingExpenseId)
    {
      editingExpense := Some(row);
      isFormOpen := true;
    }

    /** The delete button of a row: remember its id and ask to confirm. */
    method HandleDeleteExpense(id: string)
      modifies this
      ensures isConfirmOpen && deletingExpenseId == Some(id)
      ensures expenseList == old(expenseList) && loading == old(loading)
      ensures isFormOpen == old(isFormOpen) && editingExpense == old(editingExpense)
    {
      deletingExpenseId := Some(id);
      isConfirmOpen := true;
    }

    /** `confirmDelete`, given the delete's outcome and the refetch's user
        and reply; returns the id it deletes and whether the parent is told
        that data changed. Without a (truthy) pending id nothing happens. A
        successful delete refetches the list and notifies the parent; a
        failed one does neither. Either way the dialog closes and the
        pending id is cleared. */
    method ConfirmDelete(outcome: Outcome, user: Option<User>, reply: Reply<seq<ExpenseRow>>)
      returns (deleted: Option<string>, notified: bool)
      modifies this
      ensures !Truthy(old(deletingExpenseId)) ==>
        deleted == None && !notified && expenseList == old(expenseList) && loading == old(loading) &&
        isConfirmOpen == old(isConfirmOpen) && deletingExpenseId == old(deletingExpenseId)
      ensures Truthy(old(deletingExpenseId)) ==>
        deleted == old(deletingExpenseId) && notified == outcome.Pass? &&
        !isConfirmOpen && deletingExpenseId == None
      ensures Truthy(old(deletingExpenseId)) && outcome.Pass? ==> expenseList == Fetched(user, reply) && !loading
      ensures Truthy(old(deletingExpenseId)) && outcome.Fail? ==> expenseList == old(expenseList) && loading == old(loading)
      ensures isFormOpen == old(isFormOpen) && editingExpense == old(editingExpense)
    {
      if !Truthy(deletingExpenseId) {
        return None, false;
      }
      deleted := deletingExpenseId;
      notified := false;
      if outcome.Pass? {
        expenseList := Fetched(user, reply);
        loading := false;
        notified := true;
      }
      isConfirmOpen := false;
      deletingExpenseId := None;
    }

    /** `handleExpenseUpdated`, the form's success callback: refetch and
        notify the parent. */
    method HandleExpenseUpdated(user: Option<User>, reply: Reply<seq<ExpenseRow>>) returns (notified: bool)
      modifies this
      ensures notified && expenseList == Fetched(user, reply) && !loading
      ensures isFormOpen == old(isFormOpen) && editingExpense == old(editingExpense)
      ensures isConfirmOpen == old(isConfirmOpen) && deletingExpenseId == old(deletingExpenseId)
    {
      expenseList := Fetched(user, reply);
      loading := false;
      notified := true;
    }

    function Render(): (b: Body)
      reads this
      ensures b.LoadingNote? <==> loading
      ensures b.EmptyNote? <==> !loading && expenseList == []
      ensures b.Table? ==> b.rows == Rows(expenseList)
    {
      if loading then LoadingNote
      else if |expenseList| > 0 then Table(Rows(expenseList))
      else EmptyNote
    }
  }
}
