/** The income card of the ledger variant: the signed-in user's income
    rows, newest first, with the client's name looked up in the clients the
    page passes down, and the add, edit and delete flows. */
module IncomeList {
  import opened Wrappers
  import opened Js
  import opened Backend
  import opened Calendar
  import opened Money
  import opened Ledger

  /** `clients.reduce((acc, c) => { acc[c.id] = c.name; ... }, {})`. */
  function ClientNames(cs: seq<ClientRow>): (m: map<string, string>)
    ensures forall i :: 0 <= i < |cs| ==> cs[i].id in m
    ensures forall id :: id in m ==> exists i :: 0 <= i < |cs| && cs[i].id == id && cs[i].name == m[id]
  {
    IndexByAll(cs, (c: ClientRow) => c.id, (c: ClientRow) => c.name);
    IndexBy(cs, (c: ClientRow) => c.id, (c: ClientRow) => c.name)
  }

  /** `income.description || "-"`. */
  function DescriptionCell(r: IncomeRow): (s: string)
    ensures Truthy(r.description) ==> s == r.description.value
    ensures !Truthy(r.description) ==> s == "-"
  {
    if Truthy(r.description) then r.description.value else "-"
  }

  /** `income.client_id ? clientMap[income.client_id] || "Unknown Client" : "-"`. */
  function ClientCell(names: map<string, string>, r: IncomeRow): (s: string)
    ensures !Truthy(r.clientId) ==> s == "-"
    ensures Truthy(r.clientId) && r.clientId.value in names && names[r.clientId.value] != "" ==>
      s == names[r.clientId.value]
    ensures Truthy(r.clientId) && !(r.clientId.value in names && names[r.clientId.value] != "") ==>
      s == "Unknown Client"
  {
    if !Truthy(r.clientId) then "-"
    else if r.clientId.value in names && names[r.clientId.value] != "" then names[r.clientId.value]
    else "Unknown Client"
  }

  /** A row whose client is among the clients passed down shows that
      client's name (the last one with the id, should it recur). */
  lemma KnownClientCell(cs: seq<ClientRow>, r: IncomeRow, i: nat)
    requires i < |cs| && Truthy(r.clientId) && cs[i].id == r.clientId.value && cs[i].name != ""
    requires forall j :: i < j < |cs| ==> cs[j].id != cs[i].id
    ensures ClientCell(ClientNames(cs), r) == cs[i].name
  {
    IndexByLastWins(cs, (c: ClientRow) => c.id, (c: ClientRow) => c.name, i);
  }

  /** A row that names a client the page does not have (deleted, or added
      since the page fetched its clients) shows "Unknown Client". */
  lemma UnknownClientCell(cs: seq<ClientRow>, r: IncomeRow)
    requires Truthy(r.clientId)
    requires forall i :: 0 <= i < |cs| ==> cs[i].id != r.clientId.value
    ensures ClientCell(ClientNames(cs), r) == "Unknown Client"
  {
    IndexByKeys(cs, (c: ClientRow) => c.id, (c: ClientRow) => c.name, r.clientId.value);
  }

  datatype Row = Row(key: string, date: Date, description: string, client: string, amount: string)

  /** One table row per income row, in list order. */
  function Rows(cs: seq<ClientRow>, rows: seq<IncomeRow>): (r: seq<Row>)
    ensures |r| == |rows|
    ensures forall i :: 0 <= i < |rows| ==>
      (r[i].key == rows[i].id && r[i].date == rows[i].date && AmountValue(Plain(r[i].amount)) == rows[i].amount)
    ensures forall i :: 0 <= i < |rows| ==>
      (r[i].description == DescriptionCell(rows[i]) && r[i].client == ClientCell(ClientNames(cs), rows[i]))
  {
    var names := ClientNames(cs);
    UsdRoundTripAll();
    seq(|rows|, i requires 0 <= i < |rows| =>
      Row(rows[i].id, rows[i].date, DescriptionCell(rows[i]), ClientCell(names, rows[i]), UsdText(rows[i].amount)))
  }

  /** The card's body: a loading note, the table, or the empty-list note. */
  datatype Body = LoadingNote | Table(rows: seq<Row>) | EmptyNote

  class Component {
    var incomeList: seq<IncomeRow>
    var loading: bool
    var isFormOpen: bool
    var editingIncome: Option<IncomeRow>
    var isConfirmOpen: bool
    var deletingIncomeId: Option<string>

    constructor ()
      ensures incomeList == [] && loading && !isFormOpen && editingIncome == None
      ensures !isConfirmOpen && deletingIncomeId == None
    {
      incomeList := [];
      loading := true;
      isFormOpen := false;
      editingIncome := None;
      isConfirmOpen := false;
      deletingIncomeId := None;
    }

    /** `fetchIncome`, given the signed-in user and the query's reply. */
    method FetchIncome(user: Option<User>, reply: Reply<seq<IncomeRow>>)
      modifies this
      ensures incomeList == Fetched(user, reply) && !loading
      ensures isFormOpen == old(isFormOpen) && editingIncome == old(editingIncome)
      ensures isConfirmOpen == old(isConfirmOpen) && deletingIncomeId == old(deletingIncomeId)
    {
      incomeList := Fetched(user, reply);
      loading := false;
    }

    /** "Add Income": the dialog opens on an empty form. */
    method HandleAddIncome()
      modifies this
      ensures isFormOpen && editingIncome == None
      ensures incomeList == old(incomeList) && loading == old(loading)
      ensures isConfirmOpen == old(isConfirmOpen) && deletingIncomeId == old(deletingIncomeId)
    {
      editingIncome := None;
      isFormOpen := true;
    }

    /** The edit button of a row: the dialog opens on that row. */
    method HandleEditIncome(row: IncomeRow)
      modifies this
      ensures isFormOpen && editingIncome == Some(row)
      ensures incomeList == old(incomeList) && loading == old(loading)
      ensures isConfirmOpen == old(isConfirmOpen) && deletingIncomeId == old(deletingIncomeId)
    {
      editingIncome := Some(row);
      isFormOpen := true;
    }

    /** The delete button of a row: remember its id and ask to confirm. */
    method HandleDeleteIncome(id: string)
      modifies this
      ensures isConfirmOpen && deletingIncomeId == Some(id)
      ensures incomeList == old(incomeList) && loading == old(loading)
      ensures isFormOpen == old(isFormOpen) && editingIncome == old(editingIncome)
    {
      deletingIncomeId := Some(id);
      isConfirmOpen := true;
    }

    /** `confirmDelete`, given the delete's outcome and the refetch's user
        and reply; returns the id it deletes and whether the parent is told
        that data changed. Without a (truthy) pending id nothing happens. A
        successful delete refetches the list and notifies the parent; a
        failed one does neither. Either way the dialog closes and the
        pending id is cleared. */
    method ConfirmDelete(outcome: Outcome, user: Option<User>, reply: Reply<seq<IncomeRow>>)
      returns (deleted: Option<string>, notified: bool)
      modifies this
      ensures !Truthy(old(deletingIncomeId)) ==>
        deleted == None && !notified && incomeList == old(incomeList) && loading == old(loading) &&
        isConfirmOpen == old(isConfirmOpen) && deletingIncomeId == old(deletingIncomeId)
      ensures Truthy(old(deletingIncomeId)) ==>
        deleted == old(deletingIncomeId) && notified == outcome.Pass? &&
        !isConfirmOpen && deletingIncomeId == None
      ensures Truthy(old(deletingIncomeId)) && outcome.Pass? ==> incomeList == Fetched(user, reply) && !loading
      ensures Truthy(old(deletingIncomeId)) && outcome.Fail? ==> incomeList == old(incomeList) && loading == old(loading)
      ensures isFormOpen == old(isFormOpen) && editingIncome == old(editingIncome)
    {
      if !Truthy(deletingIncomeId) {
        return None, false;
      }
      deleted := deletingIncomeId;
      notified := false;
      if outcome.Pass? {
        incomeList := Fetched(user, reply);
        loading := false;
        notified := true;
      }
      isConfirmOpen := false;
      deletingIncomeId := None;
    }

    /** `handleIncomeUpdated`, the form's success callback: refetch and
        notify the parent. */
    method HandleIncomeUpdated(user: Option<User>, reply: Reply<seq<IncomeRow>>) returns (notified: bool)
      modifies this
      ensures notified && incomeList == Fetched(user, reply) && !loading
      ensures isFormOpen == old(isFormOpen) && editingIncome == old(editingIncome)
      ensures isConfirmOpen == old(isConfirmOpen) && deletingIncomeId == old(deletingIncomeId)
    {
      incomeList := Fetched(user, reply);
      loading := false;
      notified := true;
    }

    function Render(clients: seq<ClientRow>): (b: Body)
      reads this
      ensures b.LoadingNote? <==> loading
      ensures b.EmptyNote? <==> !loading && incomeList == []
      ensures b.Table? ==> b.rows == Rows(clients, incomeList)
    {
      if loading then LoadingNote
      else if |incomeList| > 0 then Table(Rows(clients, incomeList))
      else EmptyNote
    }
  }
}
