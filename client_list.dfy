/** The client card of the ledger variant: the signed-in user's clients
    by name, and the add, edit and delete flows. It takes no callback from
    the page, so the page's own copy of the clients (which feeds the income
    card) is not refreshed by anything done here. */
module ClientList {
  import opened Wrappers
  import opened Js
  import opened Backend
  import opened Ledger

  datatype Row = Row(key: string, name: string)

  /** One table row per client, in list order. */
  function Rows(rows: seq<ClientRow>): (r: seq<Row>)
    ensures |r| == |rows|
    ensures forall i :: 0 <= i < |rows| ==> r[i] == Row(rows[i].id, rows[i].name)
  {
    seq(|rows|, i requires 0 <= i < |rows| => Row(rows[i].id, rows[i].name))
  }

  /** The card's body: a loading note, the table, or the empty-list note. */
  datatype Body = LoadingNote | Table(rows: seq<Row>) | EmptyNote

  class Component {
    var clients: seq<ClientRow>
    var loading: bool
    var isFormOpen: bool
    var editingClient: Option<ClientRow>
    var isConfirmOpen: bool
    var deletingClientId: Option<string>

    constructor ()
      ensures clients == [] && loading && !isFormOpen && editingClient == None
      ensures !isConfirmOpen && deletingClientId == None
    {
      clients := [];
      loading := true;
      isFormOpen := false;
      editingClient := None;
      isConfirmOpen := false;
      deletingClientId := None;
    }

    /** `fetchClients`, given the signed-in user and the query's reply. */
    method FetchClients(user: Option<User>, reply: Reply<seq<ClientRow>>)
      modifies this
      ensures clients == Fetched(user, reply) && !loading
      ensures isFormOpen == old(isFormOpen) && editingClient == old(editingClient)
      ensures isConfirmOpen == old(isConfirmOpen) && deletingClientId == old(deletingClientId)
    {
      clients := Fetched(user, reply);
      loading := false;
    }

    /** "Add Client": the dialog opens on an empty form. */
    method HandleAddClient()
      modifies this
      ensures isFormOpen && editingClient == None
      ensures clients == old(clients) && loading == old(loading)
      ensures isConfirmOpen == old(isConfirmOpen) && deletingClientId == old(deletingClientId)
    {
      editingClient := None;
      isFormOpen := true;
    }

    /** The edit button of a row: the dialog opens on that row. */
    method HandleEditClient(row: ClientRow)
      modifies this
      ensures isFormOpen && editingClient == Some(row)
      ensures clients == old(clients) && loading == old(loading)
      ensures isConfirmOpen == old(isConfirmOpen) && deletingClientId == old(deletingClientId)
    {
      editingClient := Some(row);
      isFormOpen := true;
    }

    /** The delete button of a row: remember its id and ask to confirm. */
    method HandleDeleteClient(id: string)
      modifies this
      ensures isConfirmOpen && deletingClientId == Some(id)
      ensures clients == old(clients) && loading == old(loading)
      ensures isFormOpen == old(isFormOpen) && editingClient == old(editingClient)
    {
      deletingClientId := Some(id);
      isConfirmOpen := true;
    }

    /** `confirmDelete`, given the delete's outcome and the refetch's user
        and reply; returns the id it deletes. Without a (truthy) pending id
        nothing happens. A successful delete refetches the list; the page is
        not told. Either way the dialog closes and the pending id is
        cleared. */
    method ConfirmDelete(outcome: Outcome, user: Option<User>, reply: Reply<seq<ClientRow>>)
      returns (deleted: Option<string>)
      modifies this
      ensures !Truthy(old(deletingClientId)) ==>
        deleted == None && clients == old(clients) && loading == old(loading) &&
        isConfirmOpen == old(isConfirmOpen) && deletingClientId == old(deletingClientId)
      ensures Truthy(old(deletingClientId)) ==>
        deleted == old(deletingClientId) && !isConfirmOpen && deletingClientId == None
      ensures Truthy(old(deletingClientId)) && outcome.Pass? ==> clients == Fetched(user, reply) && !loading
      ensures Truthy(old(deletingClientId)) && outcome.Fail? ==> clients == old(clients) && loading == old(loading)
      ensures isFormOpen == old(isFormOpen) && editingClient == old(editingClient)
    {
      if !Truthy(deletingClientId) {
        return None;
      }
      deleted := deletingClientId;
      if outcome.Pass? {
        clients := Fetched(user, reply);
        loading := false;
      }
      isConfirmOpen := false;
      deletingClientId := None;
    }

    /** `handleClientUpdated`, the form's success callback: refetch only. */
    method HandleClientUpdated(user: Option<User>, reply: Reply<seq<ClientRow>>)
      modifies this
      ensures clients == Fetched(user, reply) && !loading
      ensures isFormOpen == old(isFormOpen) && editingClient == old(editingClient)
      ensures isConfirmOpen == old(isConfirmOpen) && deletingClientId == old(deletingClientId)
    {
      clients := Fetched(user, reply);
      loading := false;
    }

    function Render(): (b: Body)
      reads this
      ensures b.LoadingNote? <==> loading
      ensures b.EmptyNote? <==> !loading && clients == []
      ensures b.Table? ==> b.rows == Rows(clients)
      ensures b.Table? ==> |b.rows| == |clients|
      ensures b.Table? ==> forall i :: 0 <= i < |clients| ==>
        (b.rows[i].key == clients[i].id && b.rows[i].name == clients[i].name)
    {
      if loading then LoadingNote
      else if |clients| > 0 then Table(Rows(clients))
      else EmptyNote
    }
  }
}
