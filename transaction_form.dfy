/** The entry form of the unified-transaction variant: the fields of a new
    transaction, the client picker with its inline "add client" sub-form,
    and the submit that hands a draft to the app. */
module TransactionForm {
  import opened Wrappers
  import opened Js
  import opened Backend
  import opened Types

  /** The row the "add client" sub-form inserts. */
  datatype NewClient = NewClient(name: string, userId: Option<string>)

  class Component {
    var txType: TxType
    var amount: string
    var clientId: string
    var description: string
    var currency: string
    var clients: seq<Client>
    var newClientName: string
    var showNewClientForm: bool
    var loading: bool

    constructor ()
      ensures txType == Income && amount == "" && clientId == "" && description == ""
      ensures currency == "USD" && clients == [] && newClientName == ""
      ensures !showNewClientForm && !loading
    {
      txType := Income;
      amount := "";
      clientId := "";
      description := "";
      currency := "USD";
      clients := [];
      newClientName := "";
      showNewClientForm := false;
      loading := false;
    }

    /** `fetchClients`: the clients ordered by name replace the picker's
        list and the first of them becomes the selection; an empty result
        keeps the selection, and an error or `null` changes nothing. */
    method FetchClients(reply: Reply<seq<Client>>)
      modifies this
      ensures reply.HasData() ==> clients == reply.data.value
      ensures reply.HasData() && reply.data.value != [] ==> clientId == reply.data.value[0].id
      ensures !reply.HasData() ==> clients == old(clients)
      ensures !(reply.HasData() && reply.data.value != []) ==> clientId == old(clientId)
      ensures txType == old(txType) && amount == old(amount) && description == old(description)
      ensures currency == old(currency) && newClientName == old(newClientName)
      ensures showNewClientForm == old(showNewClientForm) && loading == old(loading)
    {
      if reply.HasData() {
        clients := reply.data.value;
        if |reply.data.value| > 0 {
          clientId := reply.data.value[0].id;
        }
      }
    }

    /** `handleAddClient`: a name that is empty after trimming does nothing
        and sends nothing. Otherwise the trimmed name is inserted for the
        current user; the stored row is appended to the picker and selected,
        the name input is cleared and the sub-form closes. An error or a
        `null` row leaves all of that as it was. The busy flag is off
        afterwards in every case. */
    method HandleAddClient(userId: Option<string>, reply: Reply<Client>)
      returns (sent: Option<NewClient>)
      modifies this
      ensures Trim(old(newClientName)) == "" ==> sent == None && loading == old(loading)
      ensures Trim(old(newClientName)) != "" ==> sent == Some(NewClient(Trim(old(newClientName)), userId)) && !loading
      ensures sent.Some? && reply.HasData() ==>
        clients == old(clients) + [reply.data.value] && clientId == reply.data.value.id &&
        newClientName == "" && !showNewClientForm
      ensures !(sent.Some? && reply.HasData()) ==>
        clients == old(clients) && clientId == old(clientId) &&
        newClientName == old(newClientName) && showNewClientForm == old(showNewClientForm)
      ensures txType == old(txType) && amount == old(amount) && description == old(description)
      ensures currency == old(currency)
    {
      var name := Trim(newClientName);
      if name == "" {
        return None;
      }
      sent := Some(NewClient(name, userId));
      if reply.HasData() {
        clients := clients + [reply.data.value];
        clientId := reply.data.value.id;
        newClientName := "";
        showNewClientForm := false;
      }
      loading := false;
    }

    /** `handleSubmit`: the draft carries the chosen type, the parsed amount,
        the selected client, the description, the submission time and the
        currency; afterwards the amount and the description are cleared and
        the other choices stay. */
    method HandleSubmit(parsedAmount: Cents, now: string) returns (draft: Draft)
      modifies this
      ensures draft == Draft(None, old(txType), parsedAmount, old(clientId), old(description), now, old(currency), None)
      ensures amount == "" && description == ""
      ensures txType == old(txType) && clientId == old(clientId) && currency == old(currency)
      ensures clients == old(clients) && newClientName == old(newClientName)
      ensures showNewClientForm == old(showNewClientForm) && loading == old(loading)
    {
      draft := Draft(None, txType, parsedAmount, clientId, description, now, currency, None);
      amount := "";
      description := "";
    }

    /** The Income and Expense buttons. */
    method SetType(ty: TxType)
      modifies this
      ensures txType == ty
      ensures amount == old(amount) && clientId == old(clientId) && description == old(description)
      ensures currency == old(currency) && clients == old(clients) && newClientName == old(newClientName)
      ensures showNewClientForm == old(showNewClientForm) && loading == old(loading)
    {
      txType := ty;
    }

    /** "Add New Client" / "Cancel": opens or closes the sub-form and keeps
        what was typed into it. */
    method ToggleNewClientForm()
      modifies this
      ensures showNewClientForm == !old(showNewClientForm)
      ensures txType == old(txType) && amount == old(amount) && clientId == old(clientId)
      ensures description == old(description) && currency == old(currency)
      ensures clients == old(clients) && newClientName == old(newClientName) && loading == old(loading)
    {
      showNewClientForm := !showNewClientForm;
    }
  }
}
