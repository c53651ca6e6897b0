/** The table of the unified-transaction variant: one row per transaction
    with the client's name looked up in an id-to-client object filled on
    mount. */
module TransactionList {
  import opened Js
  import opened Backend
  import opened Types
  import opened Money

  /** `data.reduce((acc, client) => { acc[client.id] = client; ... }, {})`. */
  function ClientMap(cs: seq<Client>): (m: map<string, Client>)
    ensures forall i :: 0 <= i < |cs| ==> cs[i].id in m
    ensures forall id :: id in m ==> m[id].id == id && m[id] in cs
  {
    IndexByAll(cs, (c: Client) => c.id, (c: Client) => c);
    IndexBy(cs, (c: Client) => c.id, (c: Client) => c)
  }

  /** The object has an entry for exactly the ids in the list, and a
      client whose id does not recur later in the list is the one stored. */
  lemma ClientMapEntries(cs: seq<Client>, i: nat)
    requires i < |cs|
    requires forall j :: i < j < |cs| ==> cs[j].id != cs[i].id
    ensures cs[i].id in ClientMap(cs) && ClientMap(cs)[cs[i].id] == cs[i]
  {
    IndexByLastWins(cs, (c: Client) => c.id, (c: Client) => c, i);
  }

  lemma ClientMapKeys(cs: seq<Client>, id: string)
    ensures id in ClientMap(cs) <==> exists i :: 0 <= i < |cs| && cs[i].id == id
  {
    IndexByKeys(cs, (c: Client) => c.id, (c: Client) => c, id);
  }

  /** `clients[t.client_id]?.name || 'Loading...'`. */
  function ClientCell(m: map<string, Client>, t: Transaction): (s: string)
    ensures t.clientId in m && m[t.clientId].name != "" ==> s == m[t.clientId].name
    ensures !(t.clientId in m && m[t.clientId].name != "") ==> s == "Loading..."
  {
    if t.clientId in m && m[t.clientId].name != "" then m[t.clientId].name else "Loading..."
  }

  /** `+` for income, `-` for an expense. */
  function AmountSign(t: Transaction): (s: string)
    ensures |s| == 1
    ensures s[0] == '+' <==> t.txType.Income?
    ensures s[0] == '-' <==> t.txType.Expense?
  {
    if t.txType.Income? then "+" else "-"
  }

  /** The amount cell: sign, currency, a space and the amount to two
      decimals, green for income and red for an expense. */
  function AmountCell(t: Transaction): (s: string)
    ensures var n := |Fixed2(t.amount)|; n < |s| && AmountValue(s[|s| - n..]) == t.amount
    ensures s[0] == '+' <==> t.txType.Income?
  {
    var f := Fixed2(t.amount);
    var s := AmountSign(t) + t.currency + " " + f;
    assert s[|s| - |f|..] == f;
    Fixed2RoundTrip(t.amount);
    s
  }

  datatype Row = Row(key: string, income: bool, date: string, client: string, description: string, amount: string)

  function RowOf(m: map<string, Client>, t: Transaction): Row {
    Row(t.id, t.txType == Income, t.date, ClientCell(m, t), t.description, AmountCell(t))
  }

  /** `transactions.map(...)`: one row per transaction, in list order, keyed
      by its id. */
  function Rows(m: map<string, Client>, ts: seq<Transaction>): (r: seq<Row>)
    ensures |r| == |ts|
    ensures forall i :: 0 <= i < |ts| ==> r[i].key == ts[i].id && r[i].description == ts[i].description
  {
    seq(|ts|, i requires 0 <= i < |ts| => RowOf(m, ts[i]))
  }

  /** Before the clients arrive, and for good if their fetch fails, every
      client cell reads "Loading...". */
  lemma EmptyMapLoading(ts: seq<Transaction>)
    ensures forall i :: 0 <= i < |ts| ==> Rows(map[], ts)[i].client == "Loading..."
  {
  }

  /** A transaction whose client is not among the fetched clients shows
      "Loading..." too. */
  lemma MissingClientLoading(cs: seq<Client>, t: Transaction)
    requires forall i :: 0 <= i < |cs| ==> cs[i].id != t.clientId
    ensures ClientCell(ClientMap(cs), t) == "Loading..."
  {
    ClientMapKeys(cs, t.clientId);
  }

  class Component {
    var clients: map<string, Client>

    constructor ()
      ensures clients == map[]
    {
      clients := map[];
    }

    /** The mount-time fetch: the clients, keyed by id, replace the lookup
        object; an error or `null` leaves it as it was. */
    method FetchClients(reply: Reply<seq<Client>>)
      modifies this
      ensures reply.HasData() ==> clients == ClientMap(reply.data.value)
      ensures !reply.HasData() ==> clients == old(clients)
    {
      if reply.HasData() {
        clients := ClientMap(reply.data.value);
      }
    }

    /** One row per transaction, in list order, each showing its client
        as the lookup object currently names it. */
    function Render(ts: seq<Transaction>): (r: seq<Row>)
      reads this
      ensures |r| == |ts|
      ensures forall i :: 0 <= i < |ts| ==> r[i].key == ts[i].id && r[i].client == ClientCell(clients, ts[i])
      ensures forall i :: 0 <= i < |ts| ==> r[i].amount == AmountCell(ts[i])
    {
      Rows(clients, ts)
    }
  }
}
