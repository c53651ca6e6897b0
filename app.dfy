/** The top-level component of the unified-transaction variant: the list
    of transactions, the view switch, adding a transaction, and the CSV
    export. */
module App {
  import opened Wrappers
  import opened Js
  import opened Backend
  import opened Types
  import opened Money

  // ---------------------------------------------------------------------
  // CSV export

  const Header: seq<string> := ["Type", "Date", "Category", "Description", "Amount", "Currency"]
  /** `headers.join(',')`. */
  const HeaderLine: string := Join(Header, ',')

  function TypeName(t: TxType): string {
    match t
    case Income => "income"
    case Expense => "expense"
  }

  /** One row: type, date, the category (`t.category` is undefined on a
      transaction, which `join` writes as the empty string), description,
      amount and currency. */
  function CsvFields(t: Transaction): (r: seq<string>)
    ensures |r| == |Header| && r[2] == ""
  {
    [TypeName(t.txType), t.date, "", t.description, AmountText(t.amount), t.currency]
  }

  function CsvLine(t: Transaction): string {
    Join(CsvFields(t), ',')
  }

  function CsvLines(ts: seq<Transaction>): (r: seq<string>)
    ensures |r| == |ts|
  {
    seq(|ts|, i requires 0 <= i < |ts| => CsvLine(ts[i]))
  }

  /** The file contents: the header line, then one line per transaction in
      list order, joined by newlines (no newline after the last line). */
  function ExportCsv(ts: seq<Transaction>): (s: string)
    ensures ts == [] ==> s == HeaderLine
    ensures ts != [] ==> s == HeaderLine + ['\n'] + Join(CsvLines(ts), '\n')
  {
    var xs := [HeaderLine] + CsvLines(ts);
    assert xs[0] == HeaderLine && xs[1..] == CsvLines(ts);
    Join(xs, '\n')
  }

  predicate NoNewline(t: Transaction) {
    '\n' !in t.date && '\n' !in t.description && '\n' !in t.currency
  }

  predicate NoComma(t: Transaction) {
    ',' !in t.date && ',' !in t.description && ',' !in t.currency
  }

  /** The file always starts with the header; an empty list exports the
      header alone, and otherwise a newline follows it. */
  lemma ExportHeader(ts: seq<Transaction>)
    ensures |ExportCsv(ts)| >= |HeaderLine| && ExportCsv(ts)[..|HeaderLine|] == HeaderLine
    ensures ts == [] ==> ExportCsv(ts) == HeaderLine
    ensures ts != [] ==> ExportCsv(ts)[|HeaderLine|] == '\n'
  {
    var xs := [HeaderLine] + CsvLines(ts);
    if ts != [] {
      assert xs[1..] == CsvLines(ts);
      assert ExportCsv(ts) == HeaderLine + ['\n'] + Join(CsvLines(ts), '\n');
    } else {
      assert xs == [HeaderLine];
    }
  }

  /** Neither separator occurs in the type or the amount column. */
  lemma FieldsAvoid(t: Transaction, c: char)
    requires c == ',' || c == '\n'
    requires c !in t.date && c !in t.description && c !in t.currency
    ensures forall i :: 0 <= i < |CsvFields(t)| ==> c !in CsvFields(t)[i]
  {
    var r := CsvFields(t);
    assert c !in r[4];
    assert c !in r[0] by {
      match t.txType
      case Income =>
      case Expense =>
    }
  }

  lemma LineAvoidsNewline(t: Transaction)
    requires NoNewline(t)
    ensures '\n' !in CsvLine(t)
  {
    FieldsAvoid(t, '\n');
    JoinAvoids(CsvFields(t), ',', '\n');
  }

  lemma HeaderAvoidsNewline()
    ensures '\n' !in HeaderLine
  {
    JoinAvoids(Header, ',', '\n');
  }

  lemma LinesAvoidNewline(ts: seq<Transaction>)
    requires forall i :: 0 <= i < |ts| ==> NoNewline(ts[i])
    ensures forall i :: 0 <= i < |ts| ==> '\n' !in CsvLines(ts)[i]
  {
    forall i | 0 <= i < |ts|
      ensures '\n' !in CsvLines(ts)[i]
    {
      LineAvoidsNewline(ts[i]);
    }
  }

  /** When no text field holds a newline, splitting the file at newlines
      gives back the header line and exactly one line per transaction. */
  lemma ExportLines(ts: seq<Transaction>)
    requires forall i :: 0 <= i < |ts| ==> NoNewline(ts[i])
    ensures Split(ExportCsv(ts), '\n') == [HeaderLine] + CsvLines(ts)
  {
    HeaderAvoidsNewline();
    LinesAvoidNewline(ts);
    SplitJoinCons(HeaderLine, CsvLines(ts), '\n');
  }

  /** When no text field holds a comma, a line splits back into its six
      fields. */
  lemma LineFields(t: Transaction)
    requires NoComma(t)
    ensures Split(CsvLine(t), ',') == CsvFields(t)
  {
    FieldsAvoid(t, ',');
    SplitJoin(CsvFields(t), ',');
  }

  /** The export does not quote fields: a description with one comma gives
      a line that splits into seven fields, not six. */
  lemma CommaInDescription(t: Transaction, a: string, b: string)
    requires t.description == a + "," + b
    requires ',' !in a && ',' !in b && ',' !in t.date && ',' !in t.currency
    ensures |Split(CsvLine(t), ',')| == |Header| + 1
  {
    var g := CsvFields(t);
    var ga := g[..3] + [a, b] + g[4..];
    JoinSplitField(g, 3, a, b, ',');
    FieldsAvoid(t.(description := ""), ',');
    assert ga == [g[0], g[1], g[2], a, b, g[4], g[5]];
    assert CsvFields(t.(description := ""))[4] == g[4];
    assert CsvFields(t.(description := ""))[0] == g[0];
    SplitJoin(ga, ',');
  }

  // ---------------------------------------------------------------------
  // The component

  datatype View = DashboardView | ListView

  /** What the component renders. */
  datatype Screen = LoadingScreen | DashboardScreen | ListScreen

  class Component {
    var transactions: seq<Transaction>
    var view: View
    var loading: bool

    constructor ()
      ensures transactions == [] && view == DashboardView && loading
    {
      transactions := [];
      view := DashboardView;
      loading := true;
    }

    /** `fetchTransactions`: the rows the query returns (newest date first)
        replace the list; an error or a `null` result keeps the list as it
        was; either way the loading state ends. */
    method FetchTransactions(reply: Reply<seq<Transaction>>)
      modifies this
      ensures reply.HasData() ==> transactions == reply.data.value
      ensures !reply.HasData() ==> transactions == old(transactions)
      ensures !loading && view == old(view)
    {
      if reply.HasData() {
        transactions := reply.data.value;
      }
      loading := false;
    }

    /** `handleAddTransaction`: sends the draft with `user_id` set to the
        current user's id (overriding any the draft carries; absent when nobody
        is signed in), and puts the stored row in front of the list. */
    method HandleAddTransaction(draft: Draft, userId: Option<string>, reply: Reply<Transaction>)
      returns (sent: Draft)
      modifies this
      ensures sent == draft.(userId := userId)
      ensures reply.HasData() ==> transactions == [reply.data.value] + old(transactions)
      ensures !reply.HasData() ==> transactions == old(transactions)
      ensures loading == old(loading) && view == old(view)
    {
      sent := draft.(userId := userId);
      if reply.HasData() {
        transactions := [reply.data.value] + transactions;
      }
    }

    method SetView(v: View)
      modifies this
      ensures view == v
      ensures transactions == old(transactions) && loading == old(loading)
    {
      view := v;
    }

    /** The loading screen until the first fetch ends, then the dashboard or
        the list as the view switch says. */
    function Render(): (s: Screen)
      reads this
      ensures s == LoadingScreen <==> loading
      ensures s == DashboardScreen <==> !loading && view == DashboardView
    {
      if loading then LoadingScreen
      else if view == DashboardView then DashboardScreen
      else ListScreen
    }
  }
}
