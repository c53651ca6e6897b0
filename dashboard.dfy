/** The dashboard of the unified-transaction variant: income, expense and
    net totals over the whole list, the three-bar chart, and the colour of
    the net figure. It holds no state of its own. */
module Dashboard {
  import opened Js
  import opened Backend
  import opened Types
  import opened Money

  /** `transactions.filter(t => t.type === ty)`. */
  function OfType(ts: seq<Transaction>, ty: TxType): (r: seq<Transaction>)
    ensures |r| <= |ts|
    ensures forall i :: 0 <= i < |r| ==> r[i].txType == ty
    ensures forall t :: t in r <==> t in ts && t.txType == ty
  {
    if ts == [] then []
    else (if ts[0].txType == ty then [ts[0]] else []) + OfType(ts[1..], ty)
  }

  /** `.reduce((sum, t) => sum + t.amount, 0)`; on exact cents the order of
      the additions does not matter. */
  function Sum(ts: seq<Transaction>): Cents {
    if ts == [] then 0 else ts[0].amount + Sum(ts[1..])
  }

  /** The filter keeps the whole list when every transaction is of the type. */
  lemma {:induction false} OfTypeAll(ts: seq<Transaction>, ty: TxType)
    requires forall i :: 0 <= i < |ts| ==> ts[i].txType == ty
    ensures OfType(ts, ty) == ts
  {
    if ts != [] {
      OfTypeAll(ts[1..], ty);
      assert [ts[0]] + ts[1..] == ts;
    }
  }

  /** Both single-type cases of the filter at once, for any list. */
  lemma OfTypeSingle(ts: seq<Transaction>, ty: TxType)
    ensures (forall i :: 0 <= i < |ts| ==> ts[i].txType == ty) ==> OfType(ts, ty) == ts
    ensures (forall i :: 0 <= i < |ts| ==> ts[i].txType != ty) ==> OfType(ts, ty) == []
  {
    if forall i :: 0 <= i < |ts| ==> ts[i].txType == ty {
      OfTypeAll(ts, ty);
    }
  }

  /** The income total: nothing from expenses, everything from income. */
  function TotalIncome(ts: seq<Transaction>): (r: Cents)
    ensures (forall i :: 0 <= i < |ts| ==> ts[i].txType == Expense) ==> r == 0
    ensures (forall i :: 0 <= i < |ts| ==> ts[i].txType == Income) ==> r == Sum(ts)
  {
    OfTypeSingle(ts, Income);
    Sum(OfType(ts, Income))
  }

  /** The expense total: nothing from income, everything from expenses. */
  function TotalExpenses(ts: seq<Transaction>): (r: Cents)
    ensures (forall i :: 0 <= i < |ts| ==> ts[i].txType == Income) ==> r == 0
    ensures (forall i :: 0 <= i < |ts| ==> ts[i].txType == Expense) ==> r == Sum(ts)
  {
    OfTypeSingle(ts, Expense);
    Sum(OfType(ts, Expense))
  }

  /** The net: the sum of all amounts for a list of income only, and its
      negation for a list of expenses only. */
  function NetIncome(ts: seq<Transaction>): (r: Cents)
    ensures (forall i :: 0 <= i < |ts| ==> ts[i].txType == Income) ==> r == Sum(ts)
    ensures (forall i :: 0 <= i < |ts| ==> ts[i].txType == Expense) ==> r == -Sum(ts)
  {
    TotalIncome(ts) - TotalExpenses(ts)
  }

  lemma {:induction false} OfTypeConcat(a: seq<Transaction>, b: seq<Transaction>, ty: TxType)
    ensures OfType(a + b, ty) == OfType(a, ty) + OfType(b, ty)
  {
    if a == [] {
      assert a + b == b;
    } else {
      assert (a + b)[0] == a[0];
      assert (a + b)[1..] == a[1..] + b;
      OfTypeConcat(a[1..], b, ty);
    }
  }

  lemma {:induction false} SumConcat(a: seq<Transaction>, b: seq<Transaction>)
    ensures Sum(a + b) == Sum(a) + Sum(b)
  {
    if a == [] {
      assert a + b == b;
    } else {
      assert (a + b)[0] == a[0];
      assert (a + b)[1..] == a[1..] + b;
      SumConcat(a[1..], b);
    }
  }

  /** The totals of two lists taken together are the sums of their totals. */
  lemma TotalsConcat(a: seq<Transaction>, b: seq<Transaction>)
    ensures TotalIncome(a + b) == TotalIncome(a) + TotalIncome(b)
    ensures TotalExpenses(a + b) == TotalExpenses(a) + TotalExpenses(b)
    ensures NetIncome(a + b) == NetIncome(a) + NetIncome(b)
  {
    OfTypeConcat(a, b, Income);
    OfTypeConcat(a, b, Expense);
    SumConcat(OfType(a, Income), OfType(b, Income));
    SumConcat(OfType(a, Expense), OfType(b, Expense));
  }

  /** A single transaction counts towards the total of its own type only. */
  lemma TotalsSingle(t: Transaction)
    ensures TotalIncome([t]) == if t.txType == Income then t.amount else 0
    ensures TotalExpenses([t]) == if t.txType == Expense then t.amount else 0
  {
    assert OfType([t], Income) == (if t.txType == Income then [t] else []);
    assert OfType([t], Expense) == (if t.txType == Expense then [t] else []);
    assert [t][1..] == [];
    assert Sum([t]) == t.amount + Sum([]);
  }

  /** Every transaction is counted once: income plus expenses is the sum of
      all amounts. */
  lemma {:induction false} TotalsCoverAll(ts: seq<Transaction>)
    ensures TotalIncome(ts) + TotalExpenses(ts) == Sum(ts)
  {
    if ts != [] {
      TotalsCoverAll(ts[1..]);
      assert ts == [ts[0]] + ts[1..];
      TotalsConcat([ts[0]], ts[1..]);
      TotalsSingle(ts[0]);
    }
  }

  /** Adding a transaction anywhere in the list moves its own total by its
      amount, leaves the other total alone, and moves the net up for income
      and down for an expense. */
  lemma AddTransaction(ts: seq<Transaction>, t: Transaction, i: nat)
    requires i <= |ts|
    ensures var us := ts[..i] + [t] + ts[i..];
      TotalIncome(us) == TotalIncome(ts) + (if t.txType == Income then t.amount else 0) &&
      TotalExpenses(us) == TotalExpenses(ts) + (if t.txType == Expense then t.amount else 0) &&
      NetIncome(us) == NetIncome(ts) + (if t.txType == Income then t.amount else -t.amount)
  {
    assert ts == ts[..i] + ts[i..];
    TotalsConcat(ts[..i], ts[i..]);
    TotalsConcat(ts[..i], [t]);
    TotalsConcat(ts[..i] + [t], ts[i..]);
    TotalsSingle(t);
  }

  // ---------------------------------------------------------------------
  // What the dashboard shows

  const ChartLabels: seq<string> := ["Income", "Expenses", "Net Income"]

  /** The chart's one data set: income, expenses and net, in label order. */
  function ChartData(ts: seq<Transaction>): (r: seq<Cents>)
    ensures |r| == |ChartLabels|
    ensures r[0] == TotalIncome(ts) && r[1] == TotalExpenses(ts) && r[2] == NetIncome(ts)
    ensures r[2] == r[0] - r[1]
  {
    [TotalIncome(ts), TotalExpenses(ts), NetIncome(ts)]
  }

  /** The net figure is green when it is not negative and red otherwise;
      the income and expense figures are always green and red. */
  function NetClass(ts: seq<Transaction>): (c: string)
    ensures c == "text-green-600" || c == "text-red-600"
    ensures c == "text-green-600" <==> NetIncome(ts) >= 0
  {
    if NetIncome(ts) >= 0 then "text-green-600" else "text-red-600"
  }

  /** The text of a summary card: a dollar sign and the amount to two
      decimals (`$-5.00` for a negative net). */
  function CardText(c: Cents): (s: string)
    ensures s != [] && s[0] == '$' && AmountValue(s[1..]) == c
  {
    Fixed2RoundTrip(c);
    "$" + Fixed2(c)
  }
}
