/** pages/Financial.tsx: the totals by type and the net profit, the type badge
    and icon, the form's initial values, and the page itself as an instance of
    the resource page. Amounts are JavaScript numbers: `None` is NaN. */
module FinancialPage {
  import opened Wrappers
  import opened Ui
  import opened Store
  import opened Actions
  import opened ResourcePage
  import opened FinancialActions

  datatype Totals = Totals(revenue: Option<real>, expense: Option<real>, asset: Option<real>, liability: Option<real>)

  /** JavaScript `+` on numbers: NaN in, NaN out. */
  function Plus(a: Option<real>, b: Option<real>): (r: Option<real>)
    ensures r.Some? <==> a.Some? && b.Some?
    ensures r.Some? ==> r.value == a.value + b.value
  {
    if a.Some? && b.Some? then Some(a.value + b.value) else None
  }

  /** JavaScript `-` on numbers: NaN in, NaN out. */
  function Minus(a: Option<real>, b: Option<real>): (r: Option<real>)
    ensures r.Some? <==> a.Some? && b.Some?
    ensures r.Some? ==> r.value == a.value - b.value
  {
    if a.Some? && b.Some? then Some(a.value - b.value) else None
  }

  /** The sum of the amounts of the transactions of type `k`, from 0, in list order. */
  function TotalOf(ts: seq<Row<FinancialFields>>, k: string): Option<real>
    decreases |ts|
  {
    if ts == [] then Some(0.0)
    else
      var before := TotalOf(ts[..|ts| - 1], k);
      var last := ts[|ts| - 1].fields;
      if last.kind == k then Plus(before, last.amount) else before
  }

  /** A type with no transactions totals 0: the accumulator starts from 0. */
  lemma {:induction false} TotalWithoutTransactionsIsZero(ts: seq<Row<FinancialFields>>, k: string)
    requires forall i :: 0 <= i < |ts| ==> ts[i].fields.kind != k
    ensures TotalOf(ts, k) == Some(0.0)
    decreases |ts|
  {
    if ts != [] {
      TotalWithoutTransactionsIsZero(ts[..|ts| - 1], k);
    }
  }

  /** The reference for getTotalsByType: one running total per known type. */
  function TotalsOf(ts: seq<Row<FinancialFields>>): Totals {
    Totals(TotalOf(ts, "revenue"), TotalOf(ts, "expense"), TotalOf(ts, "asset"), TotalOf(ts, "liability"))
  }

  /** getTotalsByType: `totals[t.type] += t.amount` over the list. A type outside
      the four keys adds a fifth key to the object, which nothing reads. */
  method GetTotalsByType(transactions: seq<Row<FinancialFields>>) returns (totals: Totals)
    ensures totals.revenue == TotalOf(transactions, "revenue")
    ensures totals.expense == TotalOf(transactions, "expense")
    ensures totals.asset == TotalOf(transactions, "asset")
    ensures totals.liability == TotalOf(transactions, "liability")
  {
    totals := Totals(Some(0.0), Some(0.0), Some(0.0), Some(0.0));
    for i := 0 to |transactions|
      invariant totals == TotalsOf(transactions[..i])
    {
      assert transactions[..i + 1] == transactions[..i] + [transactions[i]];
      AppendCreditsOnlyItsType(transactions[..i], transactions[i], "revenue");
      AppendCreditsOnlyItsType(transactions[..i], transactions[i], "expense");
      AppendCreditsOnlyItsType(transactions[..i], transactions[i], "asset");
      AppendCreditsOnlyItsType(transactions[..i], transactions[i], "liability");
      var t := transactions[i].fields;
      match t.kind
      case "revenue" => totals := totals.(revenue := Plus(totals.revenue, t.amount));
      case "expense" => totals := totals.(expense := Plus(totals.expense, t.amount));
      case "asset" => totals := totals.(asset := Plus(totals.asset, t.amount));
      case "liability" => totals := totals.(liability := Plus(totals.liability, t.amount));
      case _ =>
    }
    assert transactions[..|transactions|] == transactions;
  }

  /** Appending a transaction of type `t` adds its amount to the total of `t` only. */
  lemma {:induction false} AppendCreditsOnlyItsType(ts: seq<Row<FinancialFields>>, t: Row<FinancialFields>, k: string)
    ensures TotalOf(ts + [t], k) == if t.fields.kind == k then Plus(TotalOf(ts, k), t.fields.amount) else TotalOf(ts, k)
  {
    assert (ts + [t])[..|ts|] == ts;
  }

  /** A transaction whose type is none of the four keys leaves all four totals as they were. */
  lemma AppendOtherTypeKeepsTotals(ts: seq<Row<FinancialFields>>, t: Row<FinancialFields>)
    requires t.fields.kind !in {"revenue", "expense", "asset", "liability"}
    ensures TotalsOf(ts + [t]) == TotalsOf(ts)
  {
    AppendCreditsOnlyItsType(ts, t, "revenue");
    AppendCreditsOnlyItsType(ts, t, "expense");
    AppendCreditsOnlyItsType(ts, t, "asset");
    AppendCreditsOnlyItsType(ts, t, "liability");
  }

  /** The total of a concatenation is the sum of the totals of its parts. */
  lemma {:induction false} TotalOfConcat(a: seq<Row<FinancialFields>>, b: seq<Row<FinancialFields>>, k: string)
    ensures TotalOf(a + b, k) == Plus(TotalOf(a, k), TotalOf(b, k))
    decreases |b|
  {
    if b == [] {
      assert a + b == a;
    } else {
      var init := b[..|b| - 1];
      var last := b[|b| - 1];
      assert a + b == (a + init) + [last];
      assert b == init + [last];
      TotalOfConcat(a, init, k);
      AppendCreditsOnlyItsType(a + init, last, k);
      AppendCreditsOnlyItsType(init, last, k);
    }
  }

  /** A total is NaN exactly when some transaction of that type has a NaN amount. */
  lemma {:induction false} TotalNaNIffNaNAmount(ts: seq<Row<FinancialFields>>, k: string)
    ensures TotalOf(ts, k).None? <==> exists i :: 0 <= i < |ts| && ts[i].fields.kind == k && ts[i].fields.amount.None?
    decreases |ts|
  {
    if ts != [] {
      var init := ts[..|ts| - 1];
      TotalNaNIffNaNAmount(init, k);
      assert forall i :: 0 <= i < |init| ==> init[i] == ts[i];
    }
  }

  /** The "Net Profit" card. */
  function NetProfit(t: Totals): Option<real> {
    Minus(t.revenue, t.expense)
  }

  /** The revenue and expense transactions of a list, in order. */
  function ProfitAndLoss(ts: seq<Row<FinancialFields>>): (r: seq<Row<FinancialFields>>)
    ensures forall i :: 0 <= i < |r| ==> r[i].fields.kind in {"revenue", "expense"}
    decreases |ts|
  {
    if ts == [] then []
    else
      var init := ProfitAndLoss(ts[..|ts| - 1]);
      var last := ts[|ts| - 1];
      if last.fields.kind in {"revenue", "expense"} then init + [last] else init
  }

  /** Net profit does not depend on any transaction other than revenue and expense. */
  lemma {:induction false} NetProfitIgnoresOtherTypes(ts: seq<Row<FinancialFields>>)
    ensures NetProfit(TotalsOf(ts)) == NetProfit(TotalsOf(ProfitAndLoss(ts)))
    ensures TotalOf(ts, "revenue") == TotalOf(ProfitAndLoss(ts), "revenue")
    ensures TotalOf(ts, "expense") == TotalOf(ProfitAndLoss(ts), "expense")
    decreases |ts|
  {
    if ts != [] {
      var init := ts[..|ts| - 1];
      var last := ts[|ts| - 1];
      assert ts == init + [last];
      NetProfitIgnoresOtherTypes(init);
      AppendCreditsOnlyItsType(init, last, "revenue");
      AppendCreditsOnlyItsType(init, last, "expense");
      if last.fields.kind in {"revenue", "expense"} {
        AppendCreditsOnlyItsType(ProfitAndLoss(init), last, "revenue");
        AppendCreditsOnlyItsType(ProfitAndLoss(init), last, "expense");
      }
    }
  }

  /** Revenue 1000, expense 400 and asset 200 give a net profit of 600. */
  lemma NetProfitExample()
    ensures var ts := [Row(0, "u", FinancialFields("revenue", "Sales", Some(1000.0), "", "2024-01-01")),
                       Row(1, "u", FinancialFields("expense", "Fuel", Some(400.0), "", "2024-01-02")),
                       Row(2, "u", FinancialFields("asset", "Equipment", Some(200.0), "", "2024-01-03"))];
            NetProfit(TotalsOf(ts)) == Some(600.0) && TotalsOf(ts).asset == Some(200.0)
            && TotalsOf(ts).liability == Some(0.0)
  {
    var a := Row(0, "u", FinancialFields("revenue", "Sales", Some(1000.0), "", "2024-01-01"));
    var b := Row(1, "u", FinancialFields("expense", "Fuel", Some(400.0), "", "2024-01-02"));
    var c := Row(2, "u", FinancialFields("asset", "Equipment", Some(200.0), "", "2024-01-03"));
    assert [a, b, c][..2] == [a, b];
    assert [a, b][..1] == [a];
    assert [a][..0] == [];
    assert TotalOf([a], "expense") == Some(0.0);
    assert TotalOf([a], "revenue") == Some(1000.0);
    assert TotalOf([a], "asset") == Some(0.0);
    assert TotalOf([a], "liability") == Some(0.0);
    assert TotalsOf([a]) == Totals(Some(1000.0), Some(0.0), Some(0.0), Some(0.0));
    assert TotalsOf([a, b]) == Totals(Some(1000.0), Some(400.0), Some(0.0), Some(0.0));
    assert TotalsOf([a, b, c]) == Totals(Some(1000.0), Some(400.0), Some(200.0), Some(0.0));
  }

  /** getTransactionColor. */
  function GetTransactionColor(kind: string): (v: Variant)
    ensures v == Default <==> kind == "revenue"
    ensures v == Destructive <==> kind == "expense"
    ensures v == Outline <==> kind == "liability"
    ensures v == Secondary <==> kind != "revenue" && kind != "expense" && kind != "liability"
  {
    match kind
    case "revenue" => Default
    case "expense" => Destructive
    case "asset" => Secondary
    case "liability" => Outline
    case _ => Secondary
  }

  /** getTransactionIcon: the up trend for revenue only. */
  function GetTransactionIcon(kind: string): (i: Icon)
    ensures i == TrendingUp <==> kind == "revenue"
  {
    if kind == "revenue" then TrendingUp else TrendingDown
  }

  /** The text colour of the amount cell. */
  function AmountTone(kind: string): (c: string)
    ensures c == "text-success" <==> kind == "revenue"
    ensures c == "text-destructive" <==> kind == "expense"
    ensures c == "" <==> kind != "revenue" && kind != "expense"
  {
    if kind == "revenue" then "text-success" else if kind == "expense" then "text-destructive" else ""
  }

  /** The values the form's inputs start with; `today` is the current date that a
      new transaction's date input defaults to. An amount of 0 is shown as an empty
      input, which reads back as NaN. */
  function FinancialFormFor(editing: Option<FinancialFields>, today: string): (f: FinancialForm)
    ensures editing.None? ==> f == FinancialForm("", "", None, "", today)
    ensures editing.Some? ==> (f.amount.None? <==> editing.value.amount in {None, Some(0.0)})
  {
    match editing
    case None => FinancialForm("", "", None, "", today)
    case Some(p) =>
      FinancialForm(
        p.kind,
        p.category,
        RealOrNull(p.amount),
        p.description,
        if p.transactionDate == "" then today else p.transactionDate)
  }

  /** Saving the edit form unchanged writes back the row it was filled from, except
      that an amount of 0 comes back as NaN and an empty date as today's. */
  lemma EditUnchangedStoresPrefill(p: FinancialFields, today: string)
    ensures FinancialPayload(FinancialFormFor(Some(p), today))
            == p.(amount := if p.amount == Some(0.0) then None else p.amount,
                  transactionDate := if p.transactionDate == "" then today else p.transactionDate)
  {
  }

  /** So a row with a nonzero amount and a date comes back unchanged. */
  lemma EditUnchangedRoundTrip(p: FinancialFields, today: string)
    requires p.amount != Some(0.0) && p.transactionDate != ""
    ensures FinancialPayload(FinancialFormFor(Some(p), today)) == p
  {
    EditUnchangedStoresPrefill(p, today);
  }

  const FinancialMessages := Messages(
    "Failed to load financial transactions",
    "Transaction created successfully",
    "Transaction updated successfully",
    "Failed to save transaction",
    "Transaction deleted successfully",
    "Failed to delete transaction")

  /** The component's first render and its mount effect, which loads the list. */
  method MountFinancialPage(table: Table<FinancialFields>, loadOk: bool)
    returns (page: Page<FinancialForm, FinancialFields>)
    requires table.Valid()
    ensures fresh(page) && page.Valid()
    ensures page.table == table && page.actions == Resource && page.messages == FinancialMessages
    ensures !page.showForm && page.editing == None && page.calls == [ListCall]
    ensures loadOk ==> page.ShowsTable() && page.toasts == []
    ensures !loadOk ==> page.items == [] && page.toasts == [ErrorToast("Failed to load financial transactions")]
  {
    page := new Page(Resource, FinancialMessages, table);
    page.LoadItems(loadOk);
  }
}
