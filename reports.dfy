/**
 * The read-only reports of database.py as functions of the store's tables: each SQL
 * aggregate is a sum over the ids 1 .. next - 1 of the rows that pass the query's
 * WHERE and JOIN conditions. `BETWEEN ? AND ?` includes both ends.
 */
module Reports {
  import opened Wrappers
  import opened LedgerTables

  predicate Between(d: Date, start: Date, end: Date) {
    start <= d <= end
  }

  /** The rows an invoice query keeps. */
  datatype InvoiceFilter =
    | DatedBetween(start: Date, end: Date)
      /** dated in range and joined to a customer row whose id is in `known` */
    | JoinedBetween(start: Date, end: Date, known: set<int>)
    | OfCustomer(customerId: int)

  predicate Keeps(f: InvoiceFilter, r: InvoiceRow) {
    match f
    case DatedBetween(s, e) => Between(r.date, s, e)
    case JoinedBetween(s, e, known) => Between(r.date, s, e) && r.customerId in known
    case OfCustomer(c) => r.customerId == c
  }

  datatype Column = TotalAmount | PaidAmount | RemainingAmount

  function AmountOf(r: InvoiceRow, c: Column): real {
    match c
    case TotalAmount => r.totalAmount
    case PaidAmount => r.paidAmount
    case RemainingAmount => r.remainingAmount
  }

  /** What invoice `k` adds to a sum: its amount when it exists and passes the filter. */
  function Share(m: map<int, InvoiceRow>, k: int, f: InvoiceFilter, c: Column): real {
    if k in m && Keeps(f, m[k]) then AmountOf(m[k], c) else 0.0
  }

  /** `COALESCE(SUM(c), 0)` over the invoices with ids 1 .. n that pass `f`. */
  function SumInvoices(m: map<int, InvoiceRow>, n: int, f: InvoiceFilter, c: Column): real
    decreases n
  {
    if n <= 0 then 0.0 else SumInvoices(m, n - 1, f, c) + Share(m, n, f, c)
  }

  /** The ids 1 .. n of the invoices that pass `f`, in ascending order. */
  function MatchingInvoices(m: map<int, InvoiceRow>, n: int, f: InvoiceFilter): (ids: seq<int>)
    ensures forall k :: k in ids <==> 1 <= k <= n && k in m && Keeps(f, m[k])
    ensures forall i, j :: 0 <= i < j < |ids| ==> ids[i] < ids[j]
    decreases n
  {
    if n <= 0 then []
    else
      var prefix := MatchingInvoices(m, n - 1, f);
      assert forall i :: 0 <= i < |prefix| ==> prefix[i] in prefix;
      prefix + (if n in m && Keeps(f, m[n]) then [n] else [])
  }

  /** Changing one invoice moves a sum by the difference of its two shares; an id above n does not count. */
  lemma {:induction false} SumInvoicesUpdate(m: map<int, InvoiceRow>, k: int, v: InvoiceRow, n: int, f: InvoiceFilter, c: Column)
    ensures SumInvoices(m[k := v], n, f, c)
            == SumInvoices(m, n, f, c) + (if 1 <= k <= n then Share(m[k := v], k, f, c) - Share(m, k, f, c) else 0.0)
    decreases n
  {
    if n > 0 {
      SumInvoicesUpdate(m, k, v, n - 1, f, c);
    }
  }

  lemma {:induction false} MatchingInvoicesUpdate(m: map<int, InvoiceRow>, k: int, v: InvoiceRow, n: int, f: InvoiceFilter)
    requires k > n || (k in m && Keeps(f, v) == Keeps(f, m[k]))
    ensures MatchingInvoices(m[k := v], n, f) == MatchingInvoices(m, n, f)
    decreases n
  {
    if n > 0 {
      MatchingInvoicesUpdate(m, k, v, n - 1, f);
    }
  }

  // ---------------------------------------------------------------- get_sales_report

  datatype SalesSummary = SalesSummary(invoices: seq<int>, totalInvoices: int, totalSales: real, totalPaid: real)

  /** The invoices dated in range whose customer row exists (the query joins customers). */
  function SalesFilter(t: Tables, start: Date, end: Date): InvoiceFilter {
    JoinedBetween(start, end, t.customers.Keys)
  }

  function SalesReport(t: Tables, start: Date, end: Date): (r: SalesSummary)
    ensures r.totalInvoices == |r.invoices|
    ensures forall k :: k in r.invoices <==>
              1 <= k < t.nextInvoiceId && k in t.invoices && start <= t.invoices[k].date <= end
              && t.invoices[k].customerId in t.customers
    ensures forall i, j :: 0 <= i < j < |r.invoices| ==> r.invoices[i] < r.invoices[j]
    ensures r.totalSales == SumInvoices(t.invoices, t.nextInvoiceId - 1, SalesFilter(t, start, end), TotalAmount)
    ensures r.totalPaid == SumInvoices(t.invoices, t.nextInvoiceId - 1, SalesFilter(t, start, end), PaidAmount)
  {
    var f := SalesFilter(t, start, end);
    var ids := MatchingInvoices(t.invoices, t.nextInvoiceId - 1, f);
    SalesSummary(ids, |ids|, SumInvoices(t.invoices, t.nextInvoiceId - 1, f, TotalAmount),
                 SumInvoices(t.invoices, t.nextInvoiceId - 1, f, PaidAmount))
  }

  // ---------------------------------------------------------------- get_profit_loss_report

  /** `COALESCE(SUM(refund_amount), 0)` over the returns with ids 1 .. n dated in range. */
  function SumRefunds(m: map<int, ReturnRow>, n: int, start: Date, end: Date): real
    decreases n
  {
    if n <= 0 then 0.0
    else SumRefunds(m, n - 1, start, end) + (if n in m && Between(m[n].returnDate, start, end) then m[n].refundAmount else 0.0)
  }

  /** A return row above n is not part of the refund total up to n. */
  lemma {:induction false} SumRefundsInsert(m: map<int, ReturnRow>, k: int, v: ReturnRow, n: int, start: Date, end: Date)
    requires k > n
    ensures SumRefunds(m[k := v], n, start, end) == SumRefunds(m, n, start, end)
    decreases n
  {
    if n > 0 {
      SumRefundsInsert(m, k, v, n - 1, start, end);
    }
  }

  /** The next return row adds its refund to the refund total exactly when it is dated in range. */
  lemma SumRefundsAppend(m: map<int, ReturnRow>, v: ReturnRow, n: int, start: Date, end: Date)
    requires n >= 0
    ensures SumRefunds(m[n + 1 := v], n + 1, start, end)
            == SumRefunds(m, n, start, end) + (if start <= v.returnDate <= end then v.refundAmount else 0.0)
  {
    SumRefundsInsert(m, n + 1, v, n, start, end);
  }

  /**
   * The cost of invoice line `k`: quantity times the product's CURRENT cost_price, when the
   * line joins an invoice dated in range and an existing product.
   */
  function LineCost(t: Tables, k: int, start: Date, end: Date): real {
    if k in t.invoiceItems && t.invoiceItems[k].parentId in t.invoices
       && Between(t.invoices[t.invoiceItems[k].parentId].date, start, end)
       && t.invoiceItems[k].productId in t.products
    then (t.invoiceItems[k].quantity as real) * t.products[t.invoiceItems[k].productId].costPrice
    else 0.0
  }

  function CostOfGoods(t: Tables, n: int, start: Date, end: Date): real
    decreases n
  {
    if n <= 0 then 0.0 else CostOfGoods(t, n - 1, start, end) + LineCost(t, n, start, end)
  }

  datatype ProfitLoss = ProfitLoss(
    totalSales: real, totalRevenue: real, totalCost: real, totalReturns: real,
    grossProfit: real, netProfit: real, profitMargin: real)

  /** `(net_profit / total_revenue * 100) if total_revenue > 0 else 0`. */
  function Margin(net: real, revenue: real): (r: real)
    ensures revenue > 0.0 ==> r * revenue == net * 100.0
    ensures revenue <= 0.0 ==> r == 0.0
  {
    if revenue > 0.0 then net / revenue * 100.0 else 0.0
  }

  /**
   * The profit-and-loss figures. The four sums are the report's own queries; what they mean for
   * the store is proved beside them: InvoiceAddsCostOfGoods and ReturnKeepsCostOfGoods for the
   * cost of goods, SalesAgreesWithProfitLoss for sales and revenue, and ReturnEntersCashflow for
   * the refund total. The derived figures follow the source's arithmetic.
   */
  function ProfitLossReport(t: Tables, start: Date, end: Date): (r: ProfitLoss)
    ensures r.totalSales == SumInvoices(t.invoices, t.nextInvoiceId - 1, DatedBetween(start, end), TotalAmount)
    ensures r.totalRevenue == SumInvoices(t.invoices, t.nextInvoiceId - 1, DatedBetween(start, end), PaidAmount)
    ensures r.totalCost == CostOfGoods(t, t.nextInvoiceItemId - 1, start, end)
    ensures r.totalReturns == SumRefunds(t.returnRows, t.nextReturnId - 1, start, end)
    ensures r.grossProfit == r.totalSales - r.totalCost
    ensures r.netProfit == r.totalRevenue - r.totalCost - r.totalReturns
    ensures r.totalRevenue > 0.0 ==> r.profitMargin * r.totalRevenue == r.netProfit * 100.0
    ensures r.totalRevenue <= 0.0 ==> r.profitMargin == 0.0
  {
    var f := DatedBetween(start, end);
    var sales := SumInvoices(t.invoices, t.nextInvoiceId - 1, f, TotalAmount);
    var revenue := SumInvoices(t.invoices, t.nextInvoiceId - 1, f, PaidAmount);
    var cost := CostOfGoods(t, t.nextInvoiceItemId - 1, start, end);
    var returned := SumRefunds(t.returnRows, t.nextReturnId - 1, start, end);
    var net := revenue - cost - returned;
    ProfitLoss(sales, revenue, cost, returned, sales - cost, net, Margin(net, revenue))
  }

  // ---------------------------------------------------------------- get_cashflow_report

  datatype CashFlow = CashFlow(totalInflow: real, totalOutflow: real, netCashflow: real)

  /** Inflow is what the invoices in range were paid, outflow what the returns in range refunded. */
  function CashflowReport(t: Tables, start: Date, end: Date): (r: CashFlow)
    ensures r.netCashflow == r.totalInflow - r.totalOutflow
    ensures r.totalInflow == ProfitLossReport(t, start, end).totalRevenue
    ensures r.totalOutflow == ProfitLossReport(t, start, end).totalReturns
  {
    var inflow := SumInvoices(t.invoices, t.nextInvoiceId - 1, DatedBetween(start, end), PaidAmount);
    var outflow := SumRefunds(t.returnRows, t.nextReturnId - 1, start, end);
    CashFlow(inflow, outflow, inflow - outflow)
  }

  // ---------------------------------------------------------------- get_debtor_customers

  datatype Debtor = Debtor(customerId: int, name: string, phone: string, balance: real)

  /** `COALESCE(SUM(remaining_amount), 0)` over the customer's invoices. */
  function Balance(t: Tables, c: int): real {
    SumInvoices(t.invoices, t.nextInvoiceId - 1, OfCustomer(c), RemainingAmount)
  }

  function DebtorOf(t: Tables, c: int): Debtor
    requires c in t.customers
  {
    Debtor(c, t.customers[c].name, t.customers[c].phone, Balance(t, c))
  }

  /** The grouped rows of customers 1 .. n whose balance is above zero, in id order. */
  function DebtorsUpTo(t: Tables, n: int): (ds: seq<Debtor>)
    ensures forall d :: d in ds <==>
              1 <= d.customerId <= n && d.customerId in t.customers && d == DebtorOf(t, d.customerId) && d.balance > 0.0
    ensures forall i, j :: 0 <= i < j < |ds| ==> ds[i].customerId < ds[j].customerId
    decreases n
  {
    if n <= 0 then []
    else
      var prefix := DebtorsUpTo(t, n - 1);
      assert forall i :: 0 <= i < |prefix| ==> prefix[i] in prefix;
      prefix + (if n in t.customers && Balance(t, n) > 0.0 then [DebtorOf(t, n)] else [])
  }

  /** In a list with strictly ascending customer ids no entry occurs twice. */
  lemma {:induction false} AscendingOccursOnce(ds: seq<Debtor>, x: Debtor)
    requires forall i, j :: 0 <= i < j < |ds| ==> ds[i].customerId < ds[j].customerId
    ensures multiset(ds)[x] <= 1
    decreases |ds|
  {
    if ds != [] {
      var prefix := ds[..|ds| - 1];
      assert ds == prefix + [ds[|ds| - 1]];
      AscendingOccursOnce(prefix, x);
      forall i | 0 <= i < |prefix|
        ensures prefix[i] != ds[|ds| - 1]
      {
        assert ds[i].customerId < ds[|ds| - 1].customerId;
      }
    }
  }

  /** A reordering of a list with strictly ascending customer ids names each customer once. */
  lemma PermutationKeepsIdsDistinct(r: seq<Debtor>, ds: seq<Debtor>)
    requires multiset(r) == multiset(ds)
    requires forall i, j :: 0 <= i < j < |ds| ==> ds[i].customerId < ds[j].customerId
    ensures forall i, j :: 0 <= i < j < |r| ==> r[i].customerId != r[j].customerId
  {
    forall i, j | 0 <= i < j < |r|
      ensures r[i].customerId != r[j].customerId
    {
      assert r[i] in multiset(ds) && r[j] in multiset(ds);
      var a :| 0 <= a < |ds| && ds[a] == r[i];
      var b :| 0 <= b < |ds| && ds[b] == r[j];
      if a == b {
        RepeatOccursTwice(r, i, j);
        AscendingOccursOnce(ds, r[i]);
      }
    }
  }

  /** An entry at two positions occurs at least twice. */
  lemma RepeatOccursTwice(r: seq<Debtor>, i: int, j: int)
    requires 0 <= i < j < |r| && r[i] == r[j]
    ensures multiset(r)[r[i]] >= 2
  {
    var front, back := r[..j], r[j..];
    assert r == front + back;
    assert front[i] == r[i] && back[0] == r[j];
    assert multiset(r) == multiset(front) + multiset(back);
  }

  predicate ByBalanceDescending(ds: seq<Debtor>) {
    forall i, j :: 0 <= i < j < |ds| ==> ds[i].balance >= ds[j].balance
  }

  function InsertByBalance(d: Debtor, ds: seq<Debtor>): (r: seq<Debtor>)
    requires ByBalanceDescending(ds)
    ensures ByBalanceDescending(r)
    ensures multiset(r) == multiset(ds) + multiset{d}
    ensures |r| > 0 && (r[0] == d || (|ds| > 0 && r[0] == ds[0]))
  {
    if ds == [] || d.balance >= ds[0].balance then [d] + ds
    else
      assert ds == [ds[0]] + ds[1..];
      [ds[0]] + InsertByBalance(d, ds[1..])
  }

  /** `ORDER BY balance DESC`: the same rows, highest balance first. */
  function SortByBalance(ds: seq<Debtor>): (r: seq<Debtor>)
    ensures ByBalanceDescending(r)
    ensures multiset(r) == multiset(ds)
  {
    if ds == [] then []
    else
      assert ds == [ds[0]] + ds[1..];
      InsertByBalance(ds[0], SortByBalance(ds[1..]))
  }

  /** Exactly the customers with a positive balance, each once with that balance, highest first. */
  function DebtorCustomers(t: Tables): (r: seq<Debtor>)
    ensures ByBalanceDescending(r)
    ensures forall d :: d in r <==>
              1 <= d.customerId < t.nextCustomerId && d.customerId in t.customers
              && d == DebtorOf(t, d.customerId) && d.balance > 0.0
    ensures multiset(r) == multiset(DebtorsUpTo(t, t.nextCustomerId - 1))
    ensures forall i, j :: 0 <= i < j < |r| ==> r[i].customerId != r[j].customerId
  {
    var ds := DebtorsUpTo(t, t.nextCustomerId - 1);
    var r := SortByBalance(ds);
    assert forall d :: d in r <==> d in ds by {
      forall d ensures d in r <==> d in ds {
        assert d in r <==> d in multiset(r);
        assert d in ds <==> d in multiset(ds);
      }
    }
    PermutationKeepsIdsDistinct(r, ds);
    r
  }

  // ---------------------------------------------------------------- what the transactions do to the reports

  /** Every invoice joined to a customer makes the sales report's JOIN a no-op. */
  lemma {:induction false} JoinedSumAgrees(m: map<int, InvoiceRow>, n: int, start: Date, end: Date, known: set<int>, c: Column)
    requires forall k :: k in m ==> m[k].customerId in known
    ensures SumInvoices(m, n, JoinedBetween(start, end, known), c) == SumInvoices(m, n, DatedBetween(start, end), c)
    decreases n
  {
    if n > 0 {
      JoinedSumAgrees(m, n - 1, start, end, known, c);
    }
  }

  /** When no invoice names a missing customer, the sales report and the P&L agree on sales and paid revenue. */
  lemma SalesAgreesWithProfitLoss(t: Tables, start: Date, end: Date)
    requires forall k :: k in t.invoices ==> t.invoices[k].customerId in t.customers
    ensures SalesReport(t, start, end).totalSales == ProfitLossReport(t, start, end).totalSales
    ensures SalesReport(t, start, end).totalPaid == ProfitLossReport(t, start, end).totalRevenue
  {
    JoinedSumAgrees(t.invoices, t.nextInvoiceId - 1, start, end, t.customers.Keys, TotalAmount);
    JoinedSumAgrees(t.invoices, t.nextInvoiceId - 1, start, end, t.customers.Keys, PaidAmount);
  }

  /**
   * A committed invoice enters the sales report exactly when it is dated in range and its customer
   * exists: one more id, at the end, and its total and paid amounts added.
   */
  lemma InvoiceEntersSalesReport(t: Tables, d: InvoiceData, items: seq<LineItem>, start: Date, end: Date)
    requires WellFormed(t)
    ensures var before := SalesReport(t, start, end);
            var after := SalesReport(InvoiceCommitted(t, d, items), start, end);
            var counted := start <= d.date <= end && d.customerId in t.customers;
      && after.invoices == before.invoices + (if counted then [t.nextInvoiceId] else [])
      && after.totalInvoices == before.totalInvoices + (if counted then 1 else 0)
      && after.totalSales == before.totalSales + (if counted then d.totalAmount else 0.0)
      && after.totalPaid == before.totalPaid + (if counted then d.paidAmount else 0.0)
  {
    var t' := InvoiceCommitted(t, d, items);
    var n := t.nextInvoiceId - 1;
    var f := SalesFilter(t, start, end);
    assert SalesFilter(t', start, end) == f;
    assert t'.invoices == t.invoices[n + 1 := HeaderOf(d)];
    assert t'.nextInvoiceId - 1 == n + 1;
    SumInvoicesUpdate(t.invoices, n + 1, HeaderOf(d), n, f, TotalAmount);
    SumInvoicesUpdate(t.invoices, n + 1, HeaderOf(d), n, f, PaidAmount);
    MatchingInvoicesUpdate(t.invoices, n + 1, HeaderOf(d), n, f);
  }

  /** A committed invoice adds its paid amount to the cash inflow when dated in range; outflow is unchanged. */
  lemma InvoiceEntersCashflow(t: Tables, d: InvoiceData, items: seq<LineItem>, start: Date, end: Date)
    requires WellFormed(t)
    ensures var before := CashflowReport(t, start, end);
            var after := CashflowReport(InvoiceCommitted(t, d, items), start, end);
      && after.totalInflow == before.totalInflow + (if start <= d.date <= end then d.paidAmount else 0.0)
      && after.totalOutflow == before.totalOutflow
  {
    var t' := InvoiceCommitted(t, d, items);
    var n := t.nextInvoiceId - 1;
    assert t'.invoices == t.invoices[n + 1 := HeaderOf(d)];
    assert t'.nextInvoiceId - 1 == n + 1;
    SumInvoicesUpdate(t.invoices, n + 1, HeaderOf(d), n, DatedBetween(start, end), PaidAmount);
  }

  /** A committed invoice adds its remaining amount to the balance of its own customer only. */
  lemma InvoiceAddsToBalance(t: Tables, d: InvoiceData, items: seq<LineItem>, c: int)
    requires WellFormed(t)
    ensures Balance(InvoiceCommitted(t, d, items), c) == Balance(t, c) + (if d.customerId == c then d.remainingAmount else 0.0)
  {
    var t' := InvoiceCommitted(t, d, items);
    var n := t.nextInvoiceId - 1;
    assert t'.invoices == t.invoices[n + 1 := HeaderOf(d)];
    assert t'.nextInvoiceId - 1 == n + 1;
    SumInvoicesUpdate(t.invoices, n + 1, HeaderOf(d), n, OfCustomer(c), RemainingAmount);
  }

  /**
   * A return records its refund as cash outflow when dated in range, and a positive refund on an
   * existing invoice dated in range lowers the inflow by the same amount.
   */
  lemma ReturnEntersCashflow(t: Tables, d: ReturnData, items: seq<LineItem>, start: Date, end: Date)
    requires WellFormed(t)
    ensures var before := CashflowReport(t, start, end);
            var after := CashflowReport(ReturnCommitted(t, d, items), start, end);
            var r := if d.refundAmount.Some? then d.refundAmount.value else 0.0;
            var adjusted := r > 0.0 && d.invoiceId in t.invoices && start <= t.invoices[d.invoiceId].date <= end;
      && after.totalInflow == before.totalInflow - (if adjusted then r else 0.0)
      && after.totalOutflow == before.totalOutflow + (if start <= d.returnDate <= end then r else 0.0)
  {
    var r := d.refundAmount.GetOr(0.0);
    ReturnRefundApplied(t, d, items);
    assert d.invoiceId in t.invoices ==> 1 <= d.invoiceId <= t.nextInvoiceId - 1;
    SumRefundsAppend(t.returnRows, ReturnHeaderOf(d), t.nextReturnId - 1, start, end);
    RefundShiftsSum(t.invoices, d.invoiceId, r, t.nextInvoiceId - 1, DatedBetween(start, end), PaidAmount);
  }

  /**
   * The refund adjustment on plain maps: totals and the matching ids stay, paid and remaining
   * drop by the refund when the adjusted invoice passes the filter.
   */
  lemma RefundShiftsSums(m: map<int, InvoiceRow>, k: int, r: real, n: int, f: InvoiceFilter)
    requires k in m ==> 1 <= k <= n
    ensures var m' := ApplyRefund(m, k, r);
            var shift := if r > 0.0 && k in m && Keeps(f, m[k]) then r else 0.0;
      && MatchingInvoices(m', n, f) == MatchingInvoices(m, n, f)
      && SumInvoices(m', n, f, TotalAmount) == SumInvoices(m, n, f, TotalAmount)
      && SumInvoices(m', n, f, PaidAmount) == SumInvoices(m, n, f, PaidAmount) - shift
      && SumInvoices(m', n, f, RemainingAmount) == SumInvoices(m, n, f, RemainingAmount) - shift
  {
    RefundShiftsSum(m, k, r, n, f, TotalAmount);
    RefundShiftsSum(m, k, r, n, f, PaidAmount);
    RefundShiftsSum(m, k, r, n, f, RemainingAmount);
    if r > 0.0 && k in m {
      var v := m[k].(remainingAmount := m[k].remainingAmount - r, paidAmount := m[k].paidAmount - r);
      assert ApplyRefund(m, k, r) == m[k := v];
      MatchingInvoicesUpdate(m, k, v, n, f);
    }
  }

  /** One column of the shift: the total is untouched, paid and remaining drop by the refund. */
  lemma RefundShiftsSum(m: map<int, InvoiceRow>, k: int, r: real, n: int, f: InvoiceFilter, c: Column)
    requires k in m ==> 1 <= k <= n
    ensures var shift := if r > 0.0 && k in m && Keeps(f, m[k]) && c != TotalAmount then r else 0.0;
            SumInvoices(ApplyRefund(m, k, r), n, f, c) == SumInvoices(m, n, f, c) - shift
  {
    if r > 0.0 && k in m {
      var v := m[k].(remainingAmount := m[k].remainingAmount - r, paidAmount := m[k].paidAmount - r);
      assert ApplyRefund(m, k, r) == m[k := v];
      SumInvoicesUpdate(m, k, v, n, f, c);
    }
  }

  /**
   * A return never changes which invoices the sales report lists or their total; a positive refund on
   * a listed invoice lowers the paid total by the refund.
   */
  lemma ReturnUpdatesSalesReport(t: Tables, d: ReturnData, items: seq<LineItem>, start: Date, end: Date)
    requires WellFormed(t)
    ensures var before := SalesReport(t, start, end);
            var after := SalesReport(ReturnCommitted(t, d, items), start, end);
            var r := if d.refundAmount.Some? then d.refundAmount.value else 0.0;
            var adjusted := r > 0.0 && d.invoiceId in before.invoices;
      && after.invoices == before.invoices
      && after.totalSales == before.totalSales
      && after.totalPaid == before.totalPaid - (if adjusted then r else 0.0)
  {
    ReturnRefundApplied(t, d, items);
    assert d.invoiceId in t.invoices ==> 1 <= d.invoiceId <= t.nextInvoiceId - 1;
    RefundShiftsSums(t.invoices, d.invoiceId, d.refundAmount.GetOr(0.0), t.nextInvoiceId - 1, SalesFilter(t, start, end));
  }

  /** A positive refund on an existing invoice lowers its customer's balance by the refund; no other balance moves. */
  lemma ReturnReducesBalance(t: Tables, d: ReturnData, items: seq<LineItem>, c: int)
    requires WellFormed(t)
    ensures var r := if d.refundAmount.Some? then d.refundAmount.value else 0.0;
            var adjusted := r > 0.0 && d.invoiceId in t.invoices && t.invoices[d.invoiceId].customerId == c;
      Balance(ReturnCommitted(t, d, items), c) == Balance(t, c) - (if adjusted then r else 0.0)
  {
    var t' := ReturnCommitted(t, d, items);
    ReturnRefundApplied(t, d, items);
    assert d.invoiceId in t.invoices ==> 1 <= d.invoiceId <= t.nextInvoiceId - 1;
    RefundShiftsSum(t.invoices, d.invoiceId, d.refundAmount.GetOr(0.0), t.nextInvoiceId - 1, OfCustomer(c), RemainingAmount);
    assert Balance(t', c) == SumInvoices(t'.invoices, t.nextInvoiceId - 1, OfCustomer(c), RemainingAmount);
  }

  /** Two stores whose invoice lines 1 .. n cost the same have the same cost of goods. */
  lemma {:induction false} CostOfGoodsAgree(t: Tables, t': Tables, n: int, start: Date, end: Date)
    requires forall k :: 1 <= k <= n ==> LineCost(t', k, start, end) == LineCost(t, k, start, end)
    ensures CostOfGoods(t', n, start, end) == CostOfGoods(t, n, start, end)
    decreases n
  {
    if n > 0 {
      CostOfGoodsAgree(t, t', n - 1, start, end);
    }
  }

  /**
   * Lines 1 .. n keep their cost when they are unchanged, their invoices keep their dates and
   * every product keeps its cost price.
   */
  lemma OldLinesKeepCost(t: Tables, t': Tables, n: int, start: Date, end: Date)
    requires forall k :: 1 <= k <= n ==> k in t.invoiceItems && k in t'.invoiceItems && t'.invoiceItems[k] == t.invoiceItems[k]
    requires LinesOwnedBy(t.invoiceItems, t.invoices)
    requires forall k :: k in t.invoices ==> k in t'.invoices && t'.invoices[k].date == t.invoices[k].date
    requires t'.products.Keys == t.products.Keys
    requires forall p :: p in t.products ==> t'.products[p].costPrice == t.products[p].costPrice
    ensures CostOfGoods(t', n, start, end) == CostOfGoods(t, n, start, end)
  {
    forall k | 1 <= k <= n
      ensures LineCost(t', k, start, end) == LineCost(t, k, start, end)
    {
      assert t.invoiceItems[k].parentId in t.invoices;
    }
    CostOfGoodsAgree(t, t', n, start, end);
  }

  /** The returned stock and the refund touch neither the invoice lines, the invoice dates nor the cost prices. */
  lemma ReturnKeepsCostOfGoods(t: Tables, d: ReturnData, items: seq<LineItem>, start: Date, end: Date)
    requires WellFormed(t)
    ensures ProfitLossReport(ReturnCommitted(t, d, items), start, end).totalCost == ProfitLossReport(t, start, end).totalCost
  {
    var t' := ReturnCommitted(t, d, items);
    ReturnStockMoved(t, d, items);
    ReturnRefundAdjustment(t, d, items);
    OldLinesKeepCost(t, t', t.nextInvoiceItemId - 1, start, end);
  }

  /** Quantity times current cost price over the items whose product exists. */
  function ItemsCost(ps: map<int, ProductRow>, items: seq<LineItem>): real
    decreases |items|
  {
    if items == [] then 0.0
    else
      var it := items[|items| - 1];
      ItemsCost(ps, items[..|items| - 1]) + (if it.productId in ps then (it.quantity as real) * ps[it.productId].costPrice else 0.0)
  }

  /** Lines base+1 .. base+j that copy the first j items of one invoice add the cost of those items. */
  lemma {:induction false} NewLinesCost(t: Tables, base: int, parentId: int, ps: map<int, ProductRow>,
                                        items: seq<LineItem>, start: Date, end: Date, j: int)
    requires 0 <= base && 0 <= j <= |items| && parentId in t.invoices
    requires forall k :: base < k <= base + |items| ==>
               k in t.invoiceItems && t.invoiceItems[k] == LineRowOf(parentId, items[k - base - 1])
    requires t.products.Keys == ps.Keys && forall p :: p in ps ==> t.products[p].costPrice == ps[p].costPrice
    ensures CostOfGoods(t, base + j, start, end)
            == CostOfGoods(t, base, start, end)
               + (if start <= t.invoices[parentId].date <= end then ItemsCost(ps, items[..j]) else 0.0)
    decreases j
  {
    if j > 0 {
      NewLinesCost(t, base, parentId, ps, items, start, end, j - 1);
      var it := items[j - 1];
      assert t.invoiceItems[base + j] == LineRowOf(parentId, it);
      assert items[..j][..j - 1] == items[..j - 1];
      assert ItemsCost(ps, items[..j])
             == ItemsCost(ps, items[..j - 1]) + (if it.productId in ps then (it.quantity as real) * ps[it.productId].costPrice else 0.0);
      assert LineCost(t, base + j, start, end)
             == (if start <= t.invoices[parentId].date <= end && it.productId in ps
                 then (it.quantity as real) * ps[it.productId].costPrice else 0.0);
    }
  }

  /**
   * A store that keeps every invoice line, invoice and cost price of another and appends one line
   * per item for invoice `parentId` costs what the other costs plus those items.
   */
  lemma AppendedLinesCost(t: Tables, t': Tables, parentId: int, items: seq<LineItem>, start: Date, end: Date)
    requires 1 <= t.nextInvoiceItemId && t'.nextInvoiceItemId == t.nextInvoiceItemId + |items|
    requires forall k :: 1 <= k < t.nextInvoiceItemId ==> k in t.invoiceItems
    requires LinesOwnedBy(t.invoiceItems, t.invoices)
    requires forall k :: k in t.invoiceItems ==> k in t'.invoiceItems && t'.invoiceItems[k] == t.invoiceItems[k]
    requires forall k :: t.nextInvoiceItemId <= k < t'.nextInvoiceItemId ==>
               k in t'.invoiceItems && t'.invoiceItems[k] == LineRowOf(parentId, items[k - t.nextInvoiceItemId])
    requires t.invoices.Keys <= t'.invoices.Keys && forall k :: k in t.invoices ==> t'.invoices[k] == t.invoices[k]
    requires parentId in t'.invoices
    requires t'.products.Keys == t.products.Keys
    requires forall p :: p in t.products ==> t'.products[p].costPrice == t.products[p].costPrice
    ensures CostOfGoods(t', t'.nextInvoiceItemId - 1, start, end)
            == CostOfGoods(t, t.nextInvoiceItemId - 1, start, end)
               + (if start <= t'.invoices[parentId].date <= end then ItemsCost(t.products, items) else 0.0)
  {
    var base := t.nextInvoiceItemId - 1;
    OldLinesKeepCost(t, t', base, start, end);
    NewLinesCost(t', base, parentId, t.products, items, start, end, |items|);
    assert items[..|items|] == items;
  }

  /**
   * A committed invoice dated in range adds, for each item, its quantity times the current cost
   * price of its product to the P&L's cost of goods; an invoice out of range adds nothing.
   */
  lemma InvoiceAddsCostOfGoods(t: Tables, d: InvoiceData, items: seq<LineItem>, start: Date, end: Date)
    requires WellFormed(t)
    ensures ProfitLossReport(InvoiceCommitted(t, d, items), start, end).totalCost
            == ProfitLossReport(t, start, end).totalCost + (if start <= d.date <= end then ItemsCost(t.products, items) else 0.0)
  {
    InvoiceLinesCost(t, d, items, start, end);
  }

  lemma InvoiceLinesCost(t: Tables, d: InvoiceData, items: seq<LineItem>, start: Date, end: Date)
    requires WellFormed(t)
    ensures var t' := InvoiceCommitted(t, d, items);
            CostOfGoods(t', t'.nextInvoiceItemId - 1, start, end)
            == CostOfGoods(t, t.nextInvoiceItemId - 1, start, end) + (if start <= d.date <= end then ItemsCost(t.products, items) else 0.0)
  {
    var t' := InvoiceCommitted(t, d, items);
    InvoiceLinesInserted(t, d, items);
    InvoiceKeepsOldRows(t, d, items);
    AppendedLinesCost(t, t', t.nextInvoiceId, items, start, end);
  }

  /**
   * One customer, one product (price 10, cost 6, stock 50), one invoice of 5 units for 50 with 30
   * paid on day 100, then a return of 2 units on day 102 refunding 20.
   */
  const ExampleStore := WithProduct(WithCustomer(EmptyTables, CustomerData("Acme", "0100000000", None, None, None, None)),
                                    ProductData("Widget", None, None, 10.0, Some(6.0), 50, Some(5), None))
  const ExampleInvoice := InvoiceData(1, 100, 50.0, 30.0, 20.0)
  const ExampleInvoiceItems := [LineItem(1, 5, 10.0, 50.0)]
  const ExampleReturn := ReturnData(1, 1, 102, 20.0, Some(20.0), None, None, None)
  const ExampleReturnItems := [LineItem(1, 2, 10.0, 20.0)]

  lemma ExampleStoreWellFormed()
    ensures WellFormed(ExampleStore)
    ensures ExampleStore.customers.Keys == {1} && ExampleStore.products.Keys == {1}
    ensures ExampleStore.products[1].costPrice == 6.0
    ensures ExampleStore.invoices == map[] && ExampleStore.nextInvoiceId == 1
    ensures ExampleStore.invoiceItems == map[] && ExampleStore.nextInvoiceItemId == 1
    ensures ExampleStore.returnRows == map[] && ExampleStore.nextReturnId == 1
  {
    EmptyTablesWellFormed();
  }

  /** Who owes after the sale and after the return that refunds the whole remaining amount. */
  lemma ExampleDebtors()
    ensures var t := InvoiceCommitted(ExampleStore, ExampleInvoice, ExampleInvoiceItems);
            var t' := ReturnCommitted(t, ExampleReturn, ExampleReturnItems);
            DebtorCustomers(t) == [Debtor(1, "Acme", "0100000000", 20.0)] && DebtorCustomers(t') == []
  {
    ExampleReports();
    ExampleStoreWellFormed();
    var t := InvoiceCommitted(ExampleStore, ExampleInvoice, ExampleInvoiceItems);
    var t' := ReturnCommitted(t, ExampleReturn, ExampleReturnItems);
    assert t.customers == ExampleStore.customers && t.nextCustomerId == 2;
    assert t.customers[1] == CustomerRow("Acme", "0100000000", None, None, None, None);
    var r := DebtorCustomers(t);
    assert DebtorsUpTo(t, 1) == [Debtor(1, "Acme", "0100000000", 20.0)];
    assert multiset(r) == multiset{Debtor(1, "Acme", "0100000000", 20.0)};
    assert |r| == 1 && r[0] in multiset(r);
    assert t'.customers == t.customers && t'.nextCustomerId == 2;
    assert DebtorsUpTo(t', 1) == [];
    assert |multiset(DebtorCustomers(t'))| == 0;
  }

  /** The reports over days 90 .. 110 after the sale and after the return. */
  lemma ExampleReports()
    ensures var t := InvoiceCommitted(ExampleStore, ExampleInvoice, ExampleInvoiceItems);
            var sales := SalesReport(t, 90, 110);
            var pl := ProfitLossReport(t, 90, 110);
      && sales.invoices == [1] && sales.totalSales == 50.0 && sales.totalPaid == 30.0
      && pl.totalCost == 30.0 && pl.grossProfit == 20.0 && pl.netProfit == 0.0 && pl.profitMargin == 0.0
      && Balance(t, 1) == 20.0
    ensures var t := InvoiceCommitted(ExampleStore, ExampleInvoice, ExampleInvoiceItems);
            var t' := ReturnCommitted(t, ExampleReturn, ExampleReturnItems);
            var flow := CashflowReport(t', 90, 110);
      && flow.totalInflow == 10.0 && flow.totalOutflow == 20.0 && flow.netCashflow == -10.0
      && Balance(t', 1) == 0.0
  {
    var t0 := ExampleStore;
    ExampleStoreWellFormed();
    InvoiceEntersSalesReport(t0, ExampleInvoice, ExampleInvoiceItems, 90, 110);
    InvoiceEntersCashflow(t0, ExampleInvoice, ExampleInvoiceItems, 90, 110);
    InvoiceAddsCostOfGoods(t0, ExampleInvoice, ExampleInvoiceItems, 90, 110);
    InvoiceAddsToBalance(t0, ExampleInvoice, ExampleInvoiceItems, 1);
    assert ItemsCost(t0.products, ExampleInvoiceItems) == 30.0 by {
      assert ExampleInvoiceItems[..0] == [];
    }
    var t := InvoiceCommitted(t0, ExampleInvoice, ExampleInvoiceItems);
    assert t.returnRows == map[] && t.nextReturnId == 1;
    assert t.invoices[1] == HeaderOf(ExampleInvoice);
    ReturnEntersCashflow(t, ExampleReturn, ExampleReturnItems, 90, 110);
    ReturnReducesBalance(t, ExampleReturn, ExampleReturnItems, 1);
  }

  // ---------------------------------------------------------------- get_products_with_filters

  /** The stock_status argument: the low-stock and out-of-stock labels, anything else means every product. */
  datatype StockFilter = AnyStock | LowStock | OutOfStock

  const LowStockLabel := "مخزون منخفض"
  const OutOfStockLabel := "غير متوفر"

  function StockFilterOf(status: string): (f: StockFilter)
    ensures f == LowStock <==> status == LowStockLabel
    ensures f == OutOfStock <==> status == OutOfStockLabel
  {
    if status == LowStockLabel then LowStock else if status == OutOfStockLabel then OutOfStock else AnyStock
  }

  predicate PassesStockFilter(f: StockFilter, p: ProductRow) {
    match f
    case AnyStock => true
    case LowStock => p.quantity <= p.minStock && p.quantity > 0
    case OutOfStock => p.quantity == 0
  }

  function ProductsUpTo(ps: map<int, ProductRow>, n: int, f: StockFilter): (ids: seq<int>)
    ensures forall k :: k in ids <==> 1 <= k <= n && k in ps && PassesStockFilter(f, ps[k])
    ensures forall i, j :: 0 <= i < j < |ids| ==> ids[i] < ids[j]
    decreases n
  {
    if n <= 0 then []
    else
      var prefix := ProductsUpTo(ps, n - 1, f);
      assert forall i :: 0 <= i < |prefix| ==> prefix[i] in prefix;
      prefix + (if n in ps && PassesStockFilter(f, ps[n]) then [n] else [])
  }

  /** The ids of the products that pass the stock filter named by `status`, in id order. */
  function ProductsWithStockFilter(t: Tables, status: string): (ids: seq<int>)
    ensures forall k :: k in ids <==>
              1 <= k < t.nextProductId && k in t.products && PassesStockFilter(StockFilterOf(status), t.products[k])
    ensures forall i, j :: 0 <= i < j < |ids| ==> ids[i] < ids[j]
  {
    ProductsUpTo(t.products, t.nextProductId - 1, StockFilterOf(status))
  }
}
