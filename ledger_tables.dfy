/**
 * The six tables of the retail ledger as values, and the effect of each committed
 * write operation of the store on them.
 *
 * Every table uses an AUTOINCREMENT integer key: ids start at 1, are handed out in
 * order, are never reused, and a rolled-back insert does not consume one. Nothing in
 * the store deletes a row, so the keys of each table are exactly 1 .. next - 1.
 */
module LedgerTables {
  import opened Wrappers

  /** A calendar date as a day number. The store keeps ISO 'YYYY-MM-DD' text, which orders like day numbers. */
  type Date = int

  datatype CustomerRow = CustomerRow(
    name: string, phone: string, email: Option<string>, company: Option<string>,
    address: Option<string>, notes: Option<string>)

  datatype ProductRow = ProductRow(
    name: string, sku: Option<string>, category: Option<string>, price: real, costPrice: real,
    quantity: int, minStock: int, description: Option<string>)

  datatype InvoiceRow = InvoiceRow(
    customerId: int, date: Date, totalAmount: real, paidAmount: real, remainingAmount: real,
    status: string, notes: Option<string>)

  /** A row of invoice_items (parent = invoice) or of return_items (parent = return): both have these columns. */
  datatype LineRow = LineRow(parentId: int, productId: int, quantity: int, price: real, totalAmount: real)

  datatype ReturnRow = ReturnRow(
    invoiceId: int, customerId: int, returnDate: Date, totalAmount: real, refundAmount: real,
    status: string, reason: string, notes: string)

  /** The whole store: one map per table and the next id its AUTOINCREMENT key will hand out. */
  datatype Tables = Tables(
    customers: map<int, CustomerRow>, nextCustomerId: int,
    products: map<int, ProductRow>, nextProductId: int,
    invoices: map<int, InvoiceRow>, nextInvoiceId: int,
    invoiceItems: map<int, LineRow>, nextInvoiceItemId: int,
    returnRows: map<int, ReturnRow>, nextReturnId: int,
    returnItems: map<int, LineRow>, nextReturnItemId: int)

  /** The payloads callers pass; an `Option` field is a dictionary key the caller may leave out. */
  datatype CustomerData = CustomerData(
    name: string, phone: string, email: Option<string>, company: Option<string>,
    address: Option<string>, notes: Option<string>)

  datatype ProductData = ProductData(
    name: string, sku: Option<string>, category: Option<string>, price: real, costPrice: Option<real>,
    quantity: int, minStock: Option<int>, description: Option<string>)

  datatype InvoiceData = InvoiceData(
    customerId: int, date: Date, totalAmount: real, paidAmount: real, remainingAmount: real)

  /** One entry of the `items` list of an invoice or a return. */
  datatype LineItem = LineItem(productId: int, quantity: int, price: real, total: real)

  datatype ReturnData = ReturnData(
    invoiceId: int, customerId: int, returnDate: Date, totalAmount: real, refundAmount: Option<real>,
    status: Option<string>, reason: Option<string>, notes: Option<string>)

  const EmptyTables := Tables(map[], 1, map[], 1, map[], 1, map[], 1, map[], 1, map[], 1)

  // ---------------------------------------------------------------- invariants

  /** The keys are exactly 1 .. next - 1. */
  ghost predicate Dense<V>(m: map<int, V>, next: int) {
    1 <= next && forall k :: k in m <==> 1 <= k < next
  }

  /** Every line row belongs to a header that exists. */
  ghost predicate LinesOwnedBy<H>(lines: map<int, LineRow>, heads: map<int, H>) {
    forall k :: k in lines ==> lines[k].parentId in heads
  }

  ghost predicate WellFormed(t: Tables) {
    && Dense(t.customers, t.nextCustomerId)
    && Dense(t.products, t.nextProductId)
    && Dense(t.invoices, t.nextInvoiceId)
    && Dense(t.invoiceItems, t.nextInvoiceItemId)
    && Dense(t.returnRows, t.nextReturnId)
    && Dense(t.returnItems, t.nextReturnItemId)
    && LinesOwnedBy(t.invoiceItems, t.invoices)
    && LinesOwnedBy(t.returnItems, t.returnRows)
  }

  lemma EmptyTablesWellFormed()
    ensures WellFormed(EmptyTables)
  {
  }

  ghost predicate StockNonNegative(ps: map<int, ProductRow>) {
    forall p :: p in ps ==> ps[p].quantity >= 0
  }

  // ---------------------------------------------------------------- customers and products

  predicate PhoneTaken(t: Tables, phone: string) {
    exists k :: k in t.customers && t.customers[k].phone == phone
  }

  /** Columns the caller leaves out are stored as NULL. */
  function CustomerRowOf(d: CustomerData): CustomerRow {
    CustomerRow(d.name, d.phone, d.email, d.company, d.address, d.notes)
  }

  /** A committed add_customer: one new row under the next id. */
  function WithCustomer(t: Tables, d: CustomerData): (t': Tables)
    requires WellFormed(t)
    ensures WellFormed(t')
    ensures t.nextCustomerId !in t.customers && t'.customers.Keys == t.customers.Keys + {t.nextCustomerId}
    ensures t'.customers[t.nextCustomerId] == CustomerRowOf(d)
    ensures forall k :: k in t.customers ==> t'.customers[k] == t.customers[k]
    ensures PhoneTaken(t', d.phone)
    ensures t' == t.(customers := t'.customers, nextCustomerId := t'.nextCustomerId)
  {
    t.(customers := t.customers[t.nextCustomerId := CustomerRowOf(d)], nextCustomerId := t.nextCustomerId + 1)
  }

  /** A SKU is UNIQUE but may be NULL any number of times. */
  predicate SkuTaken(t: Tables, sku: Option<string>) {
    sku.Some? && exists k :: k in t.products && t.products[k].sku == sku
  }

  /** Every supplied column is stored; cost_price defaults to 0 and min_stock to 10 when left out. */
  function ProductRowOf(d: ProductData): (r: ProductRow)
    ensures r.costPrice == (if d.costPrice.Some? then d.costPrice.value else 0.0)
    ensures r.minStock == (if d.minStock.Some? then d.minStock.value else 10)
    ensures r.name == d.name && r.sku == d.sku && r.category == d.category && r.description == d.description
    ensures r.quantity == d.quantity && r.price == d.price
  {
    ProductRow(d.name, d.sku, d.category, d.price, d.costPrice.GetOr(0.0), d.quantity,
               d.minStock.GetOr(10), d.description)
  }

  /** A committed add_product: one new row under the next id. */
  function WithProduct(t: Tables, d: ProductData): (t': Tables)
    requires WellFormed(t)
    ensures WellFormed(t')
    ensures t.nextProductId !in t.products && t'.products.Keys == t.products.Keys + {t.nextProductId}
    ensures t'.products[t.nextProductId] == ProductRowOf(d)
    ensures forall k :: k in t.products ==> t'.products[k] == t.products[k]
    ensures t' == t.(products := t'.products, nextProductId := t'.nextProductId)
  {
    t.(products := t.products[t.nextProductId := ProductRowOf(d)], nextProductId := t.nextProductId + 1)
  }

  // ---------------------------------------------------------------- stock updates

  /** `UPDATE products SET quantity = quantity + delta WHERE id = pid`: no row matches a missing id. */
  function AdjustStock(ps: map<int, ProductRow>, pid: int, delta: int): (r: map<int, ProductRow>)
    ensures r.Keys == ps.Keys
    ensures forall p :: p in ps && p != pid ==> r[p] == ps[p]
    ensures pid in ps ==> r[pid] == ps[pid].(quantity := ps[pid].quantity + delta)
  {
    if pid in ps then ps[pid := ps[pid].(quantity := ps[pid].quantity + delta)] else ps
  }

  /** A committed update_product_quantity: an absolute overwrite of one product's quantity. */
  function SetStock(t: Tables, pid: int, q: int): (t': Tables)
    requires WellFormed(t)
    ensures WellFormed(t')
    ensures t'.products.Keys == t.products.Keys
    ensures pid in t.products ==> t'.products[pid] == t.products[pid].(quantity := q)
    ensures forall p :: p in t.products && p != pid ==> t'.products[p] == t.products[p]
    ensures t' == t.(products := t'.products)
  {
    if pid in t.products then t.(products := t.products[pid := t.products[pid].(quantity := q)]) else t
  }

  /**
   * A committed reduce_product_quantity: the WHERE clause `quantity >= q` makes the
   * decrement happen only when it leaves a quantity of at least zero; otherwise no row changes.
   */
  function ReduceStock(t: Tables, pid: int, q: int): (t': Tables)
    requires WellFormed(t)
    ensures WellFormed(t')
    ensures t'.products.Keys == t.products.Keys
    ensures forall p :: p in t.products && p != pid ==> t'.products[p] == t.products[p]
    ensures pid in t.products && t.products[pid].quantity >= q ==>
              t'.products[pid] == t.products[pid].(quantity := t.products[pid].quantity - q)
    ensures pid in t.products && t.products[pid].quantity < q ==> t' == t
    ensures pid in t.products ==> t'.products[pid].quantity >= 0 || t'.products[pid] == t.products[pid]
    ensures t' == t.(products := t'.products)
  {
    if pid in t.products && t.products[pid].quantity >= q
    then t.(products := AdjustStock(t.products, pid, -q))
    else t
  }

  /** The store after a series of reduce_product_quantity calls, each committed, in order. */
  function ReduceAll(t: Tables, calls: seq<(int, int)>): (t': Tables)
    requires WellFormed(t)
    ensures WellFormed(t')
    ensures t'.products.Keys == t.products.Keys
    decreases |calls|
  {
    if calls == [] then t
    else ReduceStock(ReduceAll(t, calls[..|calls| - 1]), calls[|calls| - 1].0, calls[|calls| - 1].1)
  }

  /** No sequence of guarded decrements can take a non-negative stock below zero. */
  lemma {:induction false} ReductionsKeepStockNonNegative(t: Tables, calls: seq<(int, int)>)
    requires WellFormed(t) && StockNonNegative(t.products)
    ensures StockNonNegative(ReduceAll(t, calls).products)
    decreases |calls|
  {
    if calls != [] {
      ReductionsKeepStockNonNegative(t, calls[..|calls| - 1]);
    }
  }

  // ---------------------------------------------------------------- line items

  function LineRowOf(parentId: int, it: LineItem): LineRow {
    LineRow(parentId, it.productId, it.quantity, it.price, it.total)
  }

  /** The rows the items loop inserts: the j-th item is stored under id next + j. */
  function AppendLines(rows: map<int, LineRow>, next: int, parentId: int, items: seq<LineItem>): map<int, LineRow>
    decreases |items|
  {
    if items == [] then rows
    else AppendLines(rows, next, parentId, items[..|items| - 1])[next + |items| - 1 := LineRowOf(parentId, items[|items| - 1])]
  }

  lemma {:induction false} AppendLinesSpec(rows: map<int, LineRow>, next: int, parentId: int, items: seq<LineItem>)
    requires forall k :: k in rows ==> k < next
    ensures forall k :: k in AppendLines(rows, next, parentId, items) <==> k in rows || next <= k < next + |items|
    ensures forall k :: k in rows ==> AppendLines(rows, next, parentId, items)[k] == rows[k]
    ensures forall k :: next <= k < next + |items| ==>
              AppendLines(rows, next, parentId, items)[k] == LineRowOf(parentId, items[k - next])
    decreases |items|
  {
    if items != [] {
      var init := items[..|items| - 1];
      AppendLinesSpec(rows, next, parentId, init);
      assert forall j :: 0 <= j < |init| ==> init[j] == items[j];
    }
  }

  lemma AppendLinesOwned<H>(rows: map<int, LineRow>, next: int, parentId: int, items: seq<LineItem>, heads: map<int, H>)
    requires forall k :: k in rows ==> k < next
    requires LinesOwnedBy(rows, heads) && parentId in heads
    ensures LinesOwnedBy(AppendLines(rows, next, parentId, items), heads)
  {
    AppendLinesSpec(rows, next, parentId, items);
    var r := AppendLines(rows, next, parentId, items);
    forall k | k in r
      ensures r[k].parentId in heads
    {
      if k !in rows {
        assert r[k] == LineRowOf(parentId, items[k - next]);
      }
    }
  }

  /** Total quantity of the items that name product `pid`; repeated entries add up. */
  function QuantityOf(items: seq<LineItem>, pid: int): int
    decreases |items|
  {
    if items == [] then 0
    else QuantityOf(items[..|items| - 1], pid) + (if items[|items| - 1].productId == pid then items[|items| - 1].quantity else 0)
  }

  lemma {:induction false} QuantityOfUnnamed(items: seq<LineItem>, pid: int)
    requires forall j :: 0 <= j < |items| ==> items[j].productId != pid
    ensures QuantityOf(items, pid) == 0
    decreases |items|
  {
    if items != [] {
      QuantityOfUnnamed(items[..|items| - 1], pid);
    }
  }

  /** Stock after each item's quantity has been moved by `sign` (-1 on a sale, +1 on a return), in order. */
  function MoveStock(ps: map<int, ProductRow>, items: seq<LineItem>, sign: int): map<int, ProductRow>
    decreases |items|
  {
    if items == [] then ps
    else AdjustStock(MoveStock(ps, items[..|items| - 1], sign), items[|items| - 1].productId, sign * items[|items| - 1].quantity)
  }

  lemma {:induction false} MoveStockSpec(ps: map<int, ProductRow>, items: seq<LineItem>, sign: int)
    ensures MoveStock(ps, items, sign).Keys == ps.Keys
    ensures forall p :: p in ps ==>
              MoveStock(ps, items, sign)[p] == ps[p].(quantity := ps[p].quantity + sign * QuantityOf(items, p))
    decreases |items|
  {
    if items != [] {
      var init := items[..|items| - 1];
      var last := items[|items| - 1];
      MoveStockSpec(ps, init, sign);
      forall p | p in ps
        ensures MoveStock(ps, items, sign)[p] == ps[p].(quantity := ps[p].quantity + sign * QuantityOf(items, p))
      {
        if last.productId == p {
          assert sign * QuantityOf(items, p) == sign * QuantityOf(init, p) + sign * last.quantity;
        }
      }
    }
  }

  // ---------------------------------------------------------------- create_invoice

  /** The new header stores the caller's three amounts verbatim; status takes its column default. */
  function HeaderOf(d: InvoiceData): InvoiceRow {
    InvoiceRow(d.customerId, d.date, d.totalAmount, d.paidAmount, d.remainingAmount, "active", None)
  }

  /** A committed create_invoice: header, then one line row per item, then the stock decrements. */
  function InvoiceCommitted(t: Tables, d: InvoiceData, items: seq<LineItem>): (t': Tables)
    requires WellFormed(t)
    ensures WellFormed(t')
    ensures t.nextInvoiceId !in t.invoices && t'.invoices.Keys == t.invoices.Keys + {t.nextInvoiceId}
    ensures forall k :: k in t.invoices ==> t'.invoices[k] == t.invoices[k]
    ensures var h := t'.invoices[t.nextInvoiceId];
              && h.customerId == d.customerId && h.date == d.date
              && h.totalAmount == d.totalAmount && h.paidAmount == d.paidAmount
              && h.remainingAmount == d.remainingAmount && h.status == "active"
    ensures t'.customers == t.customers && t'.returnRows == t.returnRows && t'.returnItems == t.returnItems
  {
    var id := t.nextInvoiceId;
    var invoices := t.invoices[id := HeaderOf(d)];
    AppendLinesSpec(t.invoiceItems, t.nextInvoiceItemId, id, items);
    AppendLinesOwned(t.invoiceItems, t.nextInvoiceItemId, id, items, invoices);
    MoveStockSpec(t.products, items, -1);
    t.(invoices := invoices, nextInvoiceId := id + 1,
       invoiceItems := AppendLines(t.invoiceItems, t.nextInvoiceItemId, id, items),
       nextInvoiceItemId := t.nextInvoiceItemId + |items|,
       products := MoveStock(t.products, items, -1))
  }

  /** Each item gets one invoice_items row, linked to the new invoice, after the existing rows. */
  lemma InvoiceLinesInserted(t: Tables, d: InvoiceData, items: seq<LineItem>)
    requires WellFormed(t)
    ensures var t' := InvoiceCommitted(t, d, items);
      && t'.nextInvoiceItemId == t.nextInvoiceItemId + |items|
      && (forall k :: k in t.invoiceItems ==> k in t'.invoiceItems && t'.invoiceItems[k] == t.invoiceItems[k])
      && (forall k :: t.nextInvoiceItemId <= k < t'.nextInvoiceItemId ==>
            k in t'.invoiceItems && t'.invoiceItems[k] == LineRowOf(t.nextInvoiceId, items[k - t.nextInvoiceItemId]))
  {
    AppendLinesSpec(t.invoiceItems, t.nextInvoiceItemId, t.nextInvoiceId, items);
  }

  /** Rows that existed keep their place, and every product keeps its cost price. */
  lemma InvoiceKeepsOldRows(t: Tables, d: InvoiceData, items: seq<LineItem>)
    requires WellFormed(t)
    ensures var t' := InvoiceCommitted(t, d, items);
      && 1 <= t.nextInvoiceItemId
      && (forall k :: 1 <= k < t.nextInvoiceItemId ==> k in t.invoiceItems)
      && LinesOwnedBy(t.invoiceItems, t.invoices)
      && t.invoices.Keys <= t'.invoices.Keys && (forall k :: k in t.invoices ==> t'.invoices[k] == t.invoices[k])
      && t.nextInvoiceId in t'.invoices && t'.invoices[t.nextInvoiceId].date == d.date
      && t'.products.Keys == t.products.Keys
      && forall p :: p in t.products ==> t'.products[p].costPrice == t.products[p].costPrice
  {
    InvoiceStockMoved(t, d, items);
  }

  /**
   * Every product loses the summed quantity of the items that name it, with no floor at zero;
   * its other columns do not change, and no product row appears or disappears.
   */
  lemma InvoiceStockMoved(t: Tables, d: InvoiceData, items: seq<LineItem>)
    requires WellFormed(t)
    ensures var t' := InvoiceCommitted(t, d, items);
      && t'.products.Keys == t.products.Keys
      && forall p :: p in t.products ==>
           t'.products[p] == t.products[p].(quantity := t.products[p].quantity - QuantityOf(items, p))
  {
    MoveStockSpec(t.products, items, -1);
  }

  /** A product that no item names keeps its row. */
  lemma InvoiceLeavesOtherProducts(t: Tables, d: InvoiceData, items: seq<LineItem>, p: int)
    requires WellFormed(t) && p in t.products
    requires forall j :: 0 <= j < |items| ==> items[j].productId != p
    ensures InvoiceCommitted(t, d, items).products[p] == t.products[p]
  {
    InvoiceStockMoved(t, d, items);
    QuantityOfUnnamed(items, p);
  }

  /** The invoice transaction does not re-check stock: selling 5 of a product with 3 leaves -2. */
  lemma InvoiceCanOversell()
    ensures var t := EmptyTables.(products := map[1 := ProductRow("Widget", None, None, 10.0, 6.0, 3, 10, None)], nextProductId := 2);
            var t' := InvoiceCommitted(t, InvoiceData(1, 0, 50.0, 0.0, 50.0), [LineItem(1, 5, 10.0, 50.0)]);
            t'.products[1].quantity == -2
  {
    var t := EmptyTables.(products := map[1 := ProductRow("Widget", None, None, 10.0, 6.0, 3, 10, None)], nextProductId := 2);
    InvoiceStockMoved(t, InvoiceData(1, 0, 50.0, 0.0, 50.0), [LineItem(1, 5, 10.0, 50.0)]);
  }

  // ---------------------------------------------------------------- create_return

  /** refund_amount defaults to 0, status to 'pending', reason and notes to ''. */
  function ReturnHeaderOf(d: ReturnData): ReturnRow {
    ReturnRow(d.invoiceId, d.customerId, d.returnDate, d.totalAmount, d.refundAmount.GetOr(0.0),
              d.status.GetOr("pending"), d.reason.GetOr(""), d.notes.GetOr(""))
  }

  /** The refund UPDATE runs only for a positive refund and matches no row for an unknown invoice. */
  function ApplyRefund(invoices: map<int, InvoiceRow>, invoiceId: int, refund: real): map<int, InvoiceRow> {
    if refund > 0.0 && invoiceId in invoices
    then invoices[invoiceId := invoices[invoiceId].(remainingAmount := invoices[invoiceId].remainingAmount - refund,
                                                   paidAmount := invoices[invoiceId].paidAmount - refund)]
    else invoices
  }

  /** A committed create_return: header, line rows, stock increments, then the refund adjustment. */
  function ReturnCommitted(t: Tables, d: ReturnData, items: seq<LineItem>): (t': Tables)
    requires WellFormed(t)
    ensures WellFormed(t')
    ensures t.nextReturnId !in t.returnRows && t'.returnRows.Keys == t.returnRows.Keys + {t.nextReturnId}
    ensures forall k :: k in t.returnRows ==> t'.returnRows[k] == t.returnRows[k]
    ensures var h := t'.returnRows[t.nextReturnId];
              && h.invoiceId == d.invoiceId && h.customerId == d.customerId && h.returnDate == d.returnDate
              && h.totalAmount == d.totalAmount
              && h.refundAmount == (if d.refundAmount.Some? then d.refundAmount.value else 0.0)
              && h.status == (if d.status.Some? then d.status.value else "pending")
              && h.reason == (if d.reason.Some? then d.reason.value else "")
              && h.notes == (if d.notes.Some? then d.notes.value else "")
    ensures t'.customers == t.customers && t'.invoiceItems == t.invoiceItems
  {
    var id := t.nextReturnId;
    var headers := t.returnRows[id := ReturnHeaderOf(d)];
    AppendLinesSpec(t.returnItems, t.nextReturnItemId, id, items);
    AppendLinesOwned(t.returnItems, t.nextReturnItemId, id, items, headers);
    MoveStockSpec(t.products, items, 1);
    t.(returnRows := headers, nextReturnId := id + 1,
       returnItems := AppendLines(t.returnItems, t.nextReturnItemId, id, items),
       nextReturnItemId := t.nextReturnItemId + |items|,
       products := MoveStock(t.products, items, 1),
       invoices := ApplyRefund(t.invoices, d.invoiceId, d.refundAmount.GetOr(0.0)))
  }

  /**
   * After a return the invoices table is the refund adjustment of the one before, and the returns
   * table has gained exactly the new header.
   */
  lemma ReturnRefundApplied(t: Tables, d: ReturnData, items: seq<LineItem>)
    requires WellFormed(t)
    ensures var t' := ReturnCommitted(t, d, items);
      && t'.invoices == ApplyRefund(t.invoices, d.invoiceId, d.refundAmount.GetOr(0.0)) && t'.nextInvoiceId == t.nextInvoiceId
      && t'.returnRows == t.returnRows[t.nextReturnId := ReturnHeaderOf(d)] && t'.nextReturnId == t.nextReturnId + 1
      && t'.customers == t.customers
  {
  }

  /** Each returned item gets one return_items row, linked to the new return. */
  lemma ReturnLinesInserted(t: Tables, d: ReturnData, items: seq<LineItem>)
    requires WellFormed(t)
    ensures var t' := ReturnCommitted(t, d, items);
      && t'.nextReturnItemId == t.nextReturnItemId + |items|
      && (forall k :: k in t.returnItems ==> t'.returnItems[k] == t.returnItems[k])
      && (forall k :: t.nextReturnItemId <= k < t'.nextReturnItemId ==>
            k in t'.returnItems && t'.returnItems[k] == LineRowOf(t.nextReturnId, items[k - t.nextReturnItemId]))
  {
    AppendLinesSpec(t.returnItems, t.nextReturnItemId, t.nextReturnId, items);
  }

  /** Every product gains the summed quantity of the returned items that name it. */
  lemma ReturnStockMoved(t: Tables, d: ReturnData, items: seq<LineItem>)
    requires WellFormed(t)
    ensures var t' := ReturnCommitted(t, d, items);
      && t'.products.Keys == t.products.Keys
      && forall p :: p in t.products ==>
           t'.products[p] == t.products[p].(quantity := t.products[p].quantity + QuantityOf(items, p))
  {
    MoveStockSpec(t.products, items, 1);
  }

  /**
   * With a positive refund, only the referenced invoice changes, and its paid and remaining
   * amounts each drop by exactly the refund; with no refund or a refund of at most 0, no invoice changes.
   */
  lemma ReturnRefundAdjustment(t: Tables, d: ReturnData, items: seq<LineItem>)
    requires WellFormed(t)
    ensures var t' := ReturnCommitted(t, d, items);
            var r := if d.refundAmount.Some? then d.refundAmount.value else 0.0;
      && t'.invoices.Keys == t.invoices.Keys
      && (forall k :: k in t.invoices && (k != d.invoiceId || r <= 0.0) ==> t'.invoices[k] == t.invoices[k])
      && (r > 0.0 && d.invoiceId in t.invoices ==>
            t'.invoices[d.invoiceId] == t.invoices[d.invoiceId].(
              paidAmount := t.invoices[d.invoiceId].paidAmount - r,
              remainingAmount := t.invoices[d.invoiceId].remainingAmount - r))
  {
  }
}
