/**
 * The ledger store: one map per table, updated in place by the write operations of
 * database.py. A multi-statement operation works on private copies of the tables
 * (the open transaction) and copies them back only at commit; a statement that
 * raises abandons the copies, which is the rollback.
 */
module Database {
  import opened Wrappers
  import opened LedgerTables

  /**
   * One statement handed to the storage engine. It may raise for reasons outside the
   * model (a locked or unwritable file, a full disk, a constraint the model does not
   * track); the contract therefore promises nothing about the outcome.
   */
  method Attempt() returns (ok: bool)
  {
    ok :| true;
  }

  class DatabaseManager {
    var customers: map<int, CustomerRow>
    var nextCustomerId: int
    var products: map<int, ProductRow>
    var nextProductId: int
    var invoices: map<int, InvoiceRow>
    var nextInvoiceId: int
    var invoiceItems: map<int, LineRow>
    var nextInvoiceItemId: int
    var returnRows: map<int, ReturnRow>
    var nextReturnId: int
    var returnItems: map<int, LineRow>
    var nextReturnItemId: int

    /** The committed contents of the store. */
    function State(): Tables
      reads this
    {
      Tables(customers, nextCustomerId, products, nextProductId, invoices, nextInvoiceId,
             invoiceItems, nextInvoiceItemId, returnRows, nextReturnId, returnItems, nextReturnItemId)
    }

    ghost predicate Valid()
      reads this
    {
      WellFormed(State())
    }

    /** init_database on a fresh file: six empty tables. */
    constructor ()
      ensures Valid() && State() == EmptyTables
    {
      customers, nextCustomerId := map[], 1;
      products, nextProductId := map[], 1;
      invoices, nextInvoiceId := map[], 1;
      invoiceItems, nextInvoiceItemId := map[], 1;
      returnRows, nextReturnId := map[], 1;
      returnItems, nextReturnItemId := map[], 1;
    }

    /** add_customer: one INSERT; a phone already on file violates UNIQUE and fails. */
    method AddCustomer(data: CustomerData) returns (id: Option<int>)
      requires Valid()
      modifies this
      ensures Valid()
      ensures id.Some? ==> id.value == old(nextCustomerId) && State() == WithCustomer(old(State()), data)
      ensures id.None? ==> State() == old(State())
      ensures PhoneTaken(old(State()), data.phone) ==> id.None?
    {
      var ok := Attempt();
      if !ok || PhoneTaken(State(), data.phone) {
        return None;
      }
      id := Some(nextCustomerId);
      customers := customers[nextCustomerId := CustomerRow(data.name, data.phone, data.email, data.company, data.address, data.notes)];
      nextCustomerId := nextCustomerId + 1;
    }

    /** add_product: one INSERT; a SKU already on file violates UNIQUE and fails. */
    method AddProduct(data: ProductData) returns (id: Option<int>)
      requires Valid()
      modifies this
      ensures Valid()
      ensures id.Some? ==> id.value == old(nextProductId) && State() == WithProduct(old(State()), data)
      ensures id.None? ==> State() == old(State())
      ensures SkuTaken(old(State()), data.sku) ==> id.None?
    {
      var ok := Attempt();
      if !ok || SkuTaken(State(), data.sku) {
        return None;
      }
      id := Some(nextProductId);
      products := products[nextProductId := ProductRowOf(data)];
      nextProductId := nextProductId + 1;
    }

    /**
     * update_product_quantity: overwrite the quantity. The result says only whether the
     * statement raised; an unknown id matches no row and still reports success.
     */
    method UpdateProductQuantity(productId: int, newQuantity: int) returns (ok: bool)
      requires Valid()
      modifies this
      ensures Valid()
      ensures ok ==> State() == SetStock(old(State()), productId, newQuantity)
      ensures !ok ==> State() == old(State())
    {
      ok := Attempt();
      if ok && productId in products {
        products := products[productId := products[productId].(quantity := newQuantity)];
      }
    }

    /**
     * reduce_product_quantity: subtract only while the stored quantity is at least the
     * request. The result says only whether the statement raised, not whether the guard matched.
     */
    method ReduceProductQuantity(productId: int, quantity: int) returns (ok: bool)
      requires Valid()
      modifies this
      ensures Valid()
      ensures ok ==> State() == ReduceStock(old(State()), productId, quantity)
      ensures !ok ==> State() == old(State())
    {
      ok := Attempt();
      if ok && productId in products && products[productId].quantity >= quantity {
        products := products[productId := products[productId].(quantity := products[productId].quantity - quantity)];
      }
    }

    /** Write a transaction's tables back to the store. */
    method Commit(t: Tables)
      requires WellFormed(t)
      modifies this
      ensures Valid() && State() == t
    {
      customers, nextCustomerId := t.customers, t.nextCustomerId;
      products, nextProductId := t.products, t.nextProductId;
      invoices, nextInvoiceId := t.invoices, t.nextInvoiceId;
      invoiceItems, nextInvoiceItemId := t.invoiceItems, t.nextInvoiceItemId;
      returnRows, nextReturnId := t.returnRows, t.nextReturnId;
      returnItems, nextReturnItemId := t.returnItems, t.nextReturnItemId;
    }

    /** create_invoice: run the transaction on a copy of the tables; store the copy only if it committed. */
    method CreateInvoice(data: InvoiceData, items: seq<LineItem>) returns (id: Option<int>)
      requires Valid()
      modifies this
      ensures Valid()
      ensures id.Some? ==> id.value == old(nextInvoiceId) && State() == InvoiceCommitted(old(State()), data, items)
      ensures id.None? ==> State() == old(State())
    {
      var outcome := InvoiceTransaction(State(), data, items);
      if outcome.Some? {
        id := Some(nextInvoiceId);
        Commit(outcome.value);
      } else {
        id := None;
      }
    }

    /** create_return: run the transaction on a copy of the tables; store the copy only if it committed. */
    method CreateReturn(data: ReturnData, items: seq<LineItem>) returns (id: Option<int>)
      requires Valid()
      modifies this
      ensures Valid()
      ensures id.Some? ==> id.value == old(nextReturnId) && State() == ReturnCommitted(old(State()), data, items)
      ensures id.None? ==> State() == old(State())
    {
      var outcome := ReturnTransaction(State(), data, items);
      if outcome.Some? {
        id := Some(nextReturnId);
        Commit(outcome.value);
      } else {
        id := None;
      }
    }
  }

  /**
   * The statements of create_invoice inside one transaction: insert the header, then for
   * each item insert its line row and lower the product's stock by the item quantity,
   * then commit. The result is the committed tables, or None when any statement (the
   * commit included) raised, which rolls the whole transaction back.
   */
  method InvoiceTransaction(t: Tables, data: InvoiceData, items: seq<LineItem>) returns (outcome: Option<Tables>)
    requires WellFormed(t)
    ensures outcome.Some? ==> outcome.value == InvoiceCommitted(t, data, items)
  {
    var ok := Attempt();
    if !ok {
      return None;
    }
    var invoiceId := t.nextInvoiceId;
    var headers := t.invoices[invoiceId := HeaderOf(data)];
    var lines, nextLine, stock;
    ok, lines, nextLine, stock := PostLines(t.invoiceItems, t.nextInvoiceItemId, invoiceId, t.products, items, -1);
    if !ok {
      return None;
    }
    ok := Attempt();
    if !ok {
      return None;
    }
    outcome := Some(t.(invoices := headers, nextInvoiceId := invoiceId + 1,
                       invoiceItems := lines, nextInvoiceItemId := nextLine, products := stock));
  }

  /**
   * The statements of create_return inside one transaction: insert the header, then for
   * each item insert its line row and raise the product's stock by the item quantity,
   * then apply the refund to the original invoice, then commit. The result is the
   * committed tables, or None when any statement raised.
   */
  method ReturnTransaction(t: Tables, data: ReturnData, items: seq<LineItem>) returns (outcome: Option<Tables>)
    requires WellFormed(t)
    ensures outcome.Some? ==> outcome.value == ReturnCommitted(t, data, items)
  {
    var ok := Attempt();
    if !ok {
      return None;
    }
    var returnId := t.nextReturnId;
    var headers := t.returnRows[returnId := ReturnHeaderOf(data)];
    var lines, nextLine, stock;
    ok, lines, nextLine, stock := PostLines(t.returnItems, t.nextReturnItemId, returnId, t.products, items, 1);
    if !ok {
      return None;
    }
    var balances;
    ok, balances := PostRefund(t.invoices, data.invoiceId, data.refundAmount.GetOr(0.0));
    if !ok {
      return None;
    }
    ok := Attempt();
    if !ok {
      return None;
    }
    outcome := Some(t.(returnRows := headers, nextReturnId := returnId + 1,
                       returnItems := lines, nextReturnItemId := nextLine, products := stock,
                       invoices := balances));
  }

  /**
   * The refund step of create_return, run inside the open transaction on its copy of the
   * invoices: only for a positive refund, one UPDATE lowering the invoice's remaining and
   * paid amounts by the refund. `ok` is false when that statement raises.
   */
  method PostRefund(invoices: map<int, InvoiceRow>, invoiceId: int, refund: real)
    returns (ok: bool, invoices': map<int, InvoiceRow>)
    ensures ok ==> invoices' == ApplyRefund(invoices, invoiceId, refund)
  {
    ok, invoices' := true, invoices;
    if refund > 0.0 {
      ok := Attempt();
      if ok && invoiceId in invoices' {
        invoices' := invoices'[invoiceId := invoices'[invoiceId].(remainingAmount := invoices'[invoiceId].remainingAmount - refund,
                                                                 paidAmount := invoices'[invoiceId].paidAmount - refund)];
      }
    }
  }

  /**
   * The items loop shared by create_invoice and create_return, run inside the open
   * transaction on its copies of the line table and the products: for each item, one
   * INSERT of its line row under `parentId`, then one UPDATE moving that product's stock
   * by `sign` times the item quantity. `ok` is false as soon as a statement raises.
   */
  method PostLines(rows: map<int, LineRow>, next: int, parentId: int, stock: map<int, ProductRow>,
                   items: seq<LineItem>, sign: int)
    returns (ok: bool, rows': map<int, LineRow>, next': int, stock': map<int, ProductRow>)
    ensures ok ==> && rows' == AppendLines(rows, next, parentId, items)
                   && next' == next + |items|
                   && stock' == MoveStock(stock, items, sign)
  {
    rows', next', stock' := rows, next, stock;
    for i := 0 to |items|
      invariant next' == next + i
      invariant rows' == AppendLines(rows, next, parentId, items[..i])
      invariant stock' == MoveStock(stock, items[..i], sign)
    {
      assert items[..i + 1][..i] == items[..i];
      ok := Attempt();
      if !ok {
        return;
      }
      rows' := rows'[next' := LineRow(parentId, items[i].productId, items[i].quantity, items[i].price, items[i].total)];
      next' := next' + 1;
      ok := Attempt();
      if !ok {
        return;
      }
      var pid := items[i].productId;
      if pid in stock' {
        stock' := stock'[pid := stock'[pid].(quantity := stock'[pid].quantity + sign * items[i].quantity)];
      }
    }
    assert items[..|items|] == items;
    ok := true;
  }

  /**
   * The worked example: stock 50, an invoice for 5 units paying 30 of 50, then a return
   * of 2 units refunding 20. `sold` and `returned` say which transactions committed; the
   * store they leave behind is the one the contracts of the methods determine.
   */
  method WorkedExample() returns (db: DatabaseManager, sold: bool, returned: bool)
    ensures returned ==> sold
    ensures sold && !returned ==>
              && 1 in db.products && db.products[1].quantity == 45
              && 1 in db.invoices && db.invoices[1].paidAmount == 30.0 && db.invoices[1].remainingAmount == 20.0
    ensures returned ==>
              && 1 in db.products && db.products[1].quantity == 47
              && 1 in db.invoices && db.invoices[1].paidAmount == 10.0 && db.invoices[1].remainingAmount == 0.0
              && 1 in db.returnRows && db.returnRows[1].status == "pending" && db.returnRows[1].refundAmount == 20.0
  {
    sold, returned := false, false;
    db := new DatabaseManager();
    var c := db.AddCustomer(CustomerData("Acme", "0100000000", None, None, None, None));
    var p := db.AddProduct(ProductData("Widget", None, None, 10.0, Some(6.0), 50, Some(5), None));
    if c.Some? && p.Some? {
      assert c.value == 1 && p.value == 1 && db.products[1].quantity == 50;
      var inv := db.CreateInvoice(InvoiceData(1, 100, 50.0, 30.0, 20.0), [LineItem(1, 5, 10.0, 50.0)]);
      if inv.Some? {
        sold := true;
        assert inv.value == 1;
        assert db.products[1].quantity == 45;
        var ret := db.CreateReturn(ReturnData(1, 1, 102, 20.0, Some(20.0), None, None, None), [LineItem(1, 2, 10.0, 20.0)]);
        returned := ret.Some?;
      }
    }
  }
}
