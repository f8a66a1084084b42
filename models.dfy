/**
 * The dataclasses of models.py: the stock predicates of a product, the default of an invoice
 * line, the invoice object whose methods keep its total, paid and remaining amounts in step
 * with its items, and the zero-guarded ratios of the two report records.
 */
module Models {
  import opened Wrappers
  import LedgerTables

  // ---------------------------------------------------------------- Product

  /** The three answers of stock_status, with the text the property returns. */
  datatype StockLevel = Unavailable | Low | Available {
    function Label(): string {
      match this
      case Unavailable => "غير متوفر"
      case Low => "مخزون منخفض"
      case Available => "متوفر"
    }
  }

  datatype Product = Product(
    id: Option<int>, name: string, sku: Option<string>, category: Option<string>,
    price: real, quantity: int, minStock: int, description: Option<string>)
  {
    /** Low includes an empty shelf: 0 <= min_stock makes an out-of-stock product low as well. */
    predicate IsLowStock() {
      quantity <= minStock
    }

    predicate IsOutOfStock() {
      quantity == 0
    }

    /** Out of stock is tested before low stock. */
    function StockStatus(): (s: StockLevel)
      ensures s == Unavailable <==> quantity == 0
      ensures s == Low <==> quantity != 0 && quantity <= minStock
      ensures s == Available <==> quantity != 0 && quantity > minStock
    {
      if IsOutOfStock() then Unavailable else if IsLowStock() then Low else Available
    }

    predicate CanSell(requested: int) {
      quantity >= requested
    }

    function TotalValue(): (v: real)
      ensures quantity == 0 ==> v == 0.0
      ensures price >= 0.0 && quantity >= 0 ==> v >= 0.0
    {
      price * quantity as real
    }
  }

  /** Selling what can_sell allows never leaves the shelf negative; selling more always does (immediate from can_sell). */
  lemma CanSellKeepsStockNonNegative(p: Product, n: int)
    ensures p.CanSell(n) ==> p.quantity - n >= 0
    ensures !p.CanSell(n) ==> p.quantity - n < 0
  {
  }

  /**
   * Stock levels are ordered: a permitted sale never moves a low-stock product back to available,
   * and it empties the shelf exactly when it sells everything.
   */
  lemma StockStatusAfterSale(p: Product, n: int)
    requires 0 < n && p.CanSell(n) && p.minStock >= 0
    ensures p.StockStatus() == Low ==> p.(quantity := p.quantity - n).StockStatus() != Available
    ensures p.(quantity := p.quantity - n).StockStatus() == Unavailable <==> p.quantity == n
  {
  }

  /** An out-of-stock product can sell nothing. */
  lemma OutOfStockCannotSell(p: Product, n: int)
    requires n > 0
    ensures p.StockStatus() == Unavailable ==> !p.CanSell(n)
  {
  }

  /**
   * can_sell is the guard of reduce_product_quantity: on the stored row, the decrement is
   * committed exactly when the product can sell the amount, and otherwise the store is unchanged.
   */
  lemma CanSellIsReduceGuard(t: LedgerTables.Tables, pid: int, n: int)
    requires LedgerTables.WellFormed(t) && pid in t.products
    ensures var row := t.products[pid];
            var p := Product(Some(pid), row.name, row.sku, row.category, row.price, row.quantity, row.minStock, row.description);
      && (p.CanSell(n) ==> LedgerTables.ReduceStock(t, pid, n).products[pid] == row.(quantity := row.quantity - n))
      && (!p.CanSell(n) ==> LedgerTables.ReduceStock(t, pid, n) == t)
  {
  }

  // ---------------------------------------------------------------- InvoiceItem

  datatype InvoiceItem = InvoiceItem(
    id: Option<int>, invoiceId: Option<int>, productId: int, productName: string,
    quantity: int, price: real, totalAmount: real)

  /** `InvoiceItem(...)` with __post_init__: a total of 0 is replaced by quantity times price. */
  function NewInvoiceItem(id: Option<int>, invoiceId: Option<int>, productId: int, productName: string,
                          quantity: int, price: real, totalAmount: real): (it: InvoiceItem)
    ensures it.totalAmount == (if totalAmount == 0.0 then quantity as real * price else totalAmount)
    ensures it.totalAmount == quantity as real * price || it.totalAmount == totalAmount
    ensures it.(totalAmount := totalAmount) == InvoiceItem(id, invoiceId, productId, productName, quantity, price, totalAmount)
  {
    InvoiceItem(id, invoiceId, productId, productName, quantity, price,
                if totalAmount == 0.0 then quantity as real * price else totalAmount)
  }

  /** An item built with the line total the sales form computes keeps that total. */
  lemma NewInvoiceItemLineTotal(productId: int, name: string, quantity: int, price: real)
    ensures NewInvoiceItem(None, None, productId, name, quantity, price, quantity as real * price).totalAmount
            == quantity as real * price
  {
  }

  /** `sum(item.total_amount for item in items)`. */
  function SumTotals(items: seq<InvoiceItem>): real
    decreases |items|
  {
    if items == [] then 0.0 else SumTotals(items[..|items| - 1]) + items[|items| - 1].totalAmount
  }

  lemma {:induction false} SumTotalsAppend(a: seq<InvoiceItem>, b: seq<InvoiceItem>)
    ensures SumTotals(a + b) == SumTotals(a) + SumTotals(b)
    decreases |b|
  {
    if b != [] {
      var b' := b[..|b| - 1];
      assert (a + b)[..|a + b| - 1] == a + b';
      assert (a + b)[|a + b| - 1] == b[|b| - 1];
      SumTotalsAppend(a, b');
      assert SumTotals(a + b) == SumTotals(a + b') + b[|b| - 1].totalAmount;
    } else {
      assert a + b == a;
    }
  }

  /** `[item for item in items if item.id != item_id]`. */
  function WithoutId(items: seq<InvoiceItem>, itemId: int): (r: seq<InvoiceItem>)
    ensures forall it :: it in r <==> it in items && it.id != Some(itemId)
    ensures |r| <= |items|
    decreases |items|
  {
    if items == [] then []
    else
      var last := items[|items| - 1];
      assert items == items[..|items| - 1] + [last];
      WithoutId(items[..|items| - 1], itemId) + (if last.id != Some(itemId) then [last] else [])
  }

  /** The filter works piece by piece, so the kept items stay in their original order. */
  lemma {:induction false} WithoutIdAppend(a: seq<InvoiceItem>, b: seq<InvoiceItem>, itemId: int)
    ensures WithoutId(a + b, itemId) == WithoutId(a, itemId) + WithoutId(b, itemId)
    decreases |b|
  {
    if b != [] {
      var b' := b[..|b| - 1];
      assert (a + b)[..|a + b| - 1] == a + b';
      var last := b[|b| - 1];
      var tail := if last.id != Some(itemId) then [last] else [];
      assert (a + b)[|a + b| - 1] == last;
      WithoutIdAppend(a, b', itemId);
      assert WithoutId(a + b, itemId) == WithoutId(a + b', itemId) + tail;
      assert WithoutId(b, itemId) == WithoutId(b', itemId) + tail;
    } else {
      assert a + b == a;
    }
  }

  /** Removing the same id twice removes nothing more. */
  lemma {:induction false} WithoutIdIdempotent(items: seq<InvoiceItem>, itemId: int)
    ensures WithoutId(WithoutId(items, itemId), itemId) == WithoutId(items, itemId)
    decreases |items|
  {
    if items != [] {
      var init := items[..|items| - 1];
      var last := items[|items| - 1];
      WithoutIdIdempotent(init, itemId);
      WithoutIdAppend(WithoutId(init, itemId), if last.id != Some(itemId) then [last] else [], itemId);
      assert [last][..0] == [];
    }
  }

  /** Removing an id that no item carries keeps every item. */
  lemma {:induction false} WithoutAbsentId(items: seq<InvoiceItem>, itemId: int)
    requires forall j :: 0 <= j < |items| ==> items[j].id != Some(itemId)
    ensures WithoutId(items, itemId) == items
    decreases |items|
  {
    if items != [] {
      WithoutAbsentId(items[..|items| - 1], itemId);
      assert items == items[..|items| - 1] + [items[|items| - 1]];
    }
  }

  // ---------------------------------------------------------------- Invoice

  /** The three answers of payment_status. */
  datatype PaymentState = FullyPaid | PartiallyPaid | Unpaid

  /** Fully paid (nothing remaining) is tested first, then 0 < paid < total. */
  function PaymentStatusOf(totalAmount: real, paidAmount: real, remainingAmount: real): (s: PaymentState)
    ensures s == FullyPaid <==> remainingAmount <= 0.0
    ensures s == PartiallyPaid <==> remainingAmount > 0.0 && 0.0 < paidAmount < totalAmount
    ensures s == Unpaid <==> remainingAmount > 0.0 && (paidAmount <= 0.0 || paidAmount >= totalAmount)
  {
    if remainingAmount <= 0.0 then FullyPaid
    else if 0.0 < paidAmount < totalAmount then PartiallyPaid
    else Unpaid
  }

  /** `(paid / total) * 100`, or 0 for a zero total. */
  function PaymentPercentageOf(totalAmount: real, paidAmount: real): (r: real)
    ensures totalAmount == 0.0 ==> r == 0.0
    ensures totalAmount != 0.0 ==> r * totalAmount == paidAmount * 100.0
  {
    if totalAmount == 0.0 then 0.0 else paidAmount / totalAmount * 100.0
  }

  /** `remaining = total - paid`, clamped at 0 only by make_payment. */
  predicate RemainderAgrees(totalAmount: real, paidAmount: real, remainingAmount: real) {
    remainingAmount == totalAmount - paidAmount || (remainingAmount == 0.0 && totalAmount - paidAmount < 0.0)
  }

  /**
   * With the remainder in step and a non-negative paid amount, payment_status reads straight off
   * paid against total.
   */
  lemma PaymentStatusOfAgreed(totalAmount: real, paidAmount: real, remainingAmount: real)
    requires RemainderAgrees(totalAmount, paidAmount, remainingAmount) && paidAmount >= 0.0
    ensures PaymentStatusOf(totalAmount, paidAmount, remainingAmount) == FullyPaid <==> paidAmount >= totalAmount
    ensures PaymentStatusOf(totalAmount, paidAmount, remainingAmount) == PartiallyPaid <==> 0.0 < paidAmount < totalAmount
    ensures PaymentStatusOf(totalAmount, paidAmount, remainingAmount) == Unpaid <==> paidAmount == 0.0 && totalAmount > 0.0
  {
  }

  class Invoice {
    var id: Option<int>
    var customerId: int
    var customerName: string
    var date: LedgerTables.Date
    var totalAmount: real
    var paidAmount: real
    var remainingAmount: real
    var status: string
    var notes: Option<string>
    var items: seq<InvoiceItem>

    /**
     * The total is the sum of the items and the remainder follows from total and paid. This is not
     * a class invariant (the constructor accepts any amounts): recalculate_total establishes it, and
     * the methods' contracts use it as a hypothesis about the state before the call.
     */
    ghost predicate Balanced()
      reads this
    {
      totalAmount == SumTotals(items) && RemainderAgrees(totalAmount, paidAmount, remainingAmount)
    }

    /**
     * `Invoice(...)` with __post_init__: a missing date becomes `today`, missing items the empty
     * list, and a remaining amount of 0 becomes total - paid.
     */
    constructor (id: Option<int>, customerId: int, customerName: string, date: Option<LedgerTables.Date>,
                 today: LedgerTables.Date, totalAmount: real, paidAmount: real, remainingAmount: real,
                 status: string, notes: Option<string>, items: Option<seq<InvoiceItem>>)
      ensures this.id == id && this.customerId == customerId && this.customerName == customerName
      ensures this.date == (if date.Some? then date.value else today)
      ensures this.totalAmount == totalAmount && this.paidAmount == paidAmount
      ensures this.remainingAmount == (if remainingAmount == 0.0 then totalAmount - paidAmount else remainingAmount)
      ensures this.status == status && this.notes == notes
      ensures this.items == (if items.Some? then items.value else [])
      ensures remainingAmount == 0.0 ==> RemainderAgrees(this.totalAmount, this.paidAmount, this.remainingAmount)
    {
      this.id := id;
      this.customerId := customerId;
      this.customerName := customerName;
      this.date := date.GetOr(today);
      this.totalAmount := totalAmount;
      this.paidAmount := paidAmount;
      this.remainingAmount := if remainingAmount == 0.0 then totalAmount - paidAmount else remainingAmount;
      this.status := status;
      this.notes := notes;
      this.items := items.GetOr([]);
    }

    predicate IsFullyPaid()
      reads this
    {
      remainingAmount <= 0.0
    }

    predicate IsPartiallyPaid()
      reads this
    {
      0.0 < paidAmount < totalAmount
    }

    predicate IsUnpaid()
      reads this
    {
      paidAmount == 0.0
    }

    function PaymentStatus(): (s: PaymentState)
      reads this
      ensures s == FullyPaid <==> IsFullyPaid()
      ensures s == PartiallyPaid <==> !IsFullyPaid() && IsPartiallyPaid()
    {
      PaymentStatusOf(totalAmount, paidAmount, remainingAmount)
    }

    function PaymentPercentage(): (r: real)
      reads this
      ensures totalAmount == 0.0 ==> r == 0.0
      ensures totalAmount != 0.0 ==> r * totalAmount == paidAmount * 100.0
    {
      PaymentPercentageOf(totalAmount, paidAmount)
    }

    /** The total becomes the items' sum and the remainder total - paid; paid and the items stay. */
    method RecalculateTotal()
      modifies this`totalAmount, this`remainingAmount
      ensures totalAmount == SumTotals(items)
      ensures remainingAmount == totalAmount - paidAmount
      ensures Balanced()
    {
      totalAmount := SumTotals(items);
      remainingAmount := totalAmount - paidAmount;
    }

    /** One item more at the end; a balanced invoice's total grows by exactly its line total. */
    method AddItem(item: InvoiceItem)
      modifies this`items, this`totalAmount, this`remainingAmount
      ensures items == old(items) + [item]
      ensures totalAmount == SumTotals(items) && remainingAmount == totalAmount - paidAmount
      ensures Balanced()
      ensures old(Balanced()) ==> totalAmount == old(totalAmount) + item.totalAmount
    {
      items := items + [item];
      RecalculateTotal();
      assert items[..|items| - 1] == old(items);
    }

    /**
     * Every item carrying `itemId` goes, the others stay in order; the total is then recomputed
     * from the items that are left.
     */
    method RemoveItem(itemId: int)
      modifies this`items, this`totalAmount, this`remainingAmount
      ensures items == WithoutId(old(items), itemId)
      ensures totalAmount == SumTotals(items) && remainingAmount == totalAmount - paidAmount
      ensures Balanced()
    {
      items := WithoutId(items, itemId);
      RecalculateTotal();
    }

    /** Paid grows by exactly `amount`; the remainder is total - paid, floored at 0. The total stays. */
    method MakePayment(amount: real)
      modifies this`paidAmount, this`remainingAmount
      ensures paidAmount == old(paidAmount) + amount
      ensures remainingAmount == (if totalAmount - paidAmount < 0.0 then 0.0 else totalAmount - paidAmount)
      ensures remainingAmount >= 0.0
      ensures old(Balanced()) ==> Balanced()
      ensures paidAmount >= totalAmount ==> IsFullyPaid()
    {
      paidAmount := paidAmount + amount;
      remainingAmount := totalAmount - paidAmount;
      if remainingAmount < 0.0 {
        remainingAmount := 0.0;
      }
    }
  }

  /** remove_item undoes add_item: removing the id of an item just added, carried by no other item, restores the list. */
  lemma RemoveUndoesAdd(items: seq<InvoiceItem>, item: InvoiceItem, itemId: int)
    requires item.id == Some(itemId)
    requires forall j :: 0 <= j < |items| ==> items[j].id != Some(itemId)
    ensures WithoutId(items + [item], itemId) == items
  {
    WithoutIdAppend(items, [item], itemId);
    WithoutAbsentId(items, itemId);
    assert [item][..0] == [];
  }

  // ---------------------------------------------------------------- report records

  datatype SalesReport = SalesReport(
    startDate: LedgerTables.Date, endDate: LedgerTables.Date, totalInvoices: int,
    totalSales: real, totalPaid: real, totalPending: real)
  {
    function AverageInvoiceValue(): (r: real)
      ensures totalInvoices == 0 ==> r == 0.0
      ensures totalInvoices != 0 ==> r * totalInvoices as real == totalSales
    {
      if totalInvoices == 0 then 0.0 else totalSales / totalInvoices as real
    }

    function PaymentRate(): (r: real)
      ensures totalSales == 0.0 ==> r == 0.0
      ensures totalSales != 0.0 ==> r * totalSales == totalPaid * 100.0
    {
      if totalSales == 0.0 then 0.0 else totalPaid / totalSales * 100.0
    }
  }

  /** `SalesReport(...)` with __post_init__: a pending total of 0 becomes sales - paid. */
  function NewSalesReport(startDate: LedgerTables.Date, endDate: LedgerTables.Date, totalInvoices: int,
                          totalSales: real, totalPaid: real, totalPending: real): (r: SalesReport)
    ensures r.totalPending == (if totalPending == 0.0 then totalSales - totalPaid else totalPending)
    ensures r.(totalPending := totalPending) == SalesReport(startDate, endDate, totalInvoices, totalSales, totalPaid, totalPending)
  {
    SalesReport(startDate, endDate, totalInvoices, totalSales, totalPaid,
                if totalPending == 0.0 then totalSales - totalPaid else totalPending)
  }

  /** A record built with the default pending total splits sales into paid and pending. */
  lemma SalesReportSplitsSales(startDate: LedgerTables.Date, endDate: LedgerTables.Date, n: int, sales: real, paid: real)
    ensures var r := NewSalesReport(startDate, endDate, n, sales, paid, 0.0);
            r.totalPaid + r.totalPending == r.totalSales
  {
  }

  datatype InventoryReport = InventoryReport(
    totalProducts: int, totalQuantity: int, totalValue: real,
    lowStockProducts: seq<Product>, outOfStockProducts: seq<Product>)
  {
    function LowStockCount(): nat {
      |lowStockProducts|
    }

    function OutOfStockCount(): nat {
      |outOfStockProducts|
    }

    function AverageProductValue(): (r: real)
      ensures totalProducts == 0 ==> r == 0.0
      ensures totalProducts != 0 ==> r * totalProducts as real == totalValue
    {
      if totalProducts == 0 then 0.0 else totalValue / totalProducts as real
    }
  }
}
