# Retail ledger: a verified model of the store core

The retail ledger keeps a small shop's customers, products, invoices and returns in
six tables: customers, products, invoices, invoice_items, returns and return_items.
It writes them in a few multi-statement transactions. It reads them back in
aggregate reports and in a handful of pure helpers. This project models three
layers of that core in Dafny and proves what each one promises.

- **The store** (`database.py`).
  - `LedgerTables` holds the six tables as maps from an AUTOINCREMENT id to a row,
    plus the next id of each table. Each committed write is a function from the
    old tables to the new ones: add_customer, add_product, update_product_quantity,
    reduce_product_quantity, create_invoice and create_return.
  - `Database.DatabaseManager` is a class with one map field and one counter field
    per table. Its methods either commit every statement of a call or leave every
    field as it was. A statement that raises is an abstract outcome (`Attempt`)
    the caller does not control. UNIQUE phone and SKU violations are deterministic
    failures.
  - The statements of `create_invoice` and `create_return` (header, then one line
    row and one stock update per item, then the refund) are methods over local
    copies, proved against the committed-table functions.
  - `Reports` models the sales, profit-and-loss, cash-flow, debtor and
    stock-filter reports as pure functions over the tables. It then proves how
    each committed invoice or return moves each report.
- **The object model** (`models.py`). `Models.Invoice` is a class whose `items`,
  `total_amount`, `paid_amount` and `remaining_amount` fields are updated in
  place by `add_item`, `remove_item`, `recalculate_total` and `make_payment`.
  Alongside it are the `Product` stock predicates, the `InvoiceItem` default,
  the payment classification and the zero-guarded ratios of the two report
  records.
- **The helpers** (`utils.py`, with `Decimal` for decimal text): debt-age
  bucketing (a loop method), phone validation, the stock and payment
  classifiers, the markup, and the two string builders: invoice numbers and
  SKUs. The clock is a parameter (`today`, the year, month, day, hour and minute).

Representation choices:
- Money is `real`. The source only adds, subtracts, multiplies, divides and
  compares it.
- Quantities are `int`, and can go negative, as in the source.
- Dates are day numbers. ISO `YYYY-MM-DD` text orders the same way.
- Ids are dense. Nothing deletes a row and a rolled-back insert consumes no id,
  so each table's keys are exactly `1 .. next - 1` (`LedgerTables.WellFormed`).

Where the code and its documentation differ, the model follows the code:
- `reduce_product_quantity` reports success whenever no statement raised, even
  when its guard matched no row (database.py:246-250, 124-149).
- The sales report joins customers, so an invoice whose customer row is missing
  is not listed. The profit-and-loss and cash-flow queries have no join with
  customers. The cost of goods joins invoice_items with invoices and products,
  so it counts only lines whose invoice and product rows exist (`Reports.LineCost`).
- `create_invoice` does not re-check stock, so a sale can take a quantity below
  zero (`LedgerTables.InvoiceCanOversell`).
- `format_payment_status` calls a negative payment "partially paid", whereas
  `Invoice.payment_status` calls it "unpaid" (`Utils.NegativePaymentDisagrees`).

## Model

| member | source | states |
|---|---|---|
| `LedgerTables.EmptyTablesWellFormed` | database.py:11-123 | The freshly created database (no rows, every AUTOINCREMENT counter at 1) satisfies the dense-id and line-ownership invariant. |
| `LedgerTables.WithCustomer` | database.py:151-165 | A committed add_customer adds exactly one customer row under the next id. The row holds the given columns. Every other row and every other table is unchanged, the invariant is kept, and the phone is now taken. |
| `LedgerTables.ProductRowOf` | database.py:195-211 | A new product row stores every supplied column: name, SKU, category, price, cost price, quantity, min_stock and description. An omitted cost price becomes 0 and an omitted min_stock becomes 10. |
| `LedgerTables.WithProduct` | database.py:195-211 | A committed add_product adds exactly one product row under the next id and changes nothing else. |
| `LedgerTables.AdjustStock` | database.py:299-303 | The per-item stock UPDATE changes only the named product, by exactly the delta. An unknown product id matches no row. |
| `LedgerTables.SetStock` | database.py:240-244 | update_product_quantity overwrites only the named product's quantity with the new value. Every other product and every other table is unchanged. |
| `LedgerTables.ReduceStock` | database.py:246-250 | The guarded decrement subtracts only when the stored quantity is at least the request. Otherwise nothing changes. So this call never makes a quantity negative, and other products are untouched. |
| `LedgerTables.ReduceAll` | database.py:246-250 | A series of committed reductions keeps the set of products and the invariant. |
| `LedgerTables.ReductionsKeepStockNonNegative` | database.py:246-250 | No sequence of guarded decrements can take a non-negative stock below zero. |
| `LedgerTables.AppendLinesSpec` | database.py:287-297 | The items loop inserts the j-th item's line row under id next + j, linked to the new parent, and keeps every earlier row. |
| `LedgerTables.AppendLinesOwned` | database.py:287-297 | Every line row still names an existing header after the loop has inserted rows for a header that exists. |
| `LedgerTables.QuantityOfUnnamed` | database.py:299-303 | Items that never name a product add nothing to its quantity. |
| `LedgerTables.MoveStockSpec` | database.py:299-303 | After the loop every product's quantity has moved by sign times the summed quantity of the items naming it. Repeats compound, unnamed products are unchanged, and no product is added or removed. |
| `LedgerTables.InvoiceCommitted` | database.py:266-313 | A committed create_invoice inserts exactly one invoice header under the next id. The header stores the caller's total, paid and remaining amounts verbatim, with status 'active'. Earlier invoices and the customers are unchanged, and the invariant is kept. |
| `LedgerTables.InvoiceLinesInserted` | database.py:287-297 | Each invoice item becomes one invoice_items row linked to the new invoice, under consecutive ids after the old ones. Old rows are unchanged. |
| `LedgerTables.InvoiceKeepsOldRows` | database.py:266-303 | create_invoice keeps every old invoice and line row and every product's cost price, and dates the new invoice with the caller's date. |
| `LedgerTables.InvoiceStockMoved` | database.py:299-303 | Every product loses the summed quantity of the invoice items that name it, with no floor check. |
| `LedgerTables.InvoiceLeavesOtherProducts` | database.py:299-303 | Products no invoice item names keep their row exactly. |
| `LedgerTables.InvoiceCanOversell` | database.py:299-303 | Selling 5 units of a product with 3 in stock leaves -2: the transaction does not re-check stock. |
| `LedgerTables.ReturnCommitted` | database.py:432-495 | A committed create_return inserts exactly one return header under the next id. The header stores the caller's total. refund_amount defaults to 0, status to 'pending', and reason and notes to ''. It keeps the customers and the invoice lines and keeps the invariant. |
| `LedgerTables.ReturnRefundApplied` | database.py:474-485 | After a return, the invoices table is the refund adjustment of the old one. The returns table has gained exactly the new header. |
| `LedgerTables.ReturnLinesInserted` | database.py:456-467 | Each returned item becomes one return_items row linked to the new return, under consecutive ids. Old rows are unchanged. |
| `LedgerTables.ReturnStockMoved` | database.py:469-472 | Every product gains the summed quantity of the returned items that name it. |
| `LedgerTables.ReturnRefundAdjustment` | database.py:474-485 | With a positive refund, only the referenced invoice changes, and its paid and remaining amounts each drop by exactly the refund. With no refund, or one of at most 0, no invoice changes. |
| `Database.DatabaseManager.constructor` | database.py:7-123 | A new manager holds the empty tables and satisfies the invariant. |
| `Database.DatabaseManager.AddCustomer` | database.py:151-165 | Some(id) returns the next customer id and commits exactly that insertion. None leaves the state unchanged. A phone already on file always gives None (UNIQUE). |
| `Database.DatabaseManager.AddProduct` | database.py:195-211 | Some(id) returns the next product id and commits exactly that insertion. None leaves the state unchanged. A SKU already on file always gives None (UNIQUE). |
| `Database.DatabaseManager.UpdateProductQuantity` | database.py:240-244 | True means the overwrite is committed. False means the state is unchanged. |
| `Database.DatabaseManager.ReduceProductQuantity` | database.py:246-250 | True means the guarded decrement is committed, which includes the case where the guard matched no row. False means the state is unchanged. |
| `Database.DatabaseManager.Commit` | database.py:305 | Installs a well-formed snapshot as the new state of every table field. |
| `Database.DatabaseManager.CreateInvoice` | database.py:266-313 | Some(id) returns the new invoice's id, with header, line rows and stock decrements all committed together. None means every table is as before (rollback). |
| `Database.DatabaseManager.CreateReturn` | database.py:432-495 | Some(id) returns the new return's id, with header, line rows, stock increments and refund adjustment all committed together. None means every table is as before. |
| `Database.InvoiceTransaction` | database.py:271-305 | When every statement succeeds, the statements of create_invoice, run in order, produce exactly the committed invoice tables. |
| `Database.ReturnTransaction` | database.py:437-487 | When every statement succeeds, the statements of create_return, run in order, produce exactly the committed return tables. |
| `Database.PostRefund` | database.py:474-485 | The refund step on success is exactly the refund adjustment: an UPDATE only for a positive refund, matching no row for an unknown invoice. |
| `Database.PostLines` | database.py:287-303 | The shared items loop, on success, inserts the line rows under consecutive ids and moves each product's stock, exactly as the committed-table functions say. |
| `Database.WorkedExample` | database.py:266-313 | The worked example on the class: with stock 50, a committed invoice of 5 units paying 30 of 50 leaves stock 45, paid 30 and remaining 20. A committed return of 2 units refunding 20 then leaves stock 47, paid 10, remaining 0 and a 'pending' return with refund 20. The return (database.py:432-495) is recorded only once the sale has committed. |
| `Reports.MatchingInvoices` | database.py:391-413 | The ids listed are exactly the invoices up to n that pass the filter, in ascending id order. |
| `Reports.SumInvoicesUpdate` | database.py:391-413 | Changing or adding one invoice changes a filtered column sum by exactly that invoice's old and new share. |
| `Reports.MatchingInvoicesUpdate` | database.py:391-413 | Changing an invoice to one that passes the same filters does not change which ids are listed. |
| `Reports.SalesReport` | database.py:391-413 | An invoice is listed iff it is dated start..end inclusive and its customer exists. The list is strictly ascending, so no invoice is listed twice, and total_invoices is its length, the number of such invoices. total_sales and total_paid are the sums of the listed invoices' total and paid amounts. |
| `Reports.SumRefundsInsert` | database.py:557-563 | A return row above n is not part of the refund total up to n. |
| `Reports.SumRefundsAppend` | database.py:557-563 | The next return row adds its refund to the refund total exactly when it is dated in range. |
| `Reports.Margin` | database.py:574 | The margin is net / revenue x 100 when revenue > 0, and 0 otherwise, including negative revenue. |
| `Reports.ProfitLossReport` | database.py:537-584 | Sales and revenue sum the total and paid amounts of the invoices dated in range. Cost of goods sums quantity x current cost price over their lines. Returns sum the refunds dated in range. gross = sales - cost, net = revenue - cost - returns, and the margin is zero-guarded. |
| `Reports.CashflowReport` | database.py:637-663 | Net cash flow is inflow minus outflow. Inflow is the paid amount of the invoices dated in range, and outflow is the refunds dated in range. |
| `Reports.InsertByBalance` | database.py:368-378 | Inserting one debtor keeps the list in descending balance order and adds exactly that debtor. |
| `Reports.SortByBalance` | database.py:368-378 | Sorts debtors by descending balance as a permutation of its input. |
| `Reports.DebtorsUpTo` | database.py:368-378 | A debtor entry is listed iff its customer exists, it carries that customer's name, phone and summed remaining amount, and that balance is positive. The entries are in strictly ascending customer id, one per customer as GROUP BY gives. |
| `Reports.PermutationKeepsIdsDistinct` | database.py:368-378 | Reordering a list with strictly ascending customer ids names each customer once, so sorting the grouped rows by balance repeats no customer. |
| `Reports.DebtorCustomers` | database.py:368-378 | The debtor list is sorted by descending balance and is a permutation of the grouped rows. It holds exactly the customers with a positive summed remaining amount, with that balance, and no customer id occurs twice. |
| `Reports.JoinedSumAgrees` | database.py:391-413 | Over invoices whose customers all exist, the joined sales sums equal the unjoined date-range sums. |
| `Reports.SalesAgreesWithProfitLoss` | database.py:537-584 | When every invoice's customer row exists, the sales report's total sales and total paid equal the profit-and-loss report's sales and revenue over the same range. An invoice whose customer is missing counts in the profit-and-loss report only. |
| `Reports.InvoiceEntersSalesReport` | database.py:266-313 | A committed invoice enters the sales report, appended at the end, exactly when it is dated in range and its customer exists. It adds one to the count and its total and paid amounts to the sums. |
| `Reports.InvoiceEntersCashflow` | database.py:637-663 | A committed invoice adds its paid amount to inflow when dated in range, and never changes outflow. |
| `Reports.InvoiceAddsToBalance` | database.py:368-378 | A committed invoice adds its remaining amount to its own customer's balance and to no other. |
| `Reports.ReturnEntersCashflow` | database.py:474-485 | A return adds its refund to outflow when dated in range. A positive refund on an existing invoice dated in range lowers inflow by the same amount. |
| `Reports.RefundShiftsSums` | database.py:474-485 | The refund adjustment keeps the listed ids and the total sum. It lowers the paid and remaining sums by the refund when the adjusted invoice passes the filter. |
| `Reports.RefundShiftsSum` | database.py:474-485 | One column of that shift: the total column is untouched, and the paid or remaining column drops by the refund. |
| `Reports.ReturnUpdatesSalesReport` | database.py:391-413 | A return never changes which invoices the sales report lists or their total sales. A positive refund on a listed invoice lowers total paid by the refund. |
| `Reports.ReturnReducesBalance` | database.py:474-485 | A positive refund on an existing invoice lowers that invoice's customer's balance by the refund. No other balance moves. |
| `Reports.CostOfGoodsAgree` | database.py:549-555 | Two stores whose lines 1..n cost the same have the same cost of goods. |
| `Reports.OldLinesKeepCost` | database.py:549-555 | Lines that are unchanged, whose invoices keep their dates and whose products keep their cost price, keep their cost. |
| `Reports.ReturnKeepsCostOfGoods` | database.py:549-555 | A return never changes the cost of goods sold. |
| `Reports.NewLinesCost` | database.py:549-555 | Lines appended under one invoice add quantity x cost price of their items to the cost of goods when that invoice is dated in range. |
| `Reports.AppendedLinesCost` | database.py:549-555 | The appended block of invoice lines adds the cost of its items, and the earlier lines keep theirs. |
| `Reports.InvoiceLinesCost` | database.py:549-555 | A committed invoice adds the current cost of its items to the cost of goods when it is dated in range. |
| `Reports.InvoiceAddsCostOfGoods` | database.py:537-584 | The same, stated on the profit-and-loss report's total cost. |
| `Reports.ExampleStoreWellFormed` | database.py:151-211 | The example store (one customer, one product with stock 50 and cost 6, no invoices) is well formed. |
| `Reports.ExampleReports` | database.py:266-313 | An invoice for 5 units that pays 30 of 50 gives sales 50, paid 30, cost 30, gross 20, net 0 and balance 20. The return refunding 20 then gives inflow 10, outflow 20, net -10 and balance 0. |
| `Reports.ExampleDebtors` | database.py:368-378 | After that sale the customer owes 20 and is the only debtor. After the return no one owes. |
| `Reports.StockFilterOf` | database.py:232-235 | The stock_status argument selects the low-stock filter iff it is the low-stock label, and the out-of-stock filter iff it is the out-of-stock label. Anything else keeps every product. |
| `Reports.ProductsUpTo` | database.py:218-238 | The ids listed are exactly the products up to n that pass the stock filter, ascending. |
| `Reports.ProductsWithStockFilter` | database.py:218-238 | A product is listed iff it exists and passes the filter its stock_status names: 0 < quantity <= min_stock for the low-stock label, quantity = 0 for the out-of-stock label, anything for any other text. The ids are ascending. |
| `Models.Product.StockStatus` | models.py:68-76 | Out of stock iff quantity = 0, checked first. Low iff quantity != 0 and quantity <= min_stock. Available otherwise. |
| `Models.Product.TotalValue` | models.py:78-81 | Stock value is 0 with no stock and non-negative for non-negative price and quantity. |
| `Models.CanSellKeepsStockNonNegative` | models.py:88-90 | can_sell(n) holds exactly when selling n leaves a non-negative quantity. This is immediate from the definition of can_sell. |
| `Models.StockStatusAfterSale` | models.py:58-90 | After a permitted sale of at least one unit, a low-stock product is never available again. The product is out of stock afterwards exactly when the sale took its whole quantity. |
| `Models.OutOfStockCannotSell` | models.py:63-90 | An out-of-stock product can sell no positive amount. |
| `Models.CanSellIsReduceGuard` | models.py:88-90 | can_sell is the guard of reduce_product_quantity (database.py:246-250): on the stored row, the decrement is committed exactly when the product can sell the amount, and otherwise the store is unchanged. |
| `Models.NewInvoiceItem` | models.py:118-120 | An item constructed with total 0 gets quantity x price. Any other total is kept. Every other field is stored as given. |
| `Models.NewInvoiceItemLineTotal` | models.py:118-120 | An item constructed with its line total already computed keeps that total. This is immediate from the definition of the default. |
| `Models.SumTotalsAppend` | models.py:211-214 | The sum of item totals distributes over concatenation. |
| `Models.WithoutId` | models.py:206-209 | The kept items are exactly the items whose id differs from the argument. |
| `Models.WithoutIdAppend` | models.py:206-209 | Removal by id works piecewise, so the kept items stay in their original order. |
| `Models.WithoutIdIdempotent` | models.py:206-209 | Removing the same id twice is the same as removing it once. |
| `Models.WithoutAbsentId` | models.py:206-209 | Removing an id no item has keeps the items exactly. |
| `Models.PaymentStatusOf` | models.py:169-192 | Fully paid iff remaining <= 0, checked first. Partially paid iff remaining > 0 and 0 < paid < total. Unpaid otherwise. |
| `Models.PaymentPercentageOf` | models.py:194-199 | Paid / total x 100, and 0 instead of dividing by zero when total is 0. |
| `Models.PaymentStatusOfAgreed` | models.py:169-192 | When remaining = total - paid and paid >= 0: fully paid iff paid >= total, partially iff 0 < paid < total, and unpaid iff nothing is paid on a positive total. |
| `Models.Invoice.constructor` | models.py:145-167 | The date defaults to today, the items to the empty list, and a remaining amount of 0 to total - paid. Every other field is stored as given. |
| `Models.Invoice.PaymentStatus` | models.py:184-192 | The status label agrees with the is_fully_paid and is_partially_paid predicates, in that order of precedence. |
| `Models.Invoice.PaymentPercentage` | models.py:194-199 | Paid / total x 100, and 0 when total is 0. |
| `Models.Invoice.RecalculateTotal` | models.py:211-214 | The total becomes the sum of the item totals and the remaining amount becomes total - paid. Only those two fields may change, so paid and the items stay. |
| `Models.Invoice.AddItem` | models.py:201-204 | Appends exactly that one item at the end and re-establishes total = sum of items and remaining = total - paid. On a consistent invoice the total grows by the item's total. |
| `Models.Invoice.RemoveItem` | models.py:206-209 | Keeps exactly the items with a different id, in order, and re-establishes the total and remaining invariant. |
| `Models.Invoice.MakePayment` | models.py:216-222 | Paid grows by exactly the amount. Remaining becomes max(total - paid, 0), clamped while paid is not. Paying at least the total makes the invoice fully paid. |
| `Models.RemoveUndoesAdd` | models.py:201-209 | Removing by the id of an item just added, when no earlier item has that id, gives back the earlier items. |
| `Models.SalesReport.AverageInvoiceValue` | models.py:257-262 | Sales / invoices, and 0 when there are no invoices. |
| `Models.SalesReport.PaymentRate` | models.py:264-269 | Paid / sales x 100, and 0 when sales are 0. |
| `Models.NewSalesReport` | models.py:251-255 | A pending total of 0 defaults to sales - paid. Every other field is stored as given. |
| `Models.SalesReportSplitsSales` | models.py:251-255 | With the default, paid plus pending is exactly total sales. This is immediate from the definition of the default. |
| `Models.InventoryReport.AverageProductValue` | models.py:313-318 | Total value / products, and 0 when there are no products. |
| `Utils.AgeOfDebt` | utils.py:304-306 | Age is the whole-day difference between today and the invoice date. It is negative exactly for a future-dated invoice. |
| `Utils.BucketOf` | utils.py:330-337 | Age < 30 is current, 30-59 is overdue_30, 60-89 is overdue_60, and >= 90 is overdue_90. |
| `Utils.FutureDebtIsCurrent` | utils.py:304-337 | A future-dated invoice lands in current. |
| `Utils.OutstandingDebts` | utils.py:310-316 | A debt is fetched iff its invoice has a positive remaining amount and its customer exists. Each carries the invoice's row and its customer's name and phone. Each qualifying invoice is fetched exactly once, in strictly ascending id order. |
| `Utils.InBucketMembers` | utils.py:326-337 | A bucket holds exactly the fetched debts whose age falls in its range. |
| `Utils.CategorizeDebtByAge` | utils.py:308-339 | The loop fills each of the four lists with exactly the debts of that bucket, in input order. |
| `Utils.InBucketCount` | utils.py:326-337 | A bucket holds each debt as often as the input does when the debt's age is in range, and never otherwise. |
| `Utils.BucketsPartition` | utils.py:326-337 | The four buckets together are a permutation of the input, so every debt lands in exactly one bucket. |
| `Utils.BucketSizes` | utils.py:326-337 | The bucket sizes sum to the number of fetched debts. |
| `Utils.InBucketAppend` | utils.py:326-337 | Bucketing distributes over concatenation, so each bucket keeps the input order. |
| `Utils.Without` | utils.py:121 | Each replace call removes every occurrence of its character and never lengthens the text. |
| `Utils.WithoutSingle` | utils.py:121 | Removing a character from a one-character text empties it iff the two are equal. |
| `Utils.WithoutAppend` | utils.py:121 | Removing a character works piecewise on a concatenation. |
| `Utils.StripSeparators` | utils.py:121 | Stripping never lengthens the phone text. |
| `Utils.WithoutKeepsAbsent` | utils.py:121 | Removing one character never introduces another. |
| `Utils.StripSeparatorsRemovesAll` | utils.py:121 | No space, '-', '(' or ')' is left after stripping. |
| `Utils.ValidatePhoneNumber` | utils.py:115-128 | Empty input is invalid. Otherwise the phone is valid iff the stripped text is all digits and 10 to 15 characters long, so a valid phone has at least 10 characters. |
| `Utils.StripSeparatorsAppend` | utils.py:121 | Stripping works piecewise on a concatenation. |
| `Utils.StripOneSeparator` | utils.py:121 | A single separator strips to nothing. |
| `Utils.SeparatorIgnored` | utils.py:115-128 | Inserting a separator anywhere never changes the verdict. |
| `Utils.WithoutAbsent` | utils.py:121 | Removing a character the text lacks keeps the text. |
| `Utils.DigitsOnlyValid` | utils.py:115-128 | Every string of 10 to 15 digits is valid. |
| `Utils.StockStatusEmoji` | utils.py:181-188 | Red iff quantity = 0, checked first. Yellow iff quantity != 0 and quantity <= min_stock. Green otherwise. |
| `Utils.EmojiMatchesStockStatus` | utils.py:181-188 | The emoji agrees with Product.stock_status on every product. |
| `Utils.EmojiMatchesStockFilter` | utils.py:181-188 | The out-of-stock filter selects exactly the red products, and the low-stock filter exactly the yellow ones with positive stock. An oversold product (negative stock) shows yellow yet passes neither filter. |
| `Utils.StockLabelsSelectFilters` | database.py:232-235 | The low-stock and out-of-stock labels of Product.stock_status select the corresponding product filters, and the available label selects every product. A product with non-negative stock passes the filter its own status label selects. |
| `Utils.PaymentStatusColor` | utils.py:160-167 | Green iff remaining <= 0, checked first. Red iff remaining > 0 and remaining = total. Orange otherwise. |
| `Utils.FormatPaymentStatus` | utils.py:169-179 | Fully paid iff total - paid <= 0, checked first. Unpaid iff something remains and paid = 0. Partially paid otherwise. |
| `Utils.ColorMatchesFormattedStatus` | utils.py:160-179 | The colour of the remaining amount total - paid agrees with the formatted status, case by case. |
| `Utils.FormattedStatusMatchesInvoice` | utils.py:169-179 | For a non-negative payment, the formatted status agrees with Invoice.payment_status on an invoice whose remaining is total - paid. |
| `Utils.NegativePaymentDisagrees` | utils.py:169-179 | A payment of -10 on a total of 100 is unpaid for the invoice but partially paid for format_payment_status. |
| `Utils.CalculateProfitMargin` | utils.py:190-194 | The markup is 0 when the cost is 0, and otherwise (sell - cost) / cost x 100. |
| `Utils.MarkupRecoversPrice` | utils.py:190-194 | Applying the markup to a non-zero cost gives back the selling price. |
| `Utils.FourParts` | utils.py:302 | Each part of a four-part concatenation can be sliced back out. |
| `Utils.InvoiceNumberLayout` | utils.py:293-302 | An invoice number is "INV-", then the year, then "-", then the next id zero-padded to 6 places. |
| `Utils.InvoiceNumberRoundTrip` | utils.py:293-302 | The digits after the second dash are at least 6 long, all digits, and read back as (max id or 0) + 1, so they are never truncated. |
| `Utils.MaxKey` | utils.py:296-297 | MAX(id) is NULL iff the table is empty, and otherwise the largest id. |
| `Utils.KeyExists` | utils.py:296-297 | A non-empty id set has a member. |
| `Utils.InvoiceNumberNamesNextInvoice` | utils.py:293-302 | On well-formed tables the number's id is exactly the id the next create_invoice will get. |
| `Utils.KeepAlnum` | utils.py:144 | Filtering keeps only ASCII letters and digits and never lengthens the text. |
| `Utils.Upper` | utils.py:144 | Uppercasing keeps the length and maps each character. |
| `Utils.Take` | utils.py:144-149 | [:n] keeps the first min(n, length) characters. |
| `Utils.Stamp` | utils.py:152 | MMDDHHMM is 8 characters whose last 4 are HHMM. |
| `Utils.UpperKeepsAlnum` | utils.py:144-149 | Uppercasing ASCII letters and digits gives uppercase letters and digits. |
| `Utils.GenerateSku` | utils.py:139-154 | The SKU is up to 3 filtered, uppercased name characters, then up to 2 of the category (none without a category), then HHMM. So it is 4 to 9 characters long. |
| `Utils.ConcatUpperAlnum` | utils.py:154 | Concatenation keeps the SKU alphabet. |
| `Utils.PaddedDigitsUpperAlnum` | utils.py:152 | The padded time fields are in the SKU alphabet. |
| `Utils.SkuCharacters` | utils.py:139-154 | Every SKU consists of uppercase ASCII letters and digits only. |
| `Utils.KeepAlnumOfAlnum` | utils.py:144 | Filtering a text that is all ASCII letters and digits keeps it whole. |
| `Utils.KeepAlnumOfNone` | utils.py:144 | Filtering a text with no ASCII letter or digit leaves nothing. |
| `Utils.SkuOfUpperAlnum` | utils.py:139-154 | For an uppercase alphanumeric name and category, the SKU is name[:3] + category[:2] + HHMM. |
| `Utils.ArabicNameSkuExample` | utils.py:139-154 | An Arabic product name without a category yields only the time part. |
| `Decimal.DigitChar` | utils.py:302 | Each digit value has one ASCII digit character. |
| `Decimal.NatToString` | utils.py:302 | str(n) is non-empty ASCII digits, with no leading zero, and has one character iff n < 10. |
| `Decimal.StringToNatOfNatToString` | utils.py:302 | Reading back str(n) gives n. |
| `Decimal.StringToNatLeadingZeros` | utils.py:302 | Leading zeros do not change the value read. |
| `Decimal.ZerosReadAsZero` | utils.py:302 | A run of zeros reads as 0. |
| `Decimal.Zeros` | utils.py:302 | k copies of '0'. |
| `Decimal.ZeroPad` | utils.py:302 | The text is left-padded with zeros to at least the width. A longer text is kept whole. |
| `Decimal.ZerosThenDigits` | utils.py:302 | Zero padding keeps a digit string all digits. |
| `Decimal.TwoDigits` | utils.py:152 | A number below 100 padded to width 2 is exactly two digits. |
| `Decimal.FormatPaddedRoundTrip` | utils.py:302 | The padded text of n >= 0 is all digits, reads back as n, and is at least as long as the width and as str(n). |
| `Decimal.FormatPaddedInjective` | utils.py:302 | Different ids get different padded texts. |

The definitions these contracts speak about model source functions directly and carry no row of their own:
- `Models.Product.CanSell`, `IsLowStock` and `IsOutOfStock` (models.py:58-90);
- `Models.Invoice.IsFullyPaid`, `IsPartiallyPaid` and `IsUnpaid` (models.py:169-182);
- `LedgerTables.ApplyRefund` (database.py:474-485);
- `LedgerTables.HeaderOf` and `LedgerTables.ReturnHeaderOf` (database.py:273-284, 439-452);
- `Decimal.FormatPadded`, the `:0Nd` format (utils.py:302).

## Left out

- The Streamlit interface (app.py), the Excel and PDF exports (export_utils.py), and every other query of database.py: customer and product listings, search, invoice listings, top-customer, top-product, monthly and category reports, return listings and update_return_status.
- The SQL engine itself: DDL parsing, the PRAGMA migration and indexes, LIKE search, ORDER BY collation, strftime, CURRENT_TIMESTAMP and the created_at and updated_at columns. Rows carry only the columns the modelled operations read or write.
- Foreign keys: they are never enabled, so an unknown product or invoice id simply matches no row, and the model does exactly that. A statement failure is an abstract outcome, not a referential check.
- Concurrency between connections, and the connection-per-call handling.
- Floating point: money is exact `real`. Rounding and the `.2f` and `.0f` display formatting are not modelled.
- The clock: `datetime.now()` becomes the parameters `today`, the year and the time fields.
- The display formatters format_currency, format_number, format_date and format_datetime; validate_email (a regular-expression engine); backup_database and the Excel import and export helpers (file I/O); calculate_payment_due_date (calendar arithmetic); and the `to_dict` serialisers.
- Reports.SalesReport: the invoice list is in ascending id order rather than the source's ORDER BY date, and the joined customer name is not carried.
- Reports.DebtorCustomers: ties between equal balances are ordered by the insertion sort rather than by SQL's unspecified order.
- Reports.ProductsWithStockFilter: the search-term and category filters and the ORDER BY name are not modelled. The result is the ids in ascending order.
- Utils.OutstandingDebts: invoices are fetched in id order, not in the source's ORDER BY date. The bucketing loop is proved for whatever order it is given.
- Utils.FormatPaymentStatus: only the status is chosen. The percentage text, and its division by zero when the total is 0 and the payment negative, are not modelled.
- Utils.IsDigitChar: str.isdigit is modelled for ASCII, Arabic-Indic (U+0660-0669) and Extended Arabic-Indic (U+06F0-06F9) digits only. Other Unicode digits are not.
- Reports.ProfitLossReport: when one of its three queries fails, execute_query returns None and the source uses 0 for that part (database.py:142-145, 566-569). A failed cost query therefore inflates the profit. The model's report is total and every query succeeds.
- Reports.CashflowReport: a failed inflow or outflow query is taken as 0 in the source (database.py:655-656). The model assumes both queries succeed.
- Reports.SalesReport: a failed query makes the source raise TypeError on len(None) (database.py:401-404). The model assumes the query succeeds.
- Reports.DebtorCustomers: a failed query makes the source return None. The model assumes the query succeeds.
- Utils.OutstandingDebts and Utils.CategorizeDebtByAge: a failed fetch makes categorize_debt_by_age raise on iterating None (utils.py:317-327). The model assumes the fetch succeeds.
- Utils.MaxKey: the case where the MAX(id) query itself fails and execute_query returns None is not modelled.
- Database.DatabaseManager.UpdateProductQuantity: success follows Python runtimes whose sqlite3 cursor reports an integer lastrowid after any statement. On runtimes that leave it None after an UPDATE, the source always returns False.
- Database.DatabaseManager.ReduceProductQuantity: the same lastrowid assumption as UpdateProductQuantity.
- Models.Invoice.RemoveItem: the argument is an int and items without an id are kept. The contract does not state how much the total drops.
- Models.Invoice.AddItem: the items are a sequence value. Python's list append mutates a list the caller may still hold, and that aliasing is not modelled.
- Models.InventoryReport.LowStockCount and Models.InventoryReport.OutOfStockCount: these are plain list lengths and carry no contract.
- Utils.GenerateInvoiceNumber: the function itself carries no contract. Its layout and round trip are the lemmas InvoiceNumberLayout and InvoiceNumberRoundTrip.
