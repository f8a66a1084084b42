/**
 * The helpers of utils.py: debt aging, phone validation, the stock and payment classifiers,
 * the markup calculation and the invoice-number and SKU builders. The current date and time
 * are parameters.
 */
module Utils {
  import opened Wrappers
  import opened LedgerTables
  import Reports
  import Models
  import Decimal

  // ---------------------------------------------------------------- debt aging

  /** `(today - invoice_date).days`: whole days, negative for a date after today. */
  function AgeOfDebt(today: Date, invoiceDate: Date): (age: int)
    ensures invoiceDate + age == today
    ensures invoiceDate > today <==> age < 0
  {
    today - invoiceDate
  }

  datatype DebtBucket = Current | Overdue30 | Overdue60 | Overdue90

  /** The bucket boundaries 30, 60 and 90 days, each belonging to the older bucket. */
  function BucketOf(age: int): (b: DebtBucket)
    ensures b == Current <==> age < 30
    ensures b == Overdue30 <==> 30 <= age < 60
    ensures b == Overdue60 <==> 60 <= age < 90
    ensures b == Overdue90 <==> 90 <= age
  {
    if age < 30 then Current else if age < 60 then Overdue30 else if age < 90 then Overdue60 else Overdue90
  }

  /** A future-dated invoice has a negative age and counts as current. */
  lemma FutureDebtIsCurrent(today: Date, invoiceDate: Date)
    requires invoiceDate > today
    ensures BucketOf(AgeOfDebt(today, invoiceDate)) == Current
  {
  }

  /** One fetched row: the invoice with its customer's name and phone. */
  datatype Debt = Debt(invoiceId: int, invoice: InvoiceRow, customerName: string, phone: string)

  /** The fetch: invoices with a positive remaining amount, joined to their customer, in id order. */
  function OutstandingDebts(t: Tables, n: int): (ds: seq<Debt>)
    ensures forall d :: d in ds <==>
              1 <= d.invoiceId <= n && d.invoiceId in t.invoices && d.invoice == t.invoices[d.invoiceId]
              && d.invoice.remainingAmount > 0.0 && d.invoice.customerId in t.customers
              && d.customerName == t.customers[d.invoice.customerId].name
              && d.phone == t.customers[d.invoice.customerId].phone
    ensures forall i, j :: 0 <= i < j < |ds| ==> ds[i].invoiceId < ds[j].invoiceId
    decreases n
  {
    if n <= 0 then []
    else
      var prefix := OutstandingDebts(t, n - 1);
      assert forall i :: 0 <= i < |prefix| ==> prefix[i] in prefix;
      prefix
      + (if n in t.invoices && t.invoices[n].remainingAmount > 0.0 && t.invoices[n].customerId in t.customers
         then [Debt(n, t.invoices[n], t.customers[t.invoices[n].customerId].name, t.customers[t.invoices[n].customerId].phone)]
         else [])
  }

  function BucketOfDebt(today: Date, d: Debt): DebtBucket {
    BucketOf(AgeOfDebt(today, d.invoice.date))
  }

  /** The rows of `ds` that fall in bucket `b`, in their original order. */
  function InBucket(ds: seq<Debt>, today: Date, b: DebtBucket): seq<Debt>
    decreases |ds|
  {
    if ds == [] then []
    else
      var last := ds[|ds| - 1];
      InBucket(ds[..|ds| - 1], today, b) + (if BucketOfDebt(today, last) == b then [last] else [])
  }

  /** A bucket holds exactly the rows of the input whose age falls in it. */
  lemma {:induction false} InBucketMembers(ds: seq<Debt>, today: Date, b: DebtBucket)
    ensures forall d :: d in InBucket(ds, today, b) <==> d in ds && BucketOfDebt(today, d) == b
    decreases |ds|
  {
    if ds != [] {
      InBucketMembers(ds[..|ds| - 1], today, b);
      assert ds == ds[..|ds| - 1] + [ds[|ds| - 1]];
    }
  }

  datatype DebtCategories = DebtCategories(current: seq<Debt>, overdue30: seq<Debt>, overdue60: seq<Debt>, overdue90: seq<Debt>)

  /** The for-loop that appends each fetched row to the list of its age bucket. */
  method CategorizeDebtByAge(debts: seq<Debt>, today: Date) returns (c: DebtCategories)
    ensures c.current == InBucket(debts, today, Current)
    ensures c.overdue30 == InBucket(debts, today, Overdue30)
    ensures c.overdue60 == InBucket(debts, today, Overdue60)
    ensures c.overdue90 == InBucket(debts, today, Overdue90)
  {
    c := DebtCategories([], [], [], []);
    for i := 0 to |debts|
      invariant c.current == InBucket(debts[..i], today, Current)
      invariant c.overdue30 == InBucket(debts[..i], today, Overdue30)
      invariant c.overdue60 == InBucket(debts[..i], today, Overdue60)
      invariant c.overdue90 == InBucket(debts[..i], today, Overdue90)
    {
      var d := debts[i];
      assert debts[..i + 1][..i] == debts[..i];
      var age := AgeOfDebt(today, d.invoice.date);
      if age < 30 {
        c := c.(current := c.current + [d]);
      } else if age < 60 {
        c := c.(overdue30 := c.overdue30 + [d]);
      } else if age < 90 {
        c := c.(overdue60 := c.overdue60 + [d]);
      } else {
        c := c.(overdue90 := c.overdue90 + [d]);
      }
    }
    assert debts[..|debts|] == debts;
  }

  /** A bucket holds every copy of each row of its age and no copy of any other row. */
  lemma {:induction false} InBucketCount(ds: seq<Debt>, today: Date, b: DebtBucket, d: Debt)
    ensures multiset(InBucket(ds, today, b))[d] == if BucketOfDebt(today, d) == b then multiset(ds)[d] else 0
    decreases |ds|
  {
    if ds != [] {
      var init := ds[..|ds| - 1];
      var last := ds[|ds| - 1];
      InBucketCount(init, today, b, d);
      assert ds == init + [last];
      assert multiset(ds) == multiset(init) + multiset{last};
      if BucketOfDebt(today, last) == b {
        assert multiset(InBucket(ds, today, b)) == multiset(InBucket(init, today, b)) + multiset{last};
      } else {
        assert InBucket(ds, today, b) == InBucket(init, today, b);
      }
    }
  }

  /** Every row lands in exactly one bucket: the four buckets together are the input. */
  lemma BucketsPartition(ds: seq<Debt>, today: Date)
    ensures multiset(InBucket(ds, today, Current)) + multiset(InBucket(ds, today, Overdue30))
            + multiset(InBucket(ds, today, Overdue60)) + multiset(InBucket(ds, today, Overdue90)) == multiset(ds)
  {
    var all := multiset(InBucket(ds, today, Current)) + multiset(InBucket(ds, today, Overdue30))
               + multiset(InBucket(ds, today, Overdue60)) + multiset(InBucket(ds, today, Overdue90));
    forall d
      ensures all[d] == multiset(ds)[d]
    {
      InBucketCount(ds, today, Current, d);
      InBucketCount(ds, today, Overdue30, d);
      InBucketCount(ds, today, Overdue60, d);
      InBucketCount(ds, today, Overdue90, d);
    }
    assert all == multiset(ds);
  }

  /** So the four bucket sizes add up to the number of fetched rows. */
  lemma BucketSizes(ds: seq<Debt>, today: Date)
    ensures |InBucket(ds, today, Current)| + |InBucket(ds, today, Overdue30)|
            + |InBucket(ds, today, Overdue60)| + |InBucket(ds, today, Overdue90)| == |ds|
  {
    BucketsPartition(ds, today);
    assert |multiset(ds)| == |ds|;
  }

  /** Bucketing works piece by piece, so each bucket keeps the order of the input. */
  lemma {:induction false} InBucketAppend(a: seq<Debt>, b: seq<Debt>, today: Date, k: DebtBucket)
    ensures InBucket(a + b, today, k) == InBucket(a, today, k) + InBucket(b, today, k)
    decreases |b|
  {
    if b != [] {
      var b' := b[..|b| - 1];
      var last := b[|b| - 1];
      assert (a + b)[..|a + b| - 1] == a + b';
      assert (a + b)[|a + b| - 1] == last;
      InBucketAppend(a, b', today, k);
    } else {
      assert a + b == a;
    }
  }

  // ---------------------------------------------------------------- phone numbers

  /** `s.replace(c, "")`. */
  function Without(s: string, c: char): (r: string)
    ensures forall i :: 0 <= i < |r| ==> r[i] != c
    ensures |r| <= |s|
    decreases |s|
  {
    if s == [] then []
    else
      var last := s[|s| - 1];
      Without(s[..|s| - 1], c) + (if last == c then [] else [last])
  }

  lemma WithoutSingle(c: char, x: char)
    ensures Without([c], x) == if c == x then [] else [c]
  {
    assert [c][..0] == [];
  }

  lemma {:induction false} WithoutAppend(a: string, b: string, c: char)
    ensures Without(a + b, c) == Without(a, c) + Without(b, c)
    decreases |b|
  {
    if b != [] {
      var b' := b[..|b| - 1];
      assert (a + b)[..|a + b| - 1] == a + b';
      assert (a + b)[|a + b| - 1] == b[|b| - 1];
      WithoutAppend(a, b', c);
    } else {
      assert a + b == a;
    }
  }

  predicate IsSeparator(c: char) {
    c == ' ' || c == '-' || c == '(' || c == ')'
  }

  /** The four replacements, in the source's order. */
  function StripSeparators(phone: string): (r: string)
    ensures |r| <= |phone|
  {
    Without(Without(Without(Without(phone, ' '), '-'), '('), ')')
  }

  /** Removing one character never brings back another that was already absent. */
  lemma {:induction false} WithoutKeepsAbsent(s: string, c: char, x: char)
    requires forall i :: 0 <= i < |s| ==> s[i] != x
    ensures forall i :: 0 <= i < |Without(s, c)| ==> Without(s, c)[i] != x
    decreases |s|
  {
    if s != [] {
      WithoutKeepsAbsent(s[..|s| - 1], c, x);
    }
  }

  /** What is left after the four replacements holds no separator at all. */
  lemma StripSeparatorsRemovesAll(phone: string)
    ensures forall i :: 0 <= i < |StripSeparators(phone)| ==> !IsSeparator(StripSeparators(phone)[i])
  {
    var a := Without(phone, ' ');
    var b := Without(a, '-');
    var c := Without(b, '(');
    WithoutKeepsAbsent(a, '-', ' ');
    WithoutKeepsAbsent(b, '(', ' ');
    WithoutKeepsAbsent(b, '(', '-');
    WithoutKeepsAbsent(c, ')', ' ');
    WithoutKeepsAbsent(c, ')', '-');
    WithoutKeepsAbsent(c, ')', '(');
  }

  /** `str.isdigit` per character: ASCII, Arabic-Indic and Extended Arabic-Indic digits. */
  predicate IsDigitChar(c: char) {
    '0' <= c <= '9' || '\U{0660}' <= c <= '\U{0669}' || '\U{06F0}' <= c <= '\U{06F9}'
  }

  /** `str.isdigit`: false for the empty string. */
  predicate IsDigitString(s: string) {
    |s| > 0 && forall i :: 0 <= i < |s| ==> IsDigitChar(s[i])
  }

  function ValidatePhoneNumber(phone: string): (ok: bool)
    ensures phone == "" ==> !ok
    ensures ok ==> 10 <= |phone|
    ensures ok <==> IsDigitString(StripSeparators(phone)) && 10 <= |StripSeparators(phone)| <= 15
  {
    if phone == "" then false
    else
      var digits := StripSeparators(phone);
      if !IsDigitString(digits) then false else 10 <= |digits| <= 15
  }

  lemma StripSeparatorsAppend(a: string, b: string)
    ensures StripSeparators(a + b) == StripSeparators(a) + StripSeparators(b)
  {
    WithoutAppend(a, b, ' ');
    WithoutAppend(Without(a, ' '), Without(b, ' '), '-');
    WithoutAppend(Without(Without(a, ' '), '-'), Without(Without(b, ' '), '-'), '(');
    WithoutAppend(Without(Without(Without(a, ' '), '-'), '('), Without(Without(Without(b, ' '), '-'), '('), ')');
  }

  lemma StripOneSeparator(c: char)
    requires IsSeparator(c)
    ensures StripSeparators([c]) == []
  {
    WithoutSingle(c, ' ');
    if c == ' ' {
      assert Without([c], ' ') == [];
    } else {
      WithoutSingle(c, '-');
      if c != '-' {
        WithoutSingle(c, '(');
        if c != '(' {
          WithoutSingle(c, ')');
        }
      }
    }
  }

  /** A space, dash or parenthesis anywhere in the number never changes the verdict. */
  lemma SeparatorIgnored(a: string, b: string, c: char)
    requires IsSeparator(c)
    ensures ValidatePhoneNumber(a + [c] + b) == ValidatePhoneNumber(a + b)
  {
    StripSeparatorsAppend(a + [c], b);
    StripSeparatorsAppend(a, [c]);
    StripSeparatorsAppend(a, b);
    StripOneSeparator(c);
    assert StripSeparators(a + [c]) == StripSeparators(a);
    assert StripSeparators(a + [c] + b) == StripSeparators(a + b);
  }

  lemma {:induction false} WithoutAbsent(s: string, c: char)
    requires forall i :: 0 <= i < |s| ==> s[i] != c
    ensures Without(s, c) == s
    decreases |s|
  {
    if s != [] {
      assert s == s[..|s| - 1] + [s[|s| - 1]];
      WithoutAbsent(s[..|s| - 1], c);
    }
  }

  /** Ten to fifteen digits with no separator are accepted as they stand. */
  lemma DigitsOnlyValid(phone: string)
    requires 10 <= |phone| <= 15 && forall i :: 0 <= i < |phone| ==> IsDigitChar(phone[i])
    ensures ValidatePhoneNumber(phone)
  {
    WithoutAbsent(phone, ' ');
    WithoutAbsent(phone, '-');
    WithoutAbsent(phone, '(');
    WithoutAbsent(phone, ')');
  }

  // ---------------------------------------------------------------- stock and payment classifiers

  datatype StockEmoji = RedCircle | YellowCircle | GreenCircle {
    function Symbol(): string {
      match this
      case RedCircle => "🔴"
      case YellowCircle => "🟡"
      case GreenCircle => "🟢"
    }
  }

  /** Zero stock is tested first, then stock at or below the minimum. */
  function StockStatusEmoji(quantity: int, minStock: int): (e: StockEmoji)
    ensures e == RedCircle <==> quantity == 0
    ensures e == YellowCircle <==> quantity != 0 && quantity <= minStock
    ensures e == GreenCircle <==> quantity != 0 && quantity > minStock
  {
    if quantity == 0 then RedCircle else if quantity <= minStock then YellowCircle else GreenCircle
  }

  /** The emoji and the product's stock_status make the same three-way choice. */
  lemma EmojiMatchesStockStatus(p: Models.Product)
    ensures StockStatusEmoji(p.quantity, p.minStock) == RedCircle <==> p.StockStatus() == Models.Unavailable
    ensures StockStatusEmoji(p.quantity, p.minStock) == YellowCircle <==> p.StockStatus() == Models.Low
    ensures StockStatusEmoji(p.quantity, p.minStock) == GreenCircle <==> p.StockStatus() == Models.Available
  {
  }

  /**
   * The product list's stock filters agree with the emoji, except that the low-stock filter also
   * asks for a positive quantity: an oversold product (negative stock) shows yellow yet passes
   * neither the low-stock nor the out-of-stock filter.
   */
  lemma EmojiMatchesStockFilter(row: ProductRow)
    ensures Reports.PassesStockFilter(Reports.OutOfStock, row) <==> StockStatusEmoji(row.quantity, row.minStock) == RedCircle
    ensures Reports.PassesStockFilter(Reports.LowStock, row)
            <==> StockStatusEmoji(row.quantity, row.minStock) == YellowCircle && row.quantity > 0
    ensures row.quantity < 0 && row.quantity <= row.minStock ==>
              StockStatusEmoji(row.quantity, row.minStock) == YellowCircle
              && !Reports.PassesStockFilter(Reports.LowStock, row) && !Reports.PassesStockFilter(Reports.OutOfStock, row)
  {
  }

  /** The stock_status texts are the filter's own labels, so a product's status text selects a filter it passes when its stock is not negative. */
  lemma StockLabelsSelectFilters(row: ProductRow)
    requires row.quantity >= 0
    ensures var level := Models.Product(None, row.name, row.sku, row.category, row.price, row.quantity, row.minStock, row.description).StockStatus();
            Reports.PassesStockFilter(Reports.StockFilterOf(level.Label()), row)
    ensures Reports.StockFilterOf(Models.StockLevel.Low.Label()) == Reports.LowStock
    ensures Reports.StockFilterOf(Models.StockLevel.Unavailable.Label()) == Reports.OutOfStock
    ensures Reports.StockFilterOf(Models.StockLevel.Available.Label()) == Reports.AnyStock
  {
  }

  datatype PaymentColor = Green | Red | Orange {
    function Name(): string {
      match this
      case Green => "green"
      case Red => "red"
      case Orange => "orange"
    }
  }

  /** Nothing remaining is tested first, then nothing paid (remaining equal to the total). */
  function PaymentStatusColor(remainingAmount: real, totalAmount: real): (c: PaymentColor)
    ensures c == Green <==> remainingAmount <= 0.0
    ensures c == Red <==> remainingAmount > 0.0 && remainingAmount == totalAmount
    ensures c == Orange <==> remainingAmount > 0.0 && remainingAmount != totalAmount
  {
    if remainingAmount <= 0.0 then Green else if remainingAmount == totalAmount then Red else Orange
  }

  /**
   * The status choice of format_payment_status: fully paid when total - paid <= 0, checked first,
   * then unpaid when nothing was paid, otherwise partially paid.
   */
  function FormatPaymentStatus(paidAmount: real, totalAmount: real): (s: Models.PaymentState)
    ensures s == Models.FullyPaid <==> totalAmount - paidAmount <= 0.0
    ensures s == Models.Unpaid <==> totalAmount - paidAmount > 0.0 && paidAmount == 0.0
    ensures s == Models.PartiallyPaid <==> totalAmount - paidAmount > 0.0 && paidAmount != 0.0
  {
    var remaining := totalAmount - paidAmount;
    if remaining <= 0.0 then Models.FullyPaid
    else if paidAmount == 0.0 then Models.Unpaid
    else Models.PartiallyPaid
  }

  /** The colour and the status text agree on every input when the remainder is total - paid. */
  lemma ColorMatchesFormattedStatus(paidAmount: real, totalAmount: real)
    ensures PaymentStatusColor(totalAmount - paidAmount, totalAmount) == Green <==> FormatPaymentStatus(paidAmount, totalAmount) == Models.FullyPaid
    ensures PaymentStatusColor(totalAmount - paidAmount, totalAmount) == Red <==> FormatPaymentStatus(paidAmount, totalAmount) == Models.Unpaid
    ensures PaymentStatusColor(totalAmount - paidAmount, totalAmount) == Orange <==> FormatPaymentStatus(paidAmount, totalAmount) == Models.PartiallyPaid
  {
  }

  /** With a non-negative paid amount the status text also agrees with the invoice's payment_status. */
  lemma FormattedStatusMatchesInvoice(paidAmount: real, totalAmount: real)
    requires paidAmount >= 0.0
    ensures FormatPaymentStatus(paidAmount, totalAmount) == Models.PaymentStatusOf(totalAmount, paidAmount, totalAmount - paidAmount)
  {
  }

  /** A negative paid amount is where they part: the invoice says unpaid, the text says partially paid. */
  lemma NegativePaymentDisagrees()
    ensures Models.PaymentStatusOf(100.0, -10.0, 110.0) == Models.Unpaid
    ensures FormatPaymentStatus(-10.0, 100.0) == Models.PartiallyPaid
  {
  }

  // ---------------------------------------------------------------- markup

  /** `(sell - cost) / cost * 100`, or 0 for a zero cost: markup on cost, not margin on price. */
  function CalculateProfitMargin(sellingPrice: real, costPrice: real): (r: real)
    ensures costPrice == 0.0 ==> r == 0.0
    ensures costPrice != 0.0 ==> r * costPrice == (sellingPrice - costPrice) * 100.0
  {
    if costPrice == 0.0 then 0.0 else (sellingPrice - costPrice) / costPrice * 100.0
  }

  /** Applying the markup to the cost gives back the selling price. */
  lemma MarkupRecoversPrice(sellingPrice: real, costPrice: real)
    requires costPrice != 0.0
    ensures costPrice + costPrice * CalculateProfitMargin(sellingPrice, costPrice) / 100.0 == sellingPrice
  {
    var r := CalculateProfitMargin(sellingPrice, costPrice);
    assert costPrice * r == (sellingPrice - costPrice) * 100.0;
  }

  // ---------------------------------------------------------------- invoice numbers

  /** `(max_id or 0) + 1`. */
  function NextInvoiceNumber(maxId: Option<int>): int {
    maxId.GetOr(0) + 1
  }

  /** `f"INV-{year}-{next_id:06d}"`. */
  function GenerateInvoiceNumber(maxId: Option<int>, year: nat): string {
    "INV-" + Decimal.NatToString(year) + "-" + Decimal.FormatPadded(NextInvoiceNumber(maxId), 6)
  }

  /** Cutting a concatenation of four parts at their lengths gives the parts back. */
  lemma FourParts<T>(a: seq<T>, b: seq<T>, c: seq<T>, d: seq<T>)
    ensures var s := a + b + c + d;
            && s[..|a|] == a && s[|a|..|a| + |b|] == b
            && s[|a| + |b|..|a| + |b| + |c|] == c && s[|a| + |b| + |c|..] == d
  {
    var s := a + b + c + d;
    assert s[..|a|] == a;
    assert s[|a|..|a| + |b|] == b;
    assert s[|a| + |b|..|a| + |b| + |c|] == c;
    assert s[|a| + |b| + |c|..] == d;
  }

  /** The number is "INV-", the year and a dash, then the padded id. */
  lemma InvoiceNumberLayout(maxId: Option<int>, year: nat)
    ensures var s := GenerateInvoiceNumber(maxId, year);
            var y := Decimal.NatToString(year);
            && s[..4] == "INV-" && s[4..4 + |y|] == y && s[4 + |y|..5 + |y|] == "-"
            && s[5 + |y|..] == Decimal.FormatPadded(NextInvoiceNumber(maxId), 6)
  {
    FourParts("INV-", Decimal.NatToString(year), "-", Decimal.FormatPadded(NextInvoiceNumber(maxId), 6));
  }

  /**
   * The part after the year is at least six digits that read back as the next id, so two
   * different maxima never give the same number in one year.
   */
  lemma InvoiceNumberRoundTrip(maxId: Option<int>, year: nat)
    requires maxId.Some? ==> maxId.value >= 0
    ensures var digits := GenerateInvoiceNumber(maxId, year)[5 + |Decimal.NatToString(year)|..];
            |digits| >= 6 && Decimal.AllAsciiDigits(digits) && Decimal.StringToNat(digits) == maxId.GetOr(0) + 1
  {
    InvoiceNumberLayout(maxId, year);
    Decimal.FormatPaddedRoundTrip(maxId.GetOr(0) + 1, 6);
  }

  /** `SELECT MAX(id)`: the largest key, or no row value for an empty table. */
  ghost function MaxKey(keys: set<int>): (r: Option<int>)
    ensures r.None? <==> keys == {}
    ensures r.Some? ==> r.value in keys && forall k :: k in keys ==> k <= r.value
    decreases |keys|
  {
    if keys == {} then None
    else
      KeyExists(keys);
      var k :| k in keys;
      var rest := MaxKey(keys - {k});
      assert forall j :: j in keys ==> j == k || j in keys - {k};
      if rest.Some? && rest.value > k then rest else Some(k)
  }

  lemma KeyExists(keys: set<int>)
    requires keys != {}
    ensures exists k :: k in keys
  {
    if forall k :: k !in keys {
      assert false;
    }
  }

  /** On a well-formed store the number names exactly the id the next committed invoice receives. */
  lemma InvoiceNumberNamesNextInvoice(t: Tables, year: nat)
    requires WellFormed(t)
    ensures NextInvoiceNumber(MaxKey(t.invoices.Keys)) == t.nextInvoiceId
  {
    var m := MaxKey(t.invoices.Keys);
    if t.nextInvoiceId > 1 {
      assert t.nextInvoiceId - 1 in t.invoices;
    } else {
      assert t.invoices.Keys == {};
    }
  }

  // ---------------------------------------------------------------- SKU

  predicate IsAsciiAlnum(c: char) {
    'a' <= c <= 'z' || 'A' <= c <= 'Z' || '0' <= c <= '9'
  }

  /** `re.sub(r'[^a-zA-Z0-9]', '', s)`. */
  function KeepAlnum(s: string): (r: string)
    ensures forall i :: 0 <= i < |r| ==> IsAsciiAlnum(r[i])
    ensures |r| <= |s|
    decreases |s|
  {
    if s == [] then []
    else
      var last := s[|s| - 1];
      KeepAlnum(s[..|s| - 1]) + (if IsAsciiAlnum(last) then [last] else [])
  }

  function UpperChar(c: char): char {
    if 'a' <= c <= 'z' then (c as int - 'a' as int + 'A' as int) as char else c
  }

  predicate IsUpperAlnum(c: char) {
    'A' <= c <= 'Z' || '0' <= c <= '9'
  }

  /** `.upper()` on ASCII letters and digits. */
  function Upper(s: string): (r: string)
    ensures |r| == |s|
    ensures forall i :: 0 <= i < |s| ==> r[i] == UpperChar(s[i])
  {
    seq(|s|, i requires 0 <= i < |s| => UpperChar(s[i]))
  }

  /** `s[:n]`. */
  function Take(s: string, n: nat): (r: string)
    ensures |r| == (if |s| <= n then |s| else n)
    ensures r == s[..|r|]
  {
    if |s| <= n then s else s[..n]
  }

  /** `strftime("%m%d%H%M")`: each field as two digits. */
  function Stamp(month: nat, day: nat, hour: nat, minute: nat): (stamp: string)
    requires month < 100 && day < 100 && hour < 100 && minute < 100
    ensures |stamp| == 8 && stamp[4..] == Decimal.FormatPadded(hour, 2) + Decimal.FormatPadded(minute, 2)
  {
    Decimal.TwoDigits(month);
    Decimal.TwoDigits(day);
    Decimal.TwoDigits(hour);
    Decimal.TwoDigits(minute);
    var monthDay := Decimal.FormatPadded(month, 2) + Decimal.FormatPadded(day, 2);
    var hourMinute := Decimal.FormatPadded(hour, 2) + Decimal.FormatPadded(minute, 2);
    assert (monthDay + hourMinute)[|monthDay|..] == hourMinute;
    monthDay + hourMinute
  }

  lemma UpperKeepsAlnum(s: string)
    requires forall i :: 0 <= i < |s| ==> IsAsciiAlnum(s[i])
    ensures forall i :: 0 <= i < |Upper(s)| ==> IsUpperAlnum(Upper(s)[i])
  {
  }

  /** Up to three name characters, up to two category characters (none without a category), then HHMM. */
  function GenerateSku(productName: string, category: Option<string>, month: nat, day: nat, hour: nat, minute: nat): (sku: string)
    requires 1 <= month <= 12 && 1 <= day <= 31 && hour < 24 && minute < 60
    ensures var namePart := Upper(Take(KeepAlnum(productName), 3));
            var categoryPart := if category.Some? && category.value != "" then Upper(Take(KeepAlnum(category.value), 2)) else "";
            sku == namePart + categoryPart + Decimal.FormatPadded(hour, 2) + Decimal.FormatPadded(minute, 2)
    ensures 4 <= |sku| <= 9
  {
    var namePart := Upper(Take(KeepAlnum(productName), 3));
    var categoryPart := if category.Some? && category.value != "" then Upper(Take(KeepAlnum(category.value), 2)) else "";
    var stamp := Stamp(month, day, hour, minute);
    Decimal.TwoDigits(hour);
    Decimal.TwoDigits(minute);
    namePart + categoryPart + stamp[|stamp| - 4..]
  }

  predicate AllUpperAlnum(s: string) {
    forall i :: 0 <= i < |s| ==> IsUpperAlnum(s[i])
  }

  lemma ConcatUpperAlnum(a: string, b: string)
    requires AllUpperAlnum(a) && AllUpperAlnum(b)
    ensures AllUpperAlnum(a + b)
  {
    forall i | 0 <= i < |a + b|
      ensures IsUpperAlnum((a + b)[i])
    {
      if i >= |a| {
        assert (a + b)[i] == b[i - |a|];
      }
    }
  }

  lemma PaddedDigitsUpperAlnum(n: nat)
    requires n < 100
    ensures AllUpperAlnum(Decimal.FormatPadded(n, 2))
  {
    Decimal.TwoDigits(n);
    var p := Decimal.FormatPadded(n, 2);
    assert forall i :: 0 <= i < |p| ==> Decimal.IsAsciiDigit(p[i]);
  }

  /** Every SKU character is an upper-case ASCII letter or a digit. */
  lemma SkuCharacters(productName: string, category: Option<string>, month: nat, day: nat, hour: nat, minute: nat)
    requires 1 <= month <= 12 && 1 <= day <= 31 && hour < 24 && minute < 60
    ensures AllUpperAlnum(GenerateSku(productName, category, month, day, hour, minute))
  {
    var namePart := Upper(Take(KeepAlnum(productName), 3));
    var categoryPart := if category.Some? && category.value != "" then Upper(Take(KeepAlnum(category.value), 2)) else "";
    UpperKeepsAlnum(Take(KeepAlnum(productName), 3));
    if category.Some? && category.value != "" {
      UpperKeepsAlnum(Take(KeepAlnum(category.value), 2));
    }
    PaddedDigitsUpperAlnum(hour);
    PaddedDigitsUpperAlnum(minute);
    ConcatUpperAlnum(namePart, categoryPart);
    ConcatUpperAlnum(namePart + categoryPart, Decimal.FormatPadded(hour, 2));
    ConcatUpperAlnum(namePart + categoryPart + Decimal.FormatPadded(hour, 2), Decimal.FormatPadded(minute, 2));
  }

  lemma {:induction false} KeepAlnumOfAlnum(s: string)
    requires forall i :: 0 <= i < |s| ==> IsAsciiAlnum(s[i])
    ensures KeepAlnum(s) == s
    decreases |s|
  {
    if s != [] {
      KeepAlnumOfAlnum(s[..|s| - 1]);
      assert s == s[..|s| - 1] + [s[|s| - 1]];
    }
  }

  /** A name with no ASCII letter or digit contributes nothing. */
  lemma {:induction false} KeepAlnumOfNone(s: string)
    requires forall i :: 0 <= i < |s| ==> !IsAsciiAlnum(s[i])
    ensures KeepAlnum(s) == []
    decreases |s|
  {
    if s != [] {
      KeepAlnumOfNone(s[..|s| - 1]);
    }
  }

  /** A name and category already in upper-case letters and digits are cut, not rewritten. */
  lemma SkuOfUpperAlnum(productName: string, category: string, month: nat, day: nat, hour: nat, minute: nat)
    requires 1 <= month <= 12 && 1 <= day <= 31 && hour < 24 && minute < 60
    requires |productName| >= 3 && |category| >= 2
    requires forall i :: 0 <= i < |productName| ==> IsUpperAlnum(productName[i])
    requires forall i :: 0 <= i < |category| ==> IsUpperAlnum(category[i])
    ensures GenerateSku(productName, Some(category), month, day, hour, minute)
            == productName[..3] + category[..2] + Decimal.FormatPadded(hour, 2) + Decimal.FormatPadded(minute, 2)
  {
    KeepAlnumOfAlnum(productName);
    KeepAlnumOfAlnum(category);
    assert Upper(productName[..3]) == productName[..3];
    assert Upper(category[..2]) == category[..2];
  }

  /** An Arabic name has no ASCII letters, so the SKU is the time alone. */
  lemma ArabicNameSkuExample()
    ensures GenerateSku("قلم", None, 12, 31, 23, 59) == "2359"
  {
    KeepAlnumOfNone("قلم");
    assert Upper(Take(KeepAlnum("قلم"), 3)) == "";
    assert Decimal.NatToString(23) == "23" && Decimal.NatToString(59) == "59";
  }
}
