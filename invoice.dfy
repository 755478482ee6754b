/**
 * The part both scripts share: line items, the subtotal / VAT / total
 * arithmetic, the content of the rendered invoice and where it is saved.
 * Python floats are modelled as exact reals.
 */
module Invoice {
  import opened Text
  import opened Clock

  datatype Item = Item(name: string, qty: real, price: real)

  datatype Customer = Customer(name: string, phone: string)

  /** The settings record kept in config.json. */
  datatype Config = Config(businessName: string, address: string, phone: string, vatRate: real, currency: string)

  /** The settings written when config.json does not exist yet. */
  const DefaultConfig := Config("Your Biz Name", "Addis Ababa, Ethiopia", "+251 900 000 000", 0.15, "ETB")

  /** Item names are cut to this many characters in the table. */
  const NameWidth := 35

  function LineTotal(i: Item): real
  {
    i.qty * i.price
  }

  /** `sum(i["qty"] * i["price"] for i in items)`, added from the first item to the last. */
  function Subtotal(items: seq<Item>): real
  {
    if items == [] then 0.0 else Subtotal(items[..|items| - 1]) + LineTotal(items[|items| - 1])
  }

  lemma SubtotalSingle(i: Item)
    ensures Subtotal([i]) == LineTotal(i)
  {
    assert [i][..0] == [];
  }

  /** The subtotal of two lists one after the other is the sum of their subtotals. */
  lemma {:induction false} SubtotalAppend(a: seq<Item>, b: seq<Item>)
    ensures Subtotal(a + b) == Subtotal(a) + Subtotal(b)
  {
    if b == [] {
      assert a + b == a;
    } else {
      assert (a + b)[..|a + b| - 1] == a + b[..|b| - 1];
      SubtotalAppend(a, b[..|b| - 1]);
    }
  }

  /** The order of the items does not change the subtotal. */
  lemma {:induction false} SubtotalPermutation(a: seq<Item>, b: seq<Item>)
    requires multiset(a) == multiset(b)
    ensures Subtotal(a) == Subtotal(b)
    decreases |a|
  {
    if a == [] {
      assert |b| == |multiset(b)| == 0;
    } else {
      var n := |a| - 1;
      var x := a[n];
      assert a == a[..n] + [x];
      assert x in multiset(b);
      var k :| 0 <= k < |b| && b[k] == x;
      var rest := b[..k] + b[k + 1..];
      assert b == b[..k] + [x] + b[k + 1..];
      assert multiset(b) == multiset(b[..k]) + multiset{x} + multiset(b[k + 1..]);
      assert multiset(a) == multiset(a[..n]) + multiset{x};
      assert multiset(rest) == multiset(b[..k]) + multiset(b[k + 1..]);
      assert multiset(a[..n]) == multiset(a) - multiset{x};
      assert multiset(rest) == multiset(b) - multiset{x};
      SubtotalPermutation(a[..n], rest);
      SubtotalAppend(b[..k] + [x], b[k + 1..]);
      SubtotalAppend(b[..k], [x]);
      SubtotalAppend(b[..k], b[k + 1..]);
      SubtotalSingle(x);
    }
  }

  predicate NonNegative(items: seq<Item>)
  {
    forall k :: 0 <= k < |items| ==> items[k].qty >= 0.0 && items[k].price >= 0.0
  }

  /** With no negative quantities or prices the subtotal is not negative. */
  lemma {:induction false} SubtotalNonNegative(items: seq<Item>)
    requires NonNegative(items)
    ensures Subtotal(items) >= 0.0
  {
    if items != [] {
      var last := items[|items| - 1];
      assert last.qty * last.price >= 0.0;
      SubtotalNonNegative(items[..|items| - 1]);
    }
  }

  /** Python's `int(x)`: rounds toward zero. */
  function TruncToInt(x: real): (r: int)
    ensures x >= 0.0 ==> r >= 0 && r as real <= x < r as real + 1.0
    ensures x < 0.0 ==> r <= 0 && r as real - 1.0 < x <= r as real
  {
    if x >= 0.0 then x.Floor else -((-x).Floor)
  }

  /** The four cells of one table row, the numbers before formatting. */
  datatype Row = Row(name: string, qty: real, price: real, lineTotal: real)

  /** The row shown for an item: its name cut to `NameWidth` characters, and qty × price. */
  function RowFor(i: Item): (r: Row)
    ensures r.name <= i.name && |r.name| == if |i.name| < NameWidth then |i.name| else NameWidth
    ensures r.qty == i.qty && r.price == i.price && r.lineTotal == LineTotal(i)
  {
    Row(Take(i.name, NameWidth), i.qty, i.price, LineTotal(i))
  }

  /** What the line-total column adds up to. */
  function SumRows(rows: seq<Row>): real
  {
    if rows == [] then 0.0 else SumRows(rows[..|rows| - 1]) + rows[|rows| - 1].lineTotal
  }

  /** The line totals of the rows add up to the subtotal of the items. */
  lemma {:induction false} SumRowsOfItems(rows: seq<Row>, items: seq<Item>)
    requires |rows| == |items|
    requires forall k :: 0 <= k < |items| ==> rows[k] == RowFor(items[k])
    ensures SumRows(rows) == Subtotal(items)
  {
    if items != [] {
      SumRowsOfItems(rows[..|rows| - 1], items[..|items| - 1]);
    }
  }

  /** The "BILL TO:" block: the name, then a phone line only when there is a phone. */
  function BillTo(c: Customer): (lines: seq<string>)
    ensures |lines| == if c.phone == [] then 1 else 2
    ensures lines[0] == c.name
    ensures c.phone != [] ==> lines[1] == "Phone: " + c.phone
  {
    [c.name] + if c.phone == [] then [] else ["Phone: " + c.phone]
  }

  /** `strftime("%Y-%m-%d %H:%M:%S")`, the date printed on the invoice. */
  function DisplayStamp(t: DateTime): string
  {
    Stamp(t, "-", " ", ":")
  }

  /**
   * The text content of a rendered invoice body, without layout: the
   * numbers are kept before their two-decimal formatting.
   */
  datatype Document = Document(
    invoiceLine: string,
    dateLine: string,
    billTo: seq<string>,
    rows: seq<Row>,
    subtotal: real,
    vat: real,
    vatPercent: int,
    total: real,
    currency: string)

  /** `doc` is the invoice body for these inputs. */
  predicate Describes(doc: Document, config: Config, invoiceNo: string, customer: Customer, items: seq<Item>, now: DateTime)
  {
    doc.invoiceLine == "Invoice No: " + invoiceNo &&
    doc.dateLine == "Date: " + DisplayStamp(now) &&
    doc.billTo == BillTo(customer) &&
    |doc.rows| == |items| &&
    (forall k :: 0 <= k < |items| ==> doc.rows[k] == RowFor(items[k])) &&
    doc.subtotal == Subtotal(items) &&
    doc.vat == doc.subtotal * config.vatRate &&
    doc.total == doc.subtotal + doc.vat &&
    doc.vatPercent == TruncToInt(config.vatRate * 100.0) &&
    doc.currency == config.currency
  }

  /**
   * The body of `generate_invoice_pdf`: totals first, then one table row per
   * item in order, then the totals block. The rows add up to the subtotal
   * and the total exceeds the subtotal by exactly the VAT.
   */
  method RenderBody(config: Config, invoiceNo: string, customer: Customer, items: seq<Item>, now: DateTime)
    returns (doc: Document)
    ensures Describes(doc, config, invoiceNo, customer, items, now)
    ensures SumRows(doc.rows) == doc.subtotal
    ensures doc.total - doc.subtotal == doc.vat
  {
    var subtotal := Subtotal(items);
    var vat := subtotal * config.vatRate;
    var total := subtotal + vat;
    var rows: seq<Row> := [];
    for k := 0 to |items|
      invariant |rows| == k
      invariant forall j :: 0 <= j < k ==> rows[j] == RowFor(items[j])
    {
      rows := rows + [RowFor(items[k])];
    }
    SumRowsOfItems(rows, items);
    doc := Document("Invoice No: " + invoiceNo, "Date: " + DisplayStamp(now), BillTo(customer), rows,
                    subtotal, vat, TruncToInt(config.vatRate * 100.0), total, config.currency);
  }

  /** With no negative amounts and a non-negative rate, 0 <= subtotal <= total. */
  lemma DescribedTotals(doc: Document, config: Config, invoiceNo: string, customer: Customer, items: seq<Item>, now: DateTime)
    requires Describes(doc, config, invoiceNo, customer, items, now)
    requires NonNegative(items) && config.vatRate >= 0.0
    ensures 0.0 <= doc.subtotal <= doc.total
  {
    SubtotalNonNegative(items);
    assert doc.vat >= 0.0;
  }

  /** At 15% VAT, 2 × 100 and 1 × 50 give 250, 37.5 and 287.5. */
  lemma DefaultRateExample()
    ensures var items := [Item("A", 2.0, 100.0), Item("B", 1.0, 50.0)];
      var s := Subtotal(items);
      s == 250.0 && s * DefaultConfig.vatRate == 37.5 && s + s * DefaultConfig.vatRate == 287.5
      && TruncToInt(DefaultConfig.vatRate * 100.0) == 15
  {
    var items := [Item("A", 2.0, 100.0), Item("B", 1.0, 50.0)];
    assert items[..1] == [items[0]];
    SubtotalSingle(items[0]);
  }

  /** `f"{name_part}_invoice_{timestamp}"`: how both scripts build an invoice number. */
  function Numbered(namePart: string, stamp: string): string
  {
    namePart + "_invoice_" + stamp
  }

  /** An invoice number splits back into its name part and the time stamped on it. */
  lemma NumberedDecodes(namePart: string, t: DateTime, ds: string, ms: string, ts: string)
    requires Valid(t)
    ensures var r, n := Numbered(namePart, Stamp(t, ds, ms, ts)), |namePart|;
      |r| == n + 9 + StampLength(ds, ms, ts) && r[..n] == namePart && r[n..n + 9] == "_invoice_" &&
      ReadStamp(r[n + 9..], ds, ms, ts) == t
  {
    var stamp := Stamp(t, ds, ms, ts);
    var r, n := Numbered(namePart, stamp), |namePart|;
    StampRoundTrip(t, ds, ms, ts);
    assert r[n + 9..] == stamp;
    SliceOf(namePart, "_invoice_", stamp);
  }

  /** The same name part stamped at two different times gives two different numbers. */
  lemma NumberedDistinct(namePart: string, t1: DateTime, t2: DateTime, ds: string, ms: string, ts: string)
    requires Valid(t1) && Valid(t2) && t1 != t2
    ensures Numbered(namePart, Stamp(t1, ds, ms, ts)) != Numbered(namePart, Stamp(t2, ds, ms, ts))
  {
    NumberedDecodes(namePart, t1, ds, ms, ts);
    NumberedDecodes(namePart, t2, ds, ms, ts);
  }

  /** INVOICE_DIR: the "invoices" folder beside the script. */
  function InvoiceDir(root: string): string
  {
    root + "/invoices"
  }

  /**
   * `INVOICE_DIR / strftime("%Y-%m") / f"{invoice_no}.pdf"`: the invoice file
   * sits in the month folder of `t`, named after the invoice number.
   */
  function OutputPath(root: string, t: DateTime, invoiceNo: string): (p: string)
    ensures |p| == |root| + 22 + |invoiceNo|
    ensures p[..|root| + 10] == InvoiceDir(root) + "/"
    ensures p[|root| + 10..|root| + 17] == MonthStamp(t) && p[|root| + 17] == '/'
    ensures p[|root| + 18..|p| - 4] == invoiceNo && p[|p| - 4..] == ".pdf"
  {
    var p := InvoiceDir(root) + "/" + MonthStamp(t) + "/" + invoiceNo + ".pdf";
    SliceOf(InvoiceDir(root) + "/", MonthStamp(t), "/" + invoiceNo + ".pdf");
    SliceOf(InvoiceDir(root) + "/" + MonthStamp(t) + "/", invoiceNo, ".pdf");
    p
  }

  /**
   * Two invoices land on the same path only when they have the same number
   * and were saved in the same month.
   */
  lemma OutputPathInjective(root: string, t1: DateTime, n1: string, t2: DateTime, n2: string)
    requires Valid(t1) && Valid(t2)
    requires OutputPath(root, t1, n1) == OutputPath(root, t2, n2)
    ensures n1 == n2 && t1.year == t2.year && t1.month == t2.month
  {
    var p := OutputPath(root, t1, n1);
    assert MonthStamp(t1) == p[|root| + 10..|root| + 17] == MonthStamp(t2);
    MonthStampRoundTrip(t1);
    MonthStampRoundTrip(t2);
  }
}
