/**
 * The web-form variant: three text areas (names, quantities, prices, one
 * entry per line) and a customer name and phone. The widgets are left out:
 * the submitted texts are parameters, number parsing (`float(...)`) is the
 * partial function `parse`, and each reading of the clock is a parameter.
 */
module FormApp {
  import opened Wrappers
  import opened Text
  import opened Clock
  import opened Invoice
  import InvoiceApp

  /** A usable entry: not empty, no whitespace at either end, a single line. */
  predicate IsEntry(s: string)
  {
    s != [] && IsStripped(s) && NoBreak(s)
  }

  /**
   * `[n.strip() for n in text.strip().splitlines() if n.strip()]`: the
   * non-blank lines of a text area, each stripped, in their order.
   */
  function ParseBlock(text: string): (entries: seq<string>)
    ensures forall k :: 0 <= k < |entries| ==> IsEntry(entries[k])
  {
    CleanLines(SplitLines(Strip(text)))
  }

  /**
   * The outer `text.strip()` makes no difference: the entries are the
   * stripped, non-blank lines of the text exactly as submitted, whatever
   * whitespace or blank lines surround them.
   */
  lemma ParseBlockUnstripped(text: string)
    ensures ParseBlock(text) == CleanLines(SplitLines(text))
  {
    CleanSplitStrip(text);
  }

  /** Text typed as lines parses to those lines stripped, with the blank ones dropped. */
  lemma ParseBlockOfLines(lines: seq<string>)
    requires forall k :: 0 <= k < |lines| ==> NoBreak(lines[k])
    ensures ParseBlock(JoinLines(lines)) == CleanLines(lines)
  {
    ParseBlockUnstripped(JoinLines(lines));
    CleanSplitJoin(lines);
  }

  /** Entries typed one per line are read back exactly, in order. */
  lemma ParseBlockOfEntries(entries: seq<string>)
    requires forall k :: 0 <= k < |entries| ==> IsEntry(entries[k])
    ensures ParseBlock(JoinLines(entries)) == entries
  {
    ParseBlockOfLines(entries);
    CleanLinesOfEntries(entries);
  }

  /** `[float(q) for q in entries]`: fails when any entry is not a number. */
  function ParseNumbers(entries: seq<string>, parse: string -> Option<real>): (r: Option<seq<real>>)
    ensures r.Some? <==> forall k :: 0 <= k < |entries| ==> parse(entries[k]).Some?
    ensures r.Some? ==> |r.value| == |entries| && forall k :: 0 <= k < |entries| ==> parse(entries[k]) == Some(r.value[k])
  {
    if entries == [] then Some([])
    else
      match parse(entries[0])
      case None => None
      case Some(x) =>
        match ParseNumbers(entries[1..], parse)
        case None => None
        case Some(xs) => Some([x] + xs)
  }

  /** Why a submission produces no invoice. */
  datatype FormError = LengthMismatch | NotANumber

  /**
   * The submission handler up to the item list: parse the three blocks,
   * refuse lists of different lengths, otherwise zip them into items.
   */
  function ParseForm(namesText: string, qtysText: string, pricesText: string, parse: string -> Option<real>)
    : (r: Result<seq<Item>, FormError>)
    ensures var names, qtys, prices :=
      ParseBlock(namesText), ParseNumbers(ParseBlock(qtysText), parse), ParseNumbers(ParseBlock(pricesText), parse);
      (r == Err(NotANumber) <==> qtys.None? || prices.None?) &&
      (r == Err(LengthMismatch) <==> qtys.Some? && prices.Some? && !(|names| == |qtys.value| == |prices.value|)) &&
      (r.Ok? ==>
        |r.value| == |names| &&
        forall k :: 0 <= k < |names| ==> r.value[k] == Item(names[k], qtys.value[k], prices.value[k]))
  {
    var names := ParseBlock(namesText);
    match ParseNumbers(ParseBlock(qtysText), parse)
    case None => Err(NotANumber)
    case Some(qtys) =>
      match ParseNumbers(ParseBlock(pricesText), parse)
      case None => Err(NotANumber)
      case Some(prices) =>
        if !(|names| == |qtys| == |prices|) then Err(LengthMismatch)
        else Ok(seq(|names|, k requires 0 <= k < |names| => Item(names[k], qtys[k], prices[k])))
  }

  /**
   * Entries typed one per line: equal counts give one item per line, in
   * order, with the parsed numbers; different counts are refused.
   */
  lemma FormOfLines(names: seq<string>, qtys: seq<string>, prices: seq<string>, parse: string -> Option<real>)
    requires forall k :: 0 <= k < |names| ==> IsEntry(names[k])
    requires forall k :: 0 <= k < |qtys| ==> IsEntry(qtys[k]) && parse(qtys[k]).Some?
    requires forall k :: 0 <= k < |prices| ==> IsEntry(prices[k]) && parse(prices[k]).Some?
    ensures var r := ParseForm(JoinLines(names), JoinLines(qtys), JoinLines(prices), parse);
      if |names| == |qtys| == |prices| then
        r.Ok? && |r.value| == |names| &&
        forall k :: 0 <= k < |names| ==> r.value[k] == Item(names[k], parse(qtys[k]).value, parse(prices[k]).value)
      else r == Err(LengthMismatch)
  {
    var r := ParseForm(JoinLines(names), JoinLines(qtys), JoinLines(prices), parse);
    ParseBlockOfEntries(names);
    ParseBlockOfEntries(qtys);
    ParseBlockOfEntries(prices);
    var q, p := ParseNumbers(qtys, parse), ParseNumbers(prices, parse);
    assert q.Some? && p.Some?;
    if |names| == |qtys| == |prices| {
      assert r != Err(NotANumber) && r != Err(LengthMismatch);
      forall k | 0 <= k < |names|
        ensures r.value[k] == Item(names[k], parse(qtys[k]).value, parse(prices[k]).value)
      {
        assert parse(qtys[k]) == Some(q.value[k]);
        assert parse(prices[k]) == Some(p.value[k]);
      }
    }
  }

  /** Two names, one quantity and two prices are refused. */
  lemma MismatchExample(parse: string -> Option<real>)
    requires parse("2").Some? && parse("10").Some? && parse("20").Some?
    ensures ParseForm("Pen\nBook", "2", "10\n20", parse) == Err(LengthMismatch)
  {
    assert JoinLines(["Pen", "Book"]) == "Pen\nBook";
    assert JoinLines(["2"]) == "2";
    assert JoinLines(["10", "20"]) == "10\n20";
    FormOfLines(["Pen", "Book"], ["2"], ["10", "20"], parse);
  }

  /** Three blank text areas pass the length check and give an empty item list. */
  lemma BlankFormAccepted(parse: string -> Option<real>)
    ensures ParseForm("", "", "", parse) == Ok([])
  {
    assert ParseBlock("") == [];
  }

  /** `strftime("%Y%m%d%H%M%S")`. */
  function FormStamp(t: DateTime): string
  {
    Stamp(t, "", "", "")
  }

  /** A form stamp is fourteen digits. */
  lemma FormStampShape(t: DateTime)
    ensures var s := FormStamp(t);
      |s| == 14 && forall k :: 0 <= k < 14 ==> IsDigit(s[k])
  {
    var s := FormStamp(t);
    StampFields(t, "", "", "");
    forall k | 0 <= k < 14 ensures IsDigit(s[k]) {
      if k < 4 { assert s[k] == s[..4][k]; }
      else if k < 6 { assert s[k] == s[4..6][k - 4]; }
      else if k < 8 { assert s[k] == s[6..8][k - 6]; }
      else if k < 10 { assert s[k] == s[8..10][k - 8]; }
      else if k < 12 { assert s[k] == s[10..12][k - 10]; }
      else { assert s[k] == s[12..14][k - 12]; }
    }
  }

  /** `f"{customer_name.replace(' ', '_')}_invoice_{timestamp}"`. */
  function FormInvoiceNumber(name: string, t: DateTime): string
  {
    Numbered(ReplaceSpaces(name), FormStamp(t))
  }

  /**
   * The form keeps the whole name, spaces turned into underscores, with no
   * stripping, cutting or default, then "_invoice_" and the time it was made.
   */
  lemma FormInvoiceNumberDecodes(name: string, t: DateTime)
    requires Valid(t)
    ensures var r, n := FormInvoiceNumber(name, t), |name|;
      |r| == n + 23 && r[n..n + 9] == "_invoice_" && ReadStamp(r[n + 9..], "", "", "") == t &&
      forall k :: 0 <= k < n ==> r[k] == if name[k] == ' ' then '_' else name[k]
  {
    var r, n := FormInvoiceNumber(name, t), |name|;
    NumberedDecodes(ReplaceSpaces(name), t, "", "", "");
    forall k | 0 <= k < n ensures r[k] == if name[k] == ' ' then '_' else name[k] {
      assert r[k] == r[..n][k];
    }
  }

  /** The same customer at two different seconds gets two different form invoice numbers. */
  lemma FormInvoiceNumbersDistinct(name: string, t1: DateTime, t2: DateTime)
    requires Valid(t1) && Valid(t2) && t1 != t2
    ensures FormInvoiceNumber(name, t1) != FormInvoiceNumber(name, t2)
  {
    NumberedDistinct(ReplaceSpaces(name), t1, t2, "", "", "");
  }

  /** Two submissions for the same customer at different seconds never write to the same file. */
  lemma SubmissionsApartDoNotCollide(root: string, name: string, t1: DateTime, f1: DateTime, t2: DateTime, f2: DateTime)
    requires Valid(t1) && Valid(t2) && Valid(f1) && Valid(f2) && t1 != t2
    ensures OutputPath(root, f1, FormInvoiceNumber(name, t1)) != OutputPath(root, f2, FormInvoiceNumber(name, t2))
  {
    FormInvoiceNumbersDistinct(name, t1, t2);
    if OutputPath(root, f1, FormInvoiceNumber(name, t1)) == OutputPath(root, f2, FormInvoiceNumber(name, t2)) {
      OutputPathInjective(root, f1, FormInvoiceNumber(name, t1), f2, FormInvoiceNumber(name, t2));
    }
  }

  /** A short, already stripped, non-empty name gets the same name part from both scripts. */
  lemma NamePoliciesAgree(name: string)
    requires name != [] && IsStripped(name) && |name| <= 10
    ensures InvoiceApp.NamePart(name) == ReplaceSpaces(name)
  {
    StripStripped(name);
  }

  /** A name longer than ten characters gets different name parts from the two scripts. */
  lemma NamePoliciesDiffer(name: string)
    requires |name| > 10
    ensures InvoiceApp.NamePart(name) != ReplaceSpaces(name)
  {
    InvoiceApp.NamePartProperties(name);
  }

  /**
   * `generate_invoice_pdf` of the form: render the body, then save it in
   * the month folder under the invoice number and return that path.
   */
  method GenerateInvoicePdf(config: Config, root: string, invoiceNo: string, customer: Customer, items: seq<Item>,
                            dateTime: DateTime, folderTime: DateTime) returns (path: string, doc: Document)
    ensures Describes(doc, config, invoiceNo, customer, items, dateTime)
    ensures SumRows(doc.rows) == doc.subtotal
    ensures path == OutputPath(root, folderTime, invoiceNo)
  {
    doc := RenderBody(config, invoiceNo, customer, items, dateTime);
    path := OutputPath(root, folderTime, invoiceNo);
  }

  /** How a submission ends. */
  datatype FormOutcome = Generated(path: string, doc: Document) | Rejected(error: FormError)

  /**
   * A submitted form: parse the items, derive the invoice number, generate
   * and save the invoice. The clock is read for the number, for the date
   * printed on the invoice and for the month folder, in that order.
   */
  method SubmitForm(config: Config, root: string, customerName: string, customerPhone: string,
                    namesText: string, qtysText: string, pricesText: string, parse: string -> Option<real>,
                    numberTime: DateTime, dateTime: DateTime, folderTime: DateTime) returns (r: FormOutcome)
    ensures match ParseForm(namesText, qtysText, pricesText, parse)
      case Err(e) => r == Rejected(e)
      case Ok(items) =>
        var invoiceNo := FormInvoiceNumber(customerName, numberTime);
        r.Generated? && r.path == OutputPath(root, folderTime, invoiceNo) &&
        Describes(r.doc, config, invoiceNo, Customer(customerName, customerPhone), items, dateTime)
  {
    match ParseForm(namesText, qtysText, pricesText, parse) {
      case Err(e) =>
        r := Rejected(e);
      case Ok(items) =>
        var invoiceNo := FormInvoiceNumber(customerName, numberTime);
        var path, doc := GenerateInvoicePdf(config, root, invoiceNo, Customer(customerName, customerPhone), items,
                                            dateTime, folderTime);
        r := Generated(path, doc);
    }
  }
}
