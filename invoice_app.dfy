/**
 * The terminal variant: prompts for the customer and the items, derives the
 * invoice number from the name and the time, and saves the invoice in the
 * month folder. The answers typed at the prompts are a sequence of lines,
 * number parsing (`float(...)`) is the partial function `parse`, and each
 * reading of the clock is a parameter.
 */
module InvoiceApp {
  import opened Wrappers
  import opened Text
  import opened Clock
  import opened Invoice

  /** Why a run stops without an invoice: input ran out, or `float(...)` refused an answer. */
  datatype Failure = EndOfInput | NotANumber

  /** `prompt_customer`: both answers stripped, a blank name replaced by "Unknown". */
  function PromptCustomer(nameLine: string, phoneLine: string): (c: Customer)
    ensures c.name != [] && IsStripped(c.name)
    ensures Strip(nameLine) != [] ==> c.name == Strip(nameLine)
    ensures Strip(nameLine) == [] ==> c.name == "Unknown"
    ensures c.phone == Strip(phoneLine) && IsStripped(c.phone)
  {
    Customer(if Strip(nameLine) == [] then "Unknown" else Strip(nameLine), Strip(phoneLine))
  }

  /** The items read from the start of the answers, and how many answers that took. */
  datatype Collected = Collected(items: seq<Item>, used: nat) | Crashed(failure: Failure)

  /**
   * What `prompt_items` reads from `lines`: name, quantity, price, over and
   * over, until a name that is blank after stripping.
   */
  function Collect(lines: seq<string>, parse: string -> Option<real>): Collected
    decreases |lines|
  {
    if lines == [] then Crashed(EndOfInput)
    else if Strip(lines[0]) == [] then Collected([], 1)
    else if |lines| < 2 then Crashed(EndOfInput)
    else if parse(lines[1]).None? then Crashed(NotANumber)
    else if |lines| < 3 then Crashed(EndOfInput)
    else if parse(lines[2]).None? then Crashed(NotANumber)
    else
      match Collect(lines[3..], parse)
      case Collected(items, used) =>
        Collected([Item(Strip(lines[0]), parse(lines[1]).value, parse(lines[2]).value)] + items, used + 3)
      case Crashed(f) => Crashed(f)
  }

  /** Three answers that enter `item`: its stripped, non-blank name, its quantity, its price. */
  predicate Answers(nameLine: string, qtyLine: string, priceLine: string, parse: string -> Option<real>, item: Item)
  {
    item.name != [] && Strip(nameLine) == item.name &&
    parse(qtyLine) == Some(item.qty) && parse(priceLine) == Some(item.price)
  }

  /**
   * `lines` starts with one name / quantity / price triple per item, in
   * order, followed by a blank name.
   */
  predicate EnteredAs(lines: seq<string>, parse: string -> Option<real>, items: seq<Item>)
  {
    3 * |items| + 1 <= |lines| && Strip(lines[3 * |items|]) == [] &&
    forall k :: 0 <= k < |items| ==> Answers(lines[3 * k], lines[3 * k + 1], lines[3 * k + 2], parse, items[k])
  }

  /** `items` entered so far in front of what the rest of the answers give. */
  function Extend(items: seq<Item>, c: Collected): Collected
  {
    match c
    case Collected(rest, used) => Collected(items + rest, used + 3 * |items|)
    case Crashed(f) => Crashed(f)
  }

  /** One item triple at the front of the answers is read before the rest. */
  lemma CollectStep(lines: seq<string>, parse: string -> Option<real>)
    requires |lines| >= 3 && Strip(lines[0]) != [] && parse(lines[1]).Some? && parse(lines[2]).Some?
    ensures Collect(lines, parse) ==
      Extend([Item(Strip(lines[0]), parse(lines[1]).value, parse(lines[2]).value)], Collect(lines[3..], parse))
  {
  }

  /** Entering a non-empty list enters its first item, then the rest. */
  lemma EnteredAsTail(lines: seq<string>, parse: string -> Option<real>, items: seq<Item>)
    requires items != [] && EnteredAs(lines, parse, items)
    ensures Answers(lines[0], lines[1], lines[2], parse, items[0]) && EnteredAs(lines[3..], parse, items[1..])
  {
    var rest, tail := items[1..], lines[3..];
    assert Answers(lines[3 * 0], lines[3 * 0 + 1], lines[3 * 0 + 2], parse, items[0]);
    assert tail[3 * |rest|] == lines[3 * |items|];
    forall k | 0 <= k < |rest|
      ensures Answers(tail[3 * k], tail[3 * k + 1], tail[3 * k + 2], parse, rest[k])
    {
      var j := k + 1;
      assert Answers(lines[3 * j], lines[3 * j + 1], lines[3 * j + 2], parse, items[j]);
      assert tail[3 * k] == lines[3 * j] && tail[3 * k + 1] == lines[3 * j + 1] && tail[3 * k + 2] == lines[3 * j + 2];
    }
  }

  /** Entering a first item and then a list enters the whole list. */
  lemma EnteredAsCons(lines: seq<string>, parse: string -> Option<real>, items: seq<Item>)
    requires items != [] && |lines| >= 3
    requires Answers(lines[0], lines[1], lines[2], parse, items[0]) && EnteredAs(lines[3..], parse, items[1..])
    ensures EnteredAs(lines, parse, items)
  {
    var rest, tail := items[1..], lines[3..];
    assert tail[3 * |rest|] == lines[3 * |items|];
    forall k | 0 <= k < |items|
      ensures Answers(lines[3 * k], lines[3 * k + 1], lines[3 * k + 2], parse, items[k])
    {
      if k > 0 {
        var j := k - 1;
        assert Answers(tail[3 * j], tail[3 * j + 1], tail[3 * j + 2], parse, rest[j]);
        assert lines[3 * k] == tail[3 * j] && lines[3 * k + 1] == tail[3 * j + 1] && lines[3 * k + 2] == tail[3 * j + 2];
      }
    }
  }

  /**
   * The items collected are exactly the answers before the first blank
   * name, in the order entered, and nothing after that name is read.
   */
  lemma {:induction false} CollectExact(lines: seq<string>, parse: string -> Option<real>, items: seq<Item>, used: nat)
    ensures Collect(lines, parse) == Collected(items, used) <==> used == 3 * |items| + 1 && EnteredAs(lines, parse, items)
    decreases |lines|
  {
    if lines == [] || Strip(lines[0]) == [] || |lines| < 3 || parse(lines[1]).None? || parse(lines[2]).None? {
      if items != [] && EnteredAs(lines, parse, items) {
        EnteredAsTail(lines, parse, items);
      }
    } else {
      CollectStep(lines, parse);
      if items != [] {
        if EnteredAs(lines, parse, items) {
          EnteredAsTail(lines, parse, items);
        }
        if Answers(lines[0], lines[1], lines[2], parse, items[0]) && EnteredAs(lines[3..], parse, items[1..]) {
          EnteredAsCons(lines, parse, items);
        }
        CollectExact(lines[3..], parse, items[1..], if used >= 3 then used - 3 else 0);
        assert items == [items[0]] + items[1..];
      }
    }
  }

  /** Entering a list is entering its first part, then its second. */
  lemma ExtendAppend(a: seq<Item>, b: seq<Item>, c: Collected)
    ensures Extend(a + b, c) == Extend(a, Extend(b, c))
  {
    if c.Collected? {
      assert a + b + c.items == a + (b + c.items);
    }
  }

  /** The result of `prompt_items`: the items, the early exit when there are none, or a crash. */
  datatype Entered = Entered(items: seq<Item>) | NoItems | Failed(failure: Failure)

  /** The collected items, `NoItems` when the list is empty, or the failure. */
  function Outcome(c: Collected): Entered
  {
    match c
    case Collected(items, _) => if items == [] then NoItems else Entered(items)
    case Crashed(f) => Failed(f)
  }

  /**
   * `prompt_items`: the `while True` loop that appends one item per triple of
   * answers and stops at the first blank name. An empty list ends the run.
   */
  method PromptItems(lines: seq<string>, parse: string -> Option<real>) returns (r: Entered)
    ensures r == Outcome(Collect(lines, parse))
  {
    var items: seq<Item> := [];
    var i := 0;
    while true
      invariant i == 3 * |items| && i <= |lines|
      invariant Collect(lines, parse) == Extend(items, Collect(lines[i..], parse))
      decreases |lines| - i
    {
      var rest := lines[i..];
      if rest == [] {
        return Failed(EndOfInput);
      }
      var name := Strip(rest[0]);
      if name == [] {
        break;
      }
      if |rest| < 2 {
        return Failed(EndOfInput);
      }
      var qty := parse(rest[1]);
      if qty.None? {
        return Failed(NotANumber);
      }
      if |rest| < 3 {
        return Failed(EndOfInput);
      }
      var price := parse(rest[2]);
      if price.None? {
        return Failed(NotANumber);
      }
      var item := Item(name, qty.value, price.value);
      assert rest[3..] == lines[i + 3..];
      CollectStep(rest, parse);
      ExtendAppend(items, [item], Collect(rest[3..], parse));
      items := items + [item];
      i := i + 3;
    }
    if items == [] {
      r := NoItems;
    } else {
      r := Entered(items);
    }
  }

  /** `customer_name.strip().replace(" ", "_")[:10] or "Unknown"`. */
  function NamePart(name: string): string
  {
    var cut := Take(ReplaceSpaces(Strip(name)), 10);
    if cut == [] then "Unknown" else cut
  }

  /**
   * The name part is never empty, has at most ten characters and no space,
   * and is the first characters of the stripped name with spaces turned
   * into underscores. It reads "Unknown" exactly when the stripped name is
   * empty or is itself "Unknown".
   */
  lemma NamePartProperties(name: string)
    ensures var r := NamePart(name); r != [] && |r| <= 10 && ' ' !in r
    ensures var s := Strip(name); s != [] ==>
      NamePart(name) <= ReplaceSpaces(s) && |NamePart(name)| == if |s| < 10 then |s| else 10
    ensures Strip(name) == [] ==> NamePart(name) == "Unknown"
    ensures NamePart(name) == "Unknown" <==> Strip(name) == [] || Strip(name) == "Unknown"
  {
    var s := Strip(name);
    var r := NamePart(name);
    var cut := Take(ReplaceSpaces(s), 10);
    if s != [] && r == "Unknown" {
      assert |s| == 7;
      assert cut == ReplaceSpaces(s);
      forall k | 0 <= k < 7 ensures s[k] == "Unknown"[k] {
        assert ReplaceSpaces(s)[k] == "Unknown"[k];
      }
    }
    if s == "Unknown" {
      assert ReplaceSpaces(s) == "Unknown";
    }
  }

  /** `strftime("%Y%m%d-%H%M%S")`. */
  function CliStamp(t: DateTime): string
  {
    Stamp(t, "", "-", "")
  }

  /** A terminal stamp is 15 characters: eight digits, a hyphen, six digits. */
  lemma CliStampShape(t: DateTime)
    ensures var s := CliStamp(t);
      |s| == 15 && s[8] == '-' && forall k :: 0 <= k < 15 && k != 8 ==> IsDigit(s[k])
  {
    var s := CliStamp(t);
    StampFields(t, "", "-", "");
    assert s[8] == '-';
    forall k | 0 <= k < 15 && k != 8 ensures IsDigit(s[k]) {
      if k < 4 { assert s[k] == s[..4][k]; }
      else if k < 6 { assert s[k] == s[4..6][k - 4]; }
      else if k < 8 { assert s[k] == s[6..8][k - 6]; }
      else if k < 11 { assert s[k] == s[9..11][k - 9]; }
      else if k < 13 { assert s[k] == s[11..13][k - 11]; }
      else { assert s[k] == s[13..15][k - 13]; }
    }
  }

  /** `generate_invoice_number`: name part, "_invoice_", then the terminal stamp. */
  function GenerateInvoiceNumber(name: string, t: DateTime): string
  {
    Numbered(NamePart(name), CliStamp(t))
  }

  /** A terminal invoice number splits back into its name part and the time it was made. */
  lemma InvoiceNumberDecodes(name: string, t: DateTime)
    requires Valid(t)
    ensures var r, n := GenerateInvoiceNumber(name, t), |NamePart(name)|;
      |r| == n + 24 && r[..n] == NamePart(name) && r[n..n + 9] == "_invoice_" &&
      ReadStamp(r[n + 9..], "", "-", "") == t
  {
    NumberedDecodes(NamePart(name), t, "", "-", "");
  }

  /** The same customer at two different seconds gets two different invoice numbers. */
  lemma InvoiceNumbersDistinct(name: string, t1: DateTime, t2: DateTime)
    requires Valid(t1) && Valid(t2) && t1 != t2
    ensures GenerateInvoiceNumber(name, t1) != GenerateInvoiceNumber(name, t2)
  {
    NumberedDistinct(NamePart(name), t1, t2, "", "-", "");
  }

  /** Two runs for the same customer at different seconds never write to the same file. */
  lemma RunsApartDoNotCollide(root: string, name: string, t1: DateTime, f1: DateTime, t2: DateTime, f2: DateTime)
    requires Valid(t1) && Valid(t2) && Valid(f1) && Valid(f2) && t1 != t2
    ensures OutputPath(root, f1, GenerateInvoiceNumber(name, t1)) != OutputPath(root, f2, GenerateInvoiceNumber(name, t2))
  {
    InvoiceNumbersDistinct(name, t1, t2);
    if OutputPath(root, f1, GenerateInvoiceNumber(name, t1)) == OutputPath(root, f2, GenerateInvoiceNumber(name, t2)) {
      OutputPathInjective(root, f1, GenerateInvoiceNumber(name, t1), f2, GenerateInvoiceNumber(name, t2));
    }
  }

  /** How a terminal run ends. */
  datatype RunOutcome = Saved(path: string, doc: Document) | Exited | Aborted(failure: Failure)

  /**
   * `main`: customer, items, invoice number, month folder, rendering. The
   * clock is read three times: for the number, for the folder and for the
   * date printed on the invoice.
   */
  method RunCli(config: Config, root: string, lines: seq<string>, parse: string -> Option<real>,
                numberTime: DateTime, folderTime: DateTime, dateTime: DateTime) returns (r: RunOutcome)
    ensures |lines| < 2 ==> r == Aborted(EndOfInput)
    ensures |lines| >= 2 ==>
      var customer := PromptCustomer(lines[0], lines[1]);
      var invoiceNo := GenerateInvoiceNumber(customer.name, numberTime);
      match Collect(lines[2..], parse)
      case Crashed(f) => r == Aborted(f)
      case Collected(items, _) =>
        if items == [] then r == Exited
        else (r.Saved? && r.path == OutputPath(root, folderTime, invoiceNo) &&
              Describes(r.doc, config, invoiceNo, customer, items, dateTime))
  {
    if |lines| < 2 {
      return Aborted(EndOfInput);
    }
    var customer := PromptCustomer(lines[0], lines[1]);
    var entered := PromptItems(lines[2..], parse);
    match entered {
      case NoItems =>
        r := Exited;
      case Failed(f) =>
        r := Aborted(f);
      case Entered(items) =>
        var invoiceNo := GenerateInvoiceNumber(customer.name, numberTime);
        var path := OutputPath(root, folderTime, invoiceNo);
        var doc := RenderBody(config, invoiceNo, customer, items, dateTime);
        r := Saved(path, doc);
    }
  }
}
