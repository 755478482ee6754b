# Invoice generator: a Dafny model

The invoice generator collects a customer and a list of line items, works out
subtotal, VAT and total, lays the invoice out as a PDF and saves it as
`invoices/<YYYY-MM>/<invoice_no>.pdf`. It has two entry points that repeat
the same rendering code: a terminal script (`invoice_app.py`) that asks for
the data one answer at a time, and a Streamlit web form (`app.py`) that takes
three text areas of names, quantities and prices.

This project models the logic under the drawing calls:

- `wrappers.dfy`: `Option` and `Result`.
- `text.dfy` (module `Text`): the Python string operations the scripts use.
  These are `str.strip()` over Python's whitespace set, `replace(" ", "_")`,
  slicing `s[:n]` and `str.splitlines()` with its line boundaries.
- `clock.dfy` (module `Clock`): clock readings and the zero-padded `strftime`
  stamps made from them (`%Y%m%d-%H%M%S`, `%Y%m%d%H%M%S`,
  `%Y-%m-%d %H:%M:%S`, `%Y-%m`), with a reader that gets the fields back.
- `invoice.dfy` (module `Invoice`): what both scripts share. This covers items,
  the subtotal / VAT / total arithmetic, the table rows (name cut to 35
  characters, line total qty × price) and the "BILL TO" block, plus the content
  of the rendered invoice as a `Document` record (`RenderBody`, the row loop
  of `generate_invoice_pdf`). It also holds the `f"{name}_invoice_{stamp}"`
  number shape and the output path.
- `invoice_app.dfy` (module `InvoiceApp`): the terminal script. It covers
  `prompt_customer`, the `prompt_items` loop (a `while` loop over the typed
  answers, proved against the function `Collect`) and the 10-character
  name-part policy of `generate_invoice_number`. `main` is `RunCli`.
- `form_app.dfy` (module `FormApp`): the web form. It covers parsing the text
  areas, the length check, the zip into items and the form's invoice number
  (whole name, spaces to underscores). It also has the form's
  `generate_invoice_pdf` and the submit handler `SubmitForm`.

Floats are exact `real`s. Number parsing (`float(...)`) is a parameter
`parse: string -> Option<real>`, where `None` is a `ValueError`. The answers
typed at the terminal are a sequence of lines, and running out of them is
`EndOfInput` (Python's `EOFError`). Each `datetime.now()` call is its own
`DateTime` parameter, because the scripts read the clock separately for the
invoice number, the month folder and the printed date. The script directory
is the parameter `root`. Paths are strings joined with `/`.

Three behaviours of the scripts are easy to miss:

- The form does not require at least one item. Three blank text areas pass
  the length check and produce an invoice with no rows
  (`FormApp.BlankFormAccepted`). Only the terminal script refuses an empty
  list.
- Only the terminal script creates `config.json` with default settings when
  it is missing. The form reads `config.json` and fails if it is absent,
  which is left out as I/O.
- The name part of the terminal number is "Unknown" both when the name is
  blank and when the stripped name is itself "Unknown"
  (`InvoiceApp.NamePartProperties`).

## Model

| member | source | states |
|---|---|---|
| Text.Strip | invoice_app.py:60 | the result has no whitespace (in Python's sense) at either end |
| Text.StripSpec | app.py:106 | strip keeps a contiguous piece of the input and removes only whitespace at both ends; the result is empty exactly when the input is all whitespace |
| Text.StripStripped | app.py:106 | a string with no whitespace at either end is unchanged by strip |
| Text.StripIdempotent | invoice_app.py:80 | stripping twice equals stripping once |
| Text.StripNoBreak | app.py:106 | stripping a single line never introduces a line boundary |
| Text.ReplaceSpaces | invoice_app.py:80 | same length; every space becomes `_` and every other character is kept; no space remains |
| Text.Take | invoice_app.py:114 | `s[:n]` is the prefix of `s` of length min(n, \|s\|) |
| Text.BreakIndex | app.py:106 | the index found is the first line boundary, or the end when there is none |
| Text.SplitLines | app.py:106 | no line that `splitlines` returns contains a line boundary |
| Text.SplitJoin | app.py:106 | splitting lines joined with newlines gives the same lines back when none has a boundary and the last is not empty |
| Text.CleanLines | app.py:106-108 | the kept lines are non-empty and stripped, never more than the input lines, and single lines when the input lines are |
| Text.CleanLinesOfEntries | app.py:106-108 | lines that are already non-empty and stripped are all kept unchanged, in order |
| Text.CleanLinesAppend | app.py:106-108 | each line is kept or dropped on its own: cleaning distributes over concatenation |
| Text.CleanSplitDropFirst | app.py:106 | one whitespace character in front of a text, a line boundary included, changes none of the stripped non-blank lines `splitlines` gives |
| Text.CleanSplitDropLast | app.py:106 | one whitespace character after a text, a line boundary included, changes none of the stripped non-blank lines `splitlines` gives |
| Text.CleanSplitStrip | app.py:106 | stripping a text before `splitlines` changes none of its stripped non-blank lines |
| Text.CleanSplitJoin | app.py:106 | for any lines without boundaries, blank last lines included, the stripped non-blank lines of their newline-joined text are the stripped non-blank lines themselves |
| Clock.Stamp | invoice_app.py:81 | `strftime` with the given separators; no contract of its own: its length, field offsets and read-back are stated by `Clock.StampFields` and `Clock.StampRoundTrip` |
| Clock.Digits | invoice_app.py:81 | the zero-padded rendering has exactly the field width and only decimal digits |
| Clock.ValueOfDigits | invoice_app.py:81 | zero padding loses nothing: a number below 10^w reads back from its w digits |
| Clock.StampFields | invoice_app.py:81 | each field of a stamp sits at its fixed offset, as its padded digits |
| Clock.StampRoundTrip | invoice_app.py:81 | a stamp has its fixed length and reads back to the clock reading it came from |
| Clock.StampInjective | app.py:114 | two different readings never give the same stamp |
| Clock.MonthStamp | invoice_app.py:137 | the month folder name is seven characters, `YYYY-MM`, digits around a hyphen |
| Clock.MonthStampRoundTrip | app.py:84 | the month folder name reads back to the year and month |
| Invoice.DefaultConfig | invoice_app.py:13-19 | the default settings record; its 15% rate is used by `Invoice.DefaultRateExample` |
| Invoice.LineTotal | invoice_app.py:113 | qty × price; no contract of its own: `Invoice.SubtotalSingle` and `Invoice.SumRowsOfItems` relate it to the subtotal |
| Invoice.Subtotal | invoice_app.py:85 | the sum of the line totals; no contract of its own: it is characterised by `Invoice.SubtotalSingle`, `Invoice.SubtotalAppend`, `Invoice.SubtotalPermutation` and `Invoice.SubtotalNonNegative` |
| Invoice.SubtotalSingle | invoice_app.py:85 | the subtotal of one item is its qty × price |
| Invoice.SubtotalAppend | invoice_app.py:85 | the subtotal of two lists one after the other is the sum of their subtotals (the empty list sums to 0) |
| Invoice.SubtotalPermutation | invoice_app.py:85 | reordering the items does not change the subtotal |
| Invoice.SubtotalNonNegative | app.py:41 | with no negative quantity or price the subtotal is not negative |
| Invoice.TruncToInt | invoice_app.py:122 | `int(x)` rounds toward zero: it is the integer within 1 of x on the side of zero |
| Invoice.RowFor | invoice_app.py:112-117 | a row shows a prefix of the item name of length min(35, \|name\|), the quantity, the price and qty × price |
| Invoice.SumRowsOfItems | app.py:68-73 | the line totals of the rows, one per item in order, add up to the subtotal |
| Invoice.BillTo | invoice_app.py:98-102 | the bill-to block is the customer name plus a phone line exactly when the phone is not empty |
| Invoice.RenderBody | invoice_app.py:84-126 | the invoice body has the number and date lines, the bill-to block and one row per item in order; subtotal = Σ qty × price, VAT = subtotal × rate, total = subtotal + VAT, and the VAT percentage is int(rate × 100); the rows add up to the subtotal and total − subtotal = VAT |
| Invoice.DescribedTotals | invoice_app.py:85-87 | with non-negative amounts and rate, 0 <= subtotal <= total |
| Invoice.DefaultRateExample | invoice_app.py:13-19 | at the default 15% rate, 2 × 100 and 1 × 50 give 250, 37.5 and 287.5, and the label shows 15 |
| Invoice.DisplayStamp | invoice_app.py:94 | the `%Y-%m-%d %H:%M:%S` date line; no contract of its own: it is `Clock.Stamp` with `-`, ` ` and `:`, whose read-back `Clock.StampRoundTrip` states |
| Invoice.Numbered | invoice_app.py:82 | `f"{name_part}_invoice_{stamp}"`; no contract of its own: `Invoice.NumberedDecodes` and `Invoice.NumberedDistinct` state how it splits back and that it keeps readings apart |
| Invoice.NumberedDecodes | invoice_app.py:82 | an invoice number splits back into its name part, `_invoice_` and the clock reading it was stamped with |
| Invoice.NumberedDistinct | app.py:114 | the same name part stamped at two different seconds gives two different numbers |
| Invoice.InvoiceDir | invoice_app.py:10 | the `invoices` folder beside the script; `Invoice.OutputPath` states where it sits in every output path |
| Invoice.OutputPath | invoice_app.py:137-141 | the path is `<root>/invoices/`, the `YYYY-MM` folder of the reading, `/`, the invoice number and `.pdf` |
| Invoice.OutputPathInjective | app.py:84-86 | two invoices share a path only when they have the same number and month |
| InvoiceApp.PromptCustomer | invoice_app.py:58-62 | the name is the stripped answer, or "Unknown" when that is blank; it is never empty; the phone is the stripped answer |
| InvoiceApp.Collect | invoice_app.py:64-77 | the reference definition of what `prompt_items` reads; no contract of its own: `InvoiceApp.CollectExact` characterises it in both directions and `InvoiceApp.PromptItems` is proved equal to it |
| InvoiceApp.CollectStep | invoice_app.py:67-73 | an item triple at the front of the answers becomes the first item, then reading goes on |
| InvoiceApp.EnteredAsTail | invoice_app.py:67-73 | when a non-empty list was entered, its first item answers the first three lines and the rest was entered by the lines after them |
| InvoiceApp.EnteredAsCons | invoice_app.py:67-73 | an item answering the first three lines, followed by a list entered by the lines after them, is a list entered by all the lines |
| InvoiceApp.CollectExact | invoice_app.py:64-77 | the items read are exactly the answers before the first blank name, names stripped and in order; item k comes from answers 3k, 3k+1, 3k+2, and nothing after the blank name is read (both directions) |
| InvoiceApp.ExtendAppend | invoice_app.py:73 | appending items one after another is the same as appending them at once |
| InvoiceApp.PromptItems | invoice_app.py:64-77 | the loop returns the collected items, ends the run when there are none, and fails when answers run out or a number does not parse |
| InvoiceApp.NamePart | invoice_app.py:80 | `customer_name.strip().replace(" ", "_")[:10] or "Unknown"`; no contract of its own: its properties are stated by `InvoiceApp.NamePartProperties` |
| InvoiceApp.NamePartProperties | invoice_app.py:80 | the name part is never empty, at most 10 characters, has no space, and is a prefix of the stripped name with spaces turned to `_` of length min(10, \|name\|); it is "Unknown" when the stripped name is empty, and is "Unknown" exactly when the stripped name is empty or "Unknown" |
| InvoiceApp.CliStamp | invoice_app.py:81 | the `%Y%m%d-%H%M%S` stamp; no contract of its own: its shape is stated by `InvoiceApp.CliStampShape` and its read-back by `InvoiceApp.InvoiceNumberDecodes` |
| InvoiceApp.CliStampShape | invoice_app.py:81 | the terminal stamp has 15 characters: 8 digits, `-`, 6 digits |
| InvoiceApp.GenerateInvoiceNumber | invoice_app.py:79-82 | `generate_invoice_number`; no contract of its own: `InvoiceApp.InvoiceNumberDecodes` and `InvoiceApp.InvoiceNumbersDistinct` state what it contains and that it keeps seconds apart |
| InvoiceApp.InvoiceNumberDecodes | invoice_app.py:79-82 | the terminal number is the name part, `_invoice_` and a 15-character stamp that reads back to the reading |
| InvoiceApp.InvoiceNumbersDistinct | invoice_app.py:79-82 | the same customer at two different seconds gets two different numbers |
| InvoiceApp.RunsApartDoNotCollide | invoice_app.py:134-141 | two runs for the same customer at different seconds never write the same file |
| InvoiceApp.RunCli | invoice_app.py:130-143 | a run fails when input runs out or a number does not parse; it exits when no item is entered; otherwise it saves the invoice for the prompted customer and items at the month-folder path named by the generated number |
| FormApp.ParseBlock | app.py:106 | every parsed entry is non-empty, stripped and a single line |
| FormApp.ParseBlockUnstripped | app.py:106 | the outer `strip()` makes no difference: for every text, the entries are the stripped non-blank lines of the text as submitted, whatever whitespace or blank lines surround them |
| FormApp.ParseBlockOfLines | app.py:106 | any lines typed one per line, leading, trailing and blank lines included, parse to those lines stripped, with the blank ones dropped, in their order |
| FormApp.ParseBlockOfEntries | app.py:106-108 | entries typed one per line are read back exactly, in order |
| FormApp.ParseNumbers | app.py:107-108 | converting succeeds exactly when every entry parses, and then gives one number per entry, in order |
| FormApp.ParseForm | app.py:106-113 | a non-number is an error; otherwise lists of different lengths are refused; otherwise item k is (names[k], qtys[k], prices[k]) and there are as many items as names |
| FormApp.FormOfLines | app.py:106-113 | entries typed one per line give one item per line when the counts agree and are refused when they differ |
| FormApp.MismatchExample | app.py:110-111 | two names, one quantity and two prices are refused |
| FormApp.BlankFormAccepted | app.py:110-113 | three blank text areas pass the check and give no items |
| FormApp.FormStamp | app.py:114 | the `%Y%m%d%H%M%S` stamp; no contract of its own: its shape is stated by `FormApp.FormStampShape` and its read-back by `FormApp.FormInvoiceNumberDecodes` |
| FormApp.FormStampShape | app.py:114 | the form stamp is 14 digits |
| FormApp.FormInvoiceNumber | app.py:114 | the form's invoice number; no contract of its own: `FormApp.FormInvoiceNumberDecodes` and `FormApp.FormInvoiceNumbersDistinct` state what it contains and that it keeps seconds apart |
| FormApp.FormInvoiceNumberDecodes | app.py:114 | the form number keeps every character of the name, spaces turned to `_`, with no strip, cut or default, then `_invoice_` and a stamp that reads back to the reading |
| FormApp.FormInvoiceNumbersDistinct | app.py:114 | the same customer at two different seconds gets two different form numbers |
| FormApp.SubmissionsApartDoNotCollide | app.py:84-86 | two submissions for the same customer at different seconds never write the same file |
| FormApp.NamePoliciesAgree | app.py:114 | for a stripped, non-empty name of at most 10 characters both scripts use the same name part |
| FormApp.NamePoliciesDiffer | app.py:114 | for a name longer than 10 characters the two scripts use different name parts |
| FormApp.GenerateInvoicePdf | app.py:40-88 | the form renders the same invoice body and returns the month-folder path named by the invoice number |
| FormApp.SubmitForm | app.py:105-116 | a submission is refused with the parse error, or generates the invoice for the parsed items and the customer as typed, saved under the form invoice number |

## Left out

- PDF layout: fonts, cell widths and borders, cursor moves, the repeated page header (business name, address, phone), the footer with page numbers, and automatic page breaks. These are calls into the FPDF library. The invoice body is modelled as a `Document` record of its text and numbers.
- The logo in the terminal script's header, and the warning printed when it is missing. This is a decorative file read.
- Number formatting: the `.2f` cells, `format_money` (defined but never called) and the currency suffix as text. The model keeps the numbers before formatting.
- Invoice.TruncToInt: rounds the exact product rate × 100 toward zero. Python computes it in floating point, so a rate like 0.29 can show one percent less.
- Floating-point rounding of sums and products. Reals are exact.
- `float(...)` itself. It is the abstract `parse`, and a `ValueError` is `NotANumber`.
- `load_or_create_config`, the form's reading of `config.json`, `mkdir`, `pdf.output`, and the download button that reads the saved file back. These are file-system effects. The default settings are the constant `Invoice.DefaultConfig`.
- Streamlit widgets: the submit button, the 50- and 20-character limits on the name and phone fields, and the error and success messages. `print`, `exit(0)`, and the absolute path (`resolve()`) in the final message. The outcomes are the datatypes `RunOutcome`, `Entered` and `FormOutcome`.
- `datetime.now()`. Each reading is a `DateTime` parameter, and microseconds are not kept because no stamp shows them.
- Clock.Digits: pads years to four digits. The C library behind Python's `strftime` on Linux prints years before 1000 unpadded.
- Invoice.OutputPath: joins with `/` as text, and says where the invoice lands only for invoice numbers without `/`. The customer name goes into the number unchecked, and `pathlib` treats a `/` in it as a separator. A number that starts with `/` (customer `/tmp/x`) makes `month_folder / f"{invoice_no}.pdf"` drop the folder, so the file is `/tmp/x_invoice_<stamp>.pdf`. A `/` inside the number (`Maersk A/S`) names a subfolder that `mkdir` never created, so `pdf.output` fails. `pathlib` also collapses `//` and `/./` in a number, and a root of `/`.
- Invoice.OutputPathInjective: is about the text path. Under `pathlib`, the numbers `a//b_invoice_T` and `a/b_invoice_T` name one file.
- InvoiceApp.RunCli: returns `Saved` also for a customer name with `/` inside, where `pdf.output` fails on the missing subfolder. Its path is that of `Invoice.OutputPath`.
- InvoiceApp.RunsApartDoNotCollide: compares text paths. It carries over to the real files for names without `/`.
- FormApp.GenerateInvoicePdf: returns the text path of `Invoice.OutputPath`, with the limits stated there.
- FormApp.SubmitForm: returns `Generated` also for a customer name with `/` inside, where `pdf.output` fails on the missing subfolder.
- FormApp.SubmissionsApartDoNotCollide: compares text paths. It carries over to the real files for names without `/`.
