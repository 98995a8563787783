/** The helpers shared by the PDF builders (`api/_pdf.js`): currency formatting with
    a fallback, list normalisation, and the quote and item rows the builders read. */
module PdfHelpers {
  import opened Wrappers
  import opened Text
  import opened Numbers

  /** `Intl.NumberFormat("en-ZA", {style: "currency", currency: code, ...}).format(amount)`:
      the locale formatter is not part of this model; `None` means it threw
      (for example on an unknown currency code). */
  type CurrencyFormatter = (string, real) -> Option<string>

  /** The JavaScript value stored in a quote's `assumptions` or `terms` column. */
  datatype ListValue =
    | Absent                     // null or undefined
    | Arr(items: seq<string>)    // an array
    | Str(text: string)          // a string, possibly multi-line
    | Other(truthy: bool)        // a number, boolean or object

  /** `normalizeList(value)`. */
  function NormalizeList(v: ListValue): (r: seq<string>)
    ensures v.Absent? || v.Other? ==> r == []
    ensures v.Arr? ==> r == v.items
    ensures v.Str? ==> forall k :: 0 <= k < |r| ==> r[k] != [] && IsTrimmed(r[k])
  {
    match v
    case Absent => []
    case Arr(items) => items
    case Str(s) => if s == "" then [] else SplitLines(s)
    case Other(_) => []
  }

  /** The empty string, which is falsy, gives no entries like a blank text does: every
      string normalises to its trimmed non-blank lines, and to nothing exactly when
      all of its lines are blank. */
  lemma NormalizeListString(s: string)
    ensures NormalizeList(Str(s)) == SplitLines(s)
    ensures NormalizeList(Str(s)) == [] <==> AllBlank(Split(s, '\n'))
  {
    if s == "" {
      assert Split(s, '\n') == [""];
      assert SplitLines(s) == [];
    }
    SplitLinesEmpty(s);
  }

  /** Lines keep their order: the entries of two texts joined by a newline are the
      entries of the first followed by those of the second. */
  lemma NormalizeListOrder(a: string, b: string)
    ensures NormalizeList(Str(a + "\n" + b)) == NormalizeList(Str(a)) + NormalizeList(Str(b))
  {
    NormalizeListString(a);
    NormalizeListString(b);
    NormalizeListString(a + "\n" + b);
    SplitLinesAppend(a, b);
  }

  /** `formatCurrency(value, currency)`: a missing amount is 0 and a missing currency is
      "ZAR"; when the locale formatter throws, the result is the code, a space and the
      amount rounded to an integer. */
  function FormatCurrency(fmt: CurrencyFormatter, value: Option<real>, currency: Option<string>): (r: string)
    ensures var code, amount := currency.GetOr("ZAR"), value.GetOr(0.0);
      (fmt(code, amount).Some? ==> r == fmt(code, amount).value) &&
      (fmt(code, amount).None? ==> r == code + " " + ToFixed0(amount))
  {
    var number := value.GetOr(0.0);
    var code := currency.GetOr("ZAR");
    match fmt(code, number)
    case Some(text) => text
    case None => code + " " + ToFixed0(number)
  }

  /** The fallback text of a non-negative amount: the code, one space, then plain
      digits reading back as the amount rounded to the nearest integer. */
  lemma FormatCurrencyFallback(fmt: CurrencyFormatter, value: real, code: string)
    requires fmt(code, value).None?
    requires value >= 0.0
    ensures var r := FormatCurrency(fmt, Some(value), Some(code));
      r[..|code| + 1] == code + " " &&
      AllDigits(r[|code| + 1..]) &&
      var n := ParseNat(r[|code| + 1..]) as real; n - 0.5 <= value < n + 0.5
  {
    var r := FormatCurrency(fmt, Some(value), Some(code));
    ToFixed0NonNegative(value);
    assert r[|code| + 1..] == ToFixed0(value);
  }

  /** One row of `quote_items` as the builders read it; every column may be null. */
  datatype ItemRow = ItemRow(
    name: Option<string>,
    category: Option<string>,
    quantity: Option<real>,
    unitPrice: Option<real>)

  /** One row of `quotes` as the builders read it. */
  datatype QuoteRow = QuoteRow(
    publicId: string,
    customer: Option<string>,
    contactName: Option<string>,
    contactEmail: Option<string>,
    owner: Option<string>,
    expiresAt: Option<string>,
    currency: Option<string>,
    assumptions: ListValue,
    terms: ListValue,
    subtotal: Option<real>,
    total: Option<real>)

  /** `Number(item.unit_price ?? 0) * Number(item.quantity ?? 0)`. */
  function LineTotal(item: ItemRow): real
  {
    item.unitPrice.GetOr(0.0) * item.quantity.GetOr(0.0)
  }
}
