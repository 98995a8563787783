/** The admin quote PDF of `api/generate-pdf.js`: its own copies of the currency and list
    helpers, the one-page quote document (header fields, the item table, subtotal and total,
    assumptions, terms, footer), and the request handler's chain of checks. */
module GeneratePdf {
  import opened Wrappers
  import opened Text
  import opened Numbers
  import opened PdfHelpers
  import opened Content

  /** The file's own `formatCurrency`: the same defaults and the same fallback as the shared helper. */
  function LocalFormatCurrency(fmt: CurrencyFormatter, value: Option<real>, currency: Option<string>): (r: string)
    ensures r == FormatCurrency(fmt, value, currency)
  {
    var number := value.GetOr(0.0);
    var attempt := fmt(currency.GetOr("ZAR"), number);
    if attempt.Some? then attempt.value else currency.GetOr("ZAR") + " " + ToFixed0(number)
  }

  /** The file's own `normalizeList`: it agrees with the shared helper on every value. */
  function LocalNormalizeList(v: ListValue): (r: seq<string>)
    ensures r == NormalizeList(v)
  {
    if v.Absent? || v == Str("") || v == Other(false) then []
    else if v.Arr? then v.items
    else if v.Str? then SplitLines(v.text)
    else []
  }

  const Dash := "—"
  const NoLineItems := "No line items added."
  const NoAssumptions := "No assumptions listed."
  const NoTerms := "No terms listed."
  const SubtotalCaption := "Subtotal"
  const TotalCaption := "Total"
  const TableHeader := Row([TextCell("Item"), TextCell("Category"), TextCell("Qty"), TextCell("Unit"), TextCell("Total")])

  /** Letterhead and the quote's header fields, "—" standing for each missing one. */
  function Header(q: QuoteRow): (r: seq<Block>)
    ensures forall b :: b in r ==> !b.Row?
    ensures |r| == 8 && r[2] == Line("Quote ID: " + q.publicId)
    ensures r[3] == Line("Prepared for: " + q.customer.GetOr("—"))
    ensures r[4] == Line("Contact: " + q.contactName.GetOr("—") + " (" + q.contactEmail.GetOr("—") + ")")
    ensures r[5] == Line("Owner: " + q.owner.GetOr("—")) && r[6] == Line("Expires: " + q.expiresAt.GetOr("—"))
  {
    [Heading("CONTINUATE"), Heading("Service Proposal"),
     Line("Quote ID: " + q.publicId),
     Line("Prepared for: " + q.customer.GetOr(Dash)),
     Line("Contact: " + q.contactName.GetOr(Dash) + " (" + q.contactEmail.GetOr(Dash) + ")"),
     Line("Owner: " + q.owner.GetOr(Dash)),
     Line("Expires: " + q.expiresAt.GetOr(Dash)),
     Heading("Scope of Services")]
  }

  /** One item's row: name ("Service" when missing), category ("General" when missing),
      quantity (0 when missing), unit price (0 when missing) and line total, both formatted. */
  function ItemLine(fmt: CurrencyFormatter, currency: string, item: ItemRow): (b: Block)
    ensures IsItemRow(b)
    ensures b.cells == [TextCell(item.name.GetOr("Service")),
                        TextCell(item.category.GetOr("General")),
                        NumberCell(item.quantity.GetOr(0.0)),
                        TextCell(FormatCurrency(fmt, item.unitPrice, Some(currency))),
                        TextCell(FormatCurrency(fmt, Some(item.unitPrice.GetOr(0.0) * item.quantity.GetOr(0.0)),
                                                Some(currency)))]
  {
    var row := Row([TextCell(item.name.GetOr("Service")),
                    TextCell(item.category.GetOr("General")),
                    NumberCell(item.quantity.GetOr(0.0)),
                    TextCell(LocalFormatCurrency(fmt, Some(item.unitPrice.GetOr(0.0)), Some(currency))),
                    TextCell(LocalFormatCurrency(fmt, Some(LineTotal(item)), Some(currency)))]);
    assert row.cells[2].NumberCell?;
    assert row.cells[3] == TextCell(FormatCurrency(fmt, item.unitPrice, Some(currency)));
    assert LineTotal(item) == item.unitPrice.GetOr(0.0) * item.quantity.GetOr(0.0);
    row
  }

  /** One row per item, in order. */
  function ItemLines(fmt: CurrencyFormatter, currency: string, items: seq<ItemRow>): (r: seq<Block>)
    ensures |r| == |items|
    ensures forall k :: 0 <= k < |items| ==> r[k] == ItemLine(fmt, currency, items[k])
  {
    if items == [] then []
    else ItemLines(fmt, currency, items[..|items| - 1]) + [ItemLine(fmt, currency, items[|items| - 1])]
  }

  /** The table body: the placeholder when there are no items, else the item rows. */
  function TableBody(fmt: CurrencyFormatter, currency: string, items: seq<ItemRow>): seq<Block> {
    if items == [] then [Line(NoLineItems)] else ItemLines(fmt, currency, items)
  }

  /** A caption and its formatted amount. */
  function AmountRow(fmt: CurrencyFormatter, caption: string, amount: Option<real>, currency: string): (b: Block)
    ensures b.Row? && !IsItemRow(b)
    ensures b.cells == [TextCell(caption), TextCell(FormatCurrency(fmt, amount, Some(currency)))]
  {
    var row := Row([TextCell(caption), TextCell(LocalFormatCurrency(fmt, Some(amount.GetOr(0.0)), Some(currency)))]);
    assert row.cells[1] == TextCell(FormatCurrency(fmt, amount, Some(currency)));
    assert forall i :: 0 <= i < |row.cells| ==> row.cells[i].TextCell?;
    row
  }

  /** The subtotal and total lines: the quote's stored amounts, 0 when missing. */
  function Totals(fmt: CurrencyFormatter, q: QuoteRow): (r: seq<Block>)
    ensures forall b :: b in r ==> !IsItemRow(b)
  {
    var currency := q.currency.GetOr("ZAR");
    [AmountRow(fmt, SubtotalCaption, q.subtotal, currency), AmountRow(fmt, TotalCaption, q.total, currency)]
  }

  /** The item table: header row, body, subtotal and total. */
  function Table(fmt: CurrencyFormatter, q: QuoteRow, items: seq<ItemRow>): seq<Block> {
    [TableHeader] + TableBody(fmt, q.currency.GetOr("ZAR"), items) + Totals(fmt, q)
  }

  /** A heading, then one bullet per entry, or the fallback sentence when there are none. */
  function ListSection(heading: string, fallback: string, list: seq<string>): (r: seq<Block>)
    ensures forall b :: b in r ==> !b.Row? && !b.Link?
  {
    [Heading(heading)] + (if |list| > 0 then Bullets(list) else [Line(fallback)])
  }

  /** The quote's assumptions and then its terms. */
  function Lists(q: QuoteRow): (r: seq<Block>)
    ensures forall b :: b in r ==> !b.Row? && !b.Link?
  {
    ListSection("Assumptions", NoAssumptions, LocalNormalizeList(q.assumptions))
    + ListSection("Terms", NoTerms, LocalNormalizeList(q.terms))
  }

  function Footer(today: string): (r: seq<Block>)
    ensures forall b :: b in r ==> !b.Row?
  {
    [Line("Continuate IT Services • " + today)]
  }

  /** The whole document `buildPdf` writes; `today` is `new Date().toLocaleDateString("en-ZA")`. */
  function Document(fmt: CurrencyFormatter, q: QuoteRow, items: seq<ItemRow>, today: string): seq<Block> {
    Header(q) + Table(fmt, q, items) + Lists(q) + Footer(today)
  }

  /** A labelled row that is not an item row. */
  predicate IsSummaryRow(b: Block, caption: string) {
    IsLabelled(b, caption) && !IsItemRow(b)
  }

  predicate IsSubtotalRow(b: Block) {
    IsSummaryRow(b, SubtotalCaption)
  }

  predicate IsTotalRow(b: Block) {
    IsSummaryRow(b, TotalCaption)
  }

  /** A row selection from the document is one from its table: no other part has rows. */
  lemma DocumentRows(fmt: CurrencyFormatter, q: QuoteRow, items: seq<ItemRow>, today: string, p: Block -> bool)
    requires forall b :: p(b) ==> b.Row?
    ensures Select(Document(fmt, q, items, today), p) == Select(Table(fmt, q, items), p)
  {
    var h, t, l, f := Header(q), Table(fmt, q, items), Lists(q), Footer(today);
    SelectAppend(h, t, p);
    SelectAppend(h + t, l, p);
    SelectAppend(h + t + l, f, p);
    SelectNone(h, p);
    SelectNone(l, p);
    SelectNone(f, p);
  }

  /** Selecting past a leading block that does not qualify. */
  lemma SelectAfter(first: Block, middle: seq<Block>, last: seq<Block>, p: Block -> bool)
    requires !p(first)
    ensures Select([first] + middle + last, p) == Select(middle, p) + Select(last, p)
  {
    SelectNone([first], p);
    SelectAppend([first], middle, p);
    assert [] + Select(middle, p) == Select(middle, p);
    SelectAppend([first] + middle, last, p);
  }

  /** Selecting from the table selects from its body and totals in turn. */
  lemma SelectTable(fmt: CurrencyFormatter, q: QuoteRow, items: seq<ItemRow>, p: Block -> bool)
    requires !p(TableHeader)
    ensures Select(Table(fmt, q, items), p)
         == Select(TableBody(fmt, q.currency.GetOr("ZAR"), items), p) + Select(Totals(fmt, q), p)
  {
    SelectAfter(TableHeader, TableBody(fmt, q.currency.GetOr("ZAR"), items), Totals(fmt, q), p);
  }

  /** The body is the single placeholder line exactly when there are no items, and
      otherwise holds item rows only. */
  lemma BodyShape(fmt: CurrencyFormatter, currency: string, items: seq<ItemRow>)
    ensures items == [] ==> TableBody(fmt, currency, items) == [Line(NoLineItems)]
    ensures Line(NoLineItems) in TableBody(fmt, currency, items) <==> items == []
    ensures items != [] ==> forall b :: b in TableBody(fmt, currency, items) ==> IsItemRow(b)
  {
    var body := TableBody(fmt, currency, items);
    if items != [] {
      forall b | b in body ensures IsItemRow(b) {
        var k :| 0 <= k < |items| && body[k] == b;
        assert IsItemRow(ItemLine(fmt, currency, items[k]));
      }
    }
  }

  /** The item rows of the body: none for the placeholder, else all of it. */
  lemma BodyItemRows(fmt: CurrencyFormatter, currency: string, items: seq<ItemRow>)
    ensures Select(TableBody(fmt, currency, items), IsItemRow) == ItemLines(fmt, currency, items)
  {
    BodyShape(fmt, currency, items);
    if items == [] {
      SelectNone(TableBody(fmt, currency, items), IsItemRow);
    } else {
      SelectAll(TableBody(fmt, currency, items), IsItemRow);
    }
  }

  /** The item rows of the whole document: one per item, in input order, none without items. */
  lemma DocumentItemRows(fmt: CurrencyFormatter, q: QuoteRow, items: seq<ItemRow>, today: string)
    ensures Select(Document(fmt, q, items, today), IsItemRow) == ItemLines(fmt, q.currency.GetOr("ZAR"), items)
  {
    DocumentRows(fmt, q, items, today, IsItemRow);
    assert !IsItemRow(TableHeader) by {
      assert forall i :: 0 <= i < |TableHeader.cells| ==> TableHeader.cells[i].TextCell?;
    }
    SelectTable(fmt, q, items, IsItemRow);
    SelectNone(Totals(fmt, q), IsItemRow);
    BodyItemRows(fmt, q.currency.GetOr("ZAR"), items);
  }

  /** The totals part holds the subtotal row, then the total row. */
  lemma TotalsRows(fmt: CurrencyFormatter, q: QuoteRow)
    ensures var currency := q.currency.GetOr("ZAR");
      Select(Totals(fmt, q), IsSubtotalRow) == [AmountRow(fmt, SubtotalCaption, q.subtotal, currency)] &&
      Select(Totals(fmt, q), IsTotalRow) == [AmountRow(fmt, TotalCaption, q.total, currency)]
  {
    var currency := q.currency.GetOr("ZAR");
    var sub := AmountRow(fmt, SubtotalCaption, q.subtotal, currency);
    var tot := AmountRow(fmt, TotalCaption, q.total, currency);
    assert Totals(fmt, q) == [sub] + [tot];
    assert SubtotalCaption != TotalCaption;
    SelectAppend([sub], [tot], IsSubtotalRow);
    SelectAppend([sub], [tot], IsTotalRow);
    assert Select([sub], IsSubtotalRow) == [sub];
    assert Select([tot], IsSubtotalRow) == [];
    assert Select([sub], IsTotalRow) == [];
    assert Select([tot], IsTotalRow) == [tot];
  }

  /** A summary-row selection from the document is one from the totals part. */
  lemma DocumentSummaryRows(fmt: CurrencyFormatter, q: QuoteRow, items: seq<ItemRow>, today: string,
                            caption: string, p: Block -> bool)
    requires caption != "Item"
    requires forall b :: p(b) ==> IsSummaryRow(b, caption)
    ensures Select(Document(fmt, q, items, today), p) == Select(Totals(fmt, q), p)
  {
    var body := TableBody(fmt, q.currency.GetOr("ZAR"), items);
    assert TableHeader.cells[0] == TextCell("Item");
    DocumentRows(fmt, q, items, today, p);
    SelectTable(fmt, q, items, p);
    BodyShape(fmt, q.currency.GetOr("ZAR"), items);
    SelectNone(body, p);
  }

  /** The document has exactly one subtotal row, showing the quote's stored `subtotal`
      (0 when missing) whatever the items: it is never recomputed from the rows. */
  lemma DocumentSubtotal(fmt: CurrencyFormatter, q: QuoteRow, items: seq<ItemRow>, today: string)
    ensures Select(Document(fmt, q, items, today), IsSubtotalRow)
         == [AmountRow(fmt, SubtotalCaption, q.subtotal, q.currency.GetOr("ZAR"))]
  {
    DocumentSummaryRows(fmt, q, items, today, SubtotalCaption, IsSubtotalRow);
    TotalsRows(fmt, q);
  }

  /** The document has exactly one total row, showing the quote's stored `total`
      (0 when missing) whatever the items: it is never the sum of the rows. */
  lemma DocumentTotal(fmt: CurrencyFormatter, q: QuoteRow, items: seq<ItemRow>, today: string)
    ensures Select(Document(fmt, q, items, today), IsTotalRow)
         == [AmountRow(fmt, TotalCaption, q.total, q.currency.GetOr("ZAR"))]
  {
    DocumentSummaryRows(fmt, q, items, today, TotalCaption, IsTotalRow);
    TotalsRows(fmt, q);
  }

  /** A list section shows the fallback sentence exactly when the list is empty, and
      otherwise one bullet per entry, in order. */
  lemma ListSectionShape(heading: string, fallback: string, list: seq<string>)
    ensures var r := ListSection(heading, fallback, list);
      r[0] == Heading(heading) &&
      (list == [] ==> r[1..] == [Line(fallback)]) &&
      (list != [] ==> r[1..] == Bullets(list) && Line(fallback) !in r)
  {
    var r := ListSection(heading, fallback, list);
    assert r[1..] == if |list| > 0 then Bullets(list) else [Line(fallback)];
  }

  /* The drawing code of `buildPdf`, part by part. */

  method WriteHeader(doc: PdfDoc, q: QuoteRow)
    modifies doc
    ensures doc.blocks == old(doc.blocks) + Header(q)
  {
    doc.Add(Heading("CONTINUATE"));
    doc.Add(Heading("Service Proposal"));
    doc.Add(Line("Quote ID: " + q.publicId));
    doc.Add(Line("Prepared for: " + q.customer.GetOr(Dash)));
    doc.Add(Line("Contact: " + q.contactName.GetOr(Dash) + " (" + q.contactEmail.GetOr(Dash) + ")"));
    doc.Add(Line("Owner: " + q.owner.GetOr(Dash)));
    doc.Add(Line("Expires: " + q.expiresAt.GetOr(Dash)));
    doc.Add(Heading("Scope of Services"));
  }

  /** The `items.forEach` loop: one row per item, in order. */
  method WriteItemLines(doc: PdfDoc, fmt: CurrencyFormatter, currency: string, items: seq<ItemRow>)
    modifies doc
    ensures doc.blocks == old(doc.blocks) + ItemLines(fmt, currency, items)
  {
    var i := 0;
    while i < |items|
      invariant 0 <= i <= |items|
      invariant doc.blocks == old(doc.blocks) + ItemLines(fmt, currency, items[..i])
    {
      var row := ItemLine(fmt, currency, items[i]);
      doc.Add(row);
      assert items[..i + 1][..i] == items[..i];
      Regroup(old(doc.blocks), ItemLines(fmt, currency, items[..i]), [row]);
      i := i + 1;
    }
    assert items[..|items|] == items;
  }

  /** The table: header row, the placeholder when `!items?.length` or the item rows, then
      the subtotal and total lines. */
  method WriteTable(doc: PdfDoc, fmt: CurrencyFormatter, q: QuoteRow, items: seq<ItemRow>)
    modifies doc
    ensures doc.blocks == old(doc.blocks) + Table(fmt, q, items)
  {
    var currency := q.currency.GetOr("ZAR");
    doc.Add(TableHeader);
    ghost var head := doc.blocks;
    if |items| == 0 {
      doc.Add(Line(NoLineItems));
    } else {
      WriteItemLines(doc, fmt, currency, items);
    }
    ghost var body := doc.blocks;
    assert body == head + TableBody(fmt, currency, items);
    var subtotal := AmountRow(fmt, SubtotalCaption, q.subtotal, currency);
    var total := AmountRow(fmt, TotalCaption, q.total, currency);
    doc.Add(subtotal);
    doc.Add(total);
    Regroup(body, [subtotal], [total]);
    assert [subtotal] + [total] == Totals(fmt, q);
    Regroup(old(doc.blocks) + [TableHeader], TableBody(fmt, currency, items), Totals(fmt, q));
  }

  /** `if (list.length) list.forEach(...bullet...) else doc.text(fallback)` under a heading. */
  method WriteListSection(doc: PdfDoc, heading: string, fallback: string, list: seq<string>)
    modifies doc
    ensures doc.blocks == old(doc.blocks) + ListSection(heading, fallback, list)
  {
    doc.Add(Heading(heading));
    if |list| > 0 {
      doc.AddBullets(list);
    } else {
      doc.Add(Line(fallback));
    }
  }

  /** `buildPdf({ quote, items })`: the blocks of the finished document. */
  method BuildPdf(fmt: CurrencyFormatter, q: QuoteRow, items: seq<ItemRow>, today: string) returns (content: seq<Block>)
    ensures content == Document(fmt, q, items, today)
  {
    var assumptions := LocalNormalizeList(q.assumptions);
    var terms := LocalNormalizeList(q.terms);
    var doc := new PdfDoc();
    WriteHeader(doc, q);
    WriteTable(doc, fmt, q, items);
    ghost var top := doc.blocks;
    WriteListSection(doc, "Assumptions", NoAssumptions, assumptions);
    WriteListSection(doc, "Terms", NoTerms, terms);
    Regroup(top, ListSection("Assumptions", NoAssumptions, assumptions), ListSection("Terms", NoTerms, terms));
    doc.Add(Line("Continuate IT Services • " + today));
    assert [] + Header(q) == Header(q);
    content := doc.blocks;
  }

  /* The request handler. The database and the auth service are inputs: what they answer
     for a token, a quote id and a quote's database id. */

  /** What the auth service and the `profiles` table answer for a bearer token: the user's
      id (None when `auth.getUser` errs or finds no user) and the profile lookup of the
      user's role (Threw when the query errs; None when there is no profile or no role). */
  datatype AuthLookup = AuthLookup(userId: Option<string>, role: Outcome<Option<string>>)

  /** A stored `quotes` row: its database id and the columns the document reads. */
  datatype StoredQuote = StoredQuote(id: string, row: QuoteRow)

  /** The backend as the handler sees it. `quote` is the `public_id` lookup (None when it
      errs or finds nothing); `items` is the `quote_items` lookup by the quote's database id. */
  datatype Backend = Backend(
    auth: string -> AuthLookup,
    quote: string -> Option<StoredQuote>,
    items: string -> Outcome<seq<ItemRow>>)

  /** The parts of a request the handler reads; `quoteId` is None when the body or the field is missing. */
  datatype Request = Request(httpMethod: string, authorization: Option<string>, quoteId: Option<string>)

  datatype Body = ErrorJson(error: string) | PdfFile(content: seq<Block>)

  datatype Response = Response(status: int, headers: seq<(string, string)>, body: Body)

  /** `getUserAndRole(token)`: the user's id, or what it throws. */
  function GetUserAndRole(lookup: AuthLookup): (r: Outcome<string>)
    ensures r.Returned? <==> lookup.userId.Some? && lookup.role == Returned(Some("admin"))
    ensures r.Returned? ==> r.value == lookup.userId.value
    ensures lookup.userId.None? ==> r == Threw(ErrorValue("Unauthorized"))
    ensures lookup.userId.Some? && lookup.role.Threw? ==> r == Threw(lookup.role.error)
    ensures lookup.userId.Some? && lookup.role.Returned? && lookup.role.value != Some("admin")
            ==> r == Threw(ErrorValue("Forbidden"))
  {
    if lookup.userId.None? then Threw(ErrorValue("Unauthorized"))
    else
      match lookup.role
      case Threw(e) => Threw(e)
      case Returned(role) => if role != Some("admin") then Threw(ErrorValue("Forbidden")) else Returned(lookup.userId.value)
  }

  /** The attachment's file name for a quote's public id. */
  function Filename(publicId: string): string {
    "Continuate-Quote-" + publicId + ".pdf"
  }

  /** The public id can be read back from the file name, so distinct quotes get distinct names. */
  lemma FilenameId(publicId: string)
    ensures var f := Filename(publicId);
      |f| == |publicId| + 21 && f[17..|f| - 4] == publicId
  {
    var f := Filename(publicId);
    assert f == ("Continuate-Quote-" + publicId) + ".pdf";
    assert f[17..|f| - 4] == ("Continuate-Quote-" + publicId)[17..];
  }

  /** `authHeader.replace("Bearer ", "")`: a header of the form "Bearer <token>" gives the
      token; the first "Bearer " is removed wherever it stands. */
  function Token(header: string): (t: string)
    ensures IsPrefix("Bearer ", header) ==> t == header[7..]
    ensures !Contains(header, "Bearer ") ==> t == header
  {
    var t := ReplaceFirst(header, "Bearer ", "");
    assert !Contains(header, "Bearer ") ==> t == header by {
      if !Contains(header, "Bearer ") {
        ReplaceFirstAbsent(header, "Bearer ", "");
      }
    }
    t
  }

  /** The 500 response of the `catch` block. */
  function Failure(e: Thrown): Response {
    Response(500, [], ErrorJson(MessageOf(e, "Failed to generate PDF")))
  }

  /** `handler(req, res)`: each check returns early, in the order the code makes them. */
  function Handle(req: Request, backend: Backend, fmt: CurrencyFormatter, today: string): (r: Response)
    ensures r.status in {200, 400, 401, 404, 405, 500}
    ensures r.status == 200 <==> r.body.PdfFile?
    // the method check comes first, then the header check
    ensures req.httpMethod != "POST" ==> r.status == 405
    ensures req.httpMethod == "POST" && !Truthy(req.authorization) ==> r.status == 401
    // a caller who is not an admin is refused before the body or the database is looked at
    ensures req.httpMethod == "POST" && Truthy(req.authorization) ==>
      var signedIn := GetUserAndRole(backend.auth(Token(req.authorization.value)));
      (signedIn.Threw? ==> r == Failure(signedIn.error)) &&
      (signedIn.Returned? && !Truthy(req.quoteId) ==> r.status == 400) &&
      // then the quote lookup, then the items lookup
      (signedIn.Returned? && Truthy(req.quoteId) ==>
        var found := backend.quote(req.quoteId.value);
        (found.None? ==> r.status == 404 && r.body == ErrorJson("Quote not found")) &&
        (found.Some? && backend.items(found.value.id).Threw? ==>
          r == Failure(backend.items(found.value.id).error)) &&
        (found.Some? && backend.items(found.value.id).Returned? ==> r.status == 200))
    ensures r.status in {200, 400, 404} ==>
      req.httpMethod == "POST" && Truthy(req.authorization) &&
      GetUserAndRole(backend.auth(Token(req.authorization.value))).Returned?
    // the document of the requested quote and its items, under the quote's file name
    ensures r.status == 200 ==>
      Truthy(req.quoteId) && backend.quote(req.quoteId.value).Some? &&
      var stored := backend.quote(req.quoteId.value).value;
      backend.items(stored.id).Returned? &&
      r.body == PdfFile(Document(fmt, stored.row, backend.items(stored.id).value, today)) &&
      ("Content-Disposition", "attachment; filename=\"" + Filename(stored.row.publicId) + "\"") in r.headers
  {
    if req.httpMethod != "POST" then
      Response(405, [("Allow", "POST")], ErrorJson("Method not allowed"))
    else if !Truthy(req.authorization) then
      Response(401, [], ErrorJson("Missing Authorization header"))
    else
      match GetUserAndRole(backend.auth(Token(req.authorization.value)))
      case Threw(e) => Failure(e)
      case Returned(_) =>
        if !Truthy(req.quoteId) then
          Response(400, [], ErrorJson("quoteId is required"))
        else
          match backend.quote(req.quoteId.value)
          case None => Response(404, [], ErrorJson("Quote not found"))
          case Some(stored) =>
            match backend.items(stored.id)
            case Threw(e) => Failure(e)
            case Returned(items) =>
              Response(200,
                [("Content-Type", "application/pdf"),
                 ("Content-Disposition", "attachment; filename=\"" + Filename(stored.row.publicId) + "\"")],
                PdfFile(Document(fmt, stored.row, items, today)))
  }
}
