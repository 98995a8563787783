/** The quote operations of `src/lib/api.ts`: public ids, the application's base URL,
    reading quotes with their items (`fetchQuotes`, `fetchQuote`) and writing a new quote
    (`createQuote`). The database is seen through the rows a query returns or the error it
    reports; the clock and the random draw are parameters. */
module QuoteApi {
  import opened Wrappers
  import opened Text
  import opened Numbers
  import opened Records

  /** The error a Supabase query reports; `message` is absent when the error has none. */
  datatype DbError = DbError(message: Option<string>)

  /** What a query gives back: its rows, or its error. */
  datatype Query<T> = Rows(rows: T) | Failed(error: DbError)

  /** `handleError(error)`: an `Error` carrying the error's message, else "Request failed". */
  function HandleError(e: DbError): (t: Thrown)
    ensures t.ErrorValue?
    ensures e.message.Some? ==> t.message == e.message.value
    ensures e.message.None? ==> t.message == "Request failed"
  {
    ErrorValue(e.message.GetOr("Request failed"))
  }

  /** `generatePublicId(prefix)` for the given year and a random draw in [0, 1). */
  function PublicId(prefix: string, year: int, draw: real): string
    requires 0.0 <= draw < 1.0
  {
    prefix + "-" + IntToString(year) + "-" + IntToString(FourDigitToken(draw))
  }

  /** A public id is the prefix and "-", then the year, then "-" and four digits that read
      back as the drawn token, which lies between 1000 and 9999. */
  lemma PublicIdShape(prefix: string, year: int, draw: real)
    requires 0.0 <= draw < 1.0
    ensures var id, token := PublicId(prefix, year, draw), FourDigitToken(draw);
      |id| >= |prefix| + 7 && id[..|prefix| + 1] == prefix + "-" &&
      id[|prefix| + 1..|id| - 5] == IntToString(year) && id[|id| - 5] == '-' &&
      AllDigits(id[|id| - 4..]) && ParseNat(id[|id| - 4..]) == token && 1000 <= token <= 9999
  {
    var token := FourDigitToken(draw);
    var tail := IntToString(token);
    TokenWidth(token);
    var head := prefix + "-";
    var id := PublicId(prefix, year, draw);
    assert id == head + IntToString(year) + "-" + tail;
    assert id[|id| - 4..] == tail;
    assert id[..|prefix| + 1] == head;
    assert id[|prefix| + 1..|id| - 5] == IntToString(year);
  }

  /** `getAppBaseUrl()`: the configured base URL without one trailing slash; else the
      browser's origin when there is a window; else "". */
  function AppBaseUrl(fromEnv: Option<string>, origin: Option<string>): (r: string)
    ensures Truthy(fromEnv) ==>
      r + (if fromEnv.value[|fromEnv.value| - 1] == '/' then "/" else "") == fromEnv.value
    ensures !Truthy(fromEnv) && origin.Some? ==> r == origin.value
    ensures !Truthy(fromEnv) && origin.None? ==> r == ""
  {
    if Truthy(fromEnv) then StripTrailingSlash(fromEnv.value)
    else if origin.Some? then origin.value
    else ""
  }

  /** The items of the quote with database id `id`, mapped with `mapQuoteItem`, in the
      order the query returned them: the reference for the grouping in `fetchQuotes`. */
  function ItemsFor(items: seq<ItemRecord>, id: string): seq<QuoteItem> {
    if items == [] then [] else ItemsFor(items[..|items| - 1], id) + Own(items[|items| - 1], id)
  }

  /** The mapped item when it belongs to the quote, else nothing. */
  function Own(item: ItemRecord, id: string): seq<QuoteItem> {
    if item.quoteId == id then [MapQuoteItem(item)] else []
  }

  /** One more item returned extends only its own quote's list. */
  lemma ItemsForStep(items: seq<ItemRecord>, i: nat, id: string)
    requires i < |items|
    ensures ItemsFor(items[..i + 1], id) == ItemsFor(items[..i], id) + Own(items[i], id)
  {
    assert items[..i + 1][..i] == items[..i];
  }

  /** Grouping respects order: the items of a later batch come after those of an earlier one. */
  lemma {:induction false} ItemsForAppend(a: seq<ItemRecord>, b: seq<ItemRecord>, id: string)
    ensures ItemsFor(a + b, id) == ItemsFor(a, id) + ItemsFor(b, id)
  {
    if b == [] {
      assert a + b == a;
    } else {
      assert (a + b)[..|a + b| - 1] == a + b[..|b| - 1];
      ItemsForAppend(a, b[..|b| - 1], id);
    }
  }

  /** A quote receives an item exactly when the item's quote id is the quote's id. */
  lemma {:induction false} ItemsForMembers(items: seq<ItemRecord>, id: string, x: QuoteItem)
    ensures x in ItemsFor(items, id) <==>
      exists k :: 0 <= k < |items| && items[k].quoteId == id && x == MapQuoteItem(items[k])
  {
    if items != [] {
      var init := items[..|items| - 1];
      ItemsForMembers(init, id, x);
      if exists k :: 0 <= k < |init| && init[k].quoteId == id && x == MapQuoteItem(init[k]) {
        var k :| 0 <= k < |init| && init[k].quoteId == id && x == MapQuoteItem(init[k]);
        assert items[k] == init[k];
      }
      if exists k :: 0 <= k < |items| && items[k].quoteId == id && x == MapQuoteItem(items[k]) {
        var k :| 0 <= k < |items| && items[k].quoteId == id && x == MapQuoteItem(items[k]);
        if k < |init| {
          assert init[k] == items[k];
        }
      }
    }
  }

  /** A quote none of whose items came back receives []. */
  lemma {:induction false} ItemsForNone(items: seq<ItemRecord>, id: string)
    requires forall k :: 0 <= k < |items| ==> items[k].quoteId != id
    ensures ItemsFor(items, id) == []
  {
    if items != [] {
      ItemsForNone(items[..|items| - 1], id);
    }
  }

  /** When every item returned belongs to the quote, it receives all of them, mapped, in order. */
  lemma {:induction false} ItemsForAll(items: seq<ItemRecord>, id: string)
    requires forall k :: 0 <= k < |items| ==> items[k].quoteId == id
    ensures ItemsFor(items, id) == MapItems(items)
  {
    if items != [] {
      ItemsForAll(items[..|items| - 1], id);
      assert MapItems(items) == MapItems(items[..|items| - 1]) + [MapQuoteItem(items[|items| - 1])];
    }
  }

  /** `items.map(mapQuoteItem)`. */
  function MapItems(items: seq<ItemRecord>): (r: seq<QuoteItem>)
    ensures |r| == |items|
    ensures forall k :: 0 <= k < |items| ==> r[k] == MapQuoteItem(items[k])
  {
    seq(|items|, k requires 0 <= k < |items| => MapQuoteItem(items[k]))
  }

  /** `itemsByQuote[id] ?? []`. */
  function Lookup(byQuote: map<string, seq<QuoteItem>>, id: string): seq<QuoteItem> {
    if id in byQuote then byQuote[id] else []
  }

  /** The `forEach` that fills `itemsByQuote`: each item is mapped and appended to the
      list of its quote. Every quote's list is its items in query order, and a quote
      without items has no entry. */
  method GroupItems(items: seq<ItemRecord>) returns (byQuote: map<string, seq<QuoteItem>>)
    ensures forall id :: Lookup(byQuote, id) == ItemsFor(items, id)
    ensures forall id :: id in byQuote <==> ItemsFor(items, id) != []
  {
    byQuote := map[];
    var i := 0;
    while i < |items|
      invariant 0 <= i <= |items|
      invariant forall id :: Lookup(byQuote, id) == ItemsFor(items[..i], id)
      invariant forall id :: id in byQuote <==> ItemsFor(items[..i], id) != []
    {
      var item := items[i];
      var list := Lookup(byQuote, item.quoteId);
      byQuote := byQuote[item.quoteId := list + [MapQuoteItem(item)]];
      forall id
        ensures Lookup(byQuote, id) == ItemsFor(items[..i + 1], id)
        ensures id in byQuote <==> ItemsFor(items[..i + 1], id) != []
      {
        ItemsForStep(items, i, id);
      }
      i := i + 1;
    }
    assert items[..i] == items;
  }

  /** `fetchQuotes()`: the quotes in the order the query returned them, each with exactly
      its own items. The items are only queried when there is at least one quote. */
  method FetchQuotes(quotes: Query<seq<QuoteRecord>>, items: Query<seq<ItemRecord>>)
    returns (r: Outcome<seq<Quote>>)
    ensures quotes.Failed? ==> r == Threw(HandleError(quotes.error))
    ensures quotes.Rows? && quotes.rows != [] && items.Failed? ==> r == Threw(HandleError(items.error))
    ensures quotes.Rows? && quotes.rows == [] ==> r == Returned([])
    ensures quotes.Rows? && items.Rows? ==>
      r.Returned? && |r.value| == |quotes.rows| &&
      forall k :: 0 <= k < |quotes.rows| ==>
        r.value[k] == NormalizeQuote(quotes.rows[k], ItemsFor(items.rows, quotes.rows[k].id))
  {
    if quotes.Failed? {
      return Threw(HandleError(quotes.error));
    }
    var rows := quotes.rows;
    var byQuote: map<string, seq<QuoteItem>> := map[];
    if |rows| > 0 {
      if items.Failed? {
        return Threw(HandleError(items.error));
      }
      byQuote := GroupItems(items.rows);
    }
    if rows == [] {
      return Returned([]);
    }
    r := Returned(seq(|rows|, k requires 0 <= k < |rows| => NormalizeQuote(rows[k], Lookup(byQuote, rows[k].id))));
  }

  /** `fetchQuote(id)`: the quote found by its public id, with the items the query for its
      database id returned. */
  function FetchQuote(quote: Query<QuoteRecord>, items: Query<seq<ItemRecord>>): (r: Outcome<Quote>)
    ensures quote.Failed? ==> r == Threw(HandleError(quote.error))
    ensures quote.Rows? && items.Failed? ==> r == Threw(HandleError(items.error))
    ensures quote.Rows? && items.Rows? ==> r == Returned(NormalizeQuote(quote.rows, MapItems(items.rows)))
  {
    if quote.Failed? then Threw(HandleError(quote.error))
    else if items.Failed? then Threw(HandleError(items.error))
    else Returned(NormalizeQuote(quote.rows, MapItems(items.rows)))
  }

  /** When the items returned all belong to the quote, reading it alone gives the same
      quote as reading it in the list. */
  lemma FetchOneAgreesWithList(row: QuoteRecord, items: seq<ItemRecord>)
    requires forall k :: 0 <= k < |items| ==> items[k].quoteId == row.id
    ensures FetchQuote(Rows(row), Rows(items)) == Returned(NormalizeQuote(row, ItemsFor(items, row.id)))
  {
    ItemsForAll(items, row.id);
  }

  /** One item of `createQuote`'s payload. */
  datatype PayloadItem = PayloadItem(
    name: string, category: string, description: Option<string>, unit: Option<string>,
    quantity: Option<real>, unitPrice: Option<real>, slaTier: Option<string>, kpiTags: Option<seq<string>>)

  /** `createQuote`'s payload. */
  datatype Payload = Payload(
    publicId: Option<string>, name: string, customer: string, contactName: Option<string>,
    contactEmail: Option<string>, region: Option<string>, owner: Option<string>, status: Option<string>,
    expiresAt: Option<string>, currency: Option<string>, assumptions: Option<seq<string>>,
    terms: Option<seq<string>>, items: Option<seq<PayloadItem>>)

  /** The amount of one payload item, `Number(quantity || 0) * Number(unitPrice || 0)`. */
  function PayloadAmount(item: PayloadItem): real {
    NumberOr0(item.quantity) * NumberOr0(item.unitPrice)
  }

  /** The `reduce` over the payload items: their amounts added left to right from 0. */
  function PayloadSubtotal(items: seq<PayloadItem>): (r: real)
    ensures items == [] ==> r == 0.0
    ensures (forall k :: 0 <= k < |items| ==> PayloadAmount(items[k]) >= 0.0) ==> r >= 0.0
  {
    if items == [] then 0.0
    else PayloadSubtotal(items[..|items| - 1]) + PayloadAmount(items[|items| - 1])
  }

  /** The row `createQuote` inserts into `quotes`. */
  datatype QuoteInsert = QuoteInsert(
    publicId: string, name: string, customer: string, contactName: Option<string>,
    contactEmail: Option<string>, region: Option<string>, owner: Option<string>, status: string,
    expiresAt: Option<string>, currency: string, assumptions: seq<string>, terms: seq<string>,
    subtotal: real, total: real, slaUrl: Option<string>)

  /** The row `createQuote` inserts into `quote_items` for one payload item. */
  datatype ItemInsert = ItemInsert(
    quoteId: string, name: string, category: string, description: Option<string>, unit: Option<string>,
    quantity: Option<real>, unitPrice: Option<real>, slaTier: Option<string>, kpiTags: seq<string>)

  /** The quote row for a payload: a generated "Q-" id unless one is given, status "Draft"
      and currency "ZAR" unless given, an SLA link only when the base URL is non-empty,
      and subtotal and total both the sum of the item amounts. */
  function NewQuoteRow(payload: Payload, base: string, year: int, draw: real): (row: QuoteInsert)
    requires 0.0 <= draw < 1.0
    ensures row.publicId == payload.publicId.GetOr(PublicId("Q", year, draw))
    ensures row.status == payload.status.GetOr("Draft") && row.currency == payload.currency.GetOr("ZAR")
    ensures row.assumptions == payload.assumptions.GetOr([]) && row.terms == payload.terms.GetOr([])
    ensures row.subtotal == row.total == PayloadSubtotal(payload.items.GetOr([]))
    ensures row.slaUrl.Some? <==> base != ""
    ensures row.slaUrl.Some? ==> row.slaUrl.value == base + "/sla/" + row.publicId
    ensures row.name == payload.name && row.customer == payload.customer
  {
    var publicId := payload.publicId.GetOr(PublicId("Q", year, draw));
    var subtotal := PayloadSubtotal(payload.items.GetOr([]));
    QuoteInsert(publicId, payload.name, payload.customer, payload.contactName, payload.contactEmail,
                payload.region, payload.owner, payload.status.GetOr("Draft"), payload.expiresAt,
                payload.currency.GetOr("ZAR"), payload.assumptions.GetOr([]), payload.terms.GetOr([]),
                subtotal, subtotal, if base != "" then Some(base + "/sla/" + publicId) else None)
  }

  /** The `quote_items` rows for a payload's items, all pointing at the stored quote. */
  function NewItemRows(items: seq<PayloadItem>, quoteId: string): (rows: seq<ItemInsert>)
    ensures |rows| == |items|
    ensures forall k :: 0 <= k < |items| ==>
      rows[k].quoteId == quoteId && rows[k].name == items[k].name && rows[k].category == items[k].category &&
      rows[k].quantity == items[k].quantity && rows[k].unitPrice == items[k].unitPrice &&
      rows[k].kpiTags == items[k].kpiTags.GetOr([])
  {
    seq(|items|, k requires 0 <= k < |items| =>
      var item := items[k];
      ItemInsert(quoteId, item.name, item.category, item.description, item.unit, item.quantity,
                 item.unitPrice, item.slaTier, item.kpiTags.GetOr([])))
  }

  /** What `createQuote` writes and what it returns. */
  datatype Creation = Creation(quote: QuoteInsert, items: seq<ItemInsert>, result: Outcome<string>)

  /** `createQuote(payload)`: the quote row is always inserted; the database gives back the
      new row's id or an error. Item rows are inserted only after a stored quote and only
      for a non-empty item list, and the call returns the public id unless a write failed. */
  function CreateQuote(payload: Payload, base: string, year: int, draw: real,
                       stored: Query<string>, itemsError: Option<DbError>): (c: Creation)
    requires 0.0 <= draw < 1.0
    ensures c.quote == NewQuoteRow(payload, base, year, draw)
    ensures stored.Failed? ==> c.items == [] && c.result == Threw(HandleError(stored.error))
    ensures stored.Rows? && payload.items.GetOr([]) == [] ==>
      c.items == [] && c.result == Returned(c.quote.publicId)
    ensures stored.Rows? && payload.items.GetOr([]) != [] ==>
      c.items == NewItemRows(payload.items.value, stored.rows) &&
      c.result == (if itemsError.Some? then Threw(HandleError(itemsError.value)) else Returned(c.quote.publicId))
  {
    var row := NewQuoteRow(payload, base, year, draw);
    if stored.Failed? then Creation(row, [], Threw(HandleError(stored.error)))
    else if payload.items.None? || payload.items.value == [] then Creation(row, [], Returned(row.publicId))
    else Creation(row, NewItemRows(payload.items.value, stored.rows),
                  if itemsError.Some? then Threw(HandleError(itemsError.value)) else Returned(row.publicId))
  }

  /** The `quotes` row as the database stores it: its id and creation time are the
      database's, the remaining timestamps are unset. */
  function StoredQuote(row: QuoteInsert, dbId: string, createdAt: Option<string>): QuoteRecord {
    QuoteRecord(dbId, row.publicId, Some(row.name), Some(row.customer), row.contactName, row.contactEmail,
                row.region, row.owner, Some(row.status), createdAt, row.expiresAt, None, None, None,
                Some(row.assumptions), Some(row.terms), Some(row.subtotal), Some(row.total),
                Some(row.currency), row.slaUrl)
  }

  /** A `quote_items` row as stored, with the database's id. */
  function StoredItem(row: ItemInsert, id: string): ItemRecord {
    ItemRecord(id, row.quoteId, Some(row.name), Some(row.category), row.description, row.unit,
               row.quantity, row.unitPrice, row.slaTier, Some(row.kpiTags))
  }

  /** The stored item rows, each with its database id. */
  function StoredItems(rows: seq<ItemInsert>, ids: seq<string>): (r: seq<ItemRecord>)
    requires |ids| == |rows|
    ensures |r| == |rows|
    ensures forall k :: 0 <= k < |rows| ==> r[k] == StoredItem(rows[k], ids[k])
  {
    seq(|rows|, k requires 0 <= k < |rows| => StoredItem(rows[k], ids[k]))
  }

  /** The line amount of an application item, `quantity * unitPrice`. */
  function ItemAmount(item: QuoteItem): real {
    item.quantity * item.unitPrice
  }

  /** Line amounts of application items, in order. */
  function ItemAmounts(items: seq<QuoteItem>): (r: seq<real>)
    ensures |r| == |items|
    ensures forall k :: 0 <= k < |items| ==> r[k] == ItemAmount(items[k])
  {
    seq(|items|, k requires 0 <= k < |items| => ItemAmount(items[k]))
  }

  /** An item read back has the amount its payload item had. */
  lemma AmountReadsBack(item: PayloadItem, m: QuoteItem)
    requires m.quantity == NumberOf(item.quantity) && m.unitPrice == NumberOf(item.unitPrice)
    ensures ItemAmount(m) == PayloadAmount(item)
  {
  }

  /** The payload items' amounts, in order. */
  function PayloadAmounts(items: seq<PayloadItem>): (r: seq<real>)
    ensures |r| == |items|
    ensures forall k :: 0 <= k < |items| ==> r[k] == PayloadAmount(items[k])
  {
    seq(|items|, k requires 0 <= k < |items| => PayloadAmount(items[k]))
  }

  /** The `reduce` adds up exactly the item amounts. */
  lemma {:induction false} PayloadSubtotalSum(items: seq<PayloadItem>)
    ensures PayloadSubtotal(items) == Sum(PayloadAmounts(items))
  {
    if items != [] {
      var n := |items| - 1;
      PayloadSubtotalSum(items[..n]);
      assert PayloadAmounts(items)[..n] == PayloadAmounts(items[..n]);
      assert PayloadAmounts(items) == PayloadAmounts(items)[..n] + [PayloadAmount(items[n])];
    }
  }

  /** The payload subtotal is the sum of the amounts of the items as they are read back:
      a missing quantity or price is 0 on the way in (`|| 0`) and on the way out (`Number(null)`). */
  lemma SubtotalReadsBack(items: seq<PayloadItem>, quoteId: string, ids: seq<string>)
    requires |ids| == |items|
    ensures PayloadSubtotal(items) == Sum(ItemAmounts(MapItems(StoredItems(NewItemRows(items, quoteId), ids))))
  {
    var rows := NewItemRows(items, quoteId);
    var stored := StoredItems(rows, ids);
    var mapped := MapItems(stored);
    var amounts := ItemAmounts(mapped);
    var expected := PayloadAmounts(items);
    PayloadSubtotalSum(items);
    forall k | 0 <= k < |items|
      ensures amounts[k] == expected[k]
    {
      var item, row := items[k], rows[k];
      assert row.quantity == item.quantity && row.unitPrice == item.unitPrice;
      assert stored[k] == StoredItem(row, ids[k]);
      AmountReadsBack(item, mapped[k]);
    }
    assert amounts == expected;
  }

  /** A quote created from a payload reads back with the payload's fields and defaults,
      with its items in payload order, and with a stored total equal to the sum of the
      read-back items' amounts. */
  lemma CreatedQuoteReadsBack(payload: Payload, base: string, year: int, draw: real,
                              dbId: string, createdAt: Option<string>, ids: seq<string>)
    requires 0.0 <= draw < 1.0
    requires |ids| == |payload.items.GetOr([])|
    ensures
      var c := CreateQuote(payload, base, year, draw, Rows(dbId), None);
      var fetched := FetchQuote(Rows(StoredQuote(c.quote, dbId, createdAt)), Rows(StoredItems(c.items, ids)));
      fetched.Returned? &&
      fetched.value.id == c.quote.publicId && fetched.value.dbId == dbId &&
      fetched.value.status == Some(payload.status.GetOr("Draft")) &&
      fetched.value.currency == payload.currency.GetOr("ZAR") &&
      fetched.value.assumptions == payload.assumptions.GetOr([]) &&
      fetched.value.terms == payload.terms.GetOr([]) &&
      |fetched.value.items| == |payload.items.GetOr([])| &&
      fetched.value.total == fetched.value.subtotal == Sum(ItemAmounts(fetched.value.items))
  {
    var c := CreateQuote(payload, base, year, draw, Rows(dbId), None);
    var list := payload.items.GetOr([]);
    if list == [] {
      assert c.items == [];
    } else {
      assert c.items == NewItemRows(list, dbId);
    }
    SubtotalReadsBack(list, dbId, ids);
  }
}
