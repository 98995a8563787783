/** The quotes list page: status badge classes, the total of a quote's items, the three
    counters at the top and the table of quotes. */
module AdminQuotes {
  import opened Wrappers
  import opened Numbers
  import opened Records
  import opened QuoteApi

  const AcceptedClass := "bg-emerald-500/15 text-emerald-700"
  const SentClass := "bg-blue-500/15 text-blue-700"
  const ViewedClass := "bg-amber-500/15 text-amber-700"
  const ExpiredClass := "bg-muted text-muted-foreground"
  const DefaultClass := "bg-secondary text-secondary-foreground"

  /** `statusColor(status)`: Accepted, Sent, Viewed and Expired each have their own badge
      class, and every other status, a missing one included, has the default class. */
  function StatusColor(status: Option<string>): (c: string)
    ensures status == Some("Accepted") ==> c == AcceptedClass
    ensures status == Some("Sent") ==> c == SentClass
    ensures status == Some("Viewed") ==> c == ViewedClass
    ensures status == Some("Expired") ==> c == ExpiredClass
    ensures c == DefaultClass <==> status !in {Some("Accepted"), Some("Sent"), Some("Viewed"), Some("Expired")}
  {
    if status == Some("Accepted") then AcceptedClass
    else if status == Some("Sent") then SentClass
    else if status == Some("Viewed") then ViewedClass
    else if status == Some("Expired") then ExpiredClass
    else DefaultClass
  }

  /** Different known statuses get different badge classes. */
  lemma StatusColorsDistinct(a: Option<string>, b: Option<string>)
    requires a in {Some("Accepted"), Some("Sent"), Some("Viewed"), Some("Expired")}
    requires b in {Some("Accepted"), Some("Sent"), Some("Viewed"), Some("Expired")}
    requires a != b
    ensures StatusColor(a) != StatusColor(b)
  {
    assert AcceptedClass[3] != SentClass[3] && AcceptedClass[3] != ViewedClass[3] && AcceptedClass[3] != ExpiredClass[3];
    assert SentClass[3] != ViewedClass[3] && SentClass[3] != ExpiredClass[3] && ViewedClass[3] != ExpiredClass[3];
  }

  /** `getTotal(items)`: quantity times unit price, added left to right from 0. */
  function GetTotal(items: seq<QuoteItem>): (r: real)
    ensures items == [] ==> r == 0.0
  {
    if items == [] then 0.0 else GetTotal(items[..|items| - 1]) + ItemAmount(items[|items| - 1])
  }

  /** The page's total is the sum of the item amounts. */
  lemma {:induction false} GetTotalIsSum(items: seq<QuoteItem>)
    ensures GetTotal(items) == Sum(ItemAmounts(items))
  {
    if items != [] {
      var n := |items| - 1;
      GetTotalIsSum(items[..n]);
      assert ItemAmounts(items) == ItemAmounts(items[..n]) + [ItemAmount(items[n])];
      SumAppend(ItemAmounts(items[..n]), [ItemAmount(items[n])]);
    }
  }

  /** A quote created without write errors and read back shows, in the list, the total
      that was stored for it. */
  lemma CreatedQuoteShowsStoredTotal(payload: Payload, base: string, year: int, draw: real,
                                     dbId: string, createdAt: Option<string>, ids: seq<string>)
    requires 0.0 <= draw < 1.0
    requires |ids| == |payload.items.GetOr([])|
    ensures
      var c := CreateQuote(payload, base, year, draw, Rows(dbId), None);
      var fetched := FetchQuote(Rows(StoredQuote(c.quote, dbId, createdAt)), Rows(StoredItems(c.items, ids)));
      fetched.Returned? && GetTotal(fetched.value.items) == fetched.value.total
  {
    var c := CreateQuote(payload, base, year, draw, Rows(dbId), None);
    var fetched := FetchQuote(Rows(StoredQuote(c.quote, dbId, createdAt)), Rows(StoredItems(c.items, ids)));
    CreatedQuoteReadsBack(payload, base, year, draw, dbId, createdAt, ids);
    GetTotalIsSum(fetched.value.items);
  }

  // ----- the counters -----

  predicate IsActive(q: Quote) {
    q.status != Some("Expired")
  }

  predicate IsPending(q: Quote) {
    q.status == Some("Viewed")
  }

  predicate IsSent(q: Quote) {
    q.status == Some("Sent")
  }

  predicate IsPendingOrSent(q: Quote) {
    IsPending(q) || IsSent(q)
  }

  /** The values of the "Active Quotes", "Pending Approval" and "Sent This Month" cards. */
  datatype Stats = Stats(active: nat, pending: nat, sent: nat)

  /** `stats`: quotes not expired, quotes viewed and quotes sent. Viewed and sent quotes
      are not expired, so the active count is at least the other two together. */
  function QuoteStats(quotes: seq<Quote>): (s: Stats)
    ensures s.active <= |quotes|
    ensures s.pending + s.sent <= s.active
    ensures quotes == [] ==> s == Stats(0, 0, 0)
  {
    CountDisjoint(quotes, IsPending, IsSent, IsPendingOrSent);
    CountMonotone(quotes, IsPendingOrSent, IsActive);
    Stats(Count(quotes, IsActive), Count(quotes, IsPending), Count(quotes, IsSent))
  }

  /** One more quote adds one to each card whose filter it passes: "Active Quotes" unless
      it is expired, "Pending Approval" when viewed, "Sent This Month" when sent. With the
      empty case this fixes the three values for every list. */
  lemma QuoteStatsStep(quotes: seq<Quote>, q: Quote)
    ensures
      var before := QuoteStats(quotes);
      QuoteStats(quotes + [q]) == Stats(
        before.active + (if q.status == Some("Expired") then 0 else 1),
        before.pending + (if q.status == Some("Viewed") then 1 else 0),
        before.sent + (if q.status == Some("Sent") then 1 else 0))
  {
    assert (quotes + [q])[..|quotes|] == quotes;
  }

  /** A list of quotes none of which is expired counts every quote as active. */
  lemma {:induction false} NoneExpiredAllActive(quotes: seq<Quote>)
    requires forall k :: 0 <= k < |quotes| ==> quotes[k].status != Some("Expired")
    ensures QuoteStats(quotes).active == |quotes|
  {
    if quotes != [] {
      var n := |quotes| - 1;
      NoneExpiredAllActive(quotes[..n]);
      QuoteStatsStep(quotes[..n], quotes[n]);
      assert quotes[..n] + [quotes[n]] == quotes;
    }
  }

  // ----- the table -----

  /** One table row: name and id, customer and contact, status with its badge class,
      owner, expiry and the total in the quote's currency. */
  datatype QuoteRow = QuoteRow(
    name: Option<string>, id: string, customer: Option<string>, contact: string,
    status: Option<string>, statusClass: string, owner: Option<string>, expiresAt: Option<string>,
    total: real, currency: string)

  /** `quote.contactName ?? quote.contactEmail ?? "—"`. */
  function Contact(q: Quote): (c: string)
    ensures q.contactName.Some? ==> c == q.contactName.value
    ensures q.contactName.None? && q.contactEmail.Some? ==> c == q.contactEmail.value
    ensures q.contactName.None? && q.contactEmail.None? ==> c == "—"
  {
    q.contactName.GetOr(q.contactEmail.GetOr("—"))
  }

  /** The row of one quote; its total is recomputed from the items, not the stored total. */
  function RowOf(q: Quote): (r: QuoteRow)
    ensures r.id == q.id && r.contact == Contact(q) && r.statusClass == StatusColor(q.status)
    ensures r.total == GetTotal(q.items) && r.currency == q.currency
  {
    QuoteRow(q.name, q.id, q.customer, Contact(q), q.status, StatusColor(q.status), q.owner, q.expiresAt,
             GetTotal(q.items), q.currency)
  }

  /** A quote read from a row without a currency shows its total in ZAR. */
  lemma RowCurrencyDefault(row: QuoteRecord, items: seq<QuoteItem>)
    ensures RowOf(NormalizeQuote(row, items)).currency == row.currency.GetOr("ZAR")
  {
  }

  /** The quotes the page holds after loading: the fetched list, or none when the fetch threw. */
  function Loaded(result: Outcome<seq<Quote>>): (quotes: seq<Quote>)
    ensures result.Threw? ==> quotes == []
    ensures result.Returned? ==> quotes == result.value
  {
    match result
    case Returned(qs) => qs
    case Threw(_) => []
  }

  /** The table body: a loading row, then "No quotes found yet." for an empty list,
      otherwise one row per quote in list order. */
  function QuotesTable(loading: bool, quotes: seq<Quote>): (t: TableBody<QuoteRow>)
    ensures loading ==> t == Placeholder("Loading quotes…")
    ensures !loading && quotes == [] ==> t == Placeholder("No quotes found yet.")
    ensures !loading && quotes != [] ==>
      t.DataRows? && |t.rows| == |quotes| && forall k :: 0 <= k < |quotes| ==> t.rows[k] == RowOf(quotes[k])
  {
    if loading then Placeholder("Loading quotes…")
    else if |quotes| == 0 then Placeholder("No quotes found yet.")
    else DataRows(seq(|quotes|, k requires 0 <= k < |quotes| => RowOf(quotes[k])))
  }

  /** A failed fetch, once loading ends, shows the empty-list row. */
  lemma FailedFetchShowsEmpty(error: Thrown)
    ensures QuotesTable(false, Loaded(Threw(error))) == Placeholder("No quotes found yet.")
  {
  }
}
