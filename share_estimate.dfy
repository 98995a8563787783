/** The public estimate endpoint of `api/share-estimate.js`: the per-device price estimate,
    the line items it is made of, the application's base URL, the estimate's public id and
    links, and the handler that stores the quote and mails the proposal. */
module ShareEstimate {
  import opened Wrappers
  import opened Text
  import opened Numbers
  import opened PdfHelpers
  import opened Content
  import opened ProposalPdf

  /** What the visitor asked for: a device count and the two add-on flags (their truthiness). */
  datatype Selection = Selection(devices: real, cybersecurity: bool, backup: bool)

  datatype Estimate = Estimate(subtotal: real, total: real, low: real, high: real)

  const BaseRate: real := 99.0
  const CybersecurityRate: real := 99.0
  const BackupRate: real := 99.0

  /** The closed form of the estimate: 99 per device for support and 99 more per device
      for each add-on taken. */
  function EstimatedTotal(s: Selection): real {
    s.devices * 99.0 * (1.0 + (if s.cybersecurity then 1.0 else 0.0) + (if s.backup then 1.0 else 0.0))
  }

  /** `calculateEstimate`: accumulates the base charge and the add-ons; subtotal, total,
      low and high are all the same amount. */
  method CalculateEstimate(s: Selection) returns (e: Estimate)
    ensures e.total == EstimatedTotal(s)
    ensures e.subtotal == e.total && e.low == e.total && e.high == e.total
  {
    var base := s.devices * BaseRate;
    if s.cybersecurity {
      base := base + s.devices * CybersecurityRate;
    }
    if s.backup {
      base := base + s.devices * BackupRate;
    }
    e := Estimate(base, base, base, base);
  }

  /** The three services an estimate can list, in the order they are listed. */
  datatype Service = ManagedSupport | Cybersecurity | Backup

  function Rank(service: Service): nat {
    match service
    case ManagedSupport => 0
    case Cybersecurity => 1
    case Backup => 2
  }

  /** One line item of an estimate, as `buildItems` writes it. */
  datatype EstimateItem = EstimateItem(
    name: string, category: string, description: string, unit: string,
    quantity: real, unitPrice: real, slaTier: string, kpiTags: seq<string>)

  /** The item object written for a service: per device, at 99, with an SLA tier and KPI tags. */
  function Catalogue(service: Service, devices: real): (item: EstimateItem)
    ensures item.quantity == devices && item.unitPrice == 99.0
    ensures item.name != "" && item.slaTier != "" && item.kpiTags != []
  {
    match service
    case ManagedSupport =>
      EstimateItem("Managed IT Support", "Managed Services", "24/7 monitoring, remote support, patch management",
                   "device", devices, 99.0, "Standard response", ["Uptime", "Patch compliance"])
    case Cybersecurity =>
      EstimateItem("Cybersecurity", "Security", "EDR/XDR, firewall management, threat detection",
                   "device", devices, 99.0, "Enhanced protection", ["MTTA", "MTTR"])
    case Backup =>
      EstimateItem("Backup & Disaster Recovery", "Resilience", "Encrypted backups, off-site replication, DR",
                   "device", devices, 99.0, "Recovery-ready", ["Backup success", "RTO"])
  }

  /** The services an estimate lists: support always, then each add-on that was taken. */
  function Services(s: Selection): seq<Service> {
    [ManagedSupport] + (if s.cybersecurity then [Cybersecurity] else []) + (if s.backup then [Backup] else [])
  }

  /** The items of an estimate, one per listed service. */
  function ItemsOf(s: Selection): (r: seq<EstimateItem>)
    ensures |r| == |Services(s)|
    ensures forall k :: 0 <= k < |r| ==> r[k] == Catalogue(Services(s)[k], s.devices)
  {
    var services := Services(s);
    seq(|services|, k requires 0 <= k < |services| => Catalogue(services[k], s.devices))
  }

  /** `buildItems`: the support item, then the add-on items pushed in turn. */
  method BuildItems(s: Selection) returns (items: seq<EstimateItem>)
    ensures items == ItemsOf(s)
  {
    items := [Catalogue(ManagedSupport, s.devices)];
    if s.cybersecurity {
      items := items + [Catalogue(Cybersecurity, s.devices)];
    }
    if s.backup {
      items := items + [Catalogue(Backup, s.devices)];
    }
  }

  /** Support comes first; there is one service per flag set, each at most once and in
      the fixed order support, cybersecurity, backup; an add-on is listed exactly when taken. */
  lemma ServicesShape(s: Selection)
    ensures var r := Services(s);
      |r| == 1 + (if s.cybersecurity then 1 else 0) + (if s.backup then 1 else 0) &&
      r[0] == ManagedSupport &&
      (Cybersecurity in r <==> s.cybersecurity) &&
      (Backup in r <==> s.backup) &&
      forall i, j :: 0 <= i < j < |r| ==> Rank(r[i]) < Rank(r[j])
  {
    var r := Services(s);
    var c := if s.cybersecurity then [Cybersecurity] else [];
    var b := if s.backup then [Backup] else [];
    assert r == [ManagedSupport] + c + b;
    forall i, j | 0 <= i < j < |r| ensures Rank(r[i]) < Rank(r[j]) {
      assert r[0] == ManagedSupport;
      assert 0 < j ==> r[j] in c + b;
      assert 0 < i ==> r[i] in c && r[j] in b;
    }
  }

  /** Every item is billed per device at 99 and carries an SLA tier and KPI tags. */
  lemma ItemsPerDevice(s: Selection)
    ensures forall item :: item in ItemsOf(s) ==>
      item.quantity == s.devices && item.unitPrice == 99.0 && item.slaTier != "" && item.kpiTags != []
  {
    forall item | item in ItemsOf(s)
      ensures item.quantity == s.devices && item.unitPrice == 99.0 && item.slaTier != "" && item.kpiTags != []
    {
      var k :| 0 <= k < |ItemsOf(s)| && ItemsOf(s)[k] == item;
      var _ := Catalogue(Services(s)[k], s.devices);
    }
  }

  /** The line amounts `quantity × unit_price` of a list of items. */
  function LineAmounts(items: seq<EstimateItem>): (r: seq<real>)
    ensures |r| == |items|
  {
    seq(|items|, k requires 0 <= k < |items| => items[k].quantity * items[k].unitPrice)
  }

  /** The items add up to the estimate: Σ quantity × unit_price is the estimated total. */
  lemma ItemsAddUp(s: Selection)
    ensures Sum(LineAmounts(ItemsOf(s))) == EstimatedTotal(s)
  {
    var amounts := LineAmounts(ItemsOf(s));
    var line := s.devices * 99.0;
    ServicesShape(s);
    assert forall k :: 0 <= k < |amounts| ==> amounts[k] == line;
    AllEqualSum(amounts, line);
    if s.cybersecurity && s.backup {
      assert |amounts| == 3;
    } else if s.cybersecurity || s.backup {
      assert |amounts| == 2;
    } else {
      assert |amounts| == 1;
    }
  }

  /** A sum of equal terms is the term times their number. */
  lemma {:induction false} AllEqualSum(xs: seq<real>, x: real)
    requires forall k :: 0 <= k < |xs| ==> xs[k] == x
    ensures Sum(xs) == |xs| as real * x
  {
    if xs != [] {
      AllEqualSum(xs[..|xs| - 1], x);
    }
  }

  /** `getBaseUrl(req)`: the configured base without one trailing slash, else "https://"
      and the request's host, else "". */
  function BaseUrl(envBase: Option<string>, host: Option<string>): (r: string)
    ensures Truthy(envBase) ==> r + (if envBase.value[|envBase.value| - 1] == '/' then "/" else "") == envBase.value
    ensures !Truthy(envBase) && Truthy(host) ==> r == "https://" + host.value
  {
    if Truthy(envBase) then StripTrailingSlash(envBase.value)
    else if !Truthy(host) then ""
    else "https://" + host.value
  }

  /** The base URL is empty, and so the estimate gets no links, exactly when neither a base
      nor a host is given, or the configured base is "/" alone. */
  lemma BaseUrlEmpty(envBase: Option<string>, host: Option<string>)
    ensures BaseUrl(envBase, host) == "" <==>
      (Truthy(envBase) && envBase.value == "/") || (!Truthy(envBase) && !Truthy(host))
  {
    if Truthy(envBase) {
      var e := envBase.value;
      if BaseUrl(envBase, host) == "" && e[|e| - 1] == '/' {
        assert e == "" + "/";
      }
    }
  }

  /** The estimate's public id, "EST-<year>-<token>", for the current year and a random draw in [0, 1). */
  function EstimateId(year: int, draw: real): string
    requires 0.0 <= draw < 1.0
  {
    "EST-" + IntToString(year) + "-" + IntToString(FourDigitToken(draw))
  }

  /** The id starts with "EST-" and ends with "-" and a four-digit token between 1000 and
      9999 that reads back as the drawn number. */
  lemma EstimateIdShape(year: int, draw: real)
    requires 0.0 <= draw < 1.0
    ensures var id, token := EstimateId(year, draw), FourDigitToken(draw);
      |id| >= 10 && id[..4] == "EST-" && id[|id| - 5] == '-' &&
      AllDigits(id[|id| - 4..]) && ParseNat(id[|id| - 4..]) == token && 1000 <= token <= 9999
  {
    var token := FourDigitToken(draw);
    var tail := IntToString(token);
    TokenWidth(token);
    var head := "EST-" + IntToString(year);
    var id := EstimateId(year, draw);
    assert id == head + "-" + tail;
    assert id[|id| - 4..] == tail;
    assert id[..4] == head[..4];
  }

  /** `slaUrl`: a link to the estimate's SLA page, or null without a base URL. */
  function SlaUrl(base: string, publicId: string): Option<string> {
    if base != "" then Some(base + "/sla/" + publicId) else None
  }

  /** `acceptUrl`: a link to the estimate's accept page, or "" without a base URL. */
  function AcceptUrl(base: string, publicId: string): string {
    if base != "" then base + "/quote/" + publicId + "/accept" else ""
  }

  /** The accept URL is truthy exactly when the base URL is known, and so is the SLA URL. */
  lemma LinksTruthy(base: string, publicId: string)
    ensures Truthy(Some(AcceptUrl(base, publicId))) <==> base != ""
    ensures Truthy(SlaUrl(base, publicId)) <==> base != ""
  {
    if base != "" {
      assert |AcceptUrl(base, publicId)| > 0;
      assert |SlaUrl(base, publicId).value| > 0;
    }
  }

  /** In the proposal of an estimate the accept link and the SLA link come together: both
      are there when the base URL is known, and neither is there when it is empty. */
  lemma EstimateProposalLinks(w: Wording, fmt: CurrencyFormatter, q: QuoteRow, items: seq<ItemRow>,
                              base: string, publicId: string, today: string)
    ensures var doc := Proposal(w, fmt, q, items, Some(AcceptUrl(base, publicId)), SlaUrl(base, publicId), today);
      (Select(doc, IsAcceptLink) != [] <==> base != "") &&
      (Select(doc, IsSlaLink) != [] <==> base != "")
  {
    var accept, sla := Some(AcceptUrl(base, publicId)), SlaUrl(base, publicId);
    LinksTruthy(base, publicId);
    ProposalAcceptLink(w, fmt, q, items, accept, sla, today);
    ProposalSlaLink(w, fmt, q, items, accept, sla, today);
  }

  /** The line totals `buildPdf` computes for a list of item rows. */
  function LineTotals(rows: seq<ItemRow>): (r: seq<real>)
    ensures |r| == |rows|
  {
    seq(|rows|, k requires 0 <= k < |rows| => LineTotal(rows[k]))
  }

  /** For an estimate, the rows' line totals add up to the estimated total: the stored
      total the proposal shows agrees with its rows, although it is not computed from them. */
  lemma EstimateRowsAddUp(s: Selection)
    ensures Sum(LineTotals(AsItemRows(ItemsOf(s)))) == EstimatedTotal(s)
  {
    var items := ItemsOf(s);
    var totals, amounts := LineTotals(AsItemRows(items)), LineAmounts(items);
    forall k | 0 <= k < |items| ensures totals[k] == amounts[k] {
      assert items[k].quantity == s.devices && items[k].unitPrice == 99.0;
      assert totals[k] == 99.0 * s.devices;
    }
    assert totals == amounts;
    ItemsAddUp(s);
  }

  /** The proposal of an estimate lists one row per estimate item and shows the estimated
      total, which is the sum of those rows' line totals. */
  lemma EstimateProposalTotal(w: Wording, fmt: CurrencyFormatter, q: QuoteRow, s: Selection,
                              acceptUrl: Option<string>, slaUrl: Option<string>, today: string)
    requires q.total == Some(EstimatedTotal(s))
    ensures var rows := AsItemRows(ItemsOf(s));
      var doc := Proposal(w, fmt, q, rows, acceptUrl, slaUrl, today);
      Select(doc, IsItemRow) == PriceRows(fmt, Currency(q), rows) &&
      Select(doc, IsTotalRow) == [TotalRow(fmt, q)] &&
      TotalRow(fmt, q).cells[1] == TextCell(FormatCurrency(fmt, Some(Sum(LineTotals(rows))), Some(Currency(q))))
  {
    var rows := AsItemRows(ItemsOf(s));
    ProposalItemRows(w, fmt, q, rows, acceptUrl, slaUrl, today);
    ProposalTotalRow(w, fmt, q, rows, acceptUrl, slaUrl, today);
    EstimateRowsAddUp(s);
  }

  /* The handler. The database, the mail service and the clock are inputs. */

  /** The request fields the handler reads. `email` and `devices` are None when missing;
      `cybersecurity` and `backup` are their truthiness. */
  datatype EstimateRequest = EstimateRequest(
    httpMethod: string, host: Option<string>,
    name: Option<string>, email: Option<string>, company: Option<string>,
    devices: Option<real>, cybersecurity: bool, backup: bool)

  /** `APP_BASE_URL`, and whether the Mailjet key, secret and sender are all set. */
  datatype Env = Env(appBaseUrl: Option<string>, mailjetReady: bool)

  /** What the database and the mail service do with each write: the `quotes` insert
      yields the stored row's id or throws, and the item, lead and mail calls may each throw. */
  datatype Store = Store(
    quoteInsert: Outcome<string>,
    itemsInsert: Option<Thrown>,
    leadInsert: Option<Thrown>,
    send: Option<Thrown>)

  /** The row inserted into `quotes` for an estimate. */
  datatype NewQuote = NewQuote(
    publicId: string, name: string, customer: string, contactName: Option<string>, contactEmail: string,
    status: string, currency: string, assumptions: seq<string>, terms: seq<string>,
    subtotal: real, total: real, slaUrl: Option<string>)

  /** The estimate's `quotes` row: named after the company (or the e-mail), status "Estimate" in
      ZAR, with the fixed contract assumption and billing terms. */
  function EstimateQuote(publicId: string, customer: string, contactName: Option<string>, email: string,
                         estimate: Estimate, slaUrl: Option<string>): (q: NewQuote)
    ensures q.publicId == publicId && q.customer == customer && q.contactEmail == email
    ensures q.status == "Estimate" && q.currency == "ZAR"
    ensures q.subtotal == estimate.subtotal && q.total == estimate.total && q.slaUrl == slaUrl
  {
    NewQuote(publicId, "Estimate for " + customer, customer, contactName, email, "Estimate", "ZAR",
      ["12-month contract with month-to-month billing."],
      ["Managed IT Support is billed at R99 per device per month.",
       "Each selected add-on is billed at R99 per device per month."],
      estimate.subtotal, estimate.total, slaUrl)
  }

  const SendFailed := "Failed to send estimate."

  /** The error the handler's `catch` receives: the `quotes` insert's, else the items insert's,
      else the lead insert's, else, when mail is configured, the send's; None when all succeed. */
  function FirstFailure(store: Store, env: Env): (e: Option<Thrown>)
    ensures store.quoteInsert.Threw? ==> e == Some(store.quoteInsert.error)
    ensures store.quoteInsert.Returned? && store.itemsInsert.Some? ==> e == store.itemsInsert
    ensures store.quoteInsert.Returned? && store.itemsInsert.None? ==>
      e == (if store.leadInsert.Some? then store.leadInsert else if env.mailjetReady then store.send else None)
    ensures e.None? <==> store.quoteInsert.Returned? && store.itemsInsert.None? && store.leadInsert.None? &&
                         (!env.mailjetReady || store.send.None?)
  {
    if store.quoteInsert.Threw? then Some(store.quoteInsert.error)
    else if store.itemsInsert.Some? then store.itemsInsert
    else if store.leadInsert.Some? then store.leadInsert
    else if env.mailjetReady then store.send
    else None
  }

  /** The message sent to the visitor: the addressee, the attachment's name, and the
      arguments of the `buildPdf` call that makes the attachment. */
  datatype Mail = Mail(
    to: string, toName: string, filename: string,
    quote: QuoteRow, items: seq<ItemRow>, acceptUrl: Option<string>, slaUrl: Option<string>)

  datatype ReplyBody = Failed(error: string) | Created(quoteId: string, warning: Option<string>)

  datatype Reply = Reply(status: int, body: ReplyBody)

  /** `!devices`: a missing count and 0 are falsy. */
  predicate HasDevices(devices: Option<real>) {
    devices.Some? && devices.value != 0.0
  }

  /** The inserted quote, as the `.select("*")` after the insert returns it to `buildPdf`;
      columns the insert does not set come back null. */
  function StoredRow(q: NewQuote): QuoteRow {
    QuoteRow(q.publicId, Some(q.customer), q.contactName, Some(q.contactEmail), None, None, Some(q.currency),
             Arr(q.assumptions), Arr(q.terms), Some(q.subtotal), Some(q.total))
  }

  /** An estimate item as `buildPdf` reads it: every column present. */
  function AsItemRow(item: EstimateItem): ItemRow {
    ItemRow(Some(item.name), Some(item.category), Some(item.quantity), Some(item.unitPrice))
  }

  function AsItemRows(items: seq<EstimateItem>): (r: seq<ItemRow>)
    ensures |r| == |items|
    ensures forall k :: 0 <= k < |items| ==> r[k] == AsItemRow(items[k])
  {
    seq(|items|, k requires 0 <= k < |items| => AsItemRow(items[k]))
  }

  /** A POST carrying an e-mail address and a non-zero device count passes the request checks. */
  predicate Accepted(req: EstimateRequest) {
    req.httpMethod == "POST" && Truthy(req.email) && HasDevices(req.devices)
  }

  /** The mail an accepted request sends: to the visitor, with "Continuate-Estimate-<id>.pdf"
      attached, built from the stored estimate row, the estimate's items as stored rows, and the
      accept and SLA links under the base URL. */
  function EstimateMail(req: EstimateRequest, env: Env, year: int, draw: real): (m: Mail)
    requires Accepted(req) && 0.0 <= draw < 1.0
    ensures var id, base := EstimateId(year, draw), BaseUrl(env.appBaseUrl, req.host);
      m.to == req.email.value && m.toName == req.name.GetOr(req.email.value) &&
      m.filename == "Continuate-Estimate-" + id + ".pdf" &&
      m.acceptUrl == Some(AcceptUrl(base, id)) && m.slaUrl == SlaUrl(base, id)
    ensures var sel := Selection(req.devices.value, req.cybersecurity, req.backup);
      m.items == AsItemRows(ItemsOf(sel)) && m.quote.publicId == EstimateId(year, draw) &&
      m.quote.customer == Some(req.company.GetOr(req.email.value)) &&
      m.quote.total == Some(EstimatedTotal(sel))
  {
    var email := req.email.value;
    var sel := Selection(req.devices.value, req.cybersecurity, req.backup);
    var t := EstimatedTotal(sel);
    var id := EstimateId(year, draw);
    var base := BaseUrl(env.appBaseUrl, req.host);
    var record := EstimateQuote(id, req.company.GetOr(email), req.name, email, Estimate(t, t, t, t), SlaUrl(base, id));
    Mail(email, req.name.GetOr(email), "Continuate-Estimate-" + id + ".pdf",
         StoredRow(record), AsItemRows(ItemsOf(sel)), Some(AcceptUrl(base, id)), SlaUrl(base, id))
  }

  /** The rows and the total of the proposal attached to an estimate's mail. */
  lemma EstimateMailTotal(w: Wording, fmt: CurrencyFormatter, req: EstimateRequest, env: Env,
                          year: int, draw: real, today: string)
    requires Accepted(req) && 0.0 <= draw < 1.0
    ensures var m := EstimateMail(req, env, year, draw);
      var doc := Proposal(w, fmt, m.quote, m.items, m.acceptUrl, m.slaUrl, today);
      Select(doc, IsItemRow) == PriceRows(fmt, Currency(m.quote), m.items) &&
      Select(doc, IsTotalRow) == [TotalRow(fmt, m.quote)] &&
      TotalRow(fmt, m.quote).cells[1] == TextCell(FormatCurrency(fmt, Some(Sum(LineTotals(m.items))), Some(Currency(m.quote))))
  {
    var m := EstimateMail(req, env, year, draw);
    EstimateProposalTotal(w, fmt, m.quote, Selection(req.devices.value, req.cybersecurity, req.backup),
                          m.acceptUrl, m.slaUrl, today);
  }

  /** The links of an estimate's mail are given exactly when the base URL is known. */
  lemma EstimateMailLinks(req: EstimateRequest, env: Env, year: int, draw: real)
    requires Accepted(req) && 0.0 <= draw < 1.0
    ensures var m := EstimateMail(req, env, year, draw);
      (Truthy(m.acceptUrl) <==> BaseUrl(env.appBaseUrl, req.host) != "") &&
      (Truthy(m.slaUrl) <==> BaseUrl(env.appBaseUrl, req.host) != "")
  {
    LinksTruthy(BaseUrl(env.appBaseUrl, req.host), EstimateId(year, draw));
  }

  /** The proposal attached to an estimate's mail lists one row per estimate item and shows
      the estimated total, the sum of those rows; its accept and SLA links are given exactly
      when the base URL is known, which is when `ProposalAcceptLink` and `ProposalSlaLink` put
      them in the document. */
  lemma EstimateMailProposal(w: Wording, fmt: CurrencyFormatter, req: EstimateRequest, env: Env,
                             year: int, draw: real, today: string)
    requires Accepted(req) && 0.0 <= draw < 1.0
    ensures var m := EstimateMail(req, env, year, draw);
      var doc := Proposal(w, fmt, m.quote, m.items, m.acceptUrl, m.slaUrl, today);
      Select(doc, IsItemRow) == PriceRows(fmt, Currency(m.quote), m.items) &&
      Select(doc, IsTotalRow) == [TotalRow(fmt, m.quote)] &&
      TotalRow(fmt, m.quote).cells[1] == TextCell(FormatCurrency(fmt, Some(Sum(LineTotals(m.items))), Some(Currency(m.quote))))
    ensures var m := EstimateMail(req, env, year, draw);
      (Truthy(m.acceptUrl) <==> BaseUrl(env.appBaseUrl, req.host) != "") &&
      (Truthy(m.slaUrl) <==> BaseUrl(env.appBaseUrl, req.host) != "")
  {
    EstimateMailTotal(w, fmt, req, env, year, draw, today);
    EstimateMailLinks(req, env, year, draw);
  }

  /** `handler(req, res)`: the request checks, the stored quote, items and lead, then the
      mail with the proposal attached; `year` and `draw` stand for the clock and `Math.random()`. */
  method Handle(req: EstimateRequest, env: Env, store: Store, year: int, draw: real)
    returns (reply: Reply, mail: Option<Mail>)
    requires 0.0 <= draw < 1.0
    ensures req.httpMethod != "POST" ==> reply == Reply(405, Failed("Method not allowed")) && mail == None
    ensures req.httpMethod == "POST" && (!Truthy(req.email) || !HasDevices(req.devices)) ==>
      reply == Reply(400, Failed("Email and number of devices are required.")) && mail == None
    ensures reply.status == 200 ==>
      req.httpMethod == "POST" && Truthy(req.email) && HasDevices(req.devices) &&
      reply.body == Created(EstimateId(year, draw), if env.mailjetReady then None else Some("Mailjet not configured."))
    ensures mail.Some? ==> env.mailjetReady && req.httpMethod == "POST" && Truthy(req.email) && HasDevices(req.devices)
    // an accepted request fails with the first failing write, in the order the handler makes
    // them, and otherwise succeeds; the mail is attempted only after every write succeeded
    ensures Accepted(req) && FirstFailure(store, env).Some? ==>
      reply == Reply(500, Failed(MessageOf(FirstFailure(store, env).value, SendFailed)))
    ensures Accepted(req) && FirstFailure(store, env).None? ==>
      reply.status == 200 && (mail.Some? <==> env.mailjetReady)
    ensures mail.Some? ==> store.quoteInsert.Returned? && store.itemsInsert.None? && store.leadInsert.None?
    ensures mail.Some? ==> Accepted(req) && mail.value == EstimateMail(req, env, year, draw)
  {
    mail := None;
    if req.httpMethod != "POST" {
      return Reply(405, Failed("Method not allowed")), None;
    }
    if !Truthy(req.email) || !HasDevices(req.devices) {
      return Reply(400, Failed("Email and number of devices are required.")), None;
    }
    var email := req.email.value;
    var selection := Selection(req.devices.value, req.cybersecurity, req.backup);
    var estimate := CalculateEstimate(selection);
    var publicId := EstimateId(year, draw);
    var appBaseUrl := BaseUrl(env.appBaseUrl, req.host);
    var slaUrl := SlaUrl(appBaseUrl, publicId);
    var customer := req.company.GetOr(email);
    var record := EstimateQuote(publicId, customer, req.name, email, estimate, slaUrl);
    if store.quoteInsert.Threw? {
      return Reply(500, Failed(MessageOf(store.quoteInsert.error, SendFailed))), None;
    }
    var quote := StoredRow(record);
    var items := BuildItems(selection);
    if store.itemsInsert.Some? {
      return Reply(500, Failed(MessageOf(store.itemsInsert.value, SendFailed))), None;
    }
    if store.leadInsert.Some? {
      return Reply(500, Failed(MessageOf(store.leadInsert.value, SendFailed))), None;
    }
    if !env.mailjetReady {
      return Reply(200, Created(quote.publicId, Some("Mailjet not configured."))), None;
    }
    var acceptUrl := AcceptUrl(appBaseUrl, quote.publicId);
    mail := Some(Mail(email, req.name.GetOr(email), "Continuate-Estimate-" + quote.publicId + ".pdf",
                      quote, AsItemRows(items), Some(acceptUrl), slaUrl));
    if store.send.Some? {
      return Reply(500, Failed(MessageOf(store.send.value, SendFailed))), mail;
    }
    reply := Reply(200, Created(quote.publicId, None));
  }
}
