/** The managed-security proposal document of `api/_pdf.js` (`buildPdf`): a cover page,
    the proposal body with its fixed sections, the pricing table built from the quote's
    items, the assumptions, and the optional accept and SLA links. */
module ProposalPdf {
  import opened Wrappers
  import opened Text
  import opened PdfHelpers
  import opened Content

  /** The fixed sentences and lists of the proposal, which do not depend on the quote.
      The document is defined for any wording; `StandardWording` is the one `buildPdf`
      writes. */
  datatype Wording = Wording(
    title: string, subtitle: string, company: string, address: string, contacts: string,
    heading: string, preparedBy: string,
    summaryOpening: string, summaryRest: string, objective: string,
    industry: string, environmentIntro: string, environment: seq<string>,
    coreHeading: string, core: seq<string>, addOnHeading: string, addOns: seq<string>,
    responseHeading: string, responseTimes: seq<string>, monitoringHeading: string, monitoring: seq<string>,
    phaseOneHeading: string, phaseOne: seq<string>, phaseTwoHeading: string, phaseTwo: seq<string>,
    phaseThreeHeading: string, phaseThree: seq<string>, timeline: string,
    reporting: seq<string>, pricingHeading: string, setupFee: string,
    contractTerms: seq<string>, compliance: seq<string>, coverage: string,
    pricingNotes: seq<string>, signatures: seq<string>)

  const StandardWording := Wording(
    "Business Proposal", "Managed Security Services", "CONTINUATE IT SERVICES",
    "377 Rivonia Boulevard, Sandton, 2196", "info@continuate.co.za • 073 209 9100",
    "Managed Security Services Proposal", "Prepared By: Continuate IT Services",
    "Continuate IT Services proposes delivering comprehensive Managed Security Services to protect ",
    " against evolving cyber threats. This proposal outlines the scope, service levels, pricing, and implementation approach tailored to your operational and compliance requirements.",
    "Our objective is to enhance your cybersecurity posture while ensuring business continuity and regulatory alignment.",
    "Industry: —", "Current Environment Summary:",
    ["Number of Users:", "Number of Endpoints:", "Servers (On-Prem / Cloud):", "Cloud Platforms:",
     "Compliance Requirements:"],
    "Core MSSP Services",
    ["24/7 Security Monitoring (SOC)", "Managed Endpoint Detection & Response (EDR/XDR)",
     "Firewall & Network Security Management", "SIEM Monitoring & Log Analysis",
     "Threat Intelligence & Threat Hunting", "Incident Response Management",
     "Vulnerability Scanning & Reporting", "Patch Management Oversight"],
    "Optional Add-On Services",
    ["Managed Email Security", "Dark Web Monitoring", "Security Awareness Training",
     "Compliance Reporting & Audit Support", "Penetration Testing", "Cloud Security Posture Management",
     "Backup & Disaster Recovery"],
    "Response Times",
    ["Critical: < 1 Hour response, 4–8 Hours resolution target",
     "High: < 4 Hours response, 24 Hours resolution target",
     "Medium: < 8 Hours response, 2–3 Business Days resolution target",
     "Low: 1 Business Day response, As Scheduled resolution target"],
    "Monitoring Coverage",
    ["24/7/365 SOC Monitoring", "Automated Threat Detection", "Real-Time Alerting"],
    "Phase 1 – Assessment & Discovery",
    ["Environment review", "Risk analysis", "Security gap identification"],
    "Phase 2 – Deployment",
    ["Agent installation", "Firewall integration", "Log ingestion configuration", "Baseline security hardening"],
    "Phase 3 – Monitoring & Optimization",
    ["Continuous monitoring", "Monthly security reporting", "Quarterly strategy review"],
    "Estimated Implementation Timeline: 2–6 Weeks",
    ["Monthly Security Summary Report", "Incident Reports (as required)", "Quarterly Security Review Meeting",
     "Dedicated Account Manager", "24/7 Emergency Contact"],
    "Managed Security Services Pricing", "One-Time Setup Fee: Included",
    ["Agreement Term: 12 / 24 / 36 Months", "Billing Frequency: Monthly", "Auto-Renewal: Yes / No",
     "Termination Clause: As per master services agreement"],
    ["NIST Cybersecurity Framework", "ISO 27001 Controls", "CIS Benchmarks", "Applicable data protection standards"],
    "All devices are covered as long as Continuate can connect to the device or environment remotely.",
    ["All prices are exclusive of VAT.",
     "No surprise charges: all inclusions and billable extras are defined upfront.",
     "Included service categories: Infrastructure Management, Remote Monitoring & Management, Maintenance, End-user Support.",
     "Additional services are quoted and approved before work begins."],
    ["Client Representative: ____________________________", "Name: ____________________________",
     "Title: ____________________________", "Signature: ________________________  Date: ____________",
     "Continuate IT Services Representative: ____________________", "Name: ____________________________",
     "Title: ____________________________", "Signature: ________________________  Date: ____________"])

  const Dash := "—"
  const NoLineItems := "No line items added."
  const TotalCaption := "Total Monthly Recurring Cost"
  const AcceptCaption := "Accept this quote online: "
  const AcceptFallback := "Accept this quote online at the link provided by your account manager."
  const SlaCaption := "View SLA online: "
  const DefaultAssumptions := [
    "Client provides required administrative access.",
    "Internet connectivity maintained at all monitored locations.",
    "Hardware upgrades not included unless specified.",
    "Third-party licensing costs not included unless stated."]
  const PricingHeader := Row([TextCell("Service Component"), TextCell("Quantity"), TextCell("Unit Price"),
    TextCell("Monthly Total")])

  /** Every section title of `bs` is shown in upper case. */
  predicate TitlesUpper(bs: seq<Block>) {
    forall b :: b in bs && b.Title? ==> !HasLowerAscii(b.text)
  }

  /** Text only: no table row and no link. */
  predicate Plain(bs: seq<Block>) {
    forall b :: b in bs ==> !b.Row? && !b.Link?
  }

  /** `quote.currency ?? "ZAR"`. */
  function Currency(q: QuoteRow): string {
    q.currency.GetOr("ZAR")
  }

  /** `sectionTitle(text)`: the title bar shows the text upper-cased. */
  function SectionTitle(text: string): (b: Block)
    ensures b.Title? && |b.text| == |text| && !HasLowerAscii(b.text)
    ensures b == Title(Upper(text))
  {
    Title(Upper(text))
  }

  /** The cover: the customer, or "—" when there is none, then the reference and the date. */
  function Cover(w: Wording, q: QuoteRow, today: string): (r: seq<Block>)
    ensures TitlesUpper(r) && Plain(r)
    ensures |r| == 9 && r[8] == NewPage
    ensures r[2] == Line("Prepared for: " + q.customer.GetOr("—"))
    ensures r[3] == Line("Proposal Ref: " + q.publicId) && r[7] == Line("Date: " + today)
  {
    [Heading(w.title), Heading(w.subtitle),
     Line("Prepared for: " + q.customer.GetOr(Dash)),
     Line("Proposal Ref: " + q.publicId),
     Heading(w.company), Line(w.address), Line(w.contacts),
     Line("Date: " + today),
     NewPage]
  }

  /** The introduction's fields, each missing one shown as "—". */
  function Intro(w: Wording, q: QuoteRow): (r: seq<Block>)
    ensures TitlesUpper(r) && Plain(r)
    ensures |r| == 7
    ensures r[1] == Line("Client Name: " + q.customer.GetOr("—"))
    ensures r[3] == Line("Proposal Reference #: " + q.publicId)
    ensures r[4] == Line("Contact: " + q.contactName.GetOr("—") + " (" + q.contactEmail.GetOr("—") + ")")
    ensures r[5] == Line("Owner: " + q.owner.GetOr("—")) && r[6] == Line("Expires: " + q.expiresAt.GetOr("—"))
  {
    [Heading(w.heading),
     Line("Client Name: " + q.customer.GetOr(Dash)),
     Line(w.preparedBy),
     Line("Proposal Reference #: " + q.publicId),
     Line("Contact: " + q.contactName.GetOr(Dash) + " (" + q.contactEmail.GetOr(Dash) + ")"),
     Line("Owner: " + q.owner.GetOr(Dash)),
     Line("Expires: " + q.expiresAt.GetOr(Dash))]
  }

  /** The summary names the customer, or "the client" when there is none. */
  function ExecutiveSummary(w: Wording, q: QuoteRow): (r: seq<Block>)
    ensures TitlesUpper(r) && Plain(r)
    ensures |r| == 3 && r[0] == SectionTitle("Executive Summary")
    ensures r[1] == Line(w.summaryOpening + q.customer.GetOr("the client") + w.summaryRest)
  {
    [SectionTitle("Executive Summary"),
     Line(w.summaryOpening + q.customer.GetOr("the client") + w.summaryRest),
     Line(w.objective)]
  }

  /** The overview's organisation and contact, "—" for each missing one, then one bullet per
      environment question. */
  function ClientOverview(w: Wording, q: QuoteRow): (r: seq<Block>)
    ensures TitlesUpper(r) && Plain(r)
    ensures |r| == 5 + |w.environment| && r[0] == SectionTitle("Client Overview")
    ensures r[1] == Line("Client Organization: " + q.customer.GetOr("—"))
    ensures r[2] == Line("Primary Contact: " + q.contactName.GetOr("—"))
    ensures r[5..] == Bullets(w.environment)
  {
    [SectionTitle("Client Overview"),
     Line("Client Organization: " + q.customer.GetOr(Dash)),
     Line("Primary Contact: " + q.contactName.GetOr(Dash)),
     Line(w.industry),
     Line(w.environmentIntro)]
    + Bullets(w.environment)
  }

  /** The upper-cased title, the core services under their heading, then the add-ons under theirs. */
  function ScopeOfServices(w: Wording): (r: seq<Block>)
    ensures TitlesUpper(r) && Plain(r)
  {
    [SectionTitle("Scope of Services"), Heading(w.coreHeading)] + Bullets(w.core)
    + [Heading(w.addOnHeading)] + Bullets(w.addOns)
  }

  /** The upper-cased title, the response times under their heading, then the monitoring
      coverage under its heading. */
  function ServiceLevels(w: Wording): (r: seq<Block>)
    ensures TitlesUpper(r) && Plain(r)
  {
    [SectionTitle("Service Levels"), Heading(w.responseHeading)] + Bullets(w.responseTimes)
    + [Heading(w.monitoringHeading)] + Bullets(w.monitoring)
  }

  /** The upper-cased title, the three phases in order, each a heading over its bullets, then
      the timeline line last. */
  function ImplementationPlan(w: Wording): (r: seq<Block>)
    ensures TitlesUpper(r) && Plain(r)
  {
    [SectionTitle("Implementation Plan"), Heading(w.phaseOneHeading)] + Bullets(w.phaseOne)
    + [Heading(w.phaseTwoHeading)] + Bullets(w.phaseTwo)
    + [Heading(w.phaseThreeHeading)] + Bullets(w.phaseThree)
    + [Line(w.timeline)]
  }

  /** The upper-cased title, then one bullet per reporting commitment. */
  function Reporting(w: Wording): (r: seq<Block>)
    ensures TitlesUpper(r) && Plain(r)
  {
    [SectionTitle("Reporting & Communication")] + Bullets(w.reporting)
  }

  /** A title and a heading over a first list, then a second heading over a second list:
      where each part sits. */
  lemma TwoListsLayout<T>(t: T, h1: T, b1: seq<T>, h2: T, b2: seq<T>)
    ensures var r := [t, h1] + b1 + [h2] + b2;
      |r| == 3 + |b1| + |b2| && r[0] == t && r[1] == h1 && r[2..2 + |b1|] == b1 &&
      r[2 + |b1|] == h2 && r[3 + |b1|..] == b2
  {
    var r := [t, h1] + b1 + [h2] + b2;
    assert r[2..2 + |b1|] == b1;
    assert r[3 + |b1|..] == b2;
  }

  /** Scope of Services: the upper-cased title, the core services under their heading, then
      the add-ons under theirs. */
  lemma ScopeOfServicesLayout(w: Wording)
    ensures var r := ScopeOfServices(w);
      |r| == 3 + |w.core| + |w.addOns| &&
      r[0] == SectionTitle("Scope of Services") && r[1] == Heading(w.coreHeading) &&
      r[2..2 + |w.core|] == Bullets(w.core) &&
      r[2 + |w.core|] == Heading(w.addOnHeading) && r[3 + |w.core|..] == Bullets(w.addOns)
  {
    TwoListsLayout(SectionTitle("Scope of Services"), Heading(w.coreHeading), Bullets(w.core),
                   Heading(w.addOnHeading), Bullets(w.addOns));
  }

  /** Service Levels: the upper-cased title, the response times under their heading, then the
      monitoring coverage under its heading. */
  lemma ServiceLevelsLayout(w: Wording)
    ensures var r := ServiceLevels(w);
      |r| == 3 + |w.responseTimes| + |w.monitoring| &&
      r[0] == SectionTitle("Service Levels") && r[1] == Heading(w.responseHeading) &&
      r[2..2 + |w.responseTimes|] == Bullets(w.responseTimes) &&
      r[2 + |w.responseTimes|] == Heading(w.monitoringHeading) &&
      r[3 + |w.responseTimes|..] == Bullets(w.monitoring)
  {
    TwoListsLayout(SectionTitle("Service Levels"), Heading(w.responseHeading), Bullets(w.responseTimes),
                   Heading(w.monitoringHeading), Bullets(w.monitoring));
  }

  /** Implementation Plan: the upper-cased title and the first two phases, each a heading over
      its bullets, then the third phase, and the timeline line last. */
  lemma ImplementationPlanLayout(w: Wording)
    ensures var r := ImplementationPlan(w); var n := |r|;
      var n1 := |w.phaseOne|; var n2 := |w.phaseTwo|; var n3 := |w.phaseThree|;
      n == 5 + n1 + n2 + n3 &&
      r[..3 + n1 + n2] == [SectionTitle("Implementation Plan"), Heading(w.phaseOneHeading)] + Bullets(w.phaseOne)
                          + [Heading(w.phaseTwoHeading)] + Bullets(w.phaseTwo) &&
      r[3 + n1 + n2] == Heading(w.phaseThreeHeading) && r[4 + n1 + n2..n - 1] == Bullets(w.phaseThree) &&
      r[n - 1] == Line(w.timeline)
  {
    var front := [SectionTitle("Implementation Plan"), Heading(w.phaseOneHeading)] + Bullets(w.phaseOne)
                 + [Heading(w.phaseTwoHeading)] + Bullets(w.phaseTwo);
    var r := ImplementationPlan(w);
    assert r == front + [Heading(w.phaseThreeHeading)] + Bullets(w.phaseThree) + [Line(w.timeline)];
    ThirdListLayout(front, Heading(w.phaseThreeHeading), Bullets(w.phaseThree), Line(w.timeline));
  }

  /** A front part, a heading over a list, and a closing block: where each part sits. */
  lemma ThirdListLayout<T>(front: seq<T>, h: T, b: seq<T>, last: T)
    ensures var r := front + [h] + b + [last];
      |r| == |front| + |b| + 2 && r[..|front|] == front && r[|front|] == h &&
      r[|front| + 1..|r| - 1] == b && r[|r| - 1] == last
  {
    var r := front + [h] + b + [last];
    assert r[..|front|] == front;
    assert r[|front| + 1..|r| - 1] == b;
  }

  /** Reporting & Communication: the upper-cased title, then one bullet per commitment. */
  lemma ReportingLayout(w: Wording)
    ensures var r := Reporting(w);
      |r| == 1 + |w.reporting| && r[0] == SectionTitle("Reporting & Communication") &&
      r[1..] == Bullets(w.reporting)
  {
    var r := Reporting(w);
    assert r[1..] == Bullets(w.reporting);
  }

  /** Everything before the pricing table. */
  function Front(w: Wording, q: QuoteRow, today: string): (r: seq<Block>)
    ensures TitlesUpper(r) && Plain(r)
  {
    Cover(w, q, today) + Intro(w, q) + ExecutiveSummary(w, q) + ClientOverview(w, q) + ScopeOfServices(w)
    + ServiceLevels(w) + ImplementationPlan(w) + Reporting(w)
  }

  /** One item's row: the name ("Service" when missing), the quantity (0 when missing),
      the unit price (0 when missing) and the line total, both through the currency formatter. */
  function PriceRow(fmt: CurrencyFormatter, currency: string, item: ItemRow): (b: Block)
    ensures IsItemRow(b)
    ensures b.cells == [TextCell(item.name.GetOr("Service")),
                        NumberCell(item.quantity.GetOr(0.0)),
                        TextCell(FormatCurrency(fmt, item.unitPrice, Some(currency))),
                        TextCell(FormatCurrency(fmt, Some(item.unitPrice.GetOr(0.0) * item.quantity.GetOr(0.0)),
                                                Some(currency)))]
  {
    var row := Row([TextCell(item.name.GetOr("Service")),
                    NumberCell(item.quantity.GetOr(0.0)),
                    TextCell(FormatCurrency(fmt, Some(item.unitPrice.GetOr(0.0)), Some(currency))),
                    TextCell(FormatCurrency(fmt, Some(LineTotal(item)), Some(currency)))]);
    assert row.cells[1].NumberCell?;
    assert row.cells[2] == TextCell(FormatCurrency(fmt, item.unitPrice, Some(currency)));
    assert LineTotal(item) == item.unitPrice.GetOr(0.0) * item.quantity.GetOr(0.0);
    row
  }

  /** `items.forEach(...)` over the pricing table: one row per item, in order. */
  function PriceRows(fmt: CurrencyFormatter, currency: string, items: seq<ItemRow>): (r: seq<Block>)
    ensures |r| == |items|
    ensures forall k :: 0 <= k < |items| ==> r[k] == PriceRow(fmt, currency, items[k])
  {
    if items == [] then []
    else PriceRows(fmt, currency, items[..|items| - 1]) + [PriceRow(fmt, currency, items[|items| - 1])]
  }

  /** The table body: the placeholder line when there are no items, else the item rows. */
  function PricingBody(fmt: CurrencyFormatter, currency: string, items: seq<ItemRow>): seq<Block> {
    if items == [] then [Line(NoLineItems)] else PriceRows(fmt, currency, items)
  }

  /** The total shown is the quote's stored total (0 when missing), whatever the items. */
  function TotalRow(fmt: CurrencyFormatter, q: QuoteRow): (b: Block)
    ensures b.Row? && b.cells == [TextCell(TotalCaption), TextCell(FormatCurrency(fmt, q.total, Some(Currency(q))))]
  {
    var row := Row([TextCell(TotalCaption), TextCell(FormatCurrency(fmt, Some(q.total.GetOr(0.0)), Some(Currency(q))))]);
    assert row.cells[1] == TextCell(FormatCurrency(fmt, q.total, Some(Currency(q))));
    row
  }

  /** The table's title, heading and header row: no item row and no total row among them. */
  function PricingHead(w: Wording): (r: seq<Block>)
    ensures TitlesUpper(r)
    ensures forall b :: b in r ==> !IsItemRow(b) && !IsLabelled(b, TotalCaption)
  {
    assert PricingHeader.cells[0] != TextCell(TotalCaption);
    assert forall i :: 0 <= i < |PricingHeader.cells| ==> PricingHeader.cells[i].TextCell?;
    [SectionTitle("Pricing Structure"), Heading(w.pricingHeading), PricingHeader]
  }

  /** The total row and the setup-fee note: no item row among them. */
  function PricingTail(w: Wording, fmt: CurrencyFormatter, q: QuoteRow): (r: seq<Block>)
    ensures forall b :: b in r ==> !IsItemRow(b)
  {
    var total := TotalRow(fmt, q);
    assert forall i :: 0 <= i < |total.cells| ==> total.cells[i].TextCell?;
    [total, Line(w.setupFee)]
  }

  /** The pricing table: title, header row, body, then the total and the setup-fee note. */
  function Pricing(w: Wording, fmt: CurrencyFormatter, q: QuoteRow, items: seq<ItemRow>): (r: seq<Block>)
    ensures TitlesUpper(r)
    ensures forall b :: b in r ==> !b.Link?
  {
    PricingHead(w) + PricingBody(fmt, Currency(q), items) + PricingTail(w, fmt, q)
  }

  function ContractTerms(w: Wording): (r: seq<Block>)
    ensures TitlesUpper(r) && Plain(r)
  {
    [SectionTitle("Contract Terms")] + Bullets(w.contractTerms)
  }

  /** The quote's own assumptions, one bullet each in order, or the four fixed defaults
      when it has none. */
  function AssumptionsSection(q: QuoteRow): (r: seq<Block>)
    ensures TitlesUpper(r) && Plain(r)
    ensures var list := NormalizeList(q.assumptions);
      |r| >= 1 && r[0] == SectionTitle("Assumptions & Exclusions") &&
      (list == [] ==> r[1..] == Bullets(DefaultAssumptions)) &&
      (list != [] ==> |r| == 1 + |list| && forall k :: 0 <= k < |list| ==> r[1 + k] == Bullet(list[k]))
  {
    var list := NormalizeList(q.assumptions);
    [SectionTitle("Assumptions & Exclusions")] + Bullets(if |list| > 0 then list else DefaultAssumptions)
  }

  function Compliance(w: Wording): (r: seq<Block>)
    ensures TitlesUpper(r) && Plain(r)
  {
    [SectionTitle("Security & Compliance Commitment")] + Bullets(w.compliance)
  }

  function Coverage(w: Wording): (r: seq<Block>)
    ensures TitlesUpper(r) && Plain(r)
  {
    [SectionTitle("Coverage & Eligibility"), Line(w.coverage)]
  }

  function PricingNotes(w: Wording): (r: seq<Block>)
    ensures TitlesUpper(r) && Plain(r)
  {
    [SectionTitle("Pricing Notes")] + Bullets(w.pricingNotes)
  }

  function Acceptance(w: Wording): (r: seq<Block>)
    ensures TitlesUpper(r) && Plain(r)
  {
    [SectionTitle("Acceptance")] + Lines(w.signatures)
  }

  /** The sections between the pricing table and the next steps. */
  function Closing(w: Wording, q: QuoteRow): (r: seq<Block>)
    ensures TitlesUpper(r) && Plain(r)
  {
    ContractTerms(w) + AssumptionsSection(q) + Compliance(w) + Coverage(w) + PricingNotes(w) + Acceptance(w)
  }

  /** The accept link when `acceptUrl` is truthy, else the fallback sentence; the SLA link
      only when `slaUrl` is truthy. */
  function NextSteps(acceptUrl: Option<string>, slaUrl: Option<string>): (r: seq<Block>)
    ensures TitlesUpper(r)
    ensures forall b :: b in r ==> !b.Row?
  {
    [SectionTitle("Next Steps")]
    + (if Truthy(acceptUrl) then [Link(AcceptCaption, acceptUrl.value)] else [Line(AcceptFallback)])
    + (if Truthy(slaUrl) then [Link(SlaCaption, slaUrl.value)] else [])
  }

  function Footer(today: string): (r: seq<Block>)
    ensures TitlesUpper(r) && Plain(r)
  {
    [Line("Continuate IT Services • " + today)]
  }

  /** The order of `buildPdf`'s parts: everything before the pricing table, the table,
      the closing sections, the next steps and the footer. */
  function Layout(front: seq<Block>, pricing: seq<Block>, closing: seq<Block>,
                  next: seq<Block>, footer: seq<Block>): seq<Block>
  {
    front + pricing + closing + next + footer
  }

  /** The whole document `buildPdf` writes for a quote, its items and the two URLs;
      `today` is `new Date().toLocaleDateString("en-ZA")`. Every section title is upper-case. */
  function Proposal(w: Wording, fmt: CurrencyFormatter, q: QuoteRow, items: seq<ItemRow>,
                    acceptUrl: Option<string>, slaUrl: Option<string>, today: string): (doc: seq<Block>)
    ensures TitlesUpper(doc)
  {
    Layout(Front(w, q, today), Pricing(w, fmt, q, items), Closing(w, q), NextSteps(acceptUrl, slaUrl), Footer(today))
  }

  /** A summary row with the given caption (item rows, whose name could be anything, excluded). */
  predicate IsSummaryRow(b: Block, caption: string) {
    IsLabelled(b, caption) && !IsItemRow(b)
  }

  /** Selecting from a laid-out document selects from its five parts in turn. */
  lemma SelectLayout(f: seq<Block>, pr: seq<Block>, c: seq<Block>, n: seq<Block>, ft: seq<Block>, p: Block -> bool)
    ensures Select(Layout(f, pr, c, n, ft), p) == Select(f, p) + Select(pr, p) + Select(c, p) + Select(n, p) + Select(ft, p)
  {
    SelectAppend(f, pr, p);
    SelectAppend(f + pr, c, p);
    SelectAppend(f + pr + c, n, p);
    SelectAppend(f + pr + c + n, ft, p);
  }

  /** Nothing matching a row-or-link filter comes from a text-only part. */
  lemma PlainSelectsNothing(bs: seq<Block>, p: Block -> bool)
    requires Plain(bs)
    requires forall b :: p(b) ==> b.Row? || b.Link?
    ensures Select(bs, p) == []
  {
    SelectNone(bs, p);
  }

  /** When only the table part has rows, a row selection from the document is one from the table. */
  lemma LayoutRows(f: seq<Block>, pr: seq<Block>, c: seq<Block>, n: seq<Block>, ft: seq<Block>, p: Block -> bool)
    requires Plain(f) && Plain(c) && Plain(ft)
    requires forall b :: b in n ==> !b.Row?
    requires forall b :: p(b) ==> b.Row?
    ensures Select(Layout(f, pr, c, n, ft), p) == Select(pr, p)
  {
    SelectLayout(f, pr, c, n, ft, p);
    PlainSelectsNothing(f, p);
    PlainSelectsNothing(c, p);
    SelectNone(n, p);
    PlainSelectsNothing(ft, p);
  }

  /** When only the next-steps part has links, a link selection from the document is one
      from the next steps. */
  lemma LayoutLinks(f: seq<Block>, pr: seq<Block>, c: seq<Block>, n: seq<Block>, ft: seq<Block>, p: Block -> bool)
    requires Plain(f) && Plain(c) && Plain(ft)
    requires forall b :: b in pr ==> !b.Link?
    requires forall b :: p(b) ==> b.Link?
    ensures Select(Layout(f, pr, c, n, ft), p) == Select(n, p)
  {
    SelectLayout(f, pr, c, n, ft, p);
    PlainSelectsNothing(f, p);
    SelectNone(pr, p);
    PlainSelectsNothing(c, p);
    PlainSelectsNothing(ft, p);
  }

  /** Selecting from the pricing table selects from its head, body and tail in turn. */
  lemma SelectPricing(w: Wording, fmt: CurrencyFormatter, q: QuoteRow, items: seq<ItemRow>, p: Block -> bool)
    ensures Select(Pricing(w, fmt, q, items), p)
         == Select(PricingHead(w), p) + Select(PricingBody(fmt, Currency(q), items), p) + Select(PricingTail(w, fmt, q), p)
  {
    SelectAppend(PricingHead(w), PricingBody(fmt, Currency(q), items), p);
    SelectAppend(PricingHead(w) + PricingBody(fmt, Currency(q), items), PricingTail(w, fmt, q), p);
  }

  /** The item rows of the table body are the price rows, none when there are no items. */
  lemma BodyItemRows(fmt: CurrencyFormatter, currency: string, items: seq<ItemRow>)
    ensures Select(PricingBody(fmt, currency, items), IsItemRow) == PriceRows(fmt, currency, items)
  {
    var body := PricingBody(fmt, currency, items);
    if items == [] {
      SelectNone(body, IsItemRow);
    } else {
      SelectAll(body, IsItemRow);
    }
  }

  /** The item rows of the pricing table are its body's rows. */
  lemma PricingItemRows(w: Wording, fmt: CurrencyFormatter, q: QuoteRow, items: seq<ItemRow>)
    ensures Select(Pricing(w, fmt, q, items), IsItemRow) == PriceRows(fmt, Currency(q), items)
  {
    SelectNone(PricingHead(w), IsItemRow);
    SelectNone(PricingTail(w, fmt, q), IsItemRow);
    BodyItemRows(fmt, Currency(q), items);
    SelectPricing(w, fmt, q, items, IsItemRow);
  }

  /** The item rows of the whole document are the pricing table's rows: one per item, in
      input order, each as `PriceRow` states it; with no items there are none. */
  lemma ProposalItemRows(w: Wording, fmt: CurrencyFormatter, q: QuoteRow, items: seq<ItemRow>,
                         acceptUrl: Option<string>, slaUrl: Option<string>, today: string)
    ensures Select(Proposal(w, fmt, q, items, acceptUrl, slaUrl, today), IsItemRow) == PriceRows(fmt, Currency(q), items)
  {
    LayoutRows(Front(w, q, today), Pricing(w, fmt, q, items), Closing(w, q), NextSteps(acceptUrl, slaUrl),
               Footer(today), IsItemRow);
    PricingItemRows(w, fmt, q, items);
  }

  /** The total row: the caption "Total Monthly Recurring Cost" on a row that is not an item row. */
  predicate IsTotalRow(b: Block) {
    IsSummaryRow(b, TotalCaption)
  }

  /** No block of the table body is a total row: it holds the placeholder or item rows. */
  lemma BodyNoTotalRow(fmt: CurrencyFormatter, currency: string, items: seq<ItemRow>)
    ensures Select(PricingBody(fmt, currency, items), IsTotalRow) == []
  {
    var body := PricingBody(fmt, currency, items);
    forall b | b in body ensures !IsTotalRow(b) {
      if items != [] {
        var k :| 0 <= k < |items| && body[k] == b;
        assert IsItemRow(PriceRow(fmt, currency, items[k]));
      }
    }
    SelectNone(body, IsTotalRow);
  }

  /** The tail of the table holds the total row, then the setup-fee note. */
  lemma TailTotalRow(w: Wording, fmt: CurrencyFormatter, q: QuoteRow)
    ensures Select(PricingTail(w, fmt, q), IsTotalRow) == [TotalRow(fmt, q)]
  {
    var total := TotalRow(fmt, q);
    assert IsTotalRow(total) by {
      assert forall i :: 0 <= i < |total.cells| ==> total.cells[i].TextCell?;
    }
    assert Select([total], IsTotalRow) == [total];
    assert Select([Line(w.setupFee)], IsTotalRow) == [];
    SelectAppend([total], [Line(w.setupFee)], IsTotalRow);
    assert PricingTail(w, fmt, q) == [total] + [Line(w.setupFee)];
  }

  /** The pricing table has exactly one total row. */
  lemma PricingTotalRow(w: Wording, fmt: CurrencyFormatter, q: QuoteRow, items: seq<ItemRow>)
    ensures Select(Pricing(w, fmt, q, items), IsTotalRow) == [TotalRow(fmt, q)]
  {
    SelectNone(PricingHead(w), IsTotalRow);
    BodyNoTotalRow(fmt, Currency(q), items);
    TailTotalRow(w, fmt, q);
    SelectPricing(w, fmt, q, items, IsTotalRow);
  }

  /** The whole document has exactly one total row, `TotalRow`: the quote's stored total
      (0 when missing) through the currency formatter, the same for every item list, and so
      never recomputed from the rows. */
  lemma ProposalTotalRow(w: Wording, fmt: CurrencyFormatter, q: QuoteRow, items: seq<ItemRow>,
                         acceptUrl: Option<string>, slaUrl: Option<string>, today: string)
    ensures Select(Proposal(w, fmt, q, items, acceptUrl, slaUrl, today), IsTotalRow) == [TotalRow(fmt, q)]
  {
    LayoutRows(Front(w, q, today), Pricing(w, fmt, q, items), Closing(w, q), NextSteps(acceptUrl, slaUrl),
               Footer(today), IsTotalRow);
    PricingTotalRow(w, fmt, q, items);
  }

  /** The table body is the single placeholder line exactly when there are no items;
      otherwise it holds no placeholder and only item rows. */
  lemma PricingPlaceholder(fmt: CurrencyFormatter, currency: string, items: seq<ItemRow>)
    ensures items == [] ==> PricingBody(fmt, currency, items) == [Line(NoLineItems)]
    ensures Line(NoLineItems) in PricingBody(fmt, currency, items) <==> items == []
    ensures items != [] ==> forall b :: b in PricingBody(fmt, currency, items) ==> IsItemRow(b)
  {
    var body := PricingBody(fmt, currency, items);
    if items != [] {
      forall b | b in body ensures IsItemRow(b) {
        var k :| 0 <= k < |items| && body[k] == b;
        assert IsItemRow(PriceRow(fmt, currency, items[k]));
      }
    }
  }

  predicate IsAcceptLink(b: Block) {
    b.Link? && b.caption == AcceptCaption
  }

  predicate IsSlaLink(b: Block) {
    b.Link? && b.caption == SlaCaption
  }

  /** The blocks of the next steps, split into the title, the accept part and the SLA part. */
  lemma NextStepsParts(acceptUrl: Option<string>, slaUrl: Option<string>, p: Block -> bool)
    requires !p(SectionTitle("Next Steps"))
    ensures Select(NextSteps(acceptUrl, slaUrl), p)
         == Select(if Truthy(acceptUrl) then [Link(AcceptCaption, acceptUrl.value)] else [Line(AcceptFallback)], p)
          + Select(if Truthy(slaUrl) then [Link(SlaCaption, slaUrl.value)] else [], p)
  {
    var title := [SectionTitle("Next Steps")];
    var accept := if Truthy(acceptUrl) then [Link(AcceptCaption, acceptUrl.value)] else [Line(AcceptFallback)];
    var sla := if Truthy(slaUrl) then [Link(SlaCaption, slaUrl.value)] else [];
    assert NextSteps(acceptUrl, slaUrl) == title + accept + sla;
    SelectAppend(title, accept, p);
    SelectAppend(title + accept, sla, p);
    assert Select(title, p) == [];
  }

  /** The accept links of the next steps. */
  lemma NextStepsAccept(acceptUrl: Option<string>, slaUrl: Option<string>)
    ensures Select(NextSteps(acceptUrl, slaUrl), IsAcceptLink)
         == if Truthy(acceptUrl) then [Link(AcceptCaption, acceptUrl.value)] else []
  {
    NextStepsParts(acceptUrl, slaUrl, IsAcceptLink);
    assert AcceptCaption != SlaCaption;
    if Truthy(acceptUrl) {
      assert Select([Link(AcceptCaption, acceptUrl.value)], IsAcceptLink) == [Link(AcceptCaption, acceptUrl.value)];
    } else {
      assert Select([Line(AcceptFallback)], IsAcceptLink) == [];
    }
    if Truthy(slaUrl) {
      assert Select([Link(SlaCaption, slaUrl.value)], IsAcceptLink) == [];
    }
  }

  /** The SLA links of the next steps. */
  lemma NextStepsSla(acceptUrl: Option<string>, slaUrl: Option<string>)
    ensures Select(NextSteps(acceptUrl, slaUrl), IsSlaLink)
         == if Truthy(slaUrl) then [Link(SlaCaption, slaUrl.value)] else []
  {
    NextStepsParts(acceptUrl, slaUrl, IsSlaLink);
    assert AcceptCaption != SlaCaption;
    if Truthy(acceptUrl) {
      assert Select([Link(AcceptCaption, acceptUrl.value)], IsSlaLink) == [];
    } else {
      assert Select([Line(AcceptFallback)], IsSlaLink) == [];
    }
    if Truthy(slaUrl) {
      assert Select([Link(SlaCaption, slaUrl.value)], IsSlaLink) == [Link(SlaCaption, slaUrl.value)];
    }
  }

  /** Where the fallback sentence appears. */
  lemma NextStepsFallback(acceptUrl: Option<string>, slaUrl: Option<string>)
    ensures Line(AcceptFallback) in NextSteps(acceptUrl, slaUrl) <==> !Truthy(acceptUrl)
  {
    var accept := if Truthy(acceptUrl) then [Link(AcceptCaption, acceptUrl.value)] else [Line(AcceptFallback)];
    var sla := if Truthy(slaUrl) then [Link(SlaCaption, slaUrl.value)] else [];
    assert NextSteps(acceptUrl, slaUrl) == [SectionTitle("Next Steps")] + accept + sla;
    assert SectionTitle("Next Steps").Title?;
  }

  /** The next steps hold one accept link to `acceptUrl` when it is truthy and none
      otherwise, and likewise one SLA link to `slaUrl`; the fallback sentence is there
      exactly when `acceptUrl` is not truthy. */
  lemma NextStepsLinks(acceptUrl: Option<string>, slaUrl: Option<string>)
    ensures Select(NextSteps(acceptUrl, slaUrl), IsAcceptLink)
         == if Truthy(acceptUrl) then [Link(AcceptCaption, acceptUrl.value)] else []
    ensures Select(NextSteps(acceptUrl, slaUrl), IsSlaLink)
         == if Truthy(slaUrl) then [Link(SlaCaption, slaUrl.value)] else []
    ensures Line(AcceptFallback) in NextSteps(acceptUrl, slaUrl) <==> !Truthy(acceptUrl)
  {
    NextStepsAccept(acceptUrl, slaUrl);
    NextStepsSla(acceptUrl, slaUrl);
    NextStepsFallback(acceptUrl, slaUrl);
  }

  /** The whole document holds one accept link, to `acceptUrl`, when that is truthy and
      none otherwise. */
  lemma ProposalAcceptLink(w: Wording, fmt: CurrencyFormatter, q: QuoteRow, items: seq<ItemRow>,
                           acceptUrl: Option<string>, slaUrl: Option<string>, today: string)
    ensures Select(Proposal(w, fmt, q, items, acceptUrl, slaUrl, today), IsAcceptLink)
         == if Truthy(acceptUrl) then [Link(AcceptCaption, acceptUrl.value)] else []
  {
    NextStepsLinks(acceptUrl, slaUrl);
    LayoutLinks(Front(w, q, today), Pricing(w, fmt, q, items), Closing(w, q), NextSteps(acceptUrl, slaUrl),
                Footer(today), IsAcceptLink);
  }

  /** The whole document holds one SLA link, to `slaUrl`, when that is truthy and none
      otherwise. */
  lemma ProposalSlaLink(w: Wording, fmt: CurrencyFormatter, q: QuoteRow, items: seq<ItemRow>,
                        acceptUrl: Option<string>, slaUrl: Option<string>, today: string)
    ensures Select(Proposal(w, fmt, q, items, acceptUrl, slaUrl, today), IsSlaLink)
         == if Truthy(slaUrl) then [Link(SlaCaption, slaUrl.value)] else []
  {
    NextStepsLinks(acceptUrl, slaUrl);
    LayoutLinks(Front(w, q, today), Pricing(w, fmt, q, items), Closing(w, q), NextSteps(acceptUrl, slaUrl),
                Footer(today), IsSlaLink);
  }

  /* The drawing code of `buildPdf`, section by section: each writer appends its section's
     blocks to the document in the order the `doc.text` calls are made. */

  method WriteCover(doc: PdfDoc, w: Wording, q: QuoteRow, today: string)
    modifies doc
    ensures doc.blocks == old(doc.blocks) + Cover(w, q, today)
  {
    doc.Add(Heading(w.title));
    doc.Add(Heading(w.subtitle));
    doc.Add(Line("Prepared for: " + q.customer.GetOr(Dash)));
    doc.Add(Line("Proposal Ref: " + q.publicId));
    doc.Add(Heading(w.company));
    doc.Add(Line(w.address));
    doc.Add(Line(w.contacts));
    doc.Add(Line("Date: " + today));
    doc.Add(NewPage);
  }

  method WriteIntro(doc: PdfDoc, w: Wording, q: QuoteRow)
    modifies doc
    ensures doc.blocks == old(doc.blocks) + Intro(w, q)
  {
    doc.Add(Heading(w.heading));
    doc.Add(Line("Client Name: " + q.customer.GetOr(Dash)));
    doc.Add(Line(w.preparedBy));
    doc.Add(Line("Proposal Reference #: " + q.publicId));
    doc.Add(Line("Contact: " + q.contactName.GetOr(Dash) + " (" + q.contactEmail.GetOr(Dash) + ")"));
    doc.Add(Line("Owner: " + q.owner.GetOr(Dash)));
    doc.Add(Line("Expires: " + q.expiresAt.GetOr(Dash)));
  }

  method WriteSummary(doc: PdfDoc, w: Wording, q: QuoteRow)
    modifies doc
    ensures doc.blocks == old(doc.blocks) + ExecutiveSummary(w, q)
  {
    doc.Add(SectionTitle("Executive Summary"));
    doc.Add(Line(w.summaryOpening + q.customer.GetOr("the client") + w.summaryRest));
    doc.Add(Line(w.objective));
  }

  method WriteOverview(doc: PdfDoc, w: Wording, q: QuoteRow)
    modifies doc
    ensures doc.blocks == old(doc.blocks) + ClientOverview(w, q)
  {
    ghost var start := doc.blocks;
    var title, org, contact := SectionTitle("Client Overview"),
      Line("Client Organization: " + q.customer.GetOr(Dash)), Line("Primary Contact: " + q.contactName.GetOr(Dash));
    doc.Add(title);
    doc.Add(org);
    doc.Add(contact);
    doc.Add(Line(w.industry));
    doc.Add(Line(w.environmentIntro));
    doc.AddBullets(w.environment);
    var head := [title, org, contact, Line(w.industry), Line(w.environmentIntro)];
    FiveAppends(start, head, Bullets(w.environment));
    OverviewParts(w, q, head);
  }

  /** Appending five blocks one at a time, then a tail, appends them together. */
  lemma FiveAppends<T>(s: seq<T>, head: seq<T>, tail: seq<T>)
    requires |head| == 5
    ensures s + [head[0]] + [head[1]] + [head[2]] + [head[3]] + [head[4]] + tail == s + (head + tail)
  {
    assert head == [head[0], head[1], head[2], head[3], head[4]];
  }

  /** The client overview is its five opening blocks followed by the environment bullets. */
  lemma OverviewParts(w: Wording, q: QuoteRow, head: seq<Block>)
    requires head == [SectionTitle("Client Overview"),
                      Line("Client Organization: " + q.customer.GetOr(Dash)),
                      Line("Primary Contact: " + q.contactName.GetOr(Dash)),
                      Line(w.industry),
                      Line(w.environmentIntro)]
    ensures ClientOverview(w, q) == head + Bullets(w.environment)
  {
  }

  /** A heading followed by one bullet per entry. */
  method WriteList(doc: PdfDoc, heading: Block, xs: seq<string>)
    modifies doc
    ensures doc.blocks == old(doc.blocks) + [heading] + Bullets(xs)
  {
    doc.Add(heading);
    doc.AddBullets(xs);
  }

  method WriteScope(doc: PdfDoc, w: Wording)
    modifies doc
    ensures doc.blocks == old(doc.blocks) + ScopeOfServices(w)
  {
    doc.Add(SectionTitle("Scope of Services"));
    WriteList(doc, Heading(w.coreHeading), w.core);
    WriteList(doc, Heading(w.addOnHeading), w.addOns);
  }

  method WriteServiceLevels(doc: PdfDoc, w: Wording)
    modifies doc
    ensures doc.blocks == old(doc.blocks) + ServiceLevels(w)
  {
    doc.Add(SectionTitle("Service Levels"));
    WriteList(doc, Heading(w.responseHeading), w.responseTimes);
    WriteList(doc, Heading(w.monitoringHeading), w.monitoring);
  }

  method WritePlan(doc: PdfDoc, w: Wording)
    modifies doc
    ensures doc.blocks == old(doc.blocks) + ImplementationPlan(w)
  {
    ghost var start := doc.blocks;
    var title := SectionTitle("Implementation Plan");
    doc.Add(title);
    WriteList(doc, Heading(w.phaseOneHeading), w.phaseOne);
    Regroup3(start, [title], [Heading(w.phaseOneHeading)], Bullets(w.phaseOne));
    assert [title] + [Heading(w.phaseOneHeading)] == [title, Heading(w.phaseOneHeading)];
    ghost var part := [title, Heading(w.phaseOneHeading)] + Bullets(w.phaseOne);
    WriteList(doc, Heading(w.phaseTwoHeading), w.phaseTwo);
    Regroup3(start, part, [Heading(w.phaseTwoHeading)], Bullets(w.phaseTwo));
    part := part + [Heading(w.phaseTwoHeading)] + Bullets(w.phaseTwo);
    WriteList(doc, Heading(w.phaseThreeHeading), w.phaseThree);
    Regroup3(start, part, [Heading(w.phaseThreeHeading)], Bullets(w.phaseThree));
    part := part + [Heading(w.phaseThreeHeading)] + Bullets(w.phaseThree);
    doc.Add(Line(w.timeline));
    Regroup(start, part, [Line(w.timeline)]);
  }

  /** Everything before the pricing table. */
  method WriteFront(doc: PdfDoc, w: Wording, q: QuoteRow, today: string)
    modifies doc
    ensures doc.blocks == old(doc.blocks) + Front(w, q, today)
  {
    ghost var start := doc.blocks;
    WriteCover(doc, w, q, today);
    ghost var part := Cover(w, q, today);
    WriteIntro(doc, w, q);
    Regroup(start, part, Intro(w, q));
    part := part + Intro(w, q);
    WriteSummary(doc, w, q);
    Regroup(start, part, ExecutiveSummary(w, q));
    part := part + ExecutiveSummary(w, q);
    WriteOverview(doc, w, q);
    Regroup(start, part, ClientOverview(w, q));
    part := part + ClientOverview(w, q);
    WriteScope(doc, w);
    Regroup(start, part, ScopeOfServices(w));
    part := part + ScopeOfServices(w);
    WriteServiceLevels(doc, w);
    Regroup(start, part, ServiceLevels(w));
    part := part + ServiceLevels(w);
    WritePlan(doc, w);
    Regroup(start, part, ImplementationPlan(w));
    part := part + ImplementationPlan(w);
    WriteList(doc, SectionTitle("Reporting & Communication"), w.reporting);
    Regroup(start + part, [SectionTitle("Reporting & Communication")], Bullets(w.reporting));
    Regroup(start, part, Reporting(w));
  }

  /** The `items.forEach` loop: one row per item, in order. */
  method WritePriceRows(doc: PdfDoc, fmt: CurrencyFormatter, currency: string, items: seq<ItemRow>)
    modifies doc
    ensures doc.blocks == old(doc.blocks) + PriceRows(fmt, currency, items)
  {
    var i := 0;
    while i < |items|
      invariant 0 <= i <= |items|
      invariant doc.blocks == old(doc.blocks) + PriceRows(fmt, currency, items[..i])
    {
      var row := PriceRow(fmt, currency, items[i]);
      doc.Add(row);
      assert items[..i + 1][..i] == items[..i];
      Regroup(old(doc.blocks), PriceRows(fmt, currency, items[..i]), [row]);
      i := i + 1;
    }
    assert items[..|items|] == items;
  }

  /** The pricing table: the placeholder line when `!items?.length`, else the item rows. */
  method WritePricing(doc: PdfDoc, w: Wording, fmt: CurrencyFormatter, q: QuoteRow, items: seq<ItemRow>)
    modifies doc
    ensures doc.blocks == old(doc.blocks) + Pricing(w, fmt, q, items)
  {
    var currency := Currency(q);
    var title := SectionTitle("Pricing Structure");
    doc.Add(title);
    doc.Add(Heading(w.pricingHeading));
    doc.Add(PricingHeader);
    ghost var head := doc.blocks;
    assert head == old(doc.blocks) + PricingHead(w);
    if |items| == 0 {
      doc.Add(Line(NoLineItems));
    } else {
      WritePriceRows(doc, fmt, currency, items);
    }
    ghost var body := doc.blocks;
    assert body == head + PricingBody(fmt, currency, items);
    var total := Row([TextCell(TotalCaption), TextCell(FormatCurrency(fmt, Some(q.total.GetOr(0.0)), Some(currency)))]);
    assert total == TotalRow(fmt, q);
    doc.Add(total);
    doc.Add(Line(w.setupFee));
    Regroup(body, [total], [Line(w.setupFee)]);
    assert [total] + [Line(w.setupFee)] == PricingTail(w, fmt, q);
    Regroup3(old(doc.blocks), PricingHead(w), PricingBody(fmt, currency, items), PricingTail(w, fmt, q));
  }

  method WriteAssumptions(doc: PdfDoc, q: QuoteRow)
    modifies doc
    ensures doc.blocks == old(doc.blocks) + AssumptionsSection(q)
  {
    var assumptions := NormalizeList(q.assumptions);
    var title := SectionTitle("Assumptions & Exclusions");
    if |assumptions| > 0 {
      WriteList(doc, title, assumptions);
      Regroup(old(doc.blocks), [title], Bullets(assumptions));
    } else {
      WriteList(doc, title, DefaultAssumptions);
      Regroup(old(doc.blocks), [title], Bullets(DefaultAssumptions));
    }
  }

  method WriteAcceptance(doc: PdfDoc, w: Wording)
    modifies doc
    ensures doc.blocks == old(doc.blocks) + Acceptance(w)
  {
    doc.Add(SectionTitle("Acceptance"));
    doc.AddLines(w.signatures);
  }

  /** The sections between the pricing table and the next steps. */
  method WriteClosing(doc: PdfDoc, w: Wording, q: QuoteRow)
    modifies doc
    ensures doc.blocks == old(doc.blocks) + Closing(w, q)
  {
    ghost var start := doc.blocks;
    WriteList(doc, SectionTitle("Contract Terms"), w.contractTerms);
    Regroup(start, [SectionTitle("Contract Terms")], Bullets(w.contractTerms));
    ghost var part := ContractTerms(w);
    WriteAssumptions(doc, q);
    Regroup(start, part, AssumptionsSection(q));
    part := part + AssumptionsSection(q);
    WriteList(doc, SectionTitle("Security & Compliance Commitment"), w.compliance);
    Regroup(start + part, [SectionTitle("Security & Compliance Commitment")], Bullets(w.compliance));
    Regroup(start, part, Compliance(w));
    part := part + Compliance(w);
    doc.Add(SectionTitle("Coverage & Eligibility"));
    doc.Add(Line(w.coverage));
    assert doc.blocks == start + part + Coverage(w);
    Regroup(start, part, Coverage(w));
    part := part + Coverage(w);
    WriteList(doc, SectionTitle("Pricing Notes"), w.pricingNotes);
    Regroup(start + part, [SectionTitle("Pricing Notes")], Bullets(w.pricingNotes));
    Regroup(start, part, PricingNotes(w));
    part := part + PricingNotes(w);
    WriteAcceptance(doc, w);
    Regroup(start, part, Acceptance(w));
  }

  method WriteNextSteps(doc: PdfDoc, acceptUrl: Option<string>, slaUrl: Option<string>)
    modifies doc
    ensures doc.blocks == old(doc.blocks) + NextSteps(acceptUrl, slaUrl)
  {
    doc.Add(SectionTitle("Next Steps"));
    if Truthy(acceptUrl) {
      doc.Add(Link(AcceptCaption, acceptUrl.value));
    } else {
      doc.Add(Line(AcceptFallback));
    }
    if Truthy(slaUrl) {
      doc.Add(Link(SlaCaption, slaUrl.value));
    }
  }

  /** `buildPdf({quote, items, acceptUrl, slaUrl})`: the blocks of the finished document. */
  method BuildPdf(w: Wording, fmt: CurrencyFormatter, q: QuoteRow, items: seq<ItemRow>,
                  acceptUrl: Option<string>, slaUrl: Option<string>, today: string)
    returns (content: seq<Block>)
    ensures content == Proposal(w, fmt, q, items, acceptUrl, slaUrl, today)
  {
    var doc := new PdfDoc();
    WriteFront(doc, w, q, today);
    WritePricing(doc, w, fmt, q, items);
    WriteClosing(doc, w, q);
    WriteNextSteps(doc, acceptUrl, slaUrl);
    doc.Add(Line("Continuate IT Services • " + today));
    assert [] + Front(w, q, today) == Front(w, q, today);
    content := doc.blocks;
  }
}
