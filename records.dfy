/** The database rows read by `src/lib/api.ts` and the records the application builds
    from them (`mapQuoteItem` and the `normalize*` functions): which fields are copied,
    which are defaulted, and how a missing or falsy amount becomes 0. */
module Records {
  import opened Wrappers

  /** `Number(x || 0)` on a numeric column: null and 0 are falsy and give 0, so on numbers
      `||` and `??` agree. */
  function NumberOr0(x: Option<real>): (r: real)
    ensures r == x.GetOr(0.0)
    ensures x.None? ==> r == 0.0
  {
    if x.None? || x.value == 0.0 then 0.0 else x.value
  }

  /** `Number(x)` on a nullable numeric column: `Number(null)` is 0. */
  function NumberOf(x: Option<real>): (r: real)
    ensures x.Some? ==> r == x.value
    ensures x.None? ==> r == 0.0
  {
    match x
    case Some(v) => v
    case None => 0.0
  }

  /** A `quote_items` row. */
  datatype ItemRecord = ItemRecord(
    id: string, quoteId: string, name: Option<string>, category: Option<string>,
    description: Option<string>, unit: Option<string>, quantity: Option<real>, unitPrice: Option<real>,
    slaTier: Option<string>, kpiTags: Option<seq<string>>)

  /** `QuoteItem`, the application's line item. */
  datatype QuoteItem = QuoteItem(
    id: string, name: Option<string>, category: Option<string>, description: Option<string>,
    unit: Option<string>, quantity: real, unitPrice: real, slaTier: Option<string>, kpiTags: seq<string>)

  /** `mapQuoteItem(item)`: quantity and unit price as numbers, KPI tags defaulting to []. */
  function MapQuoteItem(item: ItemRecord): (r: QuoteItem)
    ensures r.id == item.id && r.name == item.name && r.category == item.category
    ensures r.description == item.description && r.unit == item.unit && r.slaTier == item.slaTier
    ensures r.quantity == NumberOf(item.quantity) && r.unitPrice == NumberOf(item.unitPrice)
    ensures r.kpiTags == item.kpiTags.GetOr([])
  {
    QuoteItem(item.id, item.name, item.category, item.description, item.unit,
              NumberOf(item.quantity), NumberOf(item.unitPrice), item.slaTier, item.kpiTags.GetOr([]))
  }

  /** A `quotes` row. */
  datatype QuoteRecord = QuoteRecord(
    id: string, publicId: string, name: Option<string>, customer: Option<string>,
    contactName: Option<string>, contactEmail: Option<string>, region: Option<string>, owner: Option<string>,
    status: Option<string>, createdAt: Option<string>, expiresAt: Option<string>, sentAt: Option<string>,
    viewedAt: Option<string>, acceptedAt: Option<string>,
    assumptions: Option<seq<string>>, terms: Option<seq<string>>,
    subtotal: Option<real>, total: Option<real>, currency: Option<string>, slaUrl: Option<string>)

  /** `Quote`: identified by its public id, carrying its database id and its items. */
  datatype Quote = Quote(
    id: string, dbId: string, name: Option<string>, customer: Option<string>,
    contactName: Option<string>, contactEmail: Option<string>, region: Option<string>, owner: Option<string>,
    status: Option<string>, createdAt: Option<string>, expiresAt: Option<string>, sentAt: Option<string>,
    viewedAt: Option<string>, acceptedAt: Option<string>,
    assumptions: seq<string>, terms: seq<string>, subtotal: real, total: real,
    currency: string, slaUrl: Option<string>, items: seq<QuoteItem>)

  /** `normalizeQuote(row, items)`: the public id becomes the id, lists default to [],
      amounts to 0, the currency to "ZAR"; the items given are attached unchanged. */
  function NormalizeQuote(row: QuoteRecord, items: seq<QuoteItem>): (q: Quote)
    ensures q.id == row.publicId && q.dbId == row.id && q.items == items
    ensures q.assumptions == row.assumptions.GetOr([]) && q.terms == row.terms.GetOr([])
    ensures q.subtotal == row.subtotal.GetOr(0.0) && q.total == row.total.GetOr(0.0)
    ensures q.currency == row.currency.GetOr("ZAR") && q.slaUrl == row.slaUrl
    ensures q.name == row.name && q.customer == row.customer && q.status == row.status
  {
    Quote(row.publicId, row.id, row.name, row.customer, row.contactName, row.contactEmail, row.region,
          row.owner, row.status, row.createdAt, row.expiresAt, row.sentAt, row.viewedAt, row.acceptedAt,
          row.assumptions.GetOr([]), row.terms.GetOr([]), NumberOr0(row.subtotal), NumberOr0(row.total),
          row.currency.GetOr("ZAR"), row.slaUrl, items)
  }

  /** A `contracts` row; the JSON list columns are kept as lists of their entries' text. */
  datatype ContractRecord = ContractRecord(
    publicId: string, quotePublicId: Option<string>, quoteId: Option<string>, customer: Option<string>,
    status: Option<string>, owner: Option<string>, startDate: Option<string>, renewalDate: Option<string>,
    slaTier: Option<string>, serviceLevels: Option<seq<string>>, kpis: Option<seq<string>>,
    supportModel: Option<string>, escalation: Option<seq<string>>, billingCycle: Option<string>,
    billingCurrency: Option<string>, mrr: Option<real>, arr: Option<real>, paymentTerms: Option<string>,
    invoicingDay: Option<int>, healthScore: Option<int>, riskLevel: Option<string>, lastQbr: Option<string>,
    nextQbr: Option<string>, autoRenew: Option<bool>, contacts: Option<seq<string>>,
    createdAt: Option<string>, updatedAt: Option<string>)

  datatype Contract = Contract(
    id: string, quoteId: Option<string>, customer: Option<string>, status: Option<string>,
    owner: Option<string>, startDate: Option<string>, renewalDate: Option<string>, slaTier: Option<string>,
    serviceLevels: seq<string>, kpis: seq<string>, supportModel: Option<string>, escalation: seq<string>,
    billingCycle: Option<string>, billingCurrency: Option<string>, mrr: real, arr: real,
    paymentTerms: Option<string>, invoicingDay: Option<int>, healthScore: Option<int>,
    riskLevel: Option<string>, lastQbr: Option<string>, nextQbr: Option<string>, autoRenew: Option<bool>,
    contacts: seq<string>, createdAt: Option<string>, updatedAt: Option<string>)

  /** `normalizeContract(row, quotePublicId)`: the quote reference prefers the caller's
      public id, then the row's quote public id, then its quote id. */
  function NormalizeContract(row: ContractRecord, quotePublicId: Option<string>): (c: Contract)
    ensures c.id == row.publicId
    ensures quotePublicId.Some? ==> c.quoteId == quotePublicId
    ensures quotePublicId.None? && row.quotePublicId.Some? ==> c.quoteId == row.quotePublicId
    ensures quotePublicId.None? && row.quotePublicId.None? ==> c.quoteId == row.quoteId
    ensures c.mrr == row.mrr.GetOr(0.0) && c.arr == row.arr.GetOr(0.0)
    ensures c.serviceLevels == row.serviceLevels.GetOr([]) && c.kpis == row.kpis.GetOr([])
    ensures c.escalation == row.escalation.GetOr([]) && c.contacts == row.contacts.GetOr([])
  {
    var quoteId := if quotePublicId.Some? then quotePublicId
                   else if row.quotePublicId.Some? then row.quotePublicId
                   else row.quoteId;
    Contract(row.publicId, quoteId, row.customer, row.status, row.owner, row.startDate, row.renewalDate,
             row.slaTier, row.serviceLevels.GetOr([]), row.kpis.GetOr([]), row.supportModel,
             row.escalation.GetOr([]), row.billingCycle, row.billingCurrency, NumberOr0(row.mrr),
             NumberOr0(row.arr), row.paymentTerms, row.invoicingDay, row.healthScore, row.riskLevel,
             row.lastQbr, row.nextQbr, row.autoRenew, row.contacts.GetOr([]), row.createdAt, row.updatedAt)
  }

  /** A `profiles` row, which `normalizeProfile` copies field for field. */
  datatype Profile = Profile(
    id: string, authUserId: Option<string>, email: Option<string>, name: Option<string>,
    role: Option<string>, company: Option<string>, phone: Option<string>, status: Option<string>,
    createdAt: Option<string>, updatedAt: Option<string>)

  /** A `tickets` row. */
  datatype TicketRecord = TicketRecord(
    id: string, publicId: Option<string>, customer: Option<string>, requesterName: Option<string>,
    requesterEmail: Option<string>, subject: Option<string>, category: Option<string>,
    priority: Option<string>, status: Option<string>, assignedTo: Option<string>,
    createdAt: Option<string>, updatedAt: Option<string>, slaDueAt: Option<string>,
    notes: Option<seq<string>>, tags: Option<seq<string>>)

  datatype Ticket = Ticket(
    id: string, dbId: string, customer: Option<string>, requesterName: Option<string>,
    requesterEmail: Option<string>, subject: Option<string>, category: Option<string>,
    priority: Option<string>, status: Option<string>, assignedTo: Option<string>,
    createdAt: Option<string>, updatedAt: Option<string>, slaDueAt: Option<string>,
    notes: seq<string>, tags: seq<string>)

  /** `normalizeTicket(row)`: the public id when there is one, else the database id. */
  function NormalizeTicket(row: TicketRecord): (t: Ticket)
    ensures t.id == row.publicId.GetOr(row.id) && t.dbId == row.id
    ensures t.notes == row.notes.GetOr([]) && t.tags == row.tags.GetOr([])
    ensures t.category == row.category && t.status == row.status
  {
    Ticket(row.publicId.GetOr(row.id), row.id, row.customer, row.requesterName, row.requesterEmail,
           row.subject, row.category, row.priority, row.status, row.assignedTo, row.createdAt,
           row.updatedAt, row.slaDueAt, row.notes.GetOr([]), row.tags.GetOr([]))
  }

  /** A `subscriptions` row; add-ons are kept as the text of each entry. */
  datatype SubscriptionRecord = SubscriptionRecord(
    id: string, publicId: Option<string>, customer: Option<string>, plan: Option<string>,
    status: Option<string>, startDate: Option<string>, renewalDate: Option<string>,
    billingCycle: Option<string>, billingCurrency: Option<string>, mrr: Option<real>, seats: Option<int>,
    addOns: Option<seq<string>>, owner: Option<string>, createdAt: Option<string>, updatedAt: Option<string>)

  datatype Subscription = Subscription(
    id: string, dbId: string, customer: Option<string>, plan: Option<string>, status: Option<string>,
    startDate: Option<string>, renewalDate: Option<string>, billingCycle: Option<string>,
    billingCurrency: Option<string>, mrr: real, seats: Option<int>, addOns: seq<string>,
    owner: Option<string>, createdAt: Option<string>, updatedAt: Option<string>)

  /** `normalizeSubscription(row)`: the public id when there is one, MRR 0 when missing. */
  function NormalizeSubscription(row: SubscriptionRecord): (s: Subscription)
    ensures s.id == row.publicId.GetOr(row.id) && s.dbId == row.id
    ensures s.mrr == row.mrr.GetOr(0.0) && s.addOns == row.addOns.GetOr([])
  {
    Subscription(row.publicId.GetOr(row.id), row.id, row.customer, row.plan, row.status, row.startDate,
                 row.renewalDate, row.billingCycle, row.billingCurrency, NumberOr0(row.mrr), row.seats,
                 row.addOns.GetOr([]), row.owner, row.createdAt, row.updatedAt)
  }

  /** An `invoices` row. */
  datatype InvoiceRecord = InvoiceRecord(
    id: string, invoiceNumber: Option<string>, subscriptionPublicId: Option<string>, status: Option<string>,
    amount: Option<real>, currency: Option<string>, dueDate: Option<string>, paidAt: Option<string>,
    createdAt: Option<string>)

  datatype Invoice = Invoice(
    id: string, dbId: string, subscriptionId: Option<string>, status: Option<string>, amount: real,
    currency: Option<string>, dueDate: Option<string>, paidAt: Option<string>, createdAt: Option<string>)

  /** `normalizeInvoice(row, subscriptionPublicId)`: the invoice number when there is one;
      the caller's subscription id before the row's. */
  function NormalizeInvoice(row: InvoiceRecord, subscriptionPublicId: Option<string>): (i: Invoice)
    ensures i.id == row.invoiceNumber.GetOr(row.id) && i.dbId == row.id
    ensures i.subscriptionId == (if subscriptionPublicId.Some? then subscriptionPublicId else row.subscriptionPublicId)
    ensures i.amount == row.amount.GetOr(0.0)
  {
    Invoice(row.invoiceNumber.GetOr(row.id), row.id,
            if subscriptionPublicId.Some? then subscriptionPublicId else row.subscriptionPublicId,
            row.status, NumberOr0(row.amount), row.currency, row.dueDate, row.paidAt, row.createdAt)
  }

  /** A `leads` row; `cybersecurity` and `backup` are the stored flags (null when unset). */
  datatype LeadRecord = LeadRecord(
    id: string, name: Option<string>, email: Option<string>, company: Option<string>,
    devices: Option<real>, cybersecurity: Option<bool>, backup: Option<bool>,
    estimateLow: Option<real>, estimateHigh: Option<real>, quotePublicId: Option<string>,
    createdAt: Option<string>)

  datatype Lead = Lead(
    id: string, name: Option<string>, email: Option<string>, company: Option<string>, devices: real,
    cybersecurity: bool, backup: bool, estimateLow: real, estimateHigh: real,
    quotePublicId: Option<string>, createdAt: Option<string>)

  /** `normalizeLead(row)`: numbers default to 0 and the flags to false. */
  function NormalizeLead(row: LeadRecord): (l: Lead)
    ensures l.devices == row.devices.GetOr(0.0)
    ensures l.estimateLow == row.estimateLow.GetOr(0.0) && l.estimateHigh == row.estimateHigh.GetOr(0.0)
    ensures l.cybersecurity <==> row.cybersecurity == Some(true)
    ensures l.backup <==> row.backup == Some(true)
    ensures l.quotePublicId == row.quotePublicId
  {
    Lead(row.id, row.name, row.email, row.company, NumberOr0(row.devices),
         row.cybersecurity == Some(true), row.backup == Some(true),
         NumberOr0(row.estimateLow), NumberOr0(row.estimateHigh), row.quotePublicId, row.createdAt)
  }
}
