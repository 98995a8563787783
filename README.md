# Quote domain of the Continuate IT Services portal

This project models the quote side of the portal: how quotes are built, stored, read back,
listed, reported on and rendered as PDF documents.

- `api/_pdf.js` builds the managed-security proposal. It has a cover, fixed sections, a pricing
  table, the quote's assumptions, the next steps with accept and SLA links, and a footer.
- `api/generate-pdf.js` is the admin endpoint. It checks the caller and returns a simpler
  quote PDF.
- `api/share-estimate.js` is the public endpoint. It prices a per-device estimate, stores it as
  a quote with items and a lead, and mails the proposal.
- `src/lib/api.ts` holds the quote operations: public ids, the application base URL, row
  normalisation, `fetchQuotes` / `fetchQuote` with the grouping of items by quote,
  `createQuote` with its stored subtotal, and the report and dashboard aggregations.
- Five admin pages are modelled:
  - the catalogue quote builder;
  - the free-form service quote builder;
  - the quotes list;
  - the user list;
  - the test centre.

A PDF is modelled as the sequence of blocks it writes: titles, headings, lines, bullets, table
rows and links. The pdfkit document is the `Content.PdfDoc` class. It holds the blocks written
so far, and every write appends to them. Each document writer is a method. It is proved to write
exactly the blocks of a specification function, and the layout properties are lemmas about that
function. Examples of those properties:

- one row per item, in order;
- exactly one total row, carrying the stored total;
- a link only when its URL is truthy.

The JavaScript values the code handles are modelled as follows:

- `null`/`undefined` is `Option.None`.
- `??` is `GetOr`, and `||` on strings is `Truthy`.
- A thrown value is `Thrown`.
- Money is `real`.

Everything outside the program is a parameter:

- the Supabase answers and the mail service;
- the clock and `Math.random()` draws;
- the locale currency formatter;
- environment variables.

## Model

| member | source | states |
|---|---|---|
| Wrappers.MessageOf | src/pages/admin/AdminTests.tsx:59 | an `Error`'s message, otherwise the fallback text |
| Text.TrimStart | api/_pdf.js:19 | the longest suffix that starts with a non-space; everything dropped is white space |
| Text.TrimEnd | api/_pdf.js:19 | the longest prefix that ends with a non-space; everything dropped is white space |
| Text.Trim | api/_pdf.js:19 | the result is trimmed, no longer than the input, and empty exactly when the input is blank |
| Text.TrimIsSlice | api/_pdf.js:19 | the trimmed text occurs in the input at some position |
| Text.TrimIdempotent | api/_pdf.js:19 | trimming twice is trimming once |
| Text.Split | api/_pdf.js:19 | one segment more than there are separators, and no segment holds the separator |
| Text.JoinSplit | api/_pdf.js:19 | joining the segments with the separator gives back the input |
| Text.SplitAppend | api/_pdf.js:19 | splitting `a + sep + b` gives the segments of `a`, then those of `b` |
| Text.SplitNoSeparator | api/_pdf.js:19 | a text without the separator is one segment |
| Text.TrimNonEmpty | src/pages/admin/AdminServiceQuoteBuilder.tsx:41-42 | every entry kept is non-empty and trimmed; no more entries than segments |
| Text.TrimNonEmptyAppend | src/pages/admin/AdminServiceQuoteBuilder.tsx:41-42 | trim-and-filter distributes over concatenation, so order is kept |
| Text.TrimNonEmptyOrigin | src/pages/admin/AdminServiceQuoteBuilder.tsx:41-42 | every entry kept is the trimmed form of some segment |
| Text.TrimNonEmptyKeeps | src/pages/admin/AdminServiceQuoteBuilder.tsx:41-42 | the trimmed form of every non-blank segment is kept |
| Text.TrimNonEmptyMembers | src/pages/admin/AdminServiceQuoteBuilder.tsx:41-42 | an entry is kept if and only if it is the non-empty trimmed form of a segment |
| Text.TrimNonEmptyEmpty | src/pages/admin/AdminServiceQuoteBuilder.tsx:41-42 | nothing is kept exactly when every segment is blank |
| Text.SplitLines | src/pages/admin/AdminServiceQuoteBuilder.tsx:38-42 | `splitLines` gives non-empty trimmed lines, at most one per line of the text |
| Text.SplitLinesEmpty | src/pages/admin/AdminServiceQuoteBuilder.tsx:38-42 | no line comes out exactly when every line is blank |
| Text.SplitLinesAppend | src/pages/admin/AdminServiceQuoteBuilder.tsx:38-42 | the lines of `a + "\n" + b` are the lines of `a`, then those of `b` |
| Text.SplitLinesSingle | src/pages/admin/AdminServiceQuoteBuilder.tsx:38-42 | a single line gives its trimmed form, or nothing when it is blank |
| Text.Compact | src/pages/admin/AdminQuoteBuilder.tsx:76-77 | `filter(Boolean)` keeps only non-empty entries, and no more than there were |
| Text.CompactMembers | src/pages/admin/AdminQuoteBuilder.tsx:76-77 | an entry survives if and only if it is non-empty |
| Text.CompactAppend | src/pages/admin/AdminQuoteBuilder.tsx:76-77 | filtering distributes over concatenation, so order is kept |
| Text.CompactSingle | src/pages/admin/AdminQuoteBuilder.tsx:76-77 | a single entry survives exactly when it is non-empty |
| Text.CompactKeeps | src/pages/admin/AdminQuoteBuilder.tsx:76-77 | a list without empty entries comes back unchanged |
| Text.Upper | api/_pdf.js:43 | same length; each lower-case ASCII letter becomes its capital and every other character is kept |
| Text.LowerUpper | api/_pdf.js:43 | lower-casing an upper-cased text gives the lower-cased text |
| Text.UpperIdempotent | api/_pdf.js:43 | upper-casing twice is upper-casing once |
| Text.Lower | src/pages/admin/AdminUsers.tsx:47-50 | same length; each upper-case ASCII letter becomes its small letter and every other character is kept |
| Text.ContainsAt | src/pages/admin/AdminUsers.tsx:50 | `includes` holds if and only if the text occurs at some position |
| Text.ContainsEmpty | src/pages/admin/AdminUsers.tsx:46-50 | every text includes the empty search term |
| Text.StripTrailingSlash | src/lib/api.ts:222 | the result with the removed slash, if any, put back is the input |
| Text.ReplaceFirstAbsent | api/generate-pdf.js:157 | a text without the pattern is returned unchanged |
| Numbers.NatToString | src/lib/api.ts:181 | a non-empty string of digits with no leading zero |
| Numbers.ParseNatToString | src/lib/api.ts:181 | reading the decimal rendering back gives the number |
| Numbers.IntToString | src/lib/api.ts:181 | `${n}` is digits that read back as `n`, after a minus sign when `n` is negative |
| Numbers.Round | src/lib/api.ts:659 | `Math.round` gives the integer within one half below and strictly less than one half above |
| Numbers.ToFixed0NonNegative | api/_pdf.js:12 | a non-negative amount renders as digits within one half of it |
| Numbers.ToFixed0Negative | api/_pdf.js:12 | a negative amount renders as a minus sign and digits within one half of its magnitude |
| Numbers.FourDigitToken | src/lib/api.ts:180 | for a draw in [0, 1), the token lies between 1000 and 9999 |
| Numbers.TokenWidth | src/lib/api.ts:180-181 | such a token is written with exactly four digits |
| Numbers.SumAppend | src/lib/api.ts:640 | the sum of a concatenation is the sum of the sums |
| Numbers.SumDivide | src/pages/admin/AdminQuoteBuilder.tsx:54 | dividing every term by a positive number divides the sum by it |
| Numbers.Count | src/lib/api.ts:642-647 | `filter(p).length` is at most the length |
| Numbers.CountAll | src/lib/api.ts:642-647 | a filter every element passes counts everything |
| Numbers.CountMonotone | src/lib/api.ts:642-647 | a weaker filter counts at least as many |
| Numbers.CountDisjoint | src/lib/api.ts:642-647 | the counts of two exclusive filters add up to the count of their union |
| Sequences.FilterMap | src/pages/admin/AdminServiceQuoteBuilder.tsx:68-79 | `filter(keep).map(f)` is no longer than the input |
| Sequences.FilterMapMembers | src/pages/admin/AdminServiceQuoteBuilder.tsx:68-79 | an image is in the result if and only if some kept element maps to it |
| Sequences.FilterMapEmpty | src/pages/admin/AdminServiceQuoteBuilder.tsx:68-79 | the result is empty if and only if no element is kept |
| Sequences.FilterMapAll | src/pages/admin/AdminServiceQuoteBuilder.tsx:68-79 | when all elements are kept, the result is the input mapped element by element |
| Sequences.FilterMapAppend | src/pages/admin/AdminServiceQuoteBuilder.tsx:68-79 | filter-map distributes over concatenation |
| PdfHelpers.NormalizeList | api/_pdf.js:16-21 | an array is kept; a string gives non-empty trimmed lines; anything else gives [] |
| PdfHelpers.NormalizeListString | api/_pdf.js:16-21 | a string gives exactly its `splitLines`, empty if and only if every line is blank ("" included) |
| PdfHelpers.NormalizeListOrder | api/_pdf.js:16-21 | the entries of two texts joined by a newline are the first's entries, then the second's |
| PdfHelpers.FormatCurrency | api/_pdf.js:3-14 | defaults to amount 0 and code "ZAR"; the formatter's text, or the code, a space and `toFixed(0)` when it throws |
| PdfHelpers.FormatCurrencyFallback | api/_pdf.js:10-13 | the fallback of a non-negative amount is the code, a space and digits within one half of the amount |
| Content.Bullets | api/_pdf.js:117-125 | one bullet per entry, in order |
| Content.Lines | api/_pdf.js:261-269 | one text line per entry, in order |
| Content.Select | api/_pdf.js:23-290 | a selection of the blocks is no longer than the document |
| Content.SelectAppend | api/_pdf.js:23-290 | selecting from two parts selects from each in turn |
| Content.SelectNone | api/_pdf.js:23-290 | nothing is selected from a part where no block qualifies |
| Content.SelectAll | api/_pdf.js:23-290 | everything is selected from a part where every block qualifies |
| Content.PdfDoc.constructor | api/_pdf.js:25 | a new document is empty |
| Content.PdfDoc.Add | api/_pdf.js:43 | a write appends exactly one block |
| Content.PdfDoc.AddBullets | api/_pdf.js:117-125 | the bullet loop appends `Bullets(xs)` and nothing else |
| Content.PdfDoc.AddLines | api/_pdf.js:261-269 | the line loop appends `Lines(xs)` and nothing else |
| ProposalPdf.SectionTitle | api/_pdf.js:35-45 | a title holding the text upper-cased, so of the same length and with no lower-case ASCII letter |
| ProposalPdf.Cover | api/_pdf.js:47-63 | "Prepared for:" shows the customer or "—", then the reference and the date, and a page break; no table row and no link |
| ProposalPdf.Intro | api/_pdf.js:66-74 | the client name, contact name and e-mail, owner and expiry each show "—" when missing; the reference is the public id |
| ProposalPdf.ExecutiveSummary | api/_pdf.js:76-88 | an upper-cased title, then the summary naming the customer or "the client" |
| ProposalPdf.ClientOverview | api/_pdf.js:90-98 | the organisation and primary contact each show "—" when missing, then one bullet per environment question |
| ProposalPdf.ScopeOfServices | api/_pdf.js:100-125 | an upper-cased section title; text blocks only, no table row and no link |
| ProposalPdf.ScopeOfServicesLayout | api/_pdf.js:100-125 | the title, the core-services heading over its bullets, then the add-ons heading over its bullets, in that order |
| ProposalPdf.ServiceLevels | api/_pdf.js:127-141 | an upper-cased section title; text blocks only, no table row and no link |
| ProposalPdf.ServiceLevelsLayout | api/_pdf.js:127-141 | the title, the "Response Times" heading over its bullets, then the "Monitoring Coverage" heading over its bullets |
| ProposalPdf.ImplementationPlan | api/_pdf.js:143-162 | an upper-cased section title; text blocks only, no table row and no link |
| ProposalPdf.ImplementationPlanLayout | api/_pdf.js:143-162 | the title, the three phases in order, each a heading over its bullets, and the timeline line last |
| ProposalPdf.Reporting | api/_pdf.js:164-171 | an upper-cased section title; text blocks only, no table row and no link |
| ProposalPdf.ReportingLayout | api/_pdf.js:164-171 | the title, then one bullet per reporting commitment |
| ProposalPdf.Front | api/_pdf.js:47-171 | everything before the pricing table: upper-case titles, text only |
| ProposalPdf.PriceRow | api/_pdf.js:191-201 | an item row: the name ("Service" when missing), the quantity (0 when missing), the formatted unit price and the formatted line total |
| ProposalPdf.PriceRows | api/_pdf.js:191-201 | one price row per item, in order |
| ProposalPdf.TotalRow | api/_pdf.js:208-209 | the total row shows the quote's stored total (0 when missing) in the quote's currency |
| ProposalPdf.PricingHead | api/_pdf.js:173-184 | the table head has no item row and no total row |
| ProposalPdf.PricingTail | api/_pdf.js:204-212 | the table tail has no item row |
| ProposalPdf.Pricing | api/_pdf.js:173-212 | the pricing table has upper-case titles and no link |
| ProposalPdf.ContractTerms | api/_pdf.js:217-224 | upper-case title, text only |
| ProposalPdf.AssumptionsSection | api/_pdf.js:226-236 | the title, then one bullet per normalised assumption, or the four defaults when there are none |
| ProposalPdf.Compliance | api/_pdf.js:238-244 | upper-case title, text only |
| ProposalPdf.Coverage | api/_pdf.js:246-250 | upper-case title, text only |
| ProposalPdf.PricingNotes | api/_pdf.js:252-258 | upper-case title, text only |
| ProposalPdf.Acceptance | api/_pdf.js:260-269 | upper-case title, text only |
| ProposalPdf.Closing | api/_pdf.js:217-269 | the sections after the table: upper-case titles, text only |
| ProposalPdf.NextSteps | api/_pdf.js:271-283 | upper-case title and no table row |
| ProposalPdf.Footer | api/_pdf.js:287 | text only |
| ProposalPdf.Proposal | api/_pdf.js:23-290 | every section title of the whole proposal is upper-case |
| ProposalPdf.BodyItemRows | api/_pdf.js:188-201 | the item rows of the table body are exactly the price rows |
| ProposalPdf.PricingItemRows | api/_pdf.js:173-212 | the item rows of the pricing table are exactly the price rows |
| ProposalPdf.ProposalItemRows | api/_pdf.js:191-201 | the item rows of the whole document are one price row per item, in input order |
| ProposalPdf.BodyNoTotalRow | api/_pdf.js:188-201 | the table body holds no total row |
| ProposalPdf.TailTotalRow | api/_pdf.js:204-212 | the tail holds exactly the total row |
| ProposalPdf.PricingTotalRow | api/_pdf.js:173-212 | the pricing table holds exactly one total row |
| ProposalPdf.ProposalTotalRow | api/_pdf.js:208-209 | the document holds exactly one total row, the stored total, whatever the items |
| ProposalPdf.PricingPlaceholder | api/_pdf.js:188-189 | the placeholder line is there if and only if there are no items; otherwise the body is item rows only |
| ProposalPdf.NextStepsLinks | api/_pdf.js:271-283 | one accept link if and only if `acceptUrl` is truthy, and the fallback sentence otherwise; one SLA link if and only if `slaUrl` is truthy |
| ProposalPdf.ProposalAcceptLink | api/_pdf.js:273-278 | the whole document has one accept link, to `acceptUrl`, when it is truthy, and none otherwise |
| ProposalPdf.ProposalSlaLink | api/_pdf.js:279-283 | the whole document has one SLA link, to `slaUrl`, when it is truthy, and none otherwise |
| ProposalPdf.WriteCover | api/_pdf.js:47-63 | appends exactly `Cover` |
| ProposalPdf.WriteIntro | api/_pdf.js:66-74 | appends exactly `Intro` |
| ProposalPdf.WriteSummary | api/_pdf.js:76-88 | appends exactly `ExecutiveSummary` |
| ProposalPdf.WriteOverview | api/_pdf.js:90-98 | appends exactly `ClientOverview` |
| ProposalPdf.WriteList | api/_pdf.js:100-125 | appends a heading, then one bullet per entry |
| ProposalPdf.WriteScope | api/_pdf.js:100-125 | appends exactly `ScopeOfServices` |
| ProposalPdf.WriteServiceLevels | api/_pdf.js:127-141 | appends exactly `ServiceLevels` |
| ProposalPdf.WritePlan | api/_pdf.js:143-162 | appends exactly `ImplementationPlan` |
| ProposalPdf.WriteFront | api/_pdf.js:47-171 | appends exactly `Front` |
| ProposalPdf.WritePriceRows | api/_pdf.js:191-201 | the item loop appends exactly `PriceRows`, one row per item in order |
| ProposalPdf.WritePricing | api/_pdf.js:173-212 | appends exactly `Pricing` |
| ProposalPdf.WriteAssumptions | api/_pdf.js:226-236 | appends exactly `AssumptionsSection` |
| ProposalPdf.WriteAcceptance | api/_pdf.js:260-269 | appends exactly `Acceptance` |
| ProposalPdf.WriteClosing | api/_pdf.js:217-269 | appends exactly `Closing` |
| ProposalPdf.WriteNextSteps | api/_pdf.js:271-283 | appends exactly `NextSteps` |
| ProposalPdf.BuildPdf | api/_pdf.js:23-290 | `buildPdf` writes exactly `Proposal` |
| GeneratePdf.LocalFormatCurrency | api/generate-pdf.js:20-31 | the file's own copy agrees with the shared `formatCurrency` on every input |
| GeneratePdf.LocalNormalizeList | api/generate-pdf.js:33-38 | the file's own copy agrees with the shared `normalizeList` on every input |
| GeneratePdf.Header | api/generate-pdf.js:51-60 | the quote id, then customer, contact name and e-mail, owner and expiry, each "—" when missing; no table row |
| GeneratePdf.ItemLine | api/generate-pdf.js:82-90 | an item row: the name ("Service" when missing), the category ("General" when missing), the quantity, and the formatted unit price and line total |
| GeneratePdf.ItemLines | api/generate-pdf.js:82-90 | one item row per item, in order |
| GeneratePdf.AmountRow | api/generate-pdf.js:98-102 | a caption and its formatted amount, on a row that is not an item row |
| GeneratePdf.Totals | api/generate-pdf.js:98-102 | the subtotal and total rows are not item rows |
| GeneratePdf.ListSection | api/generate-pdf.js:105-120 | a list section has no row and no link |
| GeneratePdf.Lists | api/generate-pdf.js:105-120 | the assumptions and terms have no row and no link |
| GeneratePdf.Footer | api/generate-pdf.js:124 | the footer is text only |
| GeneratePdf.DocumentRows | api/generate-pdf.js:40-127 | every row selection from the document comes from the table |
| GeneratePdf.BodyShape | api/generate-pdf.js:79-90 | the placeholder is there if and only if there are no items; otherwise item rows only |
| GeneratePdf.BodyItemRows | api/generate-pdf.js:79-90 | the item rows of the body are exactly `ItemLines` |
| GeneratePdf.DocumentItemRows | api/generate-pdf.js:82-90 | the item rows of the document are one per item, in input order |
| GeneratePdf.TotalsRows | api/generate-pdf.js:98-102 | the totals part holds the subtotal row, then the total row |
| GeneratePdf.DocumentSummaryRows | api/generate-pdf.js:98-102 | every summary-row selection from the document comes from the totals |
| GeneratePdf.DocumentSubtotal | api/generate-pdf.js:98-99 | exactly one subtotal row, the stored subtotal (0 when missing), whatever the items |
| GeneratePdf.DocumentTotal | api/generate-pdf.js:100-102 | exactly one total row, the stored total (0 when missing), whatever the items |
| GeneratePdf.ListSectionShape | api/generate-pdf.js:105-120 | the fallback sentence if and only if the list is empty, otherwise one bullet per entry in order |
| GeneratePdf.WriteHeader | api/generate-pdf.js:51-60 | appends exactly `Header` |
| GeneratePdf.WriteItemLines | api/generate-pdf.js:82-90 | the item loop appends exactly `ItemLines` |
| GeneratePdf.WriteTable | api/generate-pdf.js:62-102 | appends exactly `Table` |
| GeneratePdf.WriteListSection | api/generate-pdf.js:105-120 | appends exactly `ListSection` |
| GeneratePdf.BuildPdf | api/generate-pdf.js:40-127 | `buildPdf` writes exactly `Document` |
| GeneratePdf.GetUserAndRole | api/generate-pdf.js:129-144 | returns the user id if and only if there is a user and the profile role is "admin"; otherwise "Unauthorized", "Forbidden" or the query's error |
| GeneratePdf.FilenameId | api/generate-pdf.js:187 | the public id can be read back from the file name |
| GeneratePdf.Token | api/generate-pdf.js:157 | "Bearer <t>" gives `t`; a header without "Bearer " is unchanged |
| GeneratePdf.Handle | api/generate-pdf.js:146-194 | 405 for a non-POST method, then 401 without a header; a caller's error is a 500; 400 without a quote id; 404 for an unknown quote; an items error is a 500; otherwise 200, and 200 only for an admin and an existing quote, with that quote's document under its file name |
| ShareEstimate.CalculateEstimate | api/share-estimate.js:45-55 | the total is 99 per device plus 99 per device for each add-on; subtotal, low and high equal the total |
| ShareEstimate.Catalogue | api/share-estimate.js:57-95 | every item is per device at 99, with a name, an SLA tier and KPI tags |
| ShareEstimate.ItemsOf | api/share-estimate.js:57-95 | one catalogue item per listed service, in order |
| ShareEstimate.BuildItems | api/share-estimate.js:57-95 | `buildItems` pushes exactly `ItemsOf` |
| ShareEstimate.ServicesShape | api/share-estimate.js:57-95 | support comes first; an add-on is listed exactly when it is taken, once each, in fixed order |
| ShareEstimate.ItemsPerDevice | api/share-estimate.js:57-95 | every item is billed per device at 99 |
| ShareEstimate.LineAmounts | api/share-estimate.js:57-95 | one amount per item |
| ShareEstimate.ItemsAddUp | api/share-estimate.js:45-95 | the items' quantity times unit price adds up to the estimated total |
| ShareEstimate.BaseUrl | api/share-estimate.js:25-31 | the configured base without one trailing slash, else "https://" and the host |
| ShareEstimate.BaseUrlEmpty | api/share-estimate.js:25-31 | the base is empty exactly when no base and no host are given, or the base is "/" |
| ShareEstimate.EstimateIdShape | api/share-estimate.js:110 | "EST-", then the year, then "-" and a four-digit token between 1000 and 9999 |
| ShareEstimate.LinksTruthy | api/share-estimate.js:112-167 | the accept and SLA URLs are truthy exactly when the base URL is non-empty |
| ShareEstimate.EstimateProposalLinks | api/share-estimate.js:167-170 | the mailed proposal has both links or neither |
| ShareEstimate.LineTotals | api/_pdf.js:192-193 | one line total per item row |
| ShareEstimate.EstimateRowsAddUp | api/share-estimate.js:134-148 | the stored item rows' line totals add up to the estimated total |
| ShareEstimate.EstimateProposalTotal | api/share-estimate.js:114-170 | the proposal lists one row per estimate item and shows the estimated total, which equals the sum of the rows |
| ShareEstimate.AsItemRows | api/share-estimate.js:134-148 | one stored row per item, in order |
| ShareEstimate.Handle | api/share-estimate.js:97-200 | 405 for a non-POST method; 400 with "Email and number of devices are required." without an email or devices; an accepted request is a 500 with the first failing write's message, otherwise a 200; the mail goes out only when Mailjet is configured and every insert succeeded, and it is exactly `EstimateMail` |
| ShareEstimate.EstimateMail | api/share-estimate.js:166-193 | the mail goes to the visitor under their name (or e-mail), attaches "Continuate-Estimate-<id>.pdf", and builds the proposal from the stored estimate row (its id, customer and estimated total), the estimate's items as stored rows and the accept and SLA links under the base URL |
| ShareEstimate.EstimateMailProposal | api/share-estimate.js:166-193 | the mailed proposal lists one row per estimate item and shows the estimated total, which is the sum of those rows; its accept and SLA links are given exactly when the base URL is known |
| ShareEstimate.FirstFailure | api/share-estimate.js:132-197 | the quote insert's error, else the items insert's, else the lead insert's, else the send's when Mailjet is configured; none exactly when every step succeeds |
| ShareEstimate.EstimateQuote | api/share-estimate.js:114-131 | the estimate's quote row carries the estimate id, the customer, the e-mail, status "Estimate", ZAR, the estimate's amounts and the SLA link |
| Records.NumberOr0 | src/lib/api.ts:213-214 | a missing number reads as 0 |
| Records.NumberOf | src/lib/api.ts:190-191 | `Number(null)` is 0; a present number is itself |
| Records.MapQuoteItem | src/lib/api.ts:184-194 | the fields are copied, quantity and price read as numbers, KPI tags default to [] |
| Records.NormalizeQuote | src/lib/api.ts:196-218 | the public id becomes the id; lists default to [], amounts to 0 and currency to "ZAR"; the given items are attached |
| Records.NormalizeContract | src/lib/api.ts:227-254 | the caller's quote id wins, then the row's quote public id, then its quote id; lists default to [] |
| Records.NormalizeTicket | src/lib/api.ts:269-285 | the public id when there is one, else the database id |
| Records.NormalizeSubscription | src/lib/api.ts:287-303 | the public id when there is one; MRR 0 when missing |
| Records.NormalizeInvoice | src/lib/api.ts:305-315 | the invoice number when there is one; the caller's subscription id before the row's |
| Records.NormalizeLead | src/lib/api.ts:317-329 | numbers default to 0; each flag is true only when stored as true |
| QuoteApi.HandleError | src/lib/api.ts:171-176 | an `Error` with the database message, else "Request failed" |
| QuoteApi.PublicIdShape | src/lib/api.ts:178-182 | prefix, "-", year, "-", and a four-digit token between 1000 and 9999 |
| QuoteApi.AppBaseUrl | src/lib/api.ts:220-225 | the configured base without one trailing slash, else the window origin, else "" |
| QuoteApi.ItemsForStep | src/lib/api.ts:342-346 | one more item extends only its own quote's list |
| QuoteApi.ItemsForAppend | src/lib/api.ts:342-346 | the grouping keeps query order across batches |
| QuoteApi.ItemsForMembers | src/lib/api.ts:342-346 | a quote receives an item if and only if the item's quote id is the quote's id |
| QuoteApi.ItemsForNone | src/lib/api.ts:348 | a quote without items receives [] |
| QuoteApi.ItemsForAll | src/lib/api.ts:342-346 | when every item belongs to one quote, that quote gets all of them, mapped, in order |
| QuoteApi.MapItems | src/lib/api.ts:357 | `items.map(mapQuoteItem)`, element by element |
| QuoteApi.GroupItems | src/lib/api.ts:342-346 | each quote's list is exactly its items in query order; only quotes with items have entries |
| QuoteApi.FetchQuotes | src/lib/api.ts:331-349 | query errors go through `handleError`; no quotes gives []; otherwise the quotes in order, each with exactly its items |
| QuoteApi.FetchQuote | src/lib/api.ts:351-357 | query errors go through `handleError`; otherwise the normalised quote with its mapped items |
| QuoteApi.FetchOneAgreesWithList | src/lib/api.ts:331-357 | reading a quote alone gives the same quote as reading it in the list |
| QuoteApi.PayloadSubtotal | src/lib/api.ts:386-392 | 0 for no items, and non-negative when every amount is |
| QuoteApi.NewQuoteRow | src/lib/api.ts:386-415 | a generated "Q-" id unless one is given; "Draft" and "ZAR" by default; an SLA link only for a non-empty base; subtotal and total are the items' sum |
| QuoteApi.NewItemRows | src/lib/api.ts:417-431 | one item row per payload item, in order, each pointing at the stored quote |
| QuoteApi.CreateQuote | src/lib/api.ts:359-434 | the quote row is always inserted; item rows only after a stored quote and only for a non-empty list; the public id is returned unless a write failed |
| QuoteApi.StoredItems | src/lib/api.ts:417-431 | one stored row per inserted row |
| QuoteApi.ItemAmounts | src/lib/api.ts:386-392 | one amount per item |
| QuoteApi.AmountReadsBack | src/lib/api.ts:386-392 | an item read back has the amount its payload item had |
| QuoteApi.PayloadAmounts | src/lib/api.ts:386-392 | one amount per payload item |
| QuoteApi.PayloadSubtotalSum | src/lib/api.ts:386-392 | the `reduce` is the sum of the item amounts |
| QuoteApi.SubtotalReadsBack | src/lib/api.ts:386-431 | the stored subtotal equals the sum of the amounts of the items as they are read back |
| QuoteApi.CreatedQuoteReadsBack | src/lib/api.ts:359-434 | a created quote reads back with the payload's fields and defaults, its items in order, and a total equal to the sum of their amounts |
| Reports.LengthOr1 | src/lib/api.ts:641-643 | `length \|\| 1` is at least 1, and is the length when there are rows |
| Reports.MrrValues | src/lib/api.ts:640 | each subscription's MRR, 0 when missing |
| Reports.RateBounds | src/lib/api.ts:667-669 | a rate of a part over the whole is between 0 and 100 |
| Reports.KeysMembers | src/lib/api.ts:649-655 | categories appear once each, exactly those of some ticket |
| Reports.CountOfAbsent | src/lib/api.ts:649-653 | a category with no ticket counts 0 |
| Reports.CountOfStep | src/lib/api.ts:649-653 | one more ticket adds one to its own category only |
| Reports.CountCategories | src/lib/api.ts:649-653 | the `reduce` gives each category's exact count, with keys in order of first appearance |
| Reports.HitsDistinct | src/lib/api.ts:649-653 | a category listed once is hit once |
| Reports.TotalCountStep | src/lib/api.ts:649-653 | a new ticket adds one to the total over the categories |
| Reports.CountsAddUp | src/lib/api.ts:649-653 | the category counts add up to the number of tickets |
| Reports.Entries | src/lib/api.ts:655-660 | one entry per category in key order, with its count and rounded share |
| Reports.Insert | src/lib/api.ts:661 | inserting adds exactly one element, as a permutation |
| Reports.InsertSorted | src/lib/api.ts:661 | inserting into a list ordered by count keeps it ordered |
| Reports.SortDesc | src/lib/api.ts:661 | the sort is a permutation, ordered by count, largest first |
| Reports.SortedSplit | src/lib/api.ts:661-662 | in an ordered list, nothing after a cut has a larger count than anything before it |
| Reports.TopIssuesShape | src/lib/api.ts:661-662 | at most six entries, largest first, drawn from the entries, none left out larger than one kept |
| Reports.Kpis | src/lib/api.ts:664-670 | four KPIs: total MRR, resolution rate, new clients and churn rate; both rates lie between 0 and 100 |
| Reports.FetchReportSummary | src/lib/api.ts:633-673 | the KPIs and the top six of the category counts built by the `reduce` |
| Reports.ReportTopIssues | src/lib/api.ts:649-662 | the top issues are real categories with exact counts; all categories are there when there are at most six |
| Reports.FetchAdminDashboard | src/lib/api.ts:675-703 | open plus resolved tickets is all tickets; active plus non-active subscriptions is all subscriptions; MRR totals; uptime 99.97; activity copied |
| AdminQuoteBuilder.InitialRate | src/pages/admin/AdminQuoteBuilder.tsx:22-26 | the configured rate when it reads as a number, else 18.5 |
| AdminQuoteBuilder.Entered | src/pages/admin/AdminQuoteBuilder.tsx:279 | NaN is read as 0 |
| AdminQuoteBuilder.Convert | src/pages/admin/AdminQuoteBuilder.tsx:52-57 | the amount unchanged outside USD or for a rate that is not positive; otherwise the amount that, times the rate, gives the ZAR amount |
| AdminQuoteBuilder.ConvertInverse | src/pages/admin/AdminQuoteBuilder.tsx:52-57 | multiplying a USD amount back by the rate gives the ZAR amount |
| AdminQuoteBuilder.Selected | src/pages/admin/AdminQuoteBuilder.tsx:62 | no more selected items than entries |
| AdminQuoteBuilder.Amounts | src/pages/admin/AdminQuoteBuilder.tsx:63 | one amount per item |
| AdminQuoteBuilder.TotalIgnoresUnselected | src/pages/admin/AdminQuoteBuilder.tsx:59-65 | an unselected entry adds nothing to the total |
| AdminQuoteBuilder.TotalCountsSelected | src/pages/admin/AdminQuoteBuilder.tsx:59-65 | a selected entry adds its own amount |
| AdminQuoteBuilder.Toggled | src/pages/admin/AdminQuoteBuilder.tsx:243-249 | only the entries with the id change, and only their flag |
| AdminQuoteBuilder.ToggleLastWins | src/pages/admin/AdminQuoteBuilder.tsx:243-249 | of two checkbox changes, the second wins |
| AdminQuoteBuilder.WithQuantity | src/pages/admin/AdminQuoteBuilder.tsx:275-281 | only the entries with the id change, and only their quantity |
| AdminQuoteBuilder.Builder.constructor | src/pages/admin/AdminQuoteBuilder.tsx:21-29 | every catalogue entry selected, ZAR, the initial rate |
| AdminQuoteBuilder.Builder.Toggle | src/pages/admin/AdminQuoteBuilder.tsx:243-249 | entries become `Toggled`; currency and rate unchanged |
| AdminQuoteBuilder.Builder.SetQuantity | src/pages/admin/AdminQuoteBuilder.tsx:275-281 | entries become `WithQuantity`; currency and rate unchanged |
| AdminQuoteBuilder.Builder.SetRate | src/pages/admin/AdminQuoteBuilder.tsx:345-348 | the rate becomes the entered value, NaN as 0; nothing else changes |
| AdminQuoteBuilder.Builder.SetCurrency | src/pages/admin/AdminQuoteBuilder.tsx:21 | the currency changes; nothing else does |
| AdminQuoteBuilder.PayloadEntry | src/pages/admin/AdminQuoteBuilder.tsx:78-81 | the catalogue item with its unit price converted |
| AdminQuoteBuilder.PayloadEntries | src/pages/admin/AdminQuoteBuilder.tsx:78-81 | one converted entry per selected item, in order |
| AdminQuoteBuilder.BasePayload | src/pages/admin/AdminQuoteBuilder.tsx:67-82 | the form fields, the non-empty assumptions and terms in order, and the converted selected items |
| AdminQuoteBuilder.PayloadHoldsSelected | src/pages/admin/AdminQuoteBuilder.tsx:78-81 | an item reaches the payload if and only if its entry is selected |
| AdminQuoteBuilder.EntryAmountUnconverted | src/pages/admin/AdminQuoteBuilder.tsx:52-57 | unconverted entries keep their catalogue amount |
| AdminQuoteBuilder.EntryAmountConverted | src/pages/admin/AdminQuoteBuilder.tsx:52-57 | a converted entry's amount is the catalogue amount over the rate |
| AdminQuoteBuilder.ConvertedSubtotal | src/pages/admin/AdminQuoteBuilder.tsx:78-81 | the sum of converted amounts is the converted sum |
| AdminQuoteBuilder.StoredSubtotalIsShownTotal | src/pages/admin/AdminQuoteBuilder.tsx:355 | the subtotal `createQuote` stores is the converted total the page shows |
| AdminServiceQuote.EmptyItem | src/pages/admin/AdminServiceQuoteBuilder.tsx:28-36 | a blank line: quantity 1, price 0, default category and unit |
| AdminServiceQuote.Ids | src/pages/admin/AdminServiceQuoteBuilder.tsx:16-24 | the ids in list order |
| AdminServiceQuote.Updated | src/pages/admin/AdminServiceQuoteBuilder.tsx:64-66 | the patch applies to the items with the id; the others stay in place unchanged |
| AdminServiceQuote.UpdatedKeepsIds | src/pages/admin/AdminServiceQuoteBuilder.tsx:64-66 | an edit that does not set the id keeps ids and their distinctness |
| AdminServiceQuote.QuantityEdit | src/pages/admin/AdminServiceQuoteBuilder.tsx:265 | `Number(value) \|\| 0`: NaN becomes 0 |
| AdminServiceQuote.PriceEdit | src/pages/admin/AdminServiceQuoteBuilder.tsx:275 | the same for the unit price |
| AdminServiceQuote.Removed | src/pages/admin/AdminServiceQuoteBuilder.tsx:290 | the filter is no longer than the list |
| AdminServiceQuote.RemovedAppend | src/pages/admin/AdminServiceQuoteBuilder.tsx:290 | removal distributes over concatenation, so the remaining lines keep their order |
| AdminServiceQuote.RemovedMembers | src/pages/admin/AdminServiceQuoteBuilder.tsx:290 | an item survives if and only if it carries another id |
| AdminServiceQuote.RemovedAbsent | src/pages/admin/AdminServiceQuoteBuilder.tsx:290 | removing an unused id changes nothing |
| AdminServiceQuote.RemovedDistinct | src/pages/admin/AdminServiceQuoteBuilder.tsx:290 | with distinct ids, at most one item goes and the ids stay distinct |
| AdminServiceQuote.Builder.constructor | src/pages/admin/AdminServiceQuoteBuilder.tsx:57 | the page opens with one empty item |
| AdminServiceQuote.Builder.Update | src/pages/admin/AdminServiceQuoteBuilder.tsx:64-66 | items become `Updated`; a non-empty list with distinct ids stays so |
| AdminServiceQuote.Builder.Add | src/pages/admin/AdminServiceQuoteBuilder.tsx:233 | one empty item is appended; a fresh id keeps the ids distinct |
| AdminServiceQuote.Builder.Remove | src/pages/admin/AdminServiceQuoteBuilder.tsx:289-291 | the item goes when others remain, else a fresh empty item replaces it; the list is never empty |
| AdminServiceQuote.Total | src/pages/admin/AdminServiceQuoteBuilder.tsx:59-62 | 0 for no items; non-negative when quantities and prices are |
| AdminServiceQuote.LineAmounts | src/pages/admin/AdminServiceQuoteBuilder.tsx:60 | one amount per line |
| AdminServiceQuote.TotalIsSum | src/pages/admin/AdminServiceQuoteBuilder.tsx:59-62 | the running total is the sum of the line amounts |
| AdminServiceQuote.OrElse | src/pages/admin/AdminServiceQuoteBuilder.tsx:72 | non-empty whenever the fallback is |
| AdminServiceQuote.Optional | src/pages/admin/AdminServiceQuoteBuilder.tsx:73-74 | present if and only if non-empty |
| AdminServiceQuote.ToPayload | src/pages/admin/AdminServiceQuoteBuilder.tsx:70-79 | the trimmed name, "Services" for a blank category, blank description and unit dropped, no SLA tier, KPI tags [] |
| AdminServiceQuote.ValidItems | src/pages/admin/AdminServiceQuoteBuilder.tsx:68-79 | no more payload entries than lines |
| AdminServiceQuote.ValidItemsMembers | src/pages/admin/AdminServiceQuoteBuilder.tsx:68-79 | an entry is submitted if and only if it comes from a valid line; each has a non-blank trimmed name and a positive quantity |
| AdminServiceQuote.ValidItemsEmpty | src/pages/admin/AdminServiceQuoteBuilder.tsx:68-79 | nothing is submitted if and only if no line is valid |
| AdminServiceQuote.LineAmountReadsBack | src/pages/admin/AdminServiceQuoteBuilder.tsx:75-76 | a submitted entry carries its line's amount |
| AdminServiceQuote.SubmittedSubtotal | src/pages/admin/AdminServiceQuoteBuilder.tsx:59-79 | when all lines are valid, the stored subtotal equals the running total |
| AdminServiceQuote.EmptyItemNotValid | src/pages/admin/AdminServiceQuoteBuilder.tsx:69 | the opening empty line is not valid |
| AdminServiceQuote.FreshPageEmpty | src/pages/admin/AdminServiceQuoteBuilder.tsx:57-79 | a fresh page totals 0 and submits nothing |
| AdminServiceQuote.Assumptions | src/pages/admin/AdminServiceQuoteBuilder.tsx:81 | the assumption entries are non-empty |
| AdminServiceQuote.AssumptionsOrder | src/pages/admin/AdminServiceQuoteBuilder.tsx:81 | the trimmed summary, when it is not blank, then the text's lines in order |
| AdminServiceQuote.CreateServiceQuote | src/pages/admin/AdminServiceQuoteBuilder.tsx:84-105 | a blank customer is refused first, then a list with no valid line; otherwise the payload, with every field pinned: the trimmed customer, the name or "Service Quote", the trimmed contact, e-mail, region and owner or none, the expiry, currency, status, assumptions, terms and the valid lines |
| AdminServiceQuote.FreshPageRejected | src/pages/admin/AdminServiceQuoteBuilder.tsx:84-105 | a fresh page cannot create a quote |
| AdminServiceQuote.CreatedTotalMatches | src/pages/admin/AdminServiceQuoteBuilder.tsx:84-105 | a created quote with all lines valid stores the builder's running total and the chosen status |
| AdminServiceQuote.CreatedPayloadFields | src/pages/admin/AdminServiceQuoteBuilder.tsx:84-105 | a created payload carries exactly the valid lines and the chosen status |
| AdminServiceQuote.StoredTotalOfValid | src/pages/admin/AdminServiceQuoteBuilder.tsx:59-79 | a payload of all-valid lines is stored with the running total and its status |
| AdminQuotes.StatusColor | src/pages/admin/AdminQuotes.tsx:13-19 | four known statuses get their own class; every other status gets the default |
| AdminQuotes.StatusColorsDistinct | src/pages/admin/AdminQuotes.tsx:13-19 | different known statuses get different classes |
| AdminQuotes.GetTotal | src/pages/admin/AdminQuotes.tsx:21-22 | 0 for no items |
| AdminQuotes.GetTotalIsSum | src/pages/admin/AdminQuotes.tsx:21-22 | the page total is the sum of the item amounts |
| AdminQuotes.CreatedQuoteShowsStoredTotal | src/pages/admin/AdminQuotes.tsx:155 | a created quote, read back, shows its stored total in the list |
| AdminQuotes.QuoteStats | src/pages/admin/AdminQuotes.tsx:48-67 | no quotes gives zeros; pending plus sent is at most active, which is at most all quotes |
| AdminQuotes.QuoteStatsStep | src/pages/admin/AdminQuotes.tsx:48-67 | one more quote adds one to "Active" unless expired, to "Pending" when viewed and to "Sent" when sent |
| AdminQuotes.NoneExpiredAllActive | src/pages/admin/AdminQuotes.tsx:48-67 | with no expired quote every quote is active |
| AdminQuotes.Contact | src/pages/admin/AdminQuotes.tsx:147 | the contact name, else the e-mail, else "—" |
| AdminQuotes.RowOf | src/pages/admin/AdminQuotes.tsx:135-157 | the row's total is recomputed from the items; the badge class comes from the status |
| AdminQuotes.RowCurrencyDefault | src/pages/admin/AdminQuotes.tsx:155 | a quote read without a currency shows ZAR |
| AdminQuotes.Loaded | src/pages/admin/AdminQuotes.tsx:28-46 | the fetched list, or [] when the fetch threw |
| AdminQuotes.QuotesTable | src/pages/admin/AdminQuotes.tsx:123-158 | the loading row, the empty row, or one row per quote in order |
| AdminQuotes.FailedFetchShowsEmpty | src/pages/admin/AdminQuotes.tsx:35-37 | a failed fetch shows the empty-list row |
| AdminUsers.Filtered | src/pages/admin/AdminUsers.tsx:46-53 | no more users than given |
| AdminUsers.FilteredMembers | src/pages/admin/AdminUsers.tsx:46-53 | a user is listed if and only if they match the search |
| AdminUsers.FilteredIndices | src/pages/admin/AdminUsers.tsx:46-53 | each listed user sits at a position in the input |
| AdminUsers.FilteredKeepsOrder | src/pages/admin/AdminUsers.tsx:46-53 | those positions strictly increase, so input order is kept |
| AdminUsers.EmptySearchKeepsAll | src/pages/admin/AdminUsers.tsx:46-53 | an empty search lists every user |
| AdminUsers.StatusText | src/pages/admin/AdminUsers.tsx:131 | the stored status, else "Active" |
| AdminUsers.StatusClassAsWritten | src/pages/admin/AdminUsers.tsx:130 | the active class exactly for a stored "Active" status |
| AdminUsers.MissingStatusMisstyled | src/pages/admin/AdminUsers.tsx:130-131 | a user with no status shows "Active" in the inactive style |
| AdminUsers.StatusClass | src/pages/admin/AdminUsers.tsx:130-131 | the active class exactly when the badge text is "Active" |
| AdminUsers.RowOf | src/pages/admin/AdminUsers.tsx:118-135 | name or e-mail, company or "—", role or "Client", the status text, and the active style exactly for a stored "Active" status |
| AdminUsers.CorrectedRowOf | src/pages/admin/AdminUsers.tsx:130-131 | the active style exactly when the badge reads "Active"; it differs from the rendered row only for a user without a status |
| AdminUsers.HeaderCount | src/pages/admin/AdminUsers.tsx:60 | the header counts all users, never fewer than are listed |
| AdminUsers.UsersTable | src/pages/admin/AdminUsers.tsx:105-137 | the loading row, "No users yet.", or one row per matching user in order |
| AdminUsers.EmptySearchShowsEveryone | src/pages/admin/AdminUsers.tsx:105-137 | with no search, every user has a row |
| AdminTests.Merge | src/pages/admin/AdminTests.tsx:47-49 | the patch's status; its message, else the previous one |
| AdminTests.Merged | src/pages/admin/AdminTests.tsx:47-49 | only the entry for the id changes |
| AdminTests.Finished | src/pages/admin/AdminTests.tsx:55-60 | pass with the runner's message, or fail with the error's message or "Test failed" |
| AdminTests.RunOutcome | src/pages/admin/AdminTests.tsx:51-62 | after a run the test is pass if and only if the runner returned, fail if and only if it threw; others unchanged |
| AdminTests.TestCenter.constructor | src/pages/admin/AdminTests.tsx:21 | no results at first |
| AdminTests.TestCenter.SetResult | src/pages/admin/AdminTests.tsx:47-49 | the results become `Merged` |
| AdminTests.TestCenter.Run | src/pages/admin/AdminTests.tsx:51-62 | running, then the runner's outcome |
| AdminTests.BadgeLabel | src/pages/admin/AdminTests.tsx:64-69 | the badge label of the status, "Idle" for a test with no result |
| AdminTests.FinishedBadge | src/pages/admin/AdminTests.tsx:115 | a finished run shows Pass exactly when its runner returned |
| AdminTests.Mask | src/pages/admin/AdminTests.tsx:41 | the first six characters, the ellipsis, the last four |
| AdminTests.MaskShowsAtMostTen | src/pages/admin/AdminTests.tsx:41 | a masked key is at most 11 characters long |
| AdminTests.Summary | src/pages/admin/AdminTests.tsx:34-45 | each unset value shows "Missing"; a set anon key is masked |
| AdminTests.SetKeyNotMissing | src/pages/admin/AdminTests.tsx:41 | a set key never shows "Missing" |
| AdminTests.AccessToken | src/pages/admin/AdminTests.tsx:26-32 | the session's error is rethrown; a missing or empty token is refused; otherwise the token |
| AdminTests.QuotePdfCheck | src/pages/admin/AdminTests.tsx:254-264 | a blank id is refused first; errors are rethrown; it passes if and only if a non-empty PDF came back |
| AdminTests.SendQuoteCheck | src/pages/admin/AdminTests.tsx:284-293 | a blank id is refused first; errors are rethrown; it passes if and only if the reply is ok, with the dry-run message |
| AdminTests.BlankIdFails | src/pages/admin/AdminTests.tsx:254-293 | a blank id fails both edge-function tests with the prompt |

## Left out

- Supabase, Mailjet and the network: each query, insert, function call and mail send is a parameter or a datatype of answers. Retries and concurrency (`Promise.all`) are not modelled.
- `loadLogo` in `api/share-estimate.js`: it fetches images over the network, and the logo images are not part of this model.
- `downloadQuotePdf` in `src/lib/api.ts`: it is browser blob and DOM handling.
- `Intl.NumberFormat` is the `CurrencyFormatter` parameter; `None` means it throws. `toLocaleDateString` is the `today` parameter.
- `Date.now()`, `new Date().getFullYear()` and `Math.random()` are parameters (`year`, `draw`, item ids).
- Floating point: amounts are exact reals. NaN appears only where the code tests for it, as `None`.
- `normalizeProfile` copies a row field by field. It is the `Profile` datatype itself, with no function of its own.
- The JSON list columns of contracts and subscriptions, and the quote's `assumptions` and `terms`, are kept as lists of their entries' text. `normalizeList` returns an array of any element type as it is, and `PdfHelpers.NormalizeList` covers only arrays of strings.
- Case mapping (`toUpperCase` and `toLowerCase`) covers ASCII letters only.
- `Object.entries` order: keys are taken in order of first appearance. JavaScript moves integer-like keys to the front; a category named like a number is not modelled.
- Daylight-saving effects on `last30`: the date is an integer day count.
- pdfkit geometry (positions, fonts, colours, page breaks) is left out. Only the order and content of the blocks are modelled.
- The session, profile and quotes test runners, and "Use Latest Quote", in `src/pages/admin/AdminTests.tsx` are query wrappers with no logic. They are left out.
- `src/data/quotes.ts` (the catalogue fixtures) is not part of this model. The catalogue is a parameter.
- The fixed sentences of the proposal are a `Wording` parameter. `ProposalPdf.StandardWording` holds them, and no proof depends on their text.
- ProposalPdf.ScopeOfServices: its own contract states only the title and text-only blocks; the headings, bullets and order are stated by `ProposalPdf.ScopeOfServicesLayout`, kept apart so that the writers' proofs stay small.
- ProposalPdf.ServiceLevels: likewise; the layout is stated by `ProposalPdf.ServiceLevelsLayout`.
- ProposalPdf.ImplementationPlan: likewise; the layout is stated by `ProposalPdf.ImplementationPlanLayout`.
- ProposalPdf.Reporting: likewise; the layout is stated by `ProposalPdf.ReportingLayout`.
- Reports.SortDesc: the sort is proved to be a permutation ordered by count, but not to be stable.
- AdminQuoteBuilder.Builder.Toggle: `Boolean(checked)` is taken to be a `bool` already.
- The toasts and the navigation of `handleSaveDraft`, `handleCreateQuote` and `handleGeneratePdf` are not modelled. The payloads they pass to `createQuote` are.

## Findings

| source | as written | input that shows it | evidently intended | confidence | as-written member | corrected member |
|---|---|---|---|---|---|---|
| src/pages/admin/AdminUsers.tsx:130-131 | the badge class tests `u.status === "Active"`, but the text shows `u.status ?? "Active"` | a profile whose `status` is null | a badge that reads "Active" uses the active style | medium, not executed | AdminUsers.MissingStatusMisstyled | AdminUsers.CorrectedRowOf |
