/** The service-quote builder page: its editable list of line items, the running total,
    the items it submits and the checks made before a quote is created. */
module AdminServiceQuote {
  import opened Wrappers
  import opened Text
  import opened Numbers
  import opened Records
  import opened QuoteApi
  import opened Sequences

  /** One editable line of the builder. */
  datatype LineItem = LineItem(
    id: string, name: string, category: string, description: string, unit: string,
    quantity: real, unitPrice: real)

  /** `makeEmptyItem()`; the id, drawn from the clock and a random number, is passed in. */
  function EmptyItem(id: string): (e: LineItem)
    ensures e.id == id && e.name == [] && e.description == []
    ensures e.category == "Professional Services" && e.unit == "per month"
    ensures e.quantity == 1.0 && e.unitPrice == 0.0
  {
    LineItem(id, "", "Professional Services", "", "per month", 1.0, 0.0)
  }

  /** The ids of the items, in list order. */
  function Ids(items: seq<LineItem>): (r: seq<string>)
    ensures |r| == |items| && forall k :: 0 <= k < |items| ==> r[k] == items[k].id
  {
    seq(|items|, k requires 0 <= k < |items| => items[k].id)
  }

  /** No two items share an id. */
  predicate DistinctIds(items: seq<LineItem>) {
    forall i, j :: 0 <= i < j < |items| ==> items[i].id != items[j].id
  }

  // ----- editing the list -----

  /** A `Partial<ServiceLineItem>`: the fields an edit sets. */
  datatype Patch = Patch(
    id: Option<string>, name: Option<string>, category: Option<string>, description: Option<string>,
    unit: Option<string>, quantity: Option<real>, unitPrice: Option<real>)

  /** `{ ...item, ...patch }`: each field the patch sets overrides the item's. */
  function Apply(item: LineItem, patch: Patch): LineItem {
    LineItem(patch.id.GetOr(item.id), patch.name.GetOr(item.name), patch.category.GetOr(item.category),
             patch.description.GetOr(item.description), patch.unit.GetOr(item.unit),
             patch.quantity.GetOr(item.quantity), patch.unitPrice.GetOr(item.unitPrice))
  }

  /** `updateItem(id, patch)`: the list with the patch applied to the items carrying `id`;
      every other item stays where it was, unchanged. */
  function Updated(items: seq<LineItem>, id: string, patch: Patch): (r: seq<LineItem>)
    ensures |r| == |items|
    ensures forall k :: 0 <= k < |items| && items[k].id != id ==> r[k] == items[k]
    ensures forall k :: 0 <= k < |items| && items[k].id == id ==> r[k] == Apply(items[k], patch)
  {
    seq(|items|, k requires 0 <= k < |items| => if items[k].id == id then Apply(items[k], patch) else items[k])
  }

  /** An edit that does not set the id keeps every id in place, so distinct ids stay distinct. */
  lemma UpdatedKeepsIds(items: seq<LineItem>, id: string, patch: Patch)
    requires patch.id.None?
    ensures Ids(Updated(items, id, patch)) == Ids(items)
    ensures DistinctIds(items) ==> DistinctIds(Updated(items, id, patch))
  {
    var r := Updated(items, id, patch);
    assert forall k :: 0 <= k < |items| ==> r[k].id == items[k].id;
  }

  /** The quantity field's edit, `Number(value) || 0`: a number that cannot be read (`None`)
      and zero both become 0. */
  function QuantityEdit(entered: Option<real>): (p: Patch)
    ensures p.quantity.Some? && (entered.None? ==> p.quantity.value == 0.0)
    ensures entered.Some? ==> p.quantity.value == entered.value
    ensures p.id.None? && p.name.None? && p.unitPrice.None?
  {
    Patch(None, None, None, None, None, Some(entered.GetOr(0.0)), None)
  }

  /** The unit-price field's edit, with the same reading of the input as the quantity's. */
  function PriceEdit(entered: Option<real>): (p: Patch)
    ensures p.unitPrice.Some? && (entered.None? ==> p.unitPrice.value == 0.0)
    ensures entered.Some? ==> p.unitPrice.value == entered.value
    ensures p.id.None? && p.name.None? && p.quantity.None?
  {
    Patch(None, None, None, None, None, None, Some(entered.GetOr(0.0)))
  }

  /** `prev.filter((entry) => entry.id !== id)`. */
  function Removed(items: seq<LineItem>, id: string): (r: seq<LineItem>)
    ensures |r| <= |items|
  {
    if items == [] then []
    else Removed(items[..|items| - 1], id) + (if items[|items| - 1].id == id then [] else [items[|items| - 1]])
  }

  /** An item survives removal exactly when it carries another id. */
  lemma {:induction false} RemovedMembers(items: seq<LineItem>, id: string, x: LineItem)
    ensures x in Removed(items, id) <==> x in items && x.id != id
  {
    if items != [] {
      var init := items[..|items| - 1];
      RemovedMembers(init, id, x);
      assert items == init + [items[|items| - 1]];
    }
  }

  /** Removal distributes over concatenation, so the surviving lines keep their order. */
  lemma {:induction false} RemovedAppend(a: seq<LineItem>, b: seq<LineItem>, id: string)
    ensures Removed(a + b, id) == Removed(a, id) + Removed(b, id)
  {
    if b != [] {
      var n := |b| - 1;
      RemovedAppend(a, b[..n], id);
      assert (a + b)[..|a + b| - 1] == a + b[..n];
      assert (a + b)[|a + b| - 1] == b[n];
    } else {
      assert a + b == a;
    }
  }

  /** Removing an id that no item carries changes nothing. */
  lemma {:induction false} RemovedAbsent(items: seq<LineItem>, id: string)
    requires forall k :: 0 <= k < |items| ==> items[k].id != id
    ensures Removed(items, id) == items
  {
    if items != [] {
      RemovedAbsent(items[..|items| - 1], id);
    }
  }

  /** With distinct ids, removal takes out at most one item and keeps the ids distinct. */
  lemma {:induction false} RemovedDistinct(items: seq<LineItem>, id: string)
    requires DistinctIds(items)
    ensures DistinctIds(Removed(items, id))
    ensures |Removed(items, id)| >= |items| - 1
  {
    if items != [] {
      var init := items[..|items| - 1];
      var last := items[|items| - 1];
      RemovedDistinct(init, id);
      var r0 := Removed(init, id);
      if last.id == id {
        RemovedAbsent(init, id);
      } else {
        forall i | 0 <= i < |r0|
          ensures r0[i].id != last.id
        {
          RemovedMembers(init, id, r0[i]);
          var m :| 0 <= m < |init| && init[m] == r0[i];
          assert items[m] == init[m];
        }
      }
    }
  }

  /** The builder's list of line items, which the page replaces one edit at a time. */
  class Builder {
    var items: seq<LineItem>

    /** The list is never empty and its ids are distinct. */
    ghost predicate Valid()
      reads this
    {
      items != [] && DistinctIds(items)
    }

    /** The page opens with one empty item. */
    constructor (firstId: string)
      ensures items == [EmptyItem(firstId)]
      ensures Valid()
    {
      items := [EmptyItem(firstId)];
    }

    /** `updateItem(id, patch)`. */
    method Update(id: string, patch: Patch)
      modifies this
      ensures items == Updated(old(items), id, patch)
      ensures old(Valid()) && patch.id.None? ==> Valid()
    {
      if patch.id.None? {
        UpdatedKeepsIds(items, id, patch);
      }
      items := Updated(items, id, patch);
    }

    /** "Add Item": one empty item is appended. */
    method Add(freshId: string)
      modifies this
      ensures items == old(items) + [EmptyItem(freshId)]
      ensures old(Valid()) && freshId !in Ids(old(items)) ==> Valid()
    {
      ghost var before := items;
      items := items + [EmptyItem(freshId)];
      assert forall k :: 0 <= k < |before| ==> Ids(before)[k] == before[k].id;
    }

    /** The delete button: the item goes when others remain; the last item is replaced by
        a fresh empty one, so the list never becomes empty. */
    method Remove(id: string, freshId: string)
      modifies this
      ensures items == if |old(items)| > 1 then Removed(old(items), id) else [EmptyItem(freshId)]
      ensures old(Valid()) ==> Valid()
    {
      if |items| > 1 {
        if DistinctIds(items) {
          RemovedDistinct(items, id);
        }
        items := Removed(items, id);
      } else {
        items := [EmptyItem(freshId)];
      }
    }
  }

  // ----- the running total and the submitted items -----

  /** The amount of one line, quantity times unit price. */
  function LineAmount(item: LineItem): real {
    item.quantity * item.unitPrice
  }

  /** `total`: the line amounts added left to right from 0. */
  function Total(items: seq<LineItem>): (r: real)
    ensures items == [] ==> r == 0.0
    ensures (forall k :: 0 <= k < |items| ==> items[k].quantity >= 0.0 && items[k].unitPrice >= 0.0) ==> r >= 0.0
  {
    if items == [] then 0.0 else Total(items[..|items| - 1]) + LineAmount(items[|items| - 1])
  }

  /** The line amounts of a list, in order. */
  function LineAmounts(items: seq<LineItem>): (r: seq<real>)
    ensures |r| == |items| && forall k :: 0 <= k < |items| ==> r[k] == LineAmount(items[k])
  {
    seq(|items|, k requires 0 <= k < |items| => LineAmount(items[k]))
  }

  /** The running total is the sum of the line amounts. */
  lemma {:induction false} TotalIsSum(items: seq<LineItem>)
    ensures Total(items) == Sum(LineAmounts(items))
  {
    if items != [] {
      var init := items[..|items| - 1];
      TotalIsSum(init);
      assert LineAmounts(items) == LineAmounts(init) + [LineAmount(items[|items| - 1])];
      SumAppend(LineAmounts(init), [LineAmount(items[|items| - 1])]);
    }
  }

  /** A line is submitted when its trimmed name is non-blank and its quantity is positive. */
  predicate IsValid(item: LineItem) {
    Trim(item.name) != [] && item.quantity > 0.0
  }

  /** `s.trim() || fallback`. */
  function OrElse(s: string, fallback: string): (r: string)
    ensures r != [] || fallback == []
  {
    if s == [] then fallback else s
  }

  /** `s.trim() || undefined`. */
  function Optional(s: string): (r: Option<string>)
    ensures r.Some? <==> s != []
  {
    if s == [] then None else Some(s)
  }

  /** The payload entry for a valid line: trimmed name, a blank category read as "Services",
      blank description and unit left out, no SLA tier and no KPI tags. */
  function ToPayload(item: LineItem): (p: PayloadItem)
    ensures p.name == Trim(item.name) && IsTrimmed(p.name)
    ensures p.category == (if Trim(item.category) == [] then "Services" else Trim(item.category))
    ensures p.description == Optional(Trim(item.description)) && p.unit == Optional(Trim(item.unit))
    ensures p.quantity == Some(item.quantity) && p.unitPrice == Some(item.unitPrice)
    ensures p.slaTier.None? && p.kpiTags == Some([])
  {
    PayloadItem(Trim(item.name), OrElse(Trim(item.category), "Services"), Optional(Trim(item.description)),
                Optional(Trim(item.unit)), Some(item.quantity), Some(item.unitPrice), None, Some([]))
  }

  /** `validItems`: the valid lines, in order, turned into payload entries. */
  function ValidItems(items: seq<LineItem>): (r: seq<PayloadItem>)
    ensures |r| <= |items|
  {
    FilterMap(items, IsValid, ToPayload)
  }

  /** A payload entry is submitted exactly when it comes from a valid line, and every
      submitted entry has a non-blank trimmed name and a positive quantity. */
  lemma ValidItemsMembers(items: seq<LineItem>, p: PayloadItem)
    ensures p in ValidItems(items) <==> exists k :: 0 <= k < |items| && IsValid(items[k]) && p == ToPayload(items[k])
    ensures p in ValidItems(items) ==> p.name != [] && IsTrimmed(p.name) && p.quantity.Some? && p.quantity.value > 0.0
  {
    FilterMapMembers(items, IsValid, ToPayload, p);
  }

  /** Nothing is submitted exactly when no line is valid. */
  lemma ValidItemsEmpty(items: seq<LineItem>)
    ensures ValidItems(items) == [] <==> forall k :: 0 <= k < |items| ==> !IsValid(items[k])
  {
    FilterMapEmpty(items, IsValid, ToPayload);
  }

  /** A submitted entry carries the amount of the line it came from. */
  lemma LineAmountReadsBack(item: LineItem, p: PayloadItem)
    requires p.quantity == Some(item.quantity) && p.unitPrice == Some(item.unitPrice)
    ensures PayloadAmount(p) == LineAmount(item)
  {
  }

  /** When every line is valid, the subtotal `createQuote` stores equals the running total. */
  lemma SubmittedSubtotal(items: seq<LineItem>)
    requires forall k :: 0 <= k < |items| ==> IsValid(items[k])
    ensures PayloadSubtotal(ValidItems(items)) == Total(items)
  {
    var v := ValidItems(items);
    FilterMapAll(items, IsValid, ToPayload);
    PayloadSubtotalSum(v);
    TotalIsSum(items);
    forall k | 0 <= k < |items|
      ensures PayloadAmounts(v)[k] == LineAmounts(items)[k]
    {
      LineAmountReadsBack(items[k], v[k]);
    }
    assert PayloadAmounts(v) == LineAmounts(items);
  }

  /** The fresh page's empty line is not valid. */
  lemma EmptyItemNotValid(id: string)
    ensures !IsValid(EmptyItem(id))
  {
    var e := EmptyItem(id);
    assert IsBlank(e.name);
  }

  /** A page that still shows only its opening empty line submits nothing and totals 0. */
  lemma FreshPageEmpty(id: string)
    ensures Total([EmptyItem(id)]) == 0.0 && ValidItems([EmptyItem(id)]) == []
  {
    var e := EmptyItem(id);
    var items := [e];
    assert items[..0] == [];
    assert LineAmount(e) == 0.0;
    assert Total(items) == 0.0;
    EmptyItemNotValid(id);
    assert forall k :: 0 <= k < |items| ==> !IsValid(items[k]);
    ValidItemsEmpty(items);
  }

  // ----- assumptions, terms and the quote payload -----

  /** `assumptions`: the trimmed scope summary followed by the lines of the assumptions
      text, empty entries dropped. */
  function Assumptions(scopeSummary: string, text: string): (r: seq<string>)
    ensures forall k :: 0 <= k < |r| ==> r[k] != []
  {
    Compact([Trim(scopeSummary)] + SplitLines(text))
  }

  /** The assumptions are the trimmed scope summary, when it is not blank, followed by the
      lines of the assumptions text in their order. */
  lemma AssumptionsOrder(scopeSummary: string, text: string)
    ensures Assumptions(scopeSummary, text) ==
      (if Trim(scopeSummary) == [] then [] else [Trim(scopeSummary)]) + SplitLines(text)
  {
    var lines := SplitLines(text);
    CompactAppend([Trim(scopeSummary)], lines);
    CompactKeeps(lines);
    CompactSingle(Trim(scopeSummary));
  }

  /** The builder's form fields other than the items. */
  datatype ServiceForm = ServiceForm(
    quoteName: string, customer: string, contactName: string, contactEmail: string, region: string,
    owner: string, currency: string, expiresAt: string, scopeSummary: string, assumptionsText: string,
    termsText: string)

  /** `createServiceQuote(status)` up to the call of `createQuote`: a blank customer is refused
      first, then a list without a valid line; otherwise the payload for `createQuote`. */
  function CreateServiceQuote(form: ServiceForm, status: string, items: seq<LineItem>): (r: Outcome<Payload>)
    ensures Trim(form.customer) == [] ==> r == Threw(ErrorValue("Customer is required."))
    ensures Trim(form.customer) != [] && ValidItems(items) == [] ==>
      r == Threw(ErrorValue("Add at least one line item with a name and quantity."))
    ensures r.Returned? <==> Trim(form.customer) != [] && exists k :: 0 <= k < |items| && IsValid(items[k])
    ensures r.Returned? ==>
      r.value.customer == Trim(form.customer) && r.value.status == Some(status) &&
      r.value.name == (if Trim(form.quoteName) == [] then "Service Quote" else Trim(form.quoteName)) &&
      r.value.contactName == Optional(Trim(form.contactName)) &&
      r.value.contactEmail == Optional(Trim(form.contactEmail)) &&
      r.value.region == Optional(Trim(form.region)) && r.value.owner == Optional(Trim(form.owner)) &&
      r.value.expiresAt == Optional(form.expiresAt) && r.value.currency == Some(form.currency) &&
      r.value.assumptions == Some(Assumptions(form.scopeSummary, form.assumptionsText)) &&
      r.value.terms == Some(SplitLines(form.termsText)) &&
      r.value.items == Some(ValidItems(items)) && r.value.publicId.None?
  {
    ValidItemsEmpty(items);
    if Trim(form.customer) == [] then Threw(ErrorValue("Customer is required."))
    else if ValidItems(items) == [] then Threw(ErrorValue("Add at least one line item with a name and quantity."))
    else Returned(Payload(None, OrElse(Trim(form.quoteName), "Service Quote"), Trim(form.customer),
                          Optional(Trim(form.contactName)), Optional(Trim(form.contactEmail)),
                          Optional(Trim(form.region)), Optional(Trim(form.owner)), Some(status),
                          Optional(form.expiresAt), Some(form.currency),
                          Some(Assumptions(form.scopeSummary, form.assumptionsText)),
                          Some(SplitLines(form.termsText)), Some(ValidItems(items))))
  }

  /** A page that still shows only its opening empty line cannot create a quote. */
  lemma FreshPageRejected(form: ServiceForm, status: string, id: string)
    ensures CreateServiceQuote(form, status, [EmptyItem(id)]).Threw?
  {
    FreshPageEmpty(id);
  }

  /** A created service quote whose lines are all valid is stored with subtotal and total
      equal to the builder's running total. */
  lemma CreatedTotalMatches(form: ServiceForm, status: string, items: seq<LineItem>,
                            base: string, year: int, draw: real)
    requires 0.0 <= draw < 1.0
    requires forall k :: 0 <= k < |items| ==> IsValid(items[k])
    requires CreateServiceQuote(form, status, items).Returned?
    ensures NewQuoteRow(CreateServiceQuote(form, status, items).value, base, year, draw).total == Total(items)
    ensures NewQuoteRow(CreateServiceQuote(form, status, items).value, base, year, draw).status == status
  {
    CreatedPayloadFields(form, status, items);
    StoredTotalOfValid(CreateServiceQuote(form, status, items).value, status, items, base, year, draw);
  }

  /** A created payload carries the submitted lines and the requested status. */
  lemma CreatedPayloadFields(form: ServiceForm, status: string, items: seq<LineItem>)
    requires CreateServiceQuote(form, status, items).Returned?
    ensures CreateServiceQuote(form, status, items).value.items == Some(ValidItems(items))
    ensures CreateServiceQuote(form, status, items).value.status == Some(status)
  {
  }

  /** A payload carrying the submitted lines of an all-valid list and a status is stored with
      the running total and that status. */
  lemma StoredTotalOfValid(payload: Payload, status: string, items: seq<LineItem>, base: string, year: int, draw: real)
    requires 0.0 <= draw < 1.0
    requires forall k :: 0 <= k < |items| ==> IsValid(items[k])
    requires payload.items == Some(ValidItems(items)) && payload.status == Some(status)
    ensures NewQuoteRow(payload, base, year, draw).total == Total(items)
    ensures NewQuoteRow(payload, base, year, draw).status == status
  {
    SubmittedSubtotal(items);
  }
}
