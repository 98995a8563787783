/** The catalog quote builder page: catalog entries with a checkbox and a quantity, a
    ZAR-to-USD conversion, the total of the selected entries and the payload it hands to
    `createQuote`. */
module AdminQuoteBuilder {
  import opened Wrappers
  import opened Numbers
  import opened Records
  import opened QuoteApi
  import opened Sequences
  import opened Text

  /** A catalog entry (`QuoteLineItem`), priced in ZAR. */
  datatype CatalogItem = CatalogItem(
    id: string, name: string, category: string, description: string, unit: string,
    quantity: real, unitPrice: real, slaTier: string, kpiTags: seq<string>)

  /** A catalog entry on the page, `{ ...item, selected }`. */
  datatype Entry = Entry(item: CatalogItem, selected: bool)

  // ----- exchange rate and conversion -----

  /** The starting exchange rate: the configured value when it is set and reads as a number,
      18.5 otherwise. `number` is `Number(raw)`, `None` standing for NaN. */
  function InitialRate(raw: Option<string>, number: string -> Option<real>): (r: real)
    ensures !Truthy(raw) ==> r == 18.5
    ensures Truthy(raw) && number(raw.value).None? ==> r == 18.5
    ensures Truthy(raw) && number(raw.value).Some? ==> r == number(raw.value).value
  {
    var parsed := if Truthy(raw) then number(raw.value) else None;
    parsed.GetOr(18.5)
  }

  /** A number typed into the quantity or rate field: `Number.isNaN(value) ? 0 : value`. */
  function Entered(value: Option<real>): (r: real)
    ensures value.None? ==> r == 0.0
    ensures value.Some? ==> r == value.value
  {
    value.GetOr(0.0)
  }

  /** `convert(amount)`: a ZAR amount shown in USD is divided by a positive rate; in any
      other case the amount is shown unchanged. */
  function Convert(currency: string, rate: real, amount: real): (r: real)
    ensures currency != "USD" || rate <= 0.0 ==> r == amount
    ensures currency == "USD" && rate > 0.0 ==> r * rate == amount
  {
    if currency == "USD" && rate > 0.0 then amount / rate else amount
  }

  /** A USD amount multiplied back by the rate gives the ZAR amount it was converted from. */
  lemma ConvertInverse(rate: real, amount: real)
    requires rate > 0.0
    ensures Convert("USD", rate, amount) * rate == amount
  {
  }

  // ----- the selected entries and their total -----

  predicate IsSelected(e: Entry) {
    e.selected
  }

  function ItemOf(e: Entry): CatalogItem {
    e.item
  }

  /** `items.filter((item) => item.selected)`, as catalog items. */
  function Selected(entries: seq<Entry>): (r: seq<CatalogItem>)
    ensures |r| <= |entries|
  {
    FilterMap(entries, IsSelected, ItemOf)
  }

  function Amount(item: CatalogItem): real {
    item.quantity * item.unitPrice
  }

  /** The amounts of a list of items, in order. */
  function Amounts(items: seq<CatalogItem>): (r: seq<real>)
    ensures |r| == |items| && forall k :: 0 <= k < |items| ==> r[k] == Amount(items[k])
  {
    seq(|items|, k requires 0 <= k < |items| => Amount(items[k]))
  }

  /** `total`: quantity times unit price summed over the selected entries only. */
  function Total(entries: seq<Entry>): real {
    Sum(Amounts(Selected(entries)))
  }

  /** An unselected entry adds nothing to the total, whatever its quantity or price. */
  lemma TotalIgnoresUnselected(entries: seq<Entry>, e: Entry)
    requires !e.selected
    ensures Total(entries + [e]) == Total(entries)
  {
    FilterMapAppend(entries, [e], IsSelected, ItemOf);
    assert [e][..0] == [];
    assert Selected([e]) == [];
    assert Selected(entries + [e]) == Selected(entries);
  }

  /** A selected entry adds its own amount to the total. */
  lemma TotalCountsSelected(entries: seq<Entry>, e: Entry)
    requires e.selected
    ensures Total(entries + [e]) == Total(entries) + Amount(e.item)
  {
    FilterMapAppend(entries, [e], IsSelected, ItemOf);
    assert [e][..0] == [];
    assert Selected([e]) == [e.item];
    var s := Selected(entries);
    assert Amounts(s + [e.item]) == Amounts(s) + [Amount(e.item)];
    SumAppend(Amounts(s), [Amount(e.item)]);
  }

  // ----- the page's state -----

  /** `prev.map(...)` for a checkbox change: the entries carrying `id` take the new flag. */
  function Toggled(entries: seq<Entry>, id: string, checked: bool): (r: seq<Entry>)
    ensures |r| == |entries|
    ensures forall k :: 0 <= k < |entries| ==> r[k].item == entries[k].item
    ensures forall k :: 0 <= k < |entries| && entries[k].item.id != id ==> r[k] == entries[k]
    ensures forall k :: 0 <= k < |entries| && entries[k].item.id == id ==> r[k].selected == checked
  {
    seq(|entries|, k requires 0 <= k < |entries| =>
      if entries[k].item.id == id then Entry(entries[k].item, checked) else entries[k])
  }

  /** Two checkbox changes on one entry leave only the second in effect. */
  lemma ToggleLastWins(entries: seq<Entry>, id: string, first: bool, second: bool)
    ensures Toggled(Toggled(entries, id, first), id, second) == Toggled(entries, id, second)
  {
  }

  /** `prev.map(...)` for a quantity change: the entries carrying `id` take the new quantity
      and keep every other field and their selection. */
  function WithQuantity(entries: seq<Entry>, id: string, quantity: real): (r: seq<Entry>)
    ensures |r| == |entries|
    ensures forall k :: 0 <= k < |entries| && entries[k].item.id != id ==> r[k] == entries[k]
    ensures forall k :: 0 <= k < |entries| && entries[k].item.id == id ==>
      r[k] == Entry(entries[k].item.(quantity := quantity), entries[k].selected)
  {
    seq(|entries|, k requires 0 <= k < |entries| =>
      if entries[k].item.id == id
      then Entry(entries[k].item.(quantity := quantity), entries[k].selected)
      else entries[k])
  }

  /** The builder page's state: the catalog entries, the display currency and the rate. */
  class Builder {
    var entries: seq<Entry>
    var currency: string
    var exchangeRate: real

    /** The page opens with every catalog entry selected, in ZAR, at the initial rate. */
    constructor (catalog: seq<CatalogItem>, rawRate: Option<string>, number: string -> Option<real>)
      ensures |entries| == |catalog|
      ensures forall k :: 0 <= k < |catalog| ==> entries[k] == Entry(catalog[k], true)
      ensures currency == "ZAR" && exchangeRate == InitialRate(rawRate, number)
    {
      entries := seq(|catalog|, k requires 0 <= k < |catalog| => Entry(catalog[k], true));
      currency := "ZAR";
      exchangeRate := InitialRate(rawRate, number);
    }

    /** A checkbox change, `selected: Boolean(checked)`. */
    method Toggle(id: string, checked: bool)
      modifies this
      ensures entries == Toggled(old(entries), id, checked)
      ensures currency == old(currency) && exchangeRate == old(exchangeRate)
    {
      entries := Toggled(entries, id, checked);
    }

    /** A quantity change; a value that is not a number becomes 0. */
    method SetQuantity(id: string, value: Option<real>)
      modifies this
      ensures entries == WithQuantity(old(entries), id, Entered(value))
      ensures currency == old(currency) && exchangeRate == old(exchangeRate)
    {
      entries := WithQuantity(entries, id, Entered(value));
    }

    /** An exchange-rate change; a value that is not a number becomes 0, which `convert`
        then ignores. */
    method SetRate(value: Option<real>)
      modifies this
      ensures exchangeRate == Entered(value)
      ensures entries == old(entries) && currency == old(currency)
    {
      exchangeRate := Entered(value);
    }

    /** The currency selector. */
    method SetCurrency(c: string)
      modifies this
      ensures currency == c
      ensures entries == old(entries) && exchangeRate == old(exchangeRate)
    {
      currency := c;
    }
  }

  // ----- the payload -----

  /** The page's text fields. */
  datatype Form = Form(
    quoteName: string, customer: string, contactName: string, contactEmail: string, region: string,
    owner: string, expiresAt: string, summary: string, assumptionOne: string, assumptionTwo: string,
    assumptionThree: string, termsOne: string, termsTwo: string)

  /** A selected catalog item as the payload carries it, with its unit price converted. */
  function PayloadEntry(currency: string, rate: real, item: CatalogItem): (p: PayloadItem)
    ensures p.name == item.name && p.category == item.category
    ensures p.quantity == Some(item.quantity) && p.unitPrice == Some(Convert(currency, rate, item.unitPrice))
    ensures p.slaTier == Some(item.slaTier) && p.kpiTags == Some(item.kpiTags)
  {
    PayloadItem(item.name, item.category, Some(item.description), Some(item.unit), Some(item.quantity),
                Some(Convert(currency, rate, item.unitPrice)), Some(item.slaTier), Some(item.kpiTags))
  }

  /** The selected items as the payload carries them, in order. */
  function PayloadEntries(currency: string, rate: real, items: seq<CatalogItem>): (r: seq<PayloadItem>)
    ensures |r| == |items| && forall k :: 0 <= k < |items| ==> r[k] == PayloadEntry(currency, rate, items[k])
  {
    seq(|items|, k requires 0 <= k < |items| => PayloadEntry(currency, rate, items[k]))
  }

  /** `{ ...basePayload, status }`: the form fields as they are, the non-empty assumption and
      term fields in their order, and the selected entries with converted prices. */
  function BasePayload(form: Form, status: string, currency: string, rate: real, entries: seq<Entry>): (p: Payload)
    ensures p.name == form.quoteName && p.customer == form.customer && p.status == Some(status)
    ensures p.currency == Some(currency) && p.publicId.None?
    ensures p.assumptions == Some(Compact([form.summary, form.assumptionOne, form.assumptionTwo, form.assumptionThree]))
    ensures p.terms == Some(Compact([form.termsOne, form.termsTwo]))
    ensures p.items == Some(PayloadEntries(currency, rate, Selected(entries)))
  {
    var items := PayloadEntries(currency, rate, Selected(entries));
    Payload(None, form.quoteName, form.customer, Some(form.contactName), Some(form.contactEmail),
            Some(form.region), Some(form.owner), Some(status), Some(form.expiresAt), Some(currency),
            Some(Compact([form.summary, form.assumptionOne, form.assumptionTwo, form.assumptionThree])),
            Some(Compact([form.termsOne, form.termsTwo])), Some(items))
  }

  /** An item reaches the payload exactly when its entry is selected, with its price converted. */
  lemma PayloadHoldsSelected(form: Form, status: string, currency: string, rate: real,
                             entries: seq<Entry>, item: CatalogItem)
    ensures item in Selected(entries) <==> exists k :: 0 <= k < |entries| && entries[k].selected && entries[k].item == item
    ensures item in Selected(entries) ==>
      PayloadEntry(currency, rate, item) in BasePayload(form, status, currency, rate, entries).items.value
  {
    FilterMapMembers(entries, IsSelected, ItemOf, item);
    var items := BasePayload(form, status, currency, rate, entries).items.value;
    if item in Selected(entries) {
      var j :| 0 <= j < |Selected(entries)| && Selected(entries)[j] == item;
      assert items[j] == PayloadEntry(currency, rate, item);
    }
  }

  /** Outside USD, or at a rate that is not positive, a payload entry keeps its catalog amount. */
  lemma EntryAmountUnconverted(currency: string, rate: real, item: CatalogItem)
    requires currency != "USD" || rate <= 0.0
    ensures PayloadAmount(PayloadEntry(currency, rate, item)) == Amount(item)
  {
    var p := PayloadEntry(currency, rate, item);
    assert NumberOr0(p.quantity) == item.quantity && NumberOr0(p.unitPrice) == item.unitPrice;
  }

  /** In USD at a positive rate, a payload entry's amount is its catalog amount divided by the rate. */
  lemma EntryAmountConverted(rate: real, item: CatalogItem)
    requires rate > 0.0
    ensures PayloadAmount(PayloadEntry("USD", rate, item)) == Amount(item) / rate
  {
    var p := PayloadEntry("USD", rate, item);
    assert NumberOr0(p.quantity) == item.quantity && NumberOr0(p.unitPrice) == item.unitPrice / rate;
    assert item.quantity * (item.unitPrice / rate) == (item.quantity * item.unitPrice) / rate;
  }

  /** Adding up converted entries is converting the sum of the catalog amounts. */
  lemma ConvertedSubtotal(currency: string, rate: real, items: seq<CatalogItem>)
    ensures PayloadSubtotal(PayloadEntries(currency, rate, items)) == Convert(currency, rate, Sum(Amounts(items)))
  {
    var entries := PayloadEntries(currency, rate, items);
    PayloadSubtotalSum(entries);
    if currency == "USD" && rate > 0.0 {
      forall k | 0 <= k < |items|
        ensures PayloadAmounts(entries)[k] == Amounts(items)[k] / rate
      {
        EntryAmountConverted(rate, items[k]);
      }
      SumDivide(Amounts(items), PayloadAmounts(entries), rate);
    } else {
      forall k | 0 <= k < |items|
        ensures PayloadAmounts(entries)[k] == Amounts(items)[k]
      {
        EntryAmountUnconverted(currency, rate, items[k]);
      }
      assert PayloadAmounts(entries) == Amounts(items);
    }
  }

  /** The subtotal `createQuote` stores for the payload is the converted total the page
      shows, so switching the display currency converts the stored amounts consistently. */
  lemma StoredSubtotalIsShownTotal(form: Form, status: string, currency: string, rate: real, entries: seq<Entry>)
    ensures PayloadSubtotal(BasePayload(form, status, currency, rate, entries).items.value)
      == Convert(currency, rate, Total(entries))
  {
    ConvertedSubtotal(currency, rate, Selected(entries));
  }
}
