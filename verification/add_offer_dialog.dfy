// The offer creator of src/components/AddOfferDialog.tsx: one product name,
// one source with a price and two dates (held as instants), submitted as a
// product with a single offer source. The records handed to `onAddOffer`
// are kept here as a log. The clock, `toISOString()` and the id generator
// are parameters.

module AddOffer {
  import opened Wrappers
  import opened Types
  import opened Clock
  import Text

  /** The dialog's `formData`. */
  datatype OfferForm = OfferForm(
    productName: string,
    sourceName: string,
    price: real,
    startDate: Instant,
    endDate: Instant)

  /** The form as it starts and as every submit leaves it: empty texts, price
      0 and both dates at the given instant. */
  function Initial(now: Instant): (f: OfferForm)
    ensures f.productName == "" && f.sourceName == "" && f.price == 0.0
    ensures f.startDate == now && f.endDate == now
  {
    OfferForm("", "", 0.0, now, now)
  }

  /** `handleSubmit` returns early when either name is empty. */
  predicate Rejected(f: OfferForm)
  {
    f.productName == "" || f.sourceName == ""
  }

  /** The record passed to `onAddOffer`: exactly one source, an offer with
      alerts on, labelled with the entered source name in both name fields,
      no url, dates written as the date part of their ISO text; the product
      is on no channel, owned by nobody (`createdBy` is empty), not archived,
      without a category, and stamped with the current instant. */
  function OfferDraft(f: OfferForm, id: string, stamp: string, isoOf: Instant -> string): (d: ProductDraft)
    ensures d.productName == f.productName && |d.sources| == 1
    ensures var s := d.sources[0];
      && s.id == id && s.isOffer && s.alertsEnabled && s.price == f.price
      && s.name == f.sourceName && s.sourceName == f.sourceName && s.url == ""
      && 'T' !in s.startDate && |s.startDate| <= |isoOf(f.startDate)| && s.startDate == isoOf(f.startDate)[..|s.startDate|]
      && 'T' !in s.endDate && |s.endDate| <= |isoOf(f.endDate)| && s.endDate == isoOf(f.endDate)[..|s.endDate|]
    ensures d.channelStatus == NotUploaded && d.createdBy == "" && !d.isArchived
    ensures d.categoryId == None && d.createdAt == stamp && d.updatedAt == stamp
  {
    var source := ProductSource(
      id, f.sourceName, "", f.price, true, f.sourceName,
      Text.DatePart(isoOf(f.startDate)), Text.DatePart(isoOf(f.endDate)), true);
    ProductDraft(f.productName, None, [source], NotUploaded, "", false, stamp, stamp)
  }

  /** Whatever product the server makes of an offer draft, it has an offer
      source, so the product list files it under offers. */
  lemma OfferDraftIsOffer(p: Product, f: OfferForm, id: string, stamp: string, isoOf: Instant -> string)
    requires p.sources == OfferDraft(f, id, stamp, isoOf).sources
    ensures HasOffers(p)
  {
    assert p.sources[0].isOffer;
  }

  class AddOfferDialog {
    var formData: OfferForm
    var open: bool
    /** Every record passed to `onAddOffer`, oldest first. */
    var added: seq<ProductDraft>

    constructor(open: bool, now: Instant)
      ensures formData == Initial(now) && this.open == open && added == []
    {
      formData := Initial(now);
      this.open := open;
      added := [];
    }

    /** The five inputs, each replacing one field of the form. */
    method SetProductName(name: string)
      modifies this
      ensures formData == old(formData).(productName := name)
      ensures open == old(open) && added == old(added)
    {
      formData := formData.(productName := name);
    }

    method SetSourceName(name: string)
      modifies this
      ensures formData == old(formData).(sourceName := name)
      ensures open == old(open) && added == old(added)
    {
      formData := formData.(sourceName := name);
    }

    method SetPrice(price: real)
      modifies this
      ensures formData == old(formData).(price := price)
      ensures open == old(open) && added == old(added)
    {
      formData := formData.(price := price);
    }

    method SetStartDate(date: Instant)
      modifies this
      ensures formData == old(formData).(startDate := date)
      ensures open == old(open) && added == old(added)
    {
      formData := formData.(startDate := date);
    }

    method SetEndDate(date: Instant)
      modifies this
      ensures formData == old(formData).(endDate := date)
      ensures open == old(open) && added == old(added)
    {
      formData := formData.(endDate := date);
    }

    /** `handleSubmit`: a rejected form changes nothing. Otherwise the offer
      record goes to the callback, the form starts over at the current
      instant and the dialog closes. */
    method HandleSubmit(id: string, now: Instant, isoOf: Instant -> string)
      modifies this
      ensures Rejected(old(formData)) ==>
        formData == old(formData) && open == old(open) && added == old(added)
      ensures !Rejected(old(formData)) ==>
        && added == old(added) + [OfferDraft(old(formData), id, isoOf(now), isoOf)]
        && formData == Initial(now) && !open
    {
      if formData.productName == "" || formData.sourceName == "" {
        return;
      }
      added := added + [OfferDraft(formData, id, isoOf(now), isoOf)];
      formData := Initial(now);
      open := false;
    }
  }
}
