// The product editor of src/components/EditProductDialog.tsx. The dialog
// copies a stored product into a form whose source rows hold real instants
// (`Date` objects), lets the user edit the rows, and on submit hands the
// product back with its name, archive flag and sources replaced; the
// products handed to `onUpdateProduct` are kept here as a log. The clock
// (`new Date()`), id generation and `toISOString()` are parameters.

module EditProduct {
  import opened Wrappers
  import opened Types
  import opened Clock
  import Text
  import FormLists

  /** `SourceFormData`: one editable source row. */
  datatype SourceForm = SourceForm(
    id: string,
    sourceName: string,
    price: real,
    startDate: Instant,
    endDate: Instant,
    alertsEnabled: bool,
    isOffer: bool)

  /** The dialog's `formData`. */
  datatype FormData = FormData(productName: string, sources: seq<SourceForm>, isArchived: bool)

  /** The form before any product is loaded. */
  const EmptyForm := FormData("", [], false)

  /** The edits `updateSource` receives from the row inputs: a field name and
      its new value. */
  datatype SourceEdit =
    | SourceName(text: string)
    | Price(amount: real)
    | StartDate(date: Instant)
    | EndDate(date: Instant)
    | AlertsEnabled(flag: bool)
    | IsOffer(flag: bool)

  /** The editable fields of a row. */
  datatype Field = SourceNameField | PriceField | StartDateField | EndDateField | AlertsField | OfferField

  function FieldOf(e: SourceEdit): Field
  {
    match e
    case SourceName(_) => SourceNameField
    case Price(_) => PriceField
    case StartDate(_) => StartDateField
    case EndDate(_) => EndDateField
    case AlertsEnabled(_) => AlertsField
    case IsOffer(_) => OfferField
  }

  /** The fields on which two rows differ. */
  function Changed(a: SourceForm, b: SourceForm): set<Field>
  {
    (if a.sourceName != b.sourceName then {SourceNameField} else {})
    + (if a.price != b.price then {PriceField} else {})
    + (if a.startDate != b.startDate then {StartDateField} else {})
    + (if a.endDate != b.endDate then {EndDateField} else {})
    + (if a.alertsEnabled != b.alertsEnabled then {AlertsField} else {})
    + (if a.isOffer != b.isOffer then {OfferField} else {})
  }

  /** The row holds the value the edit carries. */
  predicate Holds(s: SourceForm, e: SourceEdit)
  {
    match e
    case SourceName(t) => s.sourceName == t
    case Price(v) => s.price == v
    case StartDate(d) => s.startDate == d
    case EndDate(d) => s.endDate == d
    case AlertsEnabled(b) => s.alertsEnabled == b
    case IsOffer(b) => s.isOffer == b
  }

  /** `{ ...source, [field]: value }`: the edited field takes the new value,
      the id and every other field are kept. */
  function Apply(s: SourceForm, e: SourceEdit): (r: SourceForm)
    ensures Holds(r, e)
    ensures Changed(s, r) <= {FieldOf(e)}
    ensures r.id == s.id
  {
    match e
    case SourceName(t) => s.(sourceName := t)
    case Price(v) => s.(price := v)
    case StartDate(d) => s.(startDate := d)
    case EndDate(d) => s.(endDate := d)
    case AlertsEnabled(b) => s.(alertsEnabled := b)
    case IsOffer(b) => s.(isOffer := b)
  }

  /** One stored source as a form row: the label falls back from `sourceName`
      to `name`, and a missing (empty) date becomes the current instant. */
  function LoadSource(s: ProductSource, now: Instant, instantOf: InstantOf): (f: SourceForm)
    ensures f.id == s.id && f.price == s.price
    ensures f.sourceName == Label(s)
    ensures f.alertsEnabled == s.alertsEnabled && f.isOffer == s.isOffer
    ensures s.startDate == "" ==> f.startDate == now
    ensures s.startDate != "" ==> f.startDate == instantOf(s.startDate)
    ensures s.endDate == "" ==> f.endDate == now
    ensures s.endDate != "" ==> f.endDate == instantOf(s.endDate)
  {
    SourceForm(
      s.id,
      if s.sourceName != "" then s.sourceName else s.name,
      s.price,
      if s.startDate != "" then instantOf(s.startDate) else now,
      if s.endDate != "" then instantOf(s.endDate) else now,
      s.alertsEnabled,
      s.isOffer)
  }

  /** The `useEffect` that copies a product into the form: name and archive
      flag as stored, one row per source in the same order. */
  function Load(p: Product, now: Instant, instantOf: InstantOf): (f: FormData)
    ensures f.productName == p.productName && f.isArchived == p.isArchived
    ensures |f.sources| == |p.sources|
    ensures forall i :: 0 <= i < |p.sources| ==> f.sources[i] == LoadSource(p.sources[i], now, instantOf)
  {
    FormData(
      p.productName,
      seq(|p.sources|, i requires 0 <= i < |p.sources| => LoadSource(p.sources[i], now, instantOf)),
      p.isArchived)
  }

  /** A form row as a source again: `name` and `sourceName` both carry the
      row's label, `url` is emptied and each instant is written as the date
      part of its ISO text (the text before `'T'`). */
  function SubmitSource(f: SourceForm, isoOf: Instant -> string): (s: ProductSource)
    ensures s.id == f.id && s.price == f.price
    ensures s.name == f.sourceName && s.sourceName == f.sourceName && s.url == ""
    ensures 'T' !in s.startDate && |s.startDate| <= |isoOf(f.startDate)| && s.startDate == isoOf(f.startDate)[..|s.startDate|]
    ensures 'T' !in s.endDate && |s.endDate| <= |isoOf(f.endDate)| && s.endDate == isoOf(f.endDate)[..|s.endDate|]
    ensures s.alertsEnabled == f.alertsEnabled && s.isOffer == f.isOffer
  {
    ProductSource(
      f.id, f.sourceName, "", f.price, f.isOffer, f.sourceName,
      Text.DatePart(isoOf(f.startDate)), Text.DatePart(isoOf(f.endDate)), f.alertsEnabled)
  }

  /** The product `handleSubmit` passes on: the loaded product with only its
      name, its archive flag and its sources replaced, the sources being the
      form's rows in order. */
  function Submitted(p: Product, f: FormData, isoOf: Instant -> string): (r: Product)
    ensures r.(productName := p.productName, sources := p.sources, isArchived := p.isArchived) == p
    ensures r.productName == f.productName && r.isArchived == f.isArchived
    ensures |r.sources| == |f.sources|
    ensures forall i :: 0 <= i < |f.sources| ==> r.sources[i] == SubmitSource(f.sources[i], isoOf)
  {
    p.(productName := f.productName,
       sources := seq(|f.sources|, i requires 0 <= i < |f.sources| => SubmitSource(f.sources[i], isoOf)),
       isArchived := f.isArchived)
  }

  /** `handleSubmit` returns early when the name is empty, there are no rows,
      or no product is loaded. */
  predicate Rejected(f: FormData, product: Option<Product>)
  {
    f.productName == "" || |f.sources| == 0 || product.None?
  }

  /** A source in the shape this dialog writes (label in both name fields, no
      url, dates that read back as themselves). */
  predicate Canonical(s: ProductSource, instantOf: InstantOf, isoOf: Instant -> string)
  {
    && s.sourceName != "" && s.name == s.sourceName && s.url == ""
    && s.startDate != "" && Text.DatePart(isoOf(instantOf(s.startDate))) == s.startDate
    && s.endDate != "" && Text.DatePart(isoOf(instantOf(s.endDate))) == s.endDate
  }

  /** Loading a source and submitting the row unedited gives the source back
      when it is in the shape the dialog writes. */
  lemma SourceRoundTrip(s: ProductSource, now: Instant, instantOf: InstantOf, isoOf: Instant -> string)
    requires Canonical(s, instantOf, isoOf)
    ensures SubmitSource(LoadSource(s, now, instantOf), isoOf) == s
  {
  }

  /** Opening a product and saving it without edits hands back the same
      product when all its sources are in the shape the dialog writes; in
      general the ids, order, prices and flags survive, and each source comes
      back under its label. */
  lemma {:induction false} ProductRoundTrip(p: Product, now: Instant, instantOf: InstantOf, isoOf: Instant -> string)
    ensures var r := Submitted(p, Load(p, now, instantOf), isoOf);
      && r.(sources := p.sources) == p
      && |r.sources| == |p.sources|
      && (forall i :: 0 <= i < |p.sources| ==>
            && r.sources[i].id == p.sources[i].id
            && r.sources[i].price == p.sources[i].price
            && r.sources[i].sourceName == Label(p.sources[i])
            && r.sources[i].isOffer == p.sources[i].isOffer
            && r.sources[i].alertsEnabled == p.sources[i].alertsEnabled)
      && ((forall i :: 0 <= i < |p.sources| ==> Canonical(p.sources[i], instantOf, isoOf)) ==> r == p)
  {
    var r := Submitted(p, Load(p, now, instantOf), isoOf);
    if forall i :: 0 <= i < |p.sources| ==> Canonical(p.sources[i], instantOf, isoOf) {
      forall i | 0 <= i < |p.sources|
        ensures r.sources[i] == p.sources[i]
      {
        SourceRoundTrip(p.sources[i], now, instantOf, isoOf);
      }
      assert r.sources == p.sources;
    }
  }

  class EditProductDialog {
    var formData: FormData
    var open: bool
    /** Every product passed to `onUpdateProduct`, oldest first. */
    var updates: seq<Product>

    /** The initial state: an empty form and nothing submitted. */
    constructor(open: bool)
      ensures formData == EmptyForm && this.open == open && updates == []
    {
      formData := EmptyForm;
      this.open := open;
      updates := [];
    }

    /** The `useEffect` on `product`: a product replaces the form with its
      contents; `null` leaves the form as it is. */
    method LoadProduct(product: Option<Product>, now: Instant, instantOf: InstantOf)
      modifies this
      ensures product.Some? ==> formData == Load(product.value, now, instantOf)
      ensures product.None? ==> formData == old(formData)
      ensures open == old(open) && updates == old(updates)
    {
      if product.Some? {
        formData := Load(product.value, now, instantOf);
      }
    }

    /** The name input. */
    method SetProductName(name: string)
      modifies this
      ensures formData == old(formData).(productName := name)
      ensures open == old(open) && updates == old(updates)
    {
      formData := formData.(productName := name);
    }

    /** The archive switch. */
    method SetArchived(checked: bool)
      modifies this
      ensures formData == old(formData).(isArchived := checked)
      ensures open == old(open) && updates == old(updates)
    {
      formData := formData.(isArchived := checked);
    }

    /** `addSource`: one row appended with the given fresh id, no label,
      price 0, both dates now, alerts on and not an offer. */
    method AddSource(id: string, now: Instant)
      modifies this
      ensures formData.sources == old(formData.sources) + [SourceForm(id, "", 0.0, now, now, true, false)]
      ensures formData.productName == old(formData.productName) && formData.isArchived == old(formData.isArchived)
      ensures open == old(open) && updates == old(updates)
    {
      formData := formData.(sources := formData.sources + [SourceForm(id, "", 0.0, now, now, true, false)]);
    }

    /** `removeSource(index)`: exactly row `index` is gone, the others keep
      their order. */
    method RemoveSource(index: int)
      modifies this
      ensures formData.sources == FormLists.RemoveAt(old(formData.sources), index)
      ensures formData.productName == old(formData.productName) && formData.isArchived == old(formData.isArchived)
      ensures open == old(open) && updates == old(updates)
    {
      formData := formData.(sources := FormLists.RemoveAt(formData.sources, index));
    }

    /** `updateSource(index, field, value)`: row `index` takes the edit, the
      other rows and the row count are unchanged. */
    method UpdateSource(index: int, e: SourceEdit)
      modifies this
      ensures formData.sources == FormLists.UpdateAt(old(formData.sources), index, (s: SourceForm) => Apply(s, e))
      ensures formData.productName == old(formData.productName) && formData.isArchived == old(formData.isArchived)
      ensures open == old(open) && updates == old(updates)
    {
      formData := formData.(sources := FormLists.UpdateAt(formData.sources, index, (s: SourceForm) => Apply(s, e)));
    }

    /** `handleSubmit`: a rejected form changes nothing; otherwise the edited
      product goes to the callback and the dialog closes. The form itself is
      left as it is. */
    method HandleSubmit(product: Option<Product>, isoOf: Instant -> string)
      modifies this
      ensures formData == old(formData)
      ensures Rejected(formData, product) ==> updates == old(updates) && open == old(open)
      ensures !Rejected(formData, product) ==>
        updates == old(updates) + [Submitted(product.value, formData, isoOf)] && !open
    {
      if formData.productName == "" || |formData.sources| == 0 {
        return;
      }
      if product.None? {
        return;
      }
      updates := updates + [Submitted(product.value, formData, isoOf)];
      open := false;
    }
  }

  /** An edit touches one row only: after `updateSource` every other row is
      what it was, the edited row differs at most in the edited field and
      holds its new value. */
  lemma UpdateOnlyThatField(rows: seq<SourceForm>, index: int, e: SourceEdit)
    requires 0 <= index < |rows|
    ensures var r := FormLists.UpdateAt(rows, index, (s: SourceForm) => Apply(s, e));
      && |r| == |rows|
      && Holds(r[index], e) && Changed(rows[index], r[index]) <= {FieldOf(e)} && r[index].id == rows[index].id
      && (forall i :: 0 <= i < |rows| && i != index ==> r[i] == rows[i])
  {
    var r := FormLists.UpdateAt(rows, index, (s: SourceForm) => Apply(s, e));
    assert r[index] == Apply(rows[index], e);
  }
}
