// The product creator of src/components/AddProductDialog.tsx. Source rows
// keep their dates as date texts; the form starts with one blank row, and a
// successful submit hands a new product record to `onAddProduct` (kept here
// as a log) and resets the form. The clock, `toISOString()` and the id
// generator are parameters; the signed-in user is passed to `HandleSubmit`.

module AddProduct {
  import opened Wrappers
  import opened Types
  import opened Clock
  import Text
  import FormLists

  /** `SourceFormData`: one row, dates as `YYYY-MM-DD` texts. */
  datatype SourceForm = SourceForm(
    sourceName: string,
    price: real,
    startDate: string,
    endDate: string,
    alertsEnabled: bool,
    isOffer: bool)

  /** `keyof SourceFormData` with its new value, as the row inputs send it. */
  datatype SourceEdit =
    | SourceName(text: string)
    | Price(amount: real)
    | StartDate(date: string)
    | EndDate(date: string)
    | AlertsEnabled(flag: bool)
    | IsOffer(flag: bool)

  datatype Field = SourceNameField | PriceField | StartDateField | EndDateField | AlertsField | OfferField

  function FieldOf(e: SourceEdit): Field
  {
    match e
    case SourceName(_) => SourceNameField
    case Price(_) => PriceField
    case StartDate(_) => StartDateField
    case EndDate(_) => EndDateField
    case AlertsEnabled(_) => AlertsField
    case IsOffer(_) => OfferField
  }

  /** The fields on which two rows differ. */
  function Changed(a: SourceForm, b: SourceForm): set<Field>
  {
    (if a.sourceName != b.sourceName then {SourceNameField} else {})
    + (if a.price != b.price then {PriceField} else {})
    + (if a.startDate != b.startDate then {StartDateField} else {})
    + (if a.endDate != b.endDate then {EndDateField} else {})
    + (if a.alertsEnabled != b.alertsEnabled then {AlertsField} else {})
    + (if a.isOffer != b.isOffer then {OfferField} else {})
  }

  predicate Holds(s: SourceForm, e: SourceEdit)
  {
    match e
    case SourceName(t) => s.sourceName == t
    case Price(v) => s.price == v
    case StartDate(d) => s.startDate == d
    case EndDate(d) => s.endDate == d
    case AlertsEnabled(b) => s.alertsEnabled == b
    case IsOffer(b) => s.isOffer == b
  }

  /** `{ ...row, [field]: value }`: the edited field takes the new value and
      nothing else changes. */
  function Apply(s: SourceForm, e: SourceEdit): (r: SourceForm)
    ensures Holds(r, e)
    ensures Changed(s, r) <= {FieldOf(e)}
  {
    match e
    case SourceName(t) => s.(sourceName := t)
    case Price(v) => s.(price := v)
    case StartDate(d) => s.(startDate := d)
    case EndDate(d) => s.(endDate := d)
    case AlertsEnabled(b) => s.(alertsEnabled := b)
    case IsOffer(b) => s.(isOffer := b)
  }

  /** `new Date().toISOString().split('T')[0]`: today's date text. */
  function Today(now: Instant, isoOf: Instant -> string): (d: string)
    ensures 'T' !in d && |d| <= |isoOf(now)| && d == isoOf(now)[..|d|]
  {
    Text.DatePart(isoOf(now))
  }

  /** A row before the user types anything: no label, price 0, both dates
      today, alerts on, not an offer. */
  predicate IsBlank(s: SourceForm, today: string)
  {
    s.sourceName == "" && s.price == 0.0 && s.startDate == today && s.endDate == today
    && s.alertsEnabled && !s.isOffer
  }

  function Blank(today: string): (s: SourceForm)
    ensures IsBlank(s, today)
  {
    SourceForm("", 0.0, today, today, true, false)
  }

  /** `handleSubmit` returns early when the name is empty, a row has no
      label, or nobody is signed in. */
  predicate Rejected(productName: string, sources: seq<SourceForm>, user: Option<UserProfile>)
  {
    productName == "" || (exists i :: 0 <= i < |sources| && sources[i].sourceName == "") || user.None?
  }

  /** One row as a stored source: a fresh id, the label in both `name` and
      `sourceName`, no url, everything else as typed. */
  function NewSource(f: SourceForm, id: string): (s: ProductSource)
    ensures s.id == id && s.name == f.sourceName && s.sourceName == f.sourceName && s.url == ""
    ensures s.price == f.price && s.startDate == f.startDate && s.endDate == f.endDate
    ensures s.alertsEnabled == f.alertsEnabled && s.isOffer == f.isOffer
  {
    ProductSource(id, f.sourceName, "", f.price, f.isOffer, f.sourceName, f.startDate, f.endDate, f.alertsEnabled)
  }

  /** The record passed to `onAddProduct`: one source per row in row order
      (row `i` gets the `i`-th generated id), not on any channel yet, not
      archived, owned by the signed-in user, stamped with the current
      instant, and without a category. */
  function Draft(productName: string, rows: seq<SourceForm>, user: UserProfile,
                 freshId: nat -> string, stamp: string): (d: ProductDraft)
    ensures d.productName == productName
    ensures |d.sources| == |rows|
    ensures forall i :: 0 <= i < |rows| ==> d.sources[i] == NewSource(rows[i], freshId(i))
    ensures d.channelStatus == NotUploaded && !d.isArchived && d.createdBy == user.id
    ensures d.categoryId == None && d.createdAt == stamp && d.updatedAt == stamp
  {
    ProductDraft(
      productName,
      None,
      seq(|rows|, i requires 0 <= i < |rows| => NewSource(rows[i], freshId(i))),
      NotUploaded,
      user.id,
      false,
      stamp,
      stamp)
  }

  /** A draft that passed validation has a name and a label on every source,
      and it is an offer exactly when one of its rows was marked as one. */
  lemma AcceptedDraft(productName: string, rows: seq<SourceForm>, user: Option<UserProfile>,
                      freshId: nat -> string, stamp: string)
    requires !Rejected(productName, rows, user)
    ensures var d := Draft(productName, rows, user.value, freshId, stamp);
      && d.productName != ""
      && (forall i :: 0 <= i < |d.sources| ==> d.sources[i].name != "" && d.sources[i].sourceName != "")
      && ((exists i :: 0 <= i < |d.sources| && d.sources[i].isOffer) <==> (exists i :: 0 <= i < |rows| && rows[i].isOffer))
  {
    var d := Draft(productName, rows, user.value, freshId, stamp);
    if exists i :: 0 <= i < |rows| && rows[i].isOffer {
      var i :| 0 <= i < |rows| && rows[i].isOffer;
      assert d.sources[i].isOffer;
    }
  }

  class AddProductDialog {
    var productName: string
    var sources: seq<SourceForm>
    var open: bool
    /** Every record passed to `onAddProduct`, oldest first. */
    var added: seq<ProductDraft>

    /** The initial state: no name and a single blank row dated today. */
    constructor(open: bool, now: Instant, isoOf: Instant -> string)
      ensures productName == "" && |sources| == 1 && IsBlank(sources[0], Today(now, isoOf))
      ensures this.open == open && added == []
    {
      productName := "";
      sources := [Blank(Today(now, isoOf))];
      this.open := open;
      added := [];
    }

    /** The name input. */
    method SetProductName(name: string)
      modifies this
      ensures productName == name && sources == old(sources)
      ensures open == old(open) && added == old(added)
    {
      productName := name;
    }

    /** `addSource`: exactly one blank row dated today is appended. */
    method AddSource(now: Instant, isoOf: Instant -> string)
      modifies this
      ensures |sources| == |old(sources)| + 1 && sources[..|old(sources)|] == old(sources)
      ensures IsBlank(sources[|sources| - 1], Today(now, isoOf))
      ensures productName == old(productName) && open == old(open) && added == old(added)
    {
      sources := sources + [Blank(Today(now, isoOf))];
    }

    /** `removeSource(index)`: exactly row `index` is gone. */
    method RemoveSource(index: int)
      modifies this
      ensures sources == FormLists.RemoveAt(old(sources), index)
      ensures productName == old(productName) && open == old(open) && added == old(added)
    {
      sources := FormLists.RemoveAt(sources, index);
    }

    /** `updateSource(index, field, value)`: the rows are copied into a fresh
      array, slot `index` is overwritten with the edited row and the copy
      becomes the new list. Only row `index` changes, and in it only the
      edited field. The row inputs only ever pass an existing index. */
    method UpdateSource(index: int, e: SourceEdit)
      requires 0 <= index < |sources|
      modifies this
      ensures |sources| == |old(sources)|
      ensures sources[index] == Apply(old(sources)[index], e)
      ensures forall i :: 0 <= i < |sources| && i != index ==> sources[i] == old(sources)[i]
      ensures productName == old(productName) && open == old(open) && added == old(added)
    {
      var rows := sources;
      var newSources := new SourceForm[|rows|](i requires 0 <= i < |rows| => rows[i]);
      newSources[index] := Apply(newSources[index], e);
      sources := newSources[..];
    }

    /** `handleSubmit`: a rejected form changes nothing. Otherwise the new
      record goes to the callback, the form is reset to no name and one
      blank row, and the dialog closes. */
    method HandleSubmit(user: Option<UserProfile>, now: Instant, isoOf: Instant -> string, freshId: nat -> string)
      modifies this
      ensures Rejected(old(productName), old(sources), user) ==>
        productName == old(productName) && sources == old(sources) && open == old(open) && added == old(added)
      ensures !Rejected(old(productName), old(sources), user) ==>
        && added == old(added) + [Draft(old(productName), old(sources), user.value, freshId, isoOf(now))]
        && productName == "" && |sources| == 1 && IsBlank(sources[0], Today(now, isoOf))
        && !open
    {
      if productName == "" || (exists i :: 0 <= i < |sources| && sources[i].sourceName == "") || user.None? {
        return;
      }
      added := added + [Draft(productName, sources, user.value, freshId, isoOf(now))];
      productName := "";
      sources := [Blank(Today(now, isoOf))];
      open := false;
    }
  }
}
