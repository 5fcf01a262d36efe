// The records of src/types/index.ts. Optional properties are `Option`s; the
// optional booleans `isOffer` and `isArchived` are plain booleans, because every
// reader treats a missing value as `false`. Prices and settings are exact reals.
// `channelStatus` is an `Option` as well: the type declares it, but the
// products served by GET /api/products do not carry it. Date properties keep
// their text; turning a date text into an instant is the
// caller's `instantOf` function (see module Clock).

module Types {
  import opened Wrappers

  /** `OfferStatus` plus the `'regular'` value used for sources and products
      without an offer. */
  datatype Status = Active | Warning | Urgent | Expired | Regular

  /** `OfferStatus`: the four statuses of a time-boxed offer. */
  type OfferStatus = s: Status | !s.Regular? witness Active

  datatype Channel = NotUploaded | TikTok | Amazon | Ebay

  datatype Role = Administrator | User

  datatype ProductSource = ProductSource(
    id: string,
    name: string,
    url: string,
    price: real,
    isOffer: bool,
    sourceName: string,
    startDate: string,
    endDate: string,
    alertsEnabled: bool)

  datatype Product = Product(
    id: string,
    productName: string,
    categoryId: Option<string>,
    categoryName: Option<string>,
    sources: seq<ProductSource>,
    channelStatus: Option<Channel>,
    notes: Option<string>,
    createdBy: string,
    creatorName: Option<string>,
    isArchived: bool,
    archivedDate: Option<string>,
    createdAt: string,
    updatedAt: string)

  /** `Omit<Product, 'id'>` as the three dialogs build it: the properties they
      leave out (`categoryName`, `notes`, `creatorName`, `archivedDate`) are
      absent. */
  datatype ProductDraft = ProductDraft(
    productName: string,
    categoryId: Option<string>,
    sources: seq<ProductSource>,
    channelStatus: Channel,
    createdBy: string,
    isArchived: bool,
    createdAt: string,
    updatedAt: string)

  datatype Category = Category(
    id: string,
    name: string,
    description: Option<string>,
    createdBy: string,
    createdAt: string,
    updatedAt: string)

  datatype CalculatorSettings = CalculatorSettings(
    id: string,
    platformCommission: real,
    vatRate: real,
    shippingThreshold: real,
    shippingFee: real,
    fullShippingCost: real,
    creatorCommission: real,
    createdBy: string,
    createdAt: string,
    updatedAt: string)

  datatype UserProfile = UserProfile(
    id: string,
    email: string,
    fullName: string,
    role: Role,
    createdAt: string,
    updatedAt: string)

  /** `o || fallback` on an optional string: the empty string is falsy too. */
  function OrElse(o: Option<string>, fallback: string): string
  {
    if o.Some? && o.value != "" then o.value else fallback
  }

  /** `source.sourceName || source.name`: the label a source is shown under. */
  function Label(s: ProductSource): string
  {
    if s.sourceName != "" then s.sourceName else s.name
  }

  /** `product.sources.some(s => s.isOffer)`, which productUtils calls `hasOffers`. */
  predicate HasOffers(p: Product)
  {
    exists i :: 0 <= i < |p.sources| && p.sources[i].isOffer
  }

  /** `products.flatMap(p => p.sources.map(s => [p, s]))`: every (product,
      source) pair, product by product and, within a product, source by source. */
  function Pairs(ps: seq<Product>): seq<(Product, ProductSource)>
  {
    if |ps| == 0 then []
    else SourcePairs(ps[0]) + Pairs(ps[1..])
  }

  function SourcePairs(p: Product): (r: seq<(Product, ProductSource)>)
    ensures |r| == |p.sources|
    ensures forall j :: 0 <= j < |r| ==> r[j] == (p, p.sources[j])
  {
    seq(|p.sources|, j requires 0 <= j < |p.sources| => (p, p.sources[j]))
  }

  /** Number of sources over all products. */
  function SourceCount(ps: seq<Product>): nat
  {
    if |ps| == 0 then 0 else |ps[0].sources| + SourceCount(ps[1..])
  }

  lemma {:induction false} PairsAppend(a: seq<Product>, b: seq<Product>)
    ensures Pairs(a + b) == Pairs(a) + Pairs(b)
  {
    if |a| == 0 {
      assert a + b == b;
    } else {
      assert (a + b)[1..] == a[1..] + b;
      PairsAppend(a[1..], b);
    }
  }

  /** There is exactly one pair per (product, source): source `j` of product `i`
      sits at position `SourceCount(ps[..i]) + j`, so the pairs come product by
      product in list order and source by source within a product. */
  lemma {:induction false} PairsAt(ps: seq<Product>, i: nat, j: nat)
    requires i < |ps| && j < |ps[i].sources|
    ensures |Pairs(ps)| == SourceCount(ps)
    ensures SourceCount(ps[..i]) + j < |Pairs(ps)|
    ensures Pairs(ps)[SourceCount(ps[..i]) + j] == (ps[i], ps[i].sources[j])
  {
    PairsLength(ps);
    if i > 0 {
      PairsAt(ps[1..], i - 1, j);
      assert ps[..i][1..] == ps[1..][..i - 1];
    }
  }

  lemma {:induction false} PairsLength(ps: seq<Product>)
    ensures |Pairs(ps)| == SourceCount(ps)
  {
    if |ps| > 0 {
      PairsLength(ps[1..]);
    }
  }
}

module Clock {
  /** An instant: milliseconds since the Unix epoch, as `Date.getTime()` gives. */
  type Instant = int

  /** How the caller turns a stored date text into an instant (`new Date(s)`).
      It is total: the Invalid Date that JavaScript gives for an unparsable
      text, with its NaN time, is not part of this model. */
  type InstantOf = string -> Instant

  const MsPerDay: int := 1000 * 60 * 60 * 24
}
