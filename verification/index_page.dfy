// The product list page of src/pages/Index.tsx: how the fetched products
// are cleaned and split into the regular list and the offer list, who may
// edit a product, and what the page posts when a dialog adds a product. The
// HTTP calls are not modelled: the fetched products are an argument and the
// bodies posted to /api/products are kept as a log.

module IndexPage {
  import opened Wrappers
  import opened Types
  import Seqs

  /** A product as GET /api/products returns it, whose `sources` may be
      missing. The `sources` property of `fields` is not read. */
  datatype Fetched = Fetched(fields: Product, sources: Option<seq<ProductSource>>)

  /** `{...product, sources: product.sources || []}`: a missing list becomes
      the empty list, a present one (even an empty one, which is truthy) is
      kept, and no other property changes. */
  function Clean(f: Fetched): (p: Product)
    ensures p.(sources := f.fields.sources) == f.fields
    ensures f.sources.Some? ==> p.sources == f.sources.value
    ensures f.sources.None? ==> p.sources == []
  {
    f.fields.(sources := f.sources.GetOr([]))
  }

  function CleanAll(all: seq<Fetched>): (r: seq<Product>)
    ensures |r| == |all|
    ensures forall i :: 0 <= i < |all| ==> r[i] == Clean(all[i])
  {
    seq(|all|, i requires 0 <= i < |all| => Clean(all[i]))
  }

  /** `filter(p => !p.sources.some(s => s.isOffer))`. */
  function RegularProducts(ps: seq<Product>): seq<Product>
  {
    Seqs.Filter(ps, (p: Product) => !HasOffers(p))
  }

  /** `filter(p => p.sources.some(s => s.isOffer))`. */
  function OfferProducts(ps: seq<Product>): seq<Product>
  {
    Seqs.Filter(ps, (p: Product) => HasOffers(p))
  }

  /** Each product lands in exactly one of the two lists: the regular list
      when none of its sources is an offer, the offer list otherwise; both
      lists keep the fetched order. */
  lemma PartitionMembership(ps: seq<Product>, p: Product)
    requires p in ps
    ensures p in RegularProducts(ps) <==> !HasOffers(p)
    ensures p in OfferProducts(ps) <==> HasOffers(p)
    ensures Seqs.SubsequenceOf(RegularProducts(ps), ps) && Seqs.SubsequenceOf(OfferProducts(ps), ps)
  {
    var k :| 0 <= k < |ps| && ps[k] == p;
    if p in RegularProducts(ps) {
      var j :| 0 <= j < |RegularProducts(ps)| && RegularProducts(ps)[j] == p;
    }
    if p in OfferProducts(ps) {
      var j :| 0 <= j < |OfferProducts(ps)| && OfferProducts(ps)[j] == p;
    }
  }

  /** Together the two lists hold every fetched product exactly as often as
      it was fetched. */
  lemma {:induction false} PartitionCounts(ps: seq<Product>)
    ensures |RegularProducts(ps)| + |OfferProducts(ps)| == |ps|
    ensures multiset(RegularProducts(ps)) + multiset(OfferProducts(ps)) == multiset(ps)
  {
    if |ps| > 0 {
      PartitionCounts(ps[1..]);
      assert ps == [ps[0]] + ps[1..];
    }
  }

  /** `user?.role === 'administrator'`. */
  predicate IsAdmin(user: Option<UserProfile>)
  {
    user.Some? && user.value.role == Administrator
  }

  /** `isAdmin() || product.createdBy === user?.id`: nobody signed in may
      edit nothing, an administrator may edit everything, and any other user
      exactly the products they created. */
  function CanEdit(user: Option<UserProfile>, p: Product): (r: bool)
    ensures user.None? ==> !r
    ensures IsAdmin(user) ==> r
    ensures user.Some? && user.value.role == User ==> (r <==> p.createdBy == user.value.id)
  {
    IsAdmin(user) || (user.Some? && p.createdBy == user.value.id)
  }

  /** The body `handleAddProduct` posts: only the name, the sources, the
      signed-in user's id and the category. */
  datatype Submission = Submission(
    productName: string,
    sources: seq<ProductSource>,
    userId: string,
    categoryId: Option<string>)

  class Index {
    var user: Option<UserProfile>
    var products: seq<Product>
    var offers: seq<Product>
    /** Every body posted to /api/products, oldest first. */
    var posted: seq<Submission>

    constructor(user: Option<UserProfile>)
      ensures this.user == user && products == [] && offers == [] && posted == []
    {
      this.user := user;
      products := [];
      offers := [];
      posted := [];
    }

    /** What the stats tab is given: `[...products, ...offers]`. */
    function StatsInput(): seq<Product>
      reads this
    {
      products + offers
    }

    /** `fetchProducts` after a successful response: the cleaned products are
      split into the two lists, and the stats tab then receives every fetched
      product once. */
    method FetchProducts(all: seq<Fetched>)
      modifies this
      ensures products == RegularProducts(CleanAll(all)) && offers == OfferProducts(CleanAll(all))
      ensures |StatsInput()| == |all| && multiset(StatsInput()) == multiset(CleanAll(all))
      ensures user == old(user) && posted == old(posted)
    {
      var cleaned := CleanAll(all);
      products := RegularProducts(cleaned);
      offers := OfferProducts(cleaned);
      PartitionCounts(cleaned);
    }

    /** `handleAddProduct`: without a signed-in user nothing is posted;
      otherwise the body carries the draft's name, sources and category and
      the user's own id, whatever owner the draft names. */
    method HandleAddProduct(d: ProductDraft)
      modifies this
      ensures user.None? ==> posted == old(posted)
      ensures user.Some? ==> posted == old(posted) + [Submission(d.productName, d.sources, user.value.id, d.categoryId)]
      ensures user == old(user) && products == old(products) && offers == old(offers)
    {
      if user.None? {
        return;
      }
      posted := posted + [Submission(d.productName, d.sources, user.value.id, d.categoryId)];
    }

    /** `handleAddOffer` takes the same path as `handleAddProduct`. */
    method HandleAddOffer(d: ProductDraft)
      modifies this
      ensures user.None? ==> posted == old(posted)
      ensures user.Some? ==> posted == old(posted) + [Submission(d.productName, d.sources, user.value.id, d.categoryId)]
      ensures user == old(user) && products == old(products) && offers == old(offers)
    {
      HandleAddProduct(d);
    }
  }
}
