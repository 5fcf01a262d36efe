// The product table of src/pages/TableView.tsx: products flattened into one
// row per (product, source), the list of source names for the source
// filter, the row filter and comparator, the two-field sort state, and the
// handlers that add, replace, delete, archive, unarchive and import
// products. `now` and `instantOf` stand for the clock and for `new Date(s)`.

module TableView {
  import opened Wrappers
  import opened Types
  import opened Clock
  import opened Text
  import Seqs
  import Sorting
  import ProductUtils
  import ProductCsv
  import Settings

  // ------------------------------------------------------------------ rows

  /** One table row: a product together with one of its sources. */
  datatype Row = Row(
    productId: string,
    productName: string,
    sourceName: string,
    price: real,
    startDate: string,
    endDate: string,
    alertsEnabled: bool,
    isArchived: bool,
    isOffer: bool,
    status: Status,
    daysRemaining: int)

  /** The row for source `s` of product `p`. Its status is `Regular` exactly
      for a non-offer source, whose day count is 0; for an offer the status
      shown is the classification of the day count shown. */
  function RowOf(p: Product, s: ProductSource, now: Instant, instantOf: InstantOf): (r: Row)
    ensures r.productId == p.id && r.productName == p.productName && r.sourceName == s.sourceName
    ensures r.isArchived == p.isArchived && r.isOffer == s.isOffer
    ensures r.status == Regular <==> !r.isOffer
    ensures !r.isOffer ==> r.daysRemaining == 0
    ensures r.isOffer ==> r.status == ProductUtils.Classify(r.daysRemaining)
    ensures r.isOffer ==> r.daysRemaining == ProductUtils.DaysRemaining(instantOf(s.endDate), now)
  {
    Row(p.id, p.productName, s.sourceName, s.price, s.startDate, s.endDate, s.alertsEnabled,
        p.isArchived, s.isOffer,
        if s.isOffer then ProductUtils.OfferStatusAt(instantOf(s.endDate), now) else Regular,
        if s.isOffer then ProductUtils.DaysRemaining(instantOf(s.endDate), now) else 0)
  }

  /** `flattenedData`: one row per (product, source) pair, in pair order. */
  function Flatten(ps: seq<Product>, now: Instant, instantOf: InstantOf): (rows: seq<Row>)
    ensures |rows| == |Pairs(ps)|
    ensures forall k :: 0 <= k < |rows| ==> rows[k] == RowOf(Pairs(ps)[k].0, Pairs(ps)[k].1, now, instantOf)
  {
    var pairs := Pairs(ps);
    seq(|pairs|, k requires 0 <= k < |pairs| => RowOf(pairs[k].0, pairs[k].1, now, instantOf))
  }

  /** There is exactly one row per source, product after product and source
      after source: source `j` of product `i` is row `SourceCount(ps[..i]) + j`. */
  lemma FlattenAt(ps: seq<Product>, i: nat, j: nat, now: Instant, instantOf: InstantOf)
    requires i < |ps| && j < |ps[i].sources|
    ensures |Flatten(ps, now, instantOf)| == SourceCount(ps)
    ensures SourceCount(ps[..i]) + j < SourceCount(ps)
    ensures Flatten(ps, now, instantOf)[SourceCount(ps[..i]) + j] == RowOf(ps[i], ps[i].sources[j], now, instantOf)
  {
    PairsAt(ps, i, j);
  }

  // ------------------------------------------------------- source filter

  /** JavaScript's default `sort()` order on strings, as a comparator. */
  function CompareText(a: string, b: string): int
  {
    if Less(a, b) then -1 else if Less(b, a) then 1 else 0
  }

  lemma CompareTextTotal()
    ensures Sorting.Total(CompareText)
  {
    forall a, b
      ensures CompareText(a, b) <= 0 || CompareText(b, a) <= 0
    {
      LessTrichotomy(a, b);
    }
  }

  /** The source name of every row, in row order. */
  function SourceNames(rows: seq<Row>): (names: seq<string>)
    ensures |names| == |rows| && forall k :: 0 <= k < |rows| ==> names[k] == rows[k].sourceName
  {
    seq(|rows|, k requires 0 <= k < |rows| => rows[k].sourceName)
  }

  /** `[...new Set(rows.map(r => r.sourceName))].sort()`. */
  function UniqueSources(rows: seq<Row>): seq<string>
  {
    Sorting.SortBy(Seqs.Dedupe(SourceNames(rows)), CompareText)
  }

  /** The source filter lists every source name of the rows once, in strictly
      increasing order, and nothing else. */
  lemma UniqueSourcesFacts(rows: seq<Row>)
    ensures forall k :: 0 <= k < |rows| ==> rows[k].sourceName in UniqueSources(rows)
    ensures forall name :: name in UniqueSources(rows) ==> exists m :: 0 <= m < |rows| && rows[m].sourceName == name
    ensures forall k :: 0 <= k < |UniqueSources(rows)| - 1 ==> Less(UniqueSources(rows)[k], UniqueSources(rows)[k + 1])
  {
    var names := SourceNames(rows);
    var distinct := Seqs.Dedupe(names);
    var sorted := UniqueSources(rows);
    assert multiset(sorted) == multiset(distinct);
    forall k | 0 <= k < |rows|
      ensures rows[k].sourceName in sorted
    {
      assert names[k] in distinct;
      assert names[k] in multiset(sorted);
    }
    forall name | name in sorted
      ensures exists m :: 0 <= m < |rows| && rows[m].sourceName == name
    {
      assert name in multiset(distinct);
      assert name in names;
      var m :| 0 <= m < |names| && names[m] == name;
      assert rows[m].sourceName == name;
    }
    CompareTextTotal();
    assert Sorting.Sorted(sorted, CompareText);
    Sorting.DistinctPermutation(distinct, sorted);
    forall k | 0 <= k < |sorted| - 1
      ensures Less(sorted[k], sorted[k + 1])
    {
      assert CompareText(sorted[k], sorted[k + 1]) <= 0;
      assert sorted[k] != sorted[k + 1];
      LessTrichotomy(sorted[k], sorted[k + 1]);
    }
  }

  // ---------------------------------------------------------------- filter

  /** The filter inputs: the search text, the status option and the source
      option, as the select boxes hold them. */
  datatype View = View(searchTerm: string, filterStatus: string, filterSource: string)

  /** The text of a status, as the status option values spell it. */
  function StatusName(s: Status): string
  {
    match s
    case Active => "active"
    case Warning => "warning"
    case Urgent => "urgent"
    case Expired => "expired"
    case Regular => "regular"
  }

  predicate MatchesSearch(r: Row, term: string)
  {
    term == ""
    || Contains(Lower(r.productName), Lower(term))
    || Contains(Lower(r.sourceName), Lower(term))
  }

  predicate MatchesStatus(r: Row, filterStatus: string)
  {
    if filterStatus == "offer" then r.isOffer
    else if filterStatus == "regular" then !r.isOffer
    else if filterStatus == "all" then true
    else StatusName(r.status) == filterStatus
  }

  predicate MatchesSource(r: Row, filterSource: string)
  {
    filterSource == "" || r.sourceName == filterSource
  }

  /** The filter callback: search, status and source must match, and the
      row's product must not be archived. */
  predicate Shown(r: Row, v: View)
  {
    MatchesSearch(r, v.searchTerm) && MatchesStatus(r, v.filterStatus)
    && MatchesSource(r, v.filterSource) && !r.isArchived
  }

  /** The rows the filter keeps, in their order: a subsequence of the rows
      holding exactly the shown ones, none of them archived. */
  function Filtered(rows: seq<Row>, v: View): (r: seq<Row>)
    ensures Seqs.SubsequenceOf(r, rows)
    ensures forall k :: 0 <= k < |r| ==> Shown(r[k], v) && !r[k].isArchived
    ensures forall k :: 0 <= k < |rows| && Shown(rows[k], v) ==> rows[k] in r
  {
    Seqs.Filter(rows, (x: Row) => Shown(x, v))
  }

  /** No status is called "archived", so the "Archived" option shows nothing,
      whatever the rows. */
  lemma ArchivedOptionShowsNothing(rows: seq<Row>, v: View)
    requires v.filterStatus == "archived"
    ensures Filtered(rows, v) == []
  {
    forall x: Row
      ensures !MatchesStatus(x, "archived")
    {
      NoStatusIsArchived(x.status);
    }
  }

  lemma NoStatusIsArchived(s: Status)
    ensures StatusName(s) != "archived"
  {
    match s
    case Active => assert StatusName(s)[0] == 'a' && StatusName(s)[1] != "archived"[1];
    case Warning => assert StatusName(s)[0] != "archived"[0];
    case Urgent => assert StatusName(s)[0] != "archived"[0];
    case Expired => assert StatusName(s)[0] != "archived"[0];
    case Regular => assert StatusName(s)[0] != "archived"[0];
  }

  /** The status options: "all" keeps every row, "offer" the offer rows,
      "regular" the others, and the option named after an offer status the
      rows with that status. */
  lemma StatusOptions(r: Row, st: OfferStatus)
    ensures MatchesStatus(r, "all")
    ensures MatchesStatus(r, "offer") <==> r.isOffer
    ensures MatchesStatus(r, "regular") <==> !r.isOffer
    ensures MatchesStatus(r, StatusName(st)) <==> r.status == st
  {
  }

  /** An empty search term matches every row. */
  lemma EmptySearchMatchesAll(r: Row)
    ensures MatchesSearch(r, "")
  {
  }

  // ------------------------------------------------------------------ sort

  datatype SortField = ProductName | Source | StartDate | EndDate | DaysRemaining | StatusField

  datatype SortDirection = Asc | Desc

  /** `statusOrder`: expired first, regular last. */
  function Rank(s: Status): nat
  {
    match s
    case Expired => 0
    case Urgent => 1
    case Warning => 2
    case Active => 3
    case Regular => 4
  }

  /** The value a row is sorted on: lower-cased text or a number. */
  datatype SortKey = Text(text: string) | Number(n: int)

  function KeyOf(r: Row, f: SortField, instantOf: InstantOf): SortKey
  {
    match f
    case ProductName => Text(Lower(r.productName))
    case Source => Text(Lower(r.sourceName))
    case StartDate => Number(instantOf(r.startDate))
    case EndDate => Number(instantOf(r.endDate))
    case DaysRemaining => Number(r.daysRemaining)
    case StatusField => Number(Rank(r.status))
  }

  /** `aValue < bValue` on two keys of the same field. */
  predicate KeyLess(a: SortKey, b: SortKey)
  {
    match (a, b)
    case (Text(x), Text(y)) => Less(x, y)
    case (Number(x), Number(y)) => x < y
    case _ => false
  }

  /** The sort callback: -1, 1 or 0 by the keys, the sign reversed for a
      descending sort. */
  function Compare(a: Row, b: Row, f: SortField, d: SortDirection, instantOf: InstantOf): (c: int)
    ensures -1 <= c <= 1
  {
    var ka := KeyOf(a, f, instantOf);
    var kb := KeyOf(b, f, instantOf);
    if KeyLess(ka, kb) then (if d == Asc then -1 else 1)
    else if KeyLess(kb, ka) then (if d == Asc then 1 else -1)
    else 0
  }

  /** Descending exactly reverses ascending, swapping the rows reverses the
      result, and rows with equal keys compare as 0. */
  lemma CompareLaws(a: Row, b: Row, f: SortField, d: SortDirection, instantOf: InstantOf)
    ensures Compare(a, b, f, Desc, instantOf) == -Compare(a, b, f, Asc, instantOf)
    ensures Compare(a, b, f, d, instantOf) == -Compare(b, a, f, d, instantOf)
    ensures KeyOf(a, f, instantOf) == KeyOf(b, f, instantOf) ==> Compare(a, b, f, d, instantOf) == 0
  {
    var ka := KeyOf(a, f, instantOf);
    var kb := KeyOf(b, f, instantOf);
    if ka.Text? && kb.Text? {
      LessTrichotomy(ka.text, kb.text);
    }
  }

  /** Sorting on status in ascending order puts the more urgent row first:
      expired, urgent, warning, active, and regular rows last. */
  lemma StatusOrder(a: Row, b: Row, instantOf: InstantOf)
    ensures Compare(a, b, StatusField, Asc, instantOf) < 0 <==> Rank(a.status) < Rank(b.status)
    ensures a.status == Expired && b.status != Expired ==> Compare(a, b, StatusField, Asc, instantOf) < 0
    ensures a.status != Regular && b.status == Regular ==> Compare(a, b, StatusField, Asc, instantOf) < 0
  {
  }

  /** The comparator for a sort state, as a function of two rows. */
  function Comparator(f: SortField, d: SortDirection, instantOf: InstantOf): (Row, Row) -> int
  {
    (a: Row, b: Row) => Compare(a, b, f, d, instantOf)
  }

  lemma ComparatorTotal(f: SortField, d: SortDirection, instantOf: InstantOf)
    ensures Sorting.Total(Comparator(f, d, instantOf))
  {
    forall a, b
      ensures Compare(a, b, f, d, instantOf) <= 0 || Compare(b, a, f, d, instantOf) <= 0
    {
      CompareLaws(a, b, f, d, instantOf);
    }
  }

  /** `filteredAndSortedData`: the shown rows, reordered so that every row
      may precede the next under the current sort. */
  function Visible(ps: seq<Product>, v: View, f: SortField, d: SortDirection,
                   now: Instant, instantOf: InstantOf): (rows: seq<Row>)
    ensures multiset(rows) == multiset(Filtered(Flatten(ps, now, instantOf), v))
    ensures forall k :: 0 <= k < |rows| - 1 ==> Compare(rows[k], rows[k + 1], f, d, instantOf) <= 0
    ensures forall k :: 0 <= k < |rows| ==> !rows[k].isArchived && Shown(rows[k], v)
  {
    var shown := Filtered(Flatten(ps, now, instantOf), v);
    ComparatorTotal(f, d, instantOf);
    var rows := Sorting.SortBy(shown, Comparator(f, d, instantOf));
    assert forall k :: 0 <= k < |rows| ==> rows[k] in multiset(shown);
    rows
  }

  /** `handleSort`'s state: the field sorted on and the direction. */
  datatype SortState = SortState(field: SortField, direction: SortDirection)

  function Flip(d: SortDirection): SortDirection
  {
    if d == Asc then Desc else Asc
  }

  function NextSort(st: SortState, clicked: SortField): SortState
  {
    if st.field == clicked then st.(direction := Flip(st.direction))
    else SortState(clicked, Asc)
  }

  /** A click on the current field flips the direction, a click on another
      field sorts it ascending, and two clicks on the current field restore
      the state. */
  lemma NextSortLaws(st: SortState, clicked: SortField)
    ensures st.field == clicked ==>
      NextSort(st, clicked).field == clicked && NextSort(st, clicked).direction != st.direction
    ensures st.field != clicked ==> NextSort(st, clicked) == SortState(clicked, Asc)
    ensures st.field == clicked ==> NextSort(NextSort(st, clicked), clicked) == st
    ensures NextSort(st, clicked).field == clicked
  {
  }

  // ---------------------------------------------------- product list edits

  /** `Omit<Product, 'id'>` spread into a product with the given id. */
  function WithId(d: ProductDraft, id: string): (p: Product)
    ensures p.id == id && p.productName == d.productName && p.sources == d.sources
    ensures p.isArchived == d.isArchived && p.createdBy == d.createdBy
  {
    Product(id, d.productName, d.categoryId, None, d.sources, Some(d.channelStatus), None,
            d.createdBy, None, d.isArchived, None, d.createdAt, d.updatedAt)
  }

  /** `ps.map(p => p.id === id ? f(p) : p)`: only the entries with the id
      change; the length and every other entry are kept. */
  function UpdateWhere(ps: seq<Product>, id: string, f: Product -> Product): (r: seq<Product>)
    ensures |r| == |ps|
    ensures forall i :: 0 <= i < |ps| && ps[i].id != id ==> r[i] == ps[i]
    ensures forall i :: 0 <= i < |ps| && ps[i].id == id ==> r[i] == f(ps[i])
  {
    seq(|ps|, i requires 0 <= i < |ps| => if ps[i].id == id then f(ps[i]) else ps[i])
  }

  /** `ps.filter(p => p.id !== id)`: no entry with the id is left, every
      other entry is kept, and the order is kept. */
  function RemoveId(ps: seq<Product>, id: string): (r: seq<Product>)
    ensures forall k :: 0 <= k < |r| ==> r[k].id != id
    ensures forall k :: 0 <= k < |ps| && ps[k].id != id ==> ps[k] in r
    ensures Seqs.SubsequenceOf(r, ps)
  {
    Seqs.Filter(ps, (p: Product) => p.id != id)
  }

  /** No two products share an id. */
  ghost predicate UniqueIds(ps: seq<Product>)
  {
    forall i, j :: 0 <= i < j < |ps| ==> ps[i].id != ps[j].id
  }

  /** Unique ids survive every edit: an update that keeps the id of what it
      touches, a deletion, and an addition with an unused id. */
  lemma UniqueIdsKept(ps: seq<Product>, id: string, f: Product -> Product, d: ProductDraft, newId: string)
    requires UniqueIds(ps)
    requires forall p: Product :: p.id == id ==> f(p).id == id
    requires forall k :: 0 <= k < |ps| ==> ps[k].id != newId
    ensures UniqueIds(UpdateWhere(ps, id, f))
    ensures UniqueIds(RemoveId(ps, id))
    ensures UniqueIds(ps + [WithId(d, newId)])
  {
    var u := UpdateWhere(ps, id, f);
    assert forall k :: 0 <= k < |ps| ==> u[k].id == ps[k].id;
    SubsequenceUnique(RemoveId(ps, id), ps);
  }

  lemma {:induction false} SubsequenceUnique(a: seq<Product>, b: seq<Product>)
    requires Seqs.SubsequenceOf(a, b) && UniqueIds(b)
    ensures UniqueIds(a)
    decreases |b|
  {
    if |a| > 0 && |b| > 0 {
      assert UniqueIds(b[1..]);
      if a[0] == b[0] {
        SubsequenceUnique(a[1..], b[1..]);
        forall j | 0 < j < |a|
          ensures a[0].id != a[j].id
        {
          assert a[j] == a[1..][j - 1];
          SubsequenceMember(a[1..], b[1..], j - 1);
        }
      } else {
        SubsequenceUnique(a, b[1..]);
      }
    }
  }

  lemma {:induction false} SubsequenceMember(a: seq<Product>, b: seq<Product>, k: nat)
    requires Seqs.SubsequenceOf(a, b) && k < |a|
    ensures exists m :: 0 <= m < |b| && b[m] == a[k]
    decreases |b|
  {
    if a[0] == b[0] {
      if k > 0 {
        SubsequenceMember(a[1..], b[1..], k - 1);
        var m :| 0 <= m < |b[1..]| && b[1..][m] == a[1..][k - 1];
        assert b[m + 1] == a[k];
      } else {
        assert b[0] == a[0];
      }
    } else {
      SubsequenceMember(a, b[1..], k);
      var m :| 0 <= m < |b[1..]| && b[1..][m] == a[k];
      assert b[m + 1] == a[k];
    }
  }

  /** `{ ...p, isArchived: true, archivedDate: nowIso }`. */
  function Archived(p: Product, nowIso: string): Product
  {
    p.(isArchived := true, archivedDate := Some(nowIso))
  }

  /** `{ ...p, isArchived: false, archivedDate: undefined }`. */
  function Unarchived(p: Product): Product
  {
    p.(isArchived := false, archivedDate := None)
  }

  /** Archiving and then unarchiving a product gives it back when it was not
      archived to begin with. */
  lemma ArchiveRoundTrip(p: Product, nowIso: string)
    requires !p.isArchived && p.archivedDate == None
    ensures Unarchived(Archived(p, nowIso)) == p
  {
  }

  // -------------------------------------------------------------- the page

  /** The page state that the handlers and the sort buttons change. */
  class TablePage {
    var products: seq<Product>
    var searchTerm: string
    var filterStatus: string
    var filterSource: string
    var sortField: SortField
    var sortDirection: SortDirection
    var calculatorSettings: Settings.LocalSettings

    /** The initial state: no products, no filters, sorted by days remaining
      ascending, and the same calculator settings as the settings dialog's
      defaults. */
    constructor()
      ensures products == [] && searchTerm == "" && filterStatus == "all" && filterSource == ""
      ensures sortField == DaysRemaining && sortDirection == Asc
      ensures calculatorSettings == Settings.Defaults
    {
      products := [];
      searchTerm := "";
      filterStatus := "all";
      filterSource := "";
      sortField := DaysRemaining;
      sortDirection := Asc;
      calculatorSettings := Settings.LocalSettings(9.0, 20.0, 22.0, 2.29, 3.99, map[]);
    }

    /** The rows on screen. */
    function Rows(now: Instant, instantOf: InstantOf): seq<Row>
      reads this
    {
      Visible(products, View(searchTerm, filterStatus, filterSource), sortField, sortDirection, now, instantOf)
    }

    /** `handleSort`: the products are untouched. */
    method HandleSort(field: SortField)
      modifies this
      ensures SortState(sortField, sortDirection) == NextSort(old(SortState(sortField, sortDirection)), field)
      ensures products == old(products)
    {
      if sortField == field {
        sortDirection := if sortDirection == Asc then Desc else Asc;
      } else {
        sortField := field;
        sortDirection := Asc;
      }
    }

    /** `addProduct`: the product, with its new id, goes at the end. */
    method AddProduct(product: ProductDraft, id: string)
      modifies this
      ensures products == old(products) + [WithId(product, id)]
    {
      products := products + [WithId(product, id)];
    }

    /** `updateProduct`: every entry with the product's id is replaced. */
    method UpdateProduct(updated: Product)
      modifies this
      ensures products == UpdateWhere(old(products), updated.id, _ => updated)
    {
      products := UpdateWhere(products, updated.id, _ => updated);
    }

    /** `deleteProduct`: every entry with the id is removed. */
    method DeleteProduct(productId: string)
      modifies this
      ensures products == RemoveId(old(products), productId)
    {
      products := RemoveId(products, productId);
    }

    /** `archiveProduct`, `nowIso` standing for `new Date().toISOString()`. */
    method ArchiveProduct(productId: string, nowIso: string)
      modifies this
      ensures products == UpdateWhere(old(products), productId, p => Archived(p, nowIso))
    {
      products := UpdateWhere(products, productId, p => Archived(p, nowIso));
    }

    /** `unarchiveProduct`. */
    method UnarchiveProduct(productId: string)
      modifies this
      ensures products == UpdateWhere(old(products), productId, Unarchived)
    {
      products := UpdateWhere(products, productId, Unarchived);
    }

    /** `importData` once the file is read: the parsed products go after the
      existing ones and `imported` tells the "Data Imported" toast from the
      "Import Failed" one. When `parseCSV` throws, the error is caught and the
      products are left as they were. */
    method ImportData(csvText: string, env: ProductCsv.ImportEnv) returns (imported: bool)
      modifies this
      ensures imported <==> !ProductCsv.InheritedName(ProductCsv.BodyLines(csvText))
      ensures imported ==> products == old(products) + ProductCsv.ParseCsv(csvText, env)
      ensures !imported ==> products == old(products)
    {
      var importedProducts := ProductCsv.ParseCSV(csvText, env);
      match importedProducts
      case Some(ps) =>
        products := products + ps;
        imported := true;
      case None =>
        imported := false;
    }
  }
}
