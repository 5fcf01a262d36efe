// The Express back end of backend/server.js, reduced to what it decides:
// the two authentication middlewares, the request guards that answer 400
// before any query, the folding of the LEFT JOIN rows of GET /api/products
// into products with nested source lists, the source rows the POST and PUT
// handlers insert, and the PUT handler's transaction over an abstract
// database. Token verification (jsonwebtoken) is the parameter `verify`; SQL
// text, the connection pool and password hashing are not modelled.

module Server {
  import opened Wrappers
  import opened Types
  import opened Text
  import Seqs

  // --------------------------------------------------------- JSON values

  /** A JSON value as it arrives in a request body; `JNull` also stands for
      a missing property (`undefined`). */
  datatype Json = JNull | JBool(b: bool) | JNum(n: real) | JStr(s: string) | JObject

  /** JavaScript truthiness (NaN is not a value of this model). */
  predicate Truthy(v: Json)
  {
    match v
    case JNull => false
    case JBool(b) => b
    case JNum(n) => n != 0.0
    case JStr(s) => s != ""
    case JObject => true
  }

  // ------------------------------------------------------ authentication

  /** The claims a verified token carries. */
  datatype Claims = Claims(id: string, email: string, role: string)

  /** What a middleware chain does with a request: hand it on with the
      verified user, or answer with a status code. */
  datatype Outcome = Next(user: Claims) | Respond(status: int)

  /** `authHeader && authHeader.split(' ')[1]`: `None` is `undefined`. An
      empty header is falsy and is itself the result, which is not `null`. */
  function TokenOf(authHeader: Option<string>): Option<string>
  {
    if authHeader.None? then None
    else if authHeader.value == "" then Some("")
    else
      var words := Split(authHeader.value, ' ');
      if |words| >= 2 then Some(words[1]) else None
  }

  /** `authenticateToken`: 401 without a token, 403 when the token does not
      verify, otherwise on to the next handler with the token's claims. */
  function AuthenticateToken(authHeader: Option<string>, verify: string -> Option<Claims>): (o: Outcome)
    ensures TokenOf(authHeader).None? <==> o == Respond(401)
    ensures o == Respond(403) <==> TokenOf(authHeader).Some? && verify(TokenOf(authHeader).value).None?
    ensures o.Next? ==> TokenOf(authHeader).Some? && verify(TokenOf(authHeader).value) == Some(o.user)
  {
    match TokenOf(authHeader)
    case None => Respond(401)
    case Some(token) =>
      match verify(token)
      case None => Respond(403)
      case Some(user) => Next(user)
  }

  /** `isAdmin`, run after `authenticateToken`: 403 for any role other than
      "administrator". */
  function IsAdmin(o: Outcome): (r: Outcome)
    ensures o.Respond? ==> r == o
    ensures o.Next? ==> (r == o <==> o.user.role == "administrator")
    ensures o.Next? && o.user.role != "administrator" ==> r == Respond(403)
  {
    if o.Next? && o.user.role != "administrator" then Respond(403) else o
  }

  /** The token is the second space-separated word of the header: a
      `Bearer <token>` header gives the token, a header of one word gives
      none and is answered 401, and a missing header is answered 401. */
  lemma BearerToken(t: string, word: string, verify: string -> Option<Claims>)
    requires ' ' !in t && ' ' !in word && word != ""
    ensures TokenOf(Some("Bearer " + t)) == Some(t)
    ensures TokenOf(Some(word)) == None && AuthenticateToken(Some(word), verify) == Respond(401)
    ensures AuthenticateToken(None, verify) == Respond(401)
    ensures TokenOf(Some("")) == Some("") && AuthenticateToken(Some(""), verify) != Respond(401)
  {
    var bearer := "Bearer";
    assert ' ' !in bearer by {
      assert bearer == ['B', 'e', 'a', 'r', 'e', 'r'];
    }
    assert "Bearer " + t == bearer + [' '] + t;
    SplitAfter(bearer, t, ' ');
    SplitNoSep(t, ' ');
    SplitNoSep(word, ' ');
  }

  /** A request passes both middlewares exactly when its token verifies to
      an administrator; otherwise it is answered 401 or 403. */
  lemma AdminChain(authHeader: Option<string>, verify: string -> Option<Claims>)
    ensures var o := IsAdmin(AuthenticateToken(authHeader, verify));
      && (o.Next? <==> TokenOf(authHeader).Some? && verify(TokenOf(authHeader).value).Some?
                       && verify(TokenOf(authHeader).value).value.role == "administrator")
      && (o.Respond? ==> o.status == 401 || o.status == 403)
  {
  }

  // --------------------------------------------------------- input guards

  /** A route handler's early return: answered with 400, or on to the
      queries. */
  datatype Guard = Reject400 | Proceed

  /** PATCH /api/products/:id/archive: `isArchived` must be a boolean. */
  function ArchiveGuard(isArchived: Json): Guard
  {
    if !isArchived.JBool? then Reject400 else Proceed
  }

  /** POST /api/users: all four fields must be truthy. */
  function CreateUserGuard(fullName: Json, email: Json, password: Json, role: Json): Guard
  {
    if !Truthy(fullName) || !Truthy(email) || !Truthy(password) || !Truthy(role) then Reject400 else Proceed
  }

  /** PUT /api/users/:id: full name and role must be truthy. */
  function UpdateUserGuard(fullName: Json, role: Json): Guard
  {
    if !Truthy(fullName) || !Truthy(role) then Reject400 else Proceed
  }

  /** DELETE /api/users/:id: an administrator may not delete their own id. */
  function DeleteUserGuard(requester: Claims, id: string): Guard
  {
    if requester.id == id then Reject400 else Proceed
  }

  /** POST and PUT /api/categories: the name must be truthy. */
  function CategoryGuard(name: Json): Guard
  {
    if !Truthy(name) then Reject400 else Proceed
  }

  /** What each guard lets through: the archive flag is a boolean (so "true"
      as text, 1 or a missing flag are rejected), every required user field
      is present and non-empty, nobody deletes themselves, and a category has
      a non-empty name. */
  lemma GuardsAdmit(isArchived: Json, fullName: Json, email: Json, password: Json, role: Json,
                    requester: Claims, id: string, name: Json)
    ensures ArchiveGuard(isArchived) == Proceed <==> isArchived.JBool?
    ensures ArchiveGuard(JStr("true")) == Reject400 && ArchiveGuard(JNum(1.0)) == Reject400
    ensures ArchiveGuard(JNull) == Reject400 && ArchiveGuard(JBool(false)) == Proceed
    ensures CreateUserGuard(fullName, email, password, role) == Proceed <==>
      Truthy(fullName) && Truthy(email) && Truthy(password) && Truthy(role)
    ensures CreateUserGuard(JStr(""), email, password, role) == Reject400
    ensures UpdateUserGuard(fullName, role) == Proceed <==> Truthy(fullName) && Truthy(role)
    ensures DeleteUserGuard(requester, requester.id) == Reject400
    ensures DeleteUserGuard(requester, id) == Proceed <==> requester.id != id
    ensures CategoryGuard(name) == Proceed <==> Truthy(name)
    ensures CategoryGuard(JStr("")) == Reject400 && CategoryGuard(JNull) == Reject400
  {
  }

  /** A guarded administrator route: both middlewares, then the guard. The
      400 of a guard is only ever sent to an authenticated administrator, and
      the handler body runs only when the guard also passes. */
  function AdminRoute(authHeader: Option<string>, verify: string -> Option<Claims>, guard: Claims -> Guard): (o: Outcome)
    ensures o == Respond(400) ==> IsAdmin(AuthenticateToken(authHeader, verify)).Next?
    ensures var a := IsAdmin(AuthenticateToken(authHeader, verify));
      o.Next? <==> a.Next? && guard(a.user) == Proceed
    ensures o.Next? ==> o == IsAdmin(AuthenticateToken(authHeader, verify))
    ensures o.Respond? ==> o.status in {400, 401, 403}
  {
    match IsAdmin(AuthenticateToken(authHeader, verify))
    case Respond(code) => Respond(code)
    case Next(user) => if guard(user) == Reject400 then Respond(400) else Next(user)
  }

  // ------------------------------------------------------ row grouping

  /** One row of the GET /api/products query: a product LEFT JOINed with one
      of its sources (all source columns null when it has none), its creator
      and its category. MySQL's TINYINT flags are integers; numeric ids are
      kept as their text. */
  datatype JoinRow = JoinRow(
    id: string,
    productName: string,
    isArchived: int,
    createdAt: string,
    updatedAt: string,
    createdBy: string,
    categoryId: Option<string>,
    sourceId: Option<string>,
    sourceName: string,
    price: real,
    startDate: Option<string>,
    endDate: Option<string>,
    alertsEnabled: int,
    isOffer: int,
    creatorName: Option<string>,
    categoryName: Option<string>)

  /** `if (row.sourceId)`: the row carries a source. */
  predicate HasSource(r: JoinRow)
  {
    r.sourceId.Some? && r.sourceId.value != ""
  }

  /** The product record made from the first row of a product: names that
      are missing or empty become "Unknown" and "Uncategorized", the archive
      flag is coerced to a boolean, and the list of sources starts empty. The
      query has no channel status, notes or archive date. */
  function ProductOfRow(r: JoinRow): (p: Product)
    ensures p.id == r.id && p.productName == r.productName && p.sources == []
    ensures p.isArchived <==> r.isArchived != 0
    ensures p.creatorName == Some(OrElse(r.creatorName, "Unknown"))
    ensures p.categoryName == Some(OrElse(r.categoryName, "Uncategorized"))
    ensures p.channelStatus == None
  {
    Product(r.id, r.productName, r.categoryId, Some(OrElse(r.categoryName, "Uncategorized")), [],
            None, None, r.createdBy, Some(OrElse(r.creatorName, "Unknown")), r.isArchived != 0, None,
            r.createdAt, r.updatedAt)
  }

  /** The source pushed for a row with a source: the name serves as both
      `name` and `sourceName`, the flags are coerced to booleans, and null
      dates (sources that are not offers) read as "". There is no url. */
  function SourceOfRow(r: JoinRow): (s: ProductSource)
    requires HasSource(r)
    ensures s.id == r.sourceId.value && s.name == r.sourceName && s.sourceName == r.sourceName
    ensures s.isOffer <==> r.isOffer != 0
    ensures s.alertsEnabled <==> r.alertsEnabled != 0
  {
    ProductSource(r.sourceId.value, r.sourceName, "", r.price, r.isOffer != 0, r.sourceName,
                  r.startDate.GetOr(""), r.endDate.GetOr(""), r.alertsEnabled != 0)
  }

  function Ids(rows: seq<JoinRow>): (ids: seq<string>)
    ensures |ids| == |rows| && forall k :: 0 <= k < |rows| ==> ids[k] == rows[k].id
  {
    seq(|rows|, k requires 0 <= k < |rows| => rows[k].id)
  }

  /** The rows of product `id` that carry a source, in row order. */
  function Picked(rows: seq<JoinRow>, id: string): (picked: seq<JoinRow>)
    ensures forall k :: 0 <= k < |picked| ==> HasSource(picked[k]) && picked[k].id == id
  {
    Seqs.Filter(rows, (r: JoinRow) => r.id == id && HasSource(r))
  }

  /** The sources the product with id `id` should hold: one per row of that
      product that has a source, in row order. */
  function SourcesFor(rows: seq<JoinRow>, id: string): seq<ProductSource>
  {
    var picked := Picked(rows, id);
    seq(|picked|, k requires 0 <= k < |picked| => SourceOfRow(picked[k]))
  }

  /** The product with id `id` as the grouping leaves it: made from the first
      row with that id, holding the sources of all its rows. */
  function Expected(rows: seq<JoinRow>, id: string): (p: Product)
    requires id in Ids(rows)
    ensures p.id == id && p.sources == SourcesFor(rows, id)
  {
    ProductOfRow(rows[Seqs.FirstIndex(Ids(rows), id)]).(sources := SourcesFor(rows, id))
  }

  /** The response of GET /api/products: one product per distinct id, in the
      order the ids first appear. */
  function Grouped(rows: seq<JoinRow>): (g: seq<Product>)
    ensures |g| == |Seqs.Dedupe(Ids(rows))|
    ensures forall k :: 0 <= k < |g| ==> g[k].id == Seqs.Dedupe(Ids(rows))[k] && g[k].id in Ids(rows)
  {
    var order := Seqs.Dedupe(Ids(rows));
    seq(|order|, k requires 0 <= k < |order| => Expected(rows, order[k]))
  }

  /** The loop of the GET handler over a `Map` from id to product and the
      order in which the ids were first inserted, as `productsMap.values()`
      yields them. */
  method GroupRows(rows: seq<JoinRow>) returns (products: seq<Product>)
    ensures products == Grouped(rows)
  {
    var productsMap: map<string, Product> := map[];
    var order: seq<string> := [];
    ghost var seen: seq<JoinRow> := [];
    var i := 0;
    while i < |rows|
      invariant 0 <= i <= |rows| && seen == rows[..i]
      invariant Mirrors(productsMap, order, seen)
    {
      PrefixSnoc(rows, i);
      ghost var m0, order0 := productsMap, order;
      productsMap, order := AddRow(productsMap, order, rows[i]);
      MirrorsStep(m0, order0, seen, rows[i], order, productsMap);
      seen := seen + [rows[i]];
      i := i + 1;
    }
    PrefixAll(rows);
    MirrorsKeys(productsMap, order, rows);
    products := InOrder(productsMap, order);
    MirrorsOutput(productsMap, order, rows, products);
  }

  /** `Array.from(productsMap.values())`: the values in insertion order. */
  function InOrder(m: map<string, Product>, order: seq<string>): (vs: seq<Product>)
    requires forall id :: id in order ==> id in m
    ensures |vs| == |order| && forall k :: 0 <= k < |order| ==> vs[k] == m[order[k]]
  {
    seq(|order|, k requires 0 <= k < |order| => m[order[k]])
  }

  lemma MirrorsKeys(m: map<string, Product>, order: seq<string>, rs: seq<JoinRow>)
    requires Mirrors(m, order, rs)
    ensures forall id :: id in order ==> id in m
  {
  }

  /** One pass of the loop body: a new id gets an empty product and is
      appended to the order, then the row's source, if any, is pushed onto
      the product under the row's id (written back to the dictionary, where
      the source mutates the stored object). */
  method AddRow(m0: map<string, Product>, order0: seq<string>, row: JoinRow)
    returns (productsMap: map<string, Product>, order: seq<string>)
    ensures productsMap == After(m0, row)
    ensures order == if row.id in m0 then order0 else order0 + [row.id]
  {
    var p: Product;
    if row.id !in m0 {
      p := ProductOfRow(row);
      order := order0 + [row.id];
    } else {
      p := m0[row.id];
      order := order0;
    }
    if HasSource(row) {
      p := p.(sources := p.sources + [SourceOfRow(row)]);
    } else {
      assert p.sources + Extra(row) == p.sources;
    }
    assert p == Before(m0, row).(sources := Before(m0, row).sources + Extra(row));
    productsMap := m0[row.id := p];
  }

  /** The product under the row's id once the row's id has been inserted. */
  function Before(m: map<string, Product>, r: JoinRow): Product
  {
    if r.id in m then m[r.id] else ProductOfRow(r)
  }

  /** The dictionary after one row: its product, new or found, with the
      row's source appended. */
  function After(m: map<string, Product>, r: JoinRow): (m2: map<string, Product>)
    ensures r.id in m2 && forall id :: id in m2 <==> id in m || id == r.id
  {
    m[r.id := Before(m, r).(sources := Before(m, r).sources + Extra(r))]
  }

  lemma PrefixSnoc<T>(xs: seq<T>, i: nat)
    requires i < |xs|
    ensures xs[..i + 1] == xs[..i] + [xs[i]]
  {
  }

  lemma PrefixAll<T>(xs: seq<T>)
    ensures xs[..|xs|] == xs
  {
  }

  /** The loop's state after the rows `rs`: the ids in insertion order, and
      under each id the product as the grouping leaves it. */
  ghost predicate Mirrors(m: map<string, Product>, order: seq<string>, rs: seq<JoinRow>)
  {
    && order == Seqs.Dedupe(Ids(rs))
    && (forall id :: id in m <==> id in Ids(rs))
    && (forall id :: id in m ==> id in Ids(rs) && m[id] == Expected(rs, id))
  }

  /** The loop body keeps `Mirrors`: a new id is inserted with an empty
      product and appended to the order, then the row's source is pushed. */
  lemma MirrorsStep(m: map<string, Product>, order: seq<string>, rs: seq<JoinRow>, r: JoinRow,
                    order1: seq<string>, m2: map<string, Product>)
    requires Mirrors(m, order, rs)
    requires order1 == if r.id in m then order else order + [r.id]
    requires m2 == After(m, r)
    ensures Mirrors(m2, order1, rs + [r])
  {
    OrderStep(m, order, rs, r, order1);
    KeysStep(m, rs, r);
    MirrorsValues(m, rs, r);
  }

  lemma OrderStep(m: map<string, Product>, order: seq<string>, rs: seq<JoinRow>, r: JoinRow, order1: seq<string>)
    requires order == Seqs.Dedupe(Ids(rs))
    requires forall id :: id in m <==> id in Ids(rs)
    requires order1 == if r.id in m then order else order + [r.id]
    ensures order1 == Seqs.Dedupe(Ids(rs + [r]))
  {
    IdsSnoc(rs, r);
  }

  lemma KeysStep(m: map<string, Product>, rs: seq<JoinRow>, r: JoinRow)
    requires forall id :: id in m <==> id in Ids(rs)
    ensures forall id :: id in After(m, r) <==> id in Ids(rs + [r])
  {
    IdsOfSnoc(rs, r);
  }

  lemma MirrorsValues(m: map<string, Product>, rs: seq<JoinRow>, r: JoinRow)
    requires forall id :: id in m <==> id in Ids(rs)
    requires forall id :: id in m ==> id in Ids(rs) && m[id] == Expected(rs, id)
    ensures forall id :: id in After(m, r) ==> id in Ids(rs + [r]) && After(m, r)[id] == Expected(rs + [r], id)
  {
    var m2 := After(m, r);
    RowValue(m, rs, r);
    forall id | id in m2 && id != r.id
      ensures id in Ids(rs + [r]) && m2[id] == Expected(rs + [r], id)
    {
      OtherValue(m, rs, r, id);
    }
  }

  lemma OtherValue(m: map<string, Product>, rs: seq<JoinRow>, r: JoinRow, id: string)
    requires id in m && id != r.id
    requires forall id :: id in m ==> id in Ids(rs) && m[id] == Expected(rs, id)
    ensures id in Ids(rs + [r]) && m[id] == Expected(rs + [r], id)
  {
    ExpectedKept(rs, r, id);
  }

  /** The entry under the row's own id, before its source is pushed, is what
      it was, or a fresh product made from the row. */
  lemma RowValue(m: map<string, Product>, rs: seq<JoinRow>, r: JoinRow)
    requires forall id :: id in m <==> id in Ids(rs)
    requires forall id :: id in m ==> id in Ids(rs) && m[id] == Expected(rs, id)
    ensures r.id in Ids(rs + [r])
    ensures Before(m, r).(sources := Before(m, r).sources + Extra(r)) == Expected(rs + [r], r.id)
  {
    if r.id in m {
      ExpectedKept(rs, r, r.id);
    } else {
      ExpectedNew(rs, r);
    }
  }

  lemma MirrorsOutput(m: map<string, Product>, order: seq<string>, rows: seq<JoinRow>, products: seq<Product>)
    requires Mirrors(m, order, rows)
    requires forall id :: id in order ==> id in m
    requires |products| == |order| && forall k :: 0 <= k < |order| ==> products[k] == m[order[k]]
    ensures products == Grouped(rows)
  {
  }

  /** A product already seen keeps its first row and gains the row's source
      when the row is one of its own. */
  lemma ExpectedKept(rows: seq<JoinRow>, r: JoinRow, id: string)
    requires id in Ids(rows)
    ensures id in Ids(rows + [r])
    ensures Expected(rows + [r], id) ==
      Expected(rows, id).(sources := Expected(rows, id).sources + (if r.id == id then Extra(r) else []))
  {
    IdsOfSnoc(rows, r);
    Seqs.FirstIndexAppend(Ids(rows), r.id, id);
    SourcesSnoc(rows, r, id);
  }

  /** A product seen for the first time is made from this row. */
  lemma ExpectedNew(rows: seq<JoinRow>, r: JoinRow)
    requires r.id !in Ids(rows)
    ensures r.id in Ids(rows + [r])
    ensures Expected(rows + [r], r.id) == ProductOfRow(r).(sources := Extra(r))
  {
    IdsOfSnoc(rows, r);
    Seqs.FirstIndexAppendNew(Ids(rows), r.id);
    SourcesSnoc(rows, r, r.id);
    NoSources(rows, r.id);
  }

  /** The source one row adds to its product: one if it has a source. */
  function Extra(r: JoinRow): seq<ProductSource>
  {
    if HasSource(r) then [SourceOfRow(r)] else []
  }

  lemma IdsSnoc(rows: seq<JoinRow>, r: JoinRow)
    ensures Ids(rows + [r]) == Ids(rows) + [r.id]
    ensures Seqs.Dedupe(Ids(rows + [r])) ==
      if r.id in Ids(rows) then Seqs.Dedupe(Ids(rows)) else Seqs.Dedupe(Ids(rows)) + [r.id]
  {
    var all := Ids(rows + [r]);
    IdsOfSnoc(rows, r);
    assert all[..|all| - 1] == Ids(rows);
  }

  lemma IdsOfSnoc(rows: seq<JoinRow>, r: JoinRow)
    ensures Ids(rows + [r]) == Ids(rows) + [r.id]
  {
  }

  lemma SourcesSnoc(rows: seq<JoinRow>, r: JoinRow, id: string)
    ensures SourcesFor(rows + [r], id) == SourcesFor(rows, id) + (if r.id == id then Extra(r) else [])
  {
    var keep := (x: JoinRow) => x.id == id && HasSource(x);
    Seqs.FilterAppend(rows, [r], keep);
    assert Seqs.Filter([r], keep) == if keep(r) then [r] else [] by {
      assert [r][1..] == [];
    }
  }

  lemma NoSources(rows: seq<JoinRow>, id: string)
    requires id !in Ids(rows)
    ensures SourcesFor(rows, id) == []
  {
    assert forall k :: 0 <= k < |rows| ==> rows[k].id != id by {
      assert forall k :: 0 <= k < |rows| ==> Ids(rows)[k] == rows[k].id;
    }
    FilterNone(rows, (x: JoinRow) => x.id == id && HasSource(x));
  }

  /** The response holds each id once, in order of first appearance, and
      every row's id is among them. */
  lemma GroupedIds(rows: seq<JoinRow>)
    ensures var g := Grouped(rows);
      && (forall i, j :: 0 <= i < j < |g| ==> g[i].id != g[j].id)
      && (forall k :: 0 <= k < |rows| ==> exists m :: 0 <= m < |g| && g[m].id == rows[k].id)
      && (forall i, j :: 0 <= i < j < |g| ==> Seqs.FirstIndex(Ids(rows), g[i].id) < Seqs.FirstIndex(Ids(rows), g[j].id))
  {
    var order := Seqs.Dedupe(Ids(rows));
    var g := Grouped(rows);
    forall k | 0 <= k < |rows|
      ensures exists m :: 0 <= m < |g| && g[m].id == rows[k].id
    {
      assert Ids(rows)[k] in order;
      var m :| 0 <= m < |order| && order[m] == Ids(rows)[k];
      assert g[m].id == rows[k].id;
    }
  }

  /** Each product has the name and archive flag of the first row with its
      id, and the sources of all rows with its id that carry one. */
  lemma GroupedFirstRow(rows: seq<JoinRow>, m: nat)
    requires m < |Grouped(rows)|
    ensures var g := Grouped(rows)[m];
      var first := rows[Seqs.FirstIndex(Ids(rows), g.id)];
      && first.id == g.id
      && (forall k :: 0 <= k < |rows| && rows[k].id == g.id ==> Seqs.FirstIndex(Ids(rows), g.id) <= k)
      && g.productName == first.productName
      && (g.isArchived <==> first.isArchived != 0)
      && g.sources == SourcesFor(rows, g.id)
  {
    var id := Grouped(rows)[m].id;
    assert Grouped(rows)[m] == Expected(rows, id);
    ExpectedFirstRow(rows, id);
  }

  lemma ExpectedFirstRow(rows: seq<JoinRow>, id: string)
    requires id in Ids(rows)
    ensures var first := rows[Seqs.FirstIndex(Ids(rows), id)];
      && first.id == id
      && (forall k :: 0 <= k < |rows| && rows[k].id == id ==> Seqs.FirstIndex(Ids(rows), id) <= k)
      && Expected(rows, id).productName == first.productName
      && (Expected(rows, id).isArchived <==> first.isArchived != 0)
  {
    var i := Seqs.FirstIndex(Ids(rows), id);
    assert forall k :: 0 <= k < i ==> Ids(rows)[..i][k] == rows[k].id;
  }

  // ------------------------------------------------------ stored sources

  /** A row of `product_sources` as the POST and PUT handlers insert it. */
  datatype SourceRow = SourceRow(
    productId: string,
    name: string,
    price: real,
    startDate: Option<string>,
    endDate: Option<string>,
    alertsEnabled: bool,
    isOffer: bool)

  /** `[id, s.name, s.price, s.isOffer ? s.startDate : null, ...]`: the dates
      are stored only for offers. */
  function SourceRowOf(productId: string, s: ProductSource): (r: SourceRow)
    ensures r.productId == productId && r.name == s.name && r.isOffer == s.isOffer
    ensures r.startDate.None? <==> !s.isOffer
    ensures r.endDate.None? <==> !s.isOffer
    ensures s.isOffer ==> r.startDate == Some(s.startDate) && r.endDate == Some(s.endDate)
  {
    SourceRow(productId, s.name, s.price,
              if s.isOffer then Some(s.startDate) else None,
              if s.isOffer then Some(s.endDate) else None,
              s.alertsEnabled, s.isOffer)
  }

  function SourceRowsOf(productId: string, sources: seq<ProductSource>): (rows: seq<SourceRow>)
    ensures |rows| == |sources|
    ensures forall k :: 0 <= k < |sources| ==> rows[k] == SourceRowOf(productId, sources[k])
  {
    seq(|sources|, k requires 0 <= k < |sources| => SourceRowOf(productId, sources[k]))
  }

  /** `categoryId ? categoryId : null`: an empty category id is stored as
      null. */
  function CategoryColumn(categoryId: Option<string>): (c: Option<string>)
    ensures c.Some? <==> categoryId.Some? && categoryId.value != ""
    ensures c.Some? ==> c == categoryId
  {
    if categoryId.Some? && categoryId.value != "" then categoryId else None
  }

  /** A row of `products` as far as these handlers touch it. */
  datatype ProductRow = ProductRow(name: string, userId: string, categoryId: Option<string>, isArchived: bool)

  /** The rows of `product_sources` that belong to one product. */
  function RowsOf(rows: seq<SourceRow>, productId: string): seq<SourceRow>
  {
    Seqs.Filter(rows, (r: SourceRow) => r.productId == productId)
  }

  /** The two tables. A failing statement is chosen by the caller: `failAt`
      names the statement of the transaction that throws (0 the UPDATE, 1
      the DELETE, 2 the INSERT, 3 the COMMIT), `None` when none does. */
  class Database {
    var products: map<string, ProductRow>
    var sourceRows: seq<SourceRow>

    constructor()
      ensures products == map[] && sourceRows == []
    {
      products := map[];
      sourceRows := [];
    }

    /** PUT /api/products/:id: inside a transaction, update the name and
      category, delete every source row of the product, insert one row per
      submitted source, commit. Status 200 on success; on any failure the
      transaction is rolled back and both tables are as they were, with 500. */
    method UpdateProduct(id: string, productName: string, sources: seq<ProductSource>,
                         categoryId: Option<string>, failAt: Option<nat>) returns (status: int)
      modifies this
      ensures status == 200 || status == 500
      ensures status == 500 ==> products == old(products) && sourceRows == old(sourceRows)
      ensures status == 200 ==>
        && products == (if id in old(products)
                        then old(products)[id := old(products)[id].(name := productName, categoryId := CategoryColumn(categoryId))]
                        else old(products))
        && sourceRows == Seqs.Filter(old(sourceRows), (r: SourceRow) => r.productId != id) + SourceRowsOf(id, sources)
    {
      var savedProducts, savedRows := products, sourceRows;
      if failAt == Some(0) {
        products, sourceRows := savedProducts, savedRows;
        return 500;
      }
      if id in products {
        products := products[id := products[id].(name := productName, categoryId := CategoryColumn(categoryId))];
      }
      if failAt == Some(1) {
        products, sourceRows := savedProducts, savedRows;
        return 500;
      }
      sourceRows := Seqs.Filter(sourceRows, (r: SourceRow) => r.productId != id);
      if |sources| > 0 {
        if failAt == Some(2) {
          products, sourceRows := savedProducts, savedRows;
          return 500;
        }
        sourceRows := sourceRows + SourceRowsOf(id, sources);
      }
      if failAt == Some(3) {
        products, sourceRows := savedProducts, savedRows;
        return 500;
      }
      status := 200;
    }

    /** PATCH /api/products/:id/archive once the guard has passed. */
    method SetArchived(id: string, isArchived: bool)
      modifies this
      ensures sourceRows == old(sourceRows)
      ensures products == if id in old(products) then old(products)[id := old(products)[id].(isArchived := isArchived)] else old(products)
    {
      if id in products {
        products := products[id := products[id].(isArchived := isArchived)];
      }
    }
  }

  /** After a successful update the product's stored sources are exactly the
      submitted list, in order, and every other product keeps its rows. */
  lemma ReplaceAllSources(old_rows: seq<SourceRow>, id: string, sources: seq<ProductSource>, other: string)
    requires other != id
    ensures var after := Seqs.Filter(old_rows, (r: SourceRow) => r.productId != id) + SourceRowsOf(id, sources);
      && RowsOf(after, id) == SourceRowsOf(id, sources)
      && RowsOf(after, other) == RowsOf(old_rows, other)
  {
    var kept := Seqs.Filter(old_rows, (r: SourceRow) => r.productId != id);
    var added := SourceRowsOf(id, sources);
    Seqs.FilterAppend(kept, added, (r: SourceRow) => r.productId == id);
    Seqs.FilterAppend(kept, added, (r: SourceRow) => r.productId == other);
    FilterNone(kept, (r: SourceRow) => r.productId == id);
    FilterAll(added, (r: SourceRow) => r.productId == id);
    FilterNone(added, (r: SourceRow) => r.productId == other);
    FilterOfFilter(old_rows, id, other);
  }

  lemma {:induction false} FilterNone<T>(xs: seq<T>, keep: T -> bool)
    requires forall k :: 0 <= k < |xs| ==> !keep(xs[k])
    ensures Seqs.Filter(xs, keep) == []
  {
    if |xs| > 0 {
      FilterNone(xs[1..], keep);
    }
  }

  lemma {:induction false} FilterAll<T>(xs: seq<T>, keep: T -> bool)
    requires forall k :: 0 <= k < |xs| ==> keep(xs[k])
    ensures Seqs.Filter(xs, keep) == xs
  {
    if |xs| > 0 {
      FilterAll(xs[1..], keep);
      assert xs == [xs[0]] + xs[1..];
    }
  }

  lemma {:induction false} FilterOfFilter(rows: seq<SourceRow>, id: string, other: string)
    requires other != id
    ensures RowsOf(Seqs.Filter(rows, (r: SourceRow) => r.productId != id), other) == RowsOf(rows, other)
  {
    if |rows| > 0 {
      var rest := rows[1..];
      FilterOfFilter(rest, id, other);
      var keptRest := Seqs.Filter(rest, (r: SourceRow) => r.productId != id);
      if rows[0].productId != id {
        assert ([rows[0]] + keptRest)[1..] == keptRest;
      }
    }
  }
}
