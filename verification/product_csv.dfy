// The CSV-like exporter and importer of src/utils/productUtils.ts. A line
// holds eight comma-separated cells; the two name cells are wrapped in double
// quotes, which the importer strips again. Nothing is escaped, so a comma,
// quote or line break inside a name breaks the line apart; the round trip
// below therefore asks for names without them.

module ProductCsv {
  import opened Wrappers
  import opened Types
  import opened Text
  import Seqs

  /** `headers.join(',')`: the eight column titles, comma-separated. */
  const Header: string :=
    "Product Name" + "," + "Source Name" + "," + "Price" + "," + "Start Date" + ","
    + "End Date" + "," + "Alerts Enabled" + "," + "Is Archived" + "," + "Is Offer"

  /** The header holds no line break and neither starts nor ends with white
      space. */
  lemma HeaderShape()
    ensures '\n' !in Header
    ensures |Header| > 0 && !IsSpace(Header[0]) && !IsSpace(Header[|Header| - 1])
  {
    assert Header[0] == 'P' && Header[|Header| - 1] == 'r';
  }

  /** `b?.toString() || 'false'` for a boolean. */
  function BoolText(b: bool): (t: string)
    ensures t == "true" <==> b
  {
    if b then "true" else "false"
  }

  /** `"${s}"`: the text between double quotes, nothing escaped. */
  function Quote(s: string): string
  {
    ['"'] + s + ['"']
  }

  /** The eight cells exported for one source of one product; `priceText`
      stands for `price.toString()`. The date cells are empty for a source
      that is not an offer. */
  function Cells(p: Product, s: ProductSource, priceText: real -> string): (cells: seq<string>)
    ensures |cells| == 8
    ensures cells[0] == Quote(p.productName) && cells[1] == Quote(Label(s))
    ensures !s.isOffer ==> cells[3] == "" && cells[4] == ""
    ensures s.isOffer ==> cells[3] == s.startDate && cells[4] == s.endDate
    ensures cells[5] == BoolText(s.alertsEnabled) && cells[6] == BoolText(p.isArchived)
    ensures cells[7] == BoolText(s.isOffer)
  {
    [ Quote(p.productName),
      Quote(Label(s)),
      priceText(s.price),
      if s.isOffer then s.startDate else "",
      if s.isOffer then s.endDate else "",
      BoolText(s.alertsEnabled),
      BoolText(p.isArchived),
      BoolText(s.isOffer) ]
  }

  function Row(pair: (Product, ProductSource), priceText: real -> string): string
  {
    Join(Cells(pair.0, pair.1, priceText), ',')
  }

  /** One row per (product, source) pair, in order. */
  function Rows(pairs: seq<(Product, ProductSource)>, priceText: real -> string): (r: seq<string>)
    ensures |r| == |pairs|
    ensures forall i :: 0 <= i < |pairs| ==> r[i] == Row(pairs[i], priceText)
  {
    seq(|pairs|, i requires 0 <= i < |pairs| => Row(pairs[i], priceText))
  }

  /** The exported text: the header line, then one line per (product, source)
      pair, product by product. */
  function CsvText(ps: seq<Product>, priceText: real -> string): string
  {
    Join([Header] + Rows(Pairs(ps), priceText), '\n')
  }

  /** `exportToCSV`: rows pushed in nested loops over the products and their
      sources, then joined with line breaks. */
  method ExportToCSV(ps: seq<Product>, priceText: real -> string) returns (csv: string)
    ensures csv == CsvText(ps, priceText)
  {
    var rows := [Header];
    var i := 0;
    while i < |ps|
      invariant 0 <= i <= |ps|
      invariant rows == [Header] + Rows(Pairs(ps[..i]), priceText)
    {
      var p := ps[i];
      ghost var done := Pairs(ps[..i]);
      var j := 0;
      while j < |p.sources|
        invariant 0 <= j <= |p.sources|
        invariant rows == [Header] + Rows(done + SourcePairs(p)[..j], priceText)
      {
        ghost var before := done + SourcePairs(p)[..j];
        assert done + SourcePairs(p)[..j + 1] == before + [(p, p.sources[j])];
        RowsSnoc(before, (p, p.sources[j]), priceText);
        rows := rows + [Row((p, p.sources[j]), priceText)];
        j := j + 1;
      }
      PairsSnoc(ps, i);
      assert SourcePairs(p)[..j] == SourcePairs(p);
      i := i + 1;
    }
    assert ps[..i] == ps;
    csv := Join(rows, '\n');
  }

  lemma RowsSnoc(pairs: seq<(Product, ProductSource)>, x: (Product, ProductSource), priceText: real -> string)
    ensures Rows(pairs + [x], priceText) == Rows(pairs, priceText) + [Row(x, priceText)]
  {
  }

  lemma PairsSnoc(ps: seq<Product>, i: nat)
    requires i < |ps|
    ensures Pairs(ps[..i + 1]) == Pairs(ps[..i]) + SourcePairs(ps[i])
  {
    PairsAppend(ps[..i], [ps[i]]);
    assert ps[..i + 1] == ps[..i] + [ps[i]];
    assert Pairs([ps[i]]) == SourcePairs(ps[i]) + Pairs([]);
  }

  /** Text free of the three characters the format cannot carry. */
  predicate Plain(s: string)
  {
    ',' !in s && '"' !in s && '\n' !in s
  }

  /** Exporting gives a header line plus one line per (product, source) pair
      when no exported text holds a line break, and each of those lines
      splits back into its eight cells when no cell holds a comma. */
  lemma ExportLines(ps: seq<Product>, priceText: real -> string)
    requires forall i, j :: 0 <= i < |ps| && 0 <= j < |ps[i].sources| ==> PlainPair(ps[i], ps[i].sources[j])
    requires forall x :: Plain(priceText(x))
    ensures Split(CsvText(ps, priceText), '\n') == [Header] + Rows(Pairs(ps), priceText)
    ensures |Split(CsvText(ps, priceText), '\n')| == 1 + SourceCount(ps)
    ensures forall k :: 0 <= k < |Pairs(ps)| ==>
      Split(Rows(Pairs(ps), priceText)[k], ',') == Cells(Pairs(ps)[k].0, Pairs(ps)[k].1, priceText)
  {
    PairsLength(ps);
    var rows := Rows(Pairs(ps), priceText);
    forall k | 0 <= k < |Pairs(ps)|
      ensures '\n' !in rows[k]
      ensures Split(rows[k], ',') == Cells(Pairs(ps)[k].0, Pairs(ps)[k].1, priceText)
    {
      PairsMember(ps, k);
      RowCells(Pairs(ps)[k].0, Pairs(ps)[k].1, priceText);
    }
    var lines := [Header] + rows;
    HeaderShape();
    assert forall k :: 0 <= k < |lines| ==> '\n' !in lines[k] by {
      forall k | 0 <= k < |lines| ensures '\n' !in lines[k] {
        if k > 0 {
          assert lines[k] == rows[k - 1];
        }
      }
    }
    SplitJoin(lines, '\n');
  }

  /** The cells of one pair carry no separator, quote or line break. */
  predicate PlainPair(p: Product, s: ProductSource)
  {
    Plain(p.productName) && Plain(Label(s)) && (s.isOffer ==> Plain(s.startDate) && Plain(s.endDate))
  }

  /** Every pair comes from some product and one of its sources. */
  lemma PairsMember(ps: seq<Product>, k: nat)
    requires k < |Pairs(ps)|
    ensures exists i, j :: 0 <= i < |ps| && 0 <= j < |ps[i].sources| && Pairs(ps)[k] == (ps[i], ps[i].sources[j])
    decreases |ps|
  {
    if k < |ps[0].sources| {
      assert Pairs(ps)[k] == (ps[0], ps[0].sources[k]);
    } else {
      PairsMember(ps[1..], k - |ps[0].sources|);
      var i, j :| 0 <= i < |ps[1..]| && 0 <= j < |ps[1..][i].sources|
        && Pairs(ps[1..])[k - |ps[0].sources|] == (ps[1..][i], ps[1..][i].sources[j]);
      assert Pairs(ps)[k] == (ps[i + 1], ps[i + 1].sources[j]);
    }
  }

  /** A line made of plain cells splits back into those cells, without line
      breaks; the quotes are then removed from the name cells. */
  lemma RowCells(p: Product, s: ProductSource, priceText: real -> string)
    requires PlainPair(p, s)
    requires forall x :: Plain(priceText(x))
    ensures '\n' !in Row((p, s), priceText)
    ensures Split(Row((p, s), priceText), ',') == Cells(p, s, priceText)
    ensures Values(Row((p, s), priceText)) == PlainCells(p, s, priceText)
  {
    var cells := Cells(p, s, priceText);
    CellsPlain(p, s, priceText);
    SplitJoin(cells, ',');
    JoinAvoids(cells, ',', '\n');
    UnquoteCells(p, s, priceText);
  }

  lemma CellsPlain(p: Product, s: ProductSource, priceText: real -> string)
    requires PlainPair(p, s)
    requires forall x :: Plain(priceText(x))
    ensures var cells := Cells(p, s, priceText);
      forall k :: 0 <= k < |cells| ==> ',' !in cells[k] && '\n' !in cells[k]
  {
    assert Plain(priceText(s.price));
  }

  lemma UnquoteCells(p: Product, s: ProductSource, priceText: real -> string)
    requires PlainPair(p, s)
    requires forall x :: Plain(priceText(x))
    ensures var cells := Cells(p, s, priceText);
      seq(8, k requires 0 <= k < 8 => Strip(cells[k], '"')) == PlainCells(p, s, priceText)
  {
    var cells := Cells(p, s, priceText);
    var got := seq(8, k requires 0 <= k < 8 => Strip(cells[k], '"'));
    forall k | 0 <= k < 8
      ensures got[k] == PlainCells(p, s, priceText)[k]
    {
      UnquoteCell(p, s, priceText, k);
    }
  }

  lemma UnquoteCell(p: Product, s: ProductSource, priceText: real -> string, k: nat)
    requires PlainPair(p, s)
    requires forall x :: Plain(priceText(x))
    requires k < 8
    ensures Strip(Cells(p, s, priceText)[k], '"') == PlainCells(p, s, priceText)[k]
  {
    var cell := Cells(p, s, priceText)[k];
    var want := PlainCells(p, s, priceText)[k];
    if k == 0 {
      assert cell == ['"'] + p.productName + ['"'] && want == p.productName;
      StripQuoted(p.productName, '"');
    } else if k == 1 {
      assert cell == ['"'] + Label(s) + ['"'] && want == Label(s);
      StripQuoted(Label(s), '"');
    } else {
      assert cell == want;
      if k == 2 {
        assert Plain(priceText(s.price));
      } else if k == 3 || k == 4 {
        assert cell == "" || Plain(cell);
      } else if k == 5 {
        BoolPlain(s.alertsEnabled);
      } else if k == 6 {
        BoolPlain(p.isArchived);
      } else {
        BoolPlain(s.isOffer);
      }
      assert '"' !in cell;
    }
  }

  lemma BoolPlain(b: bool)
    ensures Plain(BoolText(b))
  {
    assert BoolText(b) == if b then ['t', 'r', 'u', 'e'] else ['f', 'a', 'l', 's', 'e'];
  }

  /** The cells of a pair as the importer reads them: quotes removed. */
  function PlainCells(p: Product, s: ProductSource, priceText: real -> string): (cells: seq<string>)
    ensures |cells| == 8
  {
    [ p.productName,
      Label(s),
      priceText(s.price),
      if s.isOffer then s.startDate else "",
      if s.isOffer then s.endDate else "",
      BoolText(s.alertsEnabled),
      BoolText(p.isArchived),
      BoolText(s.isOffer) ]
  }

  // ---------------------------------------------------------------- import

  /** What the importer reads from its surroundings: the instant as an ISO
      8601 text (`new Date().toISOString()`, read once per import here), and
      the supply of fresh ids (`Date.now()` plus a random suffix), the n-th
      id drawn being `freshId(n)`. `parsePrice` stands for
      `parseFloat(cell) || 0`. */
  datatype ImportEnv = ImportEnv(nowIso: string, freshId: nat -> string, parsePrice: string -> real)
  {
    /** `new Date().toISOString().split('T')[0]`. */
    function Today(): string
    {
      DatePart(nowIso)
    }
  }

  /** `line.split(',').map(v => v.replace(/"/g, ''))`. */
  function Values(line: string): (vs: seq<string>)
    ensures |vs| == |Split(line, ',')| && |vs| >= 1
    ensures forall k :: 0 <= k < |vs| ==> vs[k] == Strip(Split(line, ',')[k], '"')
  {
    var cells := Split(line, ',');
    seq(|cells|, k requires 0 <= k < |cells| => Strip(cells[k], '"'))
  }

  /** `values[k]`; a missing cell reads as the empty text. */
  function Field(vs: seq<string>, k: nat): string
  {
    if k < |vs| then vs[k] else ""
  }

  /** The source a line describes. A source that is not an offer gets today's
      date for both dates. */
  function SourceOf(vs: seq<string>, env: ImportEnv, id: string): (s: ProductSource)
    ensures s.id == id && s.url == "" && s.name == Field(vs, 1) && s.sourceName == Field(vs, 1)
    ensures s.isOffer <==> Field(vs, 7) == "true"
    ensures s.alertsEnabled <==> Field(vs, 5) == "true"
    ensures s.isOffer ==> s.startDate == Field(vs, 3) && s.endDate == Field(vs, 4)
    ensures !s.isOffer ==> s.startDate == env.Today() && s.endDate == env.Today()
  {
    var isOffer := Field(vs, 7) == "true";
    ProductSource(
      id,
      Field(vs, 1),
      "",
      env.parsePrice(Field(vs, 2)),
      isOffer,
      Field(vs, 1),
      if isOffer then Field(vs, 3) else env.Today(),
      if isOffer then Field(vs, 4) else env.Today(),
      Field(vs, 5) == "true")
  }

  /** The product a name's first line creates, still without sources. */
  function NewProduct(name: string, vs: seq<string>, env: ImportEnv, id: string): (p: Product)
    ensures p.id == id && p.productName == name && p.sources == []
    ensures p.isArchived <==> Field(vs, 6) == "true"
    ensures p.channelStatus == Some(NotUploaded) && p.createdBy == ""
  {
    Product(id, name, None, None, [], Some(NotUploaded), None, "", None,
            Field(vs, 6) == "true", None, env.nowIso, env.nowIso)
  }

  /** The importer's dictionary: the product names in order of first
      appearance, the product under each name, and how many ids have been
      drawn. */
  datatype Groups = Groups(names: seq<string>, table: map<string, Product>, drawn: nat)
  {
    /** The names are distinct and are exactly the keys of the table. */
    ghost predicate Valid()
    {
      Seqs.Distinct(names) && (forall k :: k in table <==> k in names)
    }

    /** `Object.values(products)`: the products in order of first appearance. */
    function Products(): (ps: seq<Product>)
      requires Valid()
      ensures |ps| == |names|
      ensures forall i :: 0 <= i < |names| ==> ps[i] == table[names[i]]
    {
      seq(|names|, i requires 0 <= i < |names| => table[names[i]])
    }
  }

  const NoGroups := Groups([], map[], 0)

  /** `if (!products[productName]) products[productName] = {...}`: a product
      for the line's name, created with a fresh id when the name is new. */
  function Admit(g: Groups, vs: seq<string>, env: ImportEnv): Groups
  {
    var name := Field(vs, 0);
    if name in g.table then g
    else Groups(g.names + [name], g.table[name := NewProduct(name, vs, env, env.freshId(g.drawn))], g.drawn + 1)
  }

  /** `products[productName].sources.push(source)`, the source with a fresh id. */
  function Append(g: Groups, vs: seq<string>, env: ImportEnv): Groups
    requires Field(vs, 0) in g.table
  {
    var name := Field(vs, 0);
    var p := g.table[name];
    Groups(g.names, g.table[name := p.(sources := p.sources + [SourceOf(vs, env, env.freshId(g.drawn))])], g.drawn + 1)
  }

  /** One iteration of the import loop. */
  function Step(g: Groups, line: string, env: ImportEnv): Groups
  {
    Append(Admit(g, Values(line), env), Values(line), env)
  }

  /** The dictionary stays well formed: the names stay distinct and stay the
      keys of the table. */
  lemma StepValid(g: Groups, line: string, env: ImportEnv)
    requires g.Valid()
    ensures Step(g, line, env).Valid()
  {
    var name := Field(Values(line), 0);
    assert name !in g.table ==> Seqs.Distinct(g.names + [name]);
  }

  /** A line whose name is already known appends one source to that product,
      drawing one id; its `isArchived` and the order of names are kept. */
  lemma StepKnown(g: Groups, line: string, env: ImportEnv)
    requires Field(Values(line), 0) in g.table
    ensures var g' := Step(g, line, env);
      var name := Field(Values(line), 0);
      && g'.names == g.names
      && g'.drawn == g.drawn + 1
      && name in g'.table
      && g'.table[name] == g.table[name].(sources := g.table[name].sources
                                 + [SourceOf(Values(line), env, env.freshId(g.drawn))])
  {
  }

  /** A line whose name is new starts a product listed after the others, with
      `isArchived` taken from this line and this line's source as its only
      source; two ids are drawn, the product's first. */
  lemma StepNew(g: Groups, line: string, env: ImportEnv)
    requires Field(Values(line), 0) !in g.table
    ensures var g' := Step(g, line, env);
      var name := Field(Values(line), 0);
      && g'.names == g.names + [name]
      && g'.drawn == g.drawn + 2
      && name in g'.table
      && g'.table[name] == NewProduct(name, Values(line), env, env.freshId(g.drawn))
                             .(sources := [SourceOf(Values(line), env, env.freshId(g.drawn + 1))])
  {
    var vs := Values(line);
    var name := Field(vs, 0);
    var p := NewProduct(name, vs, env, env.freshId(g.drawn));
    var a := Admit(g, vs, env);
    assert a == Groups(g.names + [name], g.table[name := p], g.drawn + 1);
    var src := SourceOf(vs, env, env.freshId(g.drawn + 1));
    assert Step(g, line, env) == Groups(a.names, a.table[name := p.(sources := p.sources + [src])], a.drawn + 1);
    assert p.sources + [src] == [src];
  }

  /** Products under other names are untouched. */
  lemma StepOthers(g: Groups, line: string, env: ImportEnv, k: string)
    requires k in g.table && k != Field(Values(line), 0)
    ensures k in Step(g, line, env).table && Step(g, line, env).table[k] == g.table[k]
  {
  }

  /** The import loop over the lines after the header. */
  function FoldLines(g: Groups, lines: seq<string>, env: ImportEnv): Groups
    decreases |lines|
  {
    if |lines| == 0 then g else FoldLines(Step(g, lines[0], env), lines[1..], env)
  }

  lemma {:induction false} FoldLinesValid(g: Groups, lines: seq<string>, env: ImportEnv)
    requires g.Valid()
    ensures FoldLines(g, lines, env).Valid()
    decreases |lines|
  {
    if |lines| > 0 {
      StepValid(g, lines[0], env);
      FoldLinesValid(Step(g, lines[0], env), lines[1..], env);
    }
  }

  lemma FoldLinesNext(g: Groups, lines: seq<string>, i: nat, env: ImportEnv)
    requires i < |lines|
    ensures FoldLines(g, lines[i..], env) == FoldLines(Step(g, lines[i], env), lines[i + 1..], env)
  {
    assert lines[i..][1..] == lines[i + 1..];
  }

  /** The lines of a text: trimmed, split at line breaks; the first is the
      header and is skipped. */
  function BodyLines(text: string): seq<string>
  {
    Split(Trim(text), '\n')[1..]
  }

  /** The properties a plain object inherits from `Object.prototype`. The
      importer's dictionary `{}` already answers `products[name]` for these,
      with a function or with the prototype itself. */
  const PrototypeKeys: set<string> := {
    "constructor", "hasOwnProperty", "isPrototypeOf", "propertyIsEnumerable",
    "toLocaleString", "toString", "valueOf", "__proto__",
    "__defineGetter__", "__defineSetter__", "__lookupGetter__", "__lookupSetter__"}

  /** Some line names a product after an inherited property. For such a line
      `!products[productName]` is false, so no product is created, and
      `products[productName].sources` is undefined, so the push throws a
      TypeError. */
  predicate InheritedName(lines: seq<string>)
  {
    exists k :: 0 <= k < |lines| && Field(Values(lines[k]), 0) in PrototypeKeys
  }

  /** `parseCSV` on a text that does not throw: the products the dictionary
      holds at the end. */
  function ParseCsv(text: string, env: ImportEnv): seq<Product>
  {
    FoldLinesValid(NoGroups, BodyLines(text), env);
    FoldLines(NoGroups, BodyLines(text), env).Products()
  }

  /** `parseCSV`: an index loop from the second line on, filling the
      dictionary and pushing each line's source onto its product. It throws,
      here `None`, exactly when some line names an inherited property. */
  method ParseCSV(text: string, env: ImportEnv) returns (products: Option<seq<Product>>)
    ensures products.None? <==> InheritedName(BodyLines(text))
    ensures products.Some? ==> products.value == ParseCsv(text, env)
  {
    var lines := Split(Trim(text), '\n');
    var names: seq<string> := [];
    var table: map<string, Product> := map[];
    var drawn: nat := 0;
    var i := 1;
    while i < |lines|
      invariant 1 <= i <= |lines|
      invariant Groups(names, table, drawn).Valid()
      invariant FoldLines(Groups(names, table, drawn), lines[i..], env) == FoldLines(NoGroups, lines[1..], env)
      invariant forall j :: 1 <= j < i ==> Field(Values(lines[j]), 0) !in PrototypeKeys
    {
      if Field(Values(lines[i]), 0) in PrototypeKeys {
        // `products[productName].sources.push(source)` on an inherited property
        assert lines[1..][i - 1] == lines[i];
        return None;
      }
      ghost var before := Groups(names, table, drawn);
      names, table, drawn := ReadLine(names, table, drawn, lines[i], env);
      StepValid(before, lines[i], env);
      FoldLinesNext(before, lines, i, env);
      i := i + 1;
    }
    FoldLinesValid(NoGroups, lines[1..], env);
    forall k | 0 <= k < |lines[1..]|
      ensures Field(Values(lines[1..][k]), 0) !in PrototypeKeys
    {
      assert lines[1..][k] == lines[k + 1];
    }
    products := Some(Groups(names, table, drawn).Products());
  }

  /** The body of the import loop for one line: the product for the line's
      name is created if the name is new, then the line's source is pushed
      onto it. */
  method ReadLine(names: seq<string>, table: map<string, Product>, drawn: nat, line: string, env: ImportEnv)
    returns (names': seq<string>, table': map<string, Product>, drawn': nat)
    ensures Groups(names', table', drawn') == Step(Groups(names, table, drawn), line, env)
  {
    names', table', drawn' := names, table, drawn;
    var values := Values(line);
    var productName := Field(values, 0);
    if productName !in table' {
      table' := table'[productName := NewProduct(productName, values, env, env.freshId(drawn'))];
      names' := names' + [productName];
      drawn' := drawn' + 1;
    }
    assert Groups(names', table', drawn') == Admit(Groups(names, table, drawn), values, env);
    ghost var admitted := Groups(names', table', drawn');
    var source := SourceOf(values, env, env.freshId(drawn'));
    table' := table'[productName := table'[productName].(sources := table'[productName].sources + [source])];
    drawn' := drawn' + 1;
    assert Groups(names', table', drawn') == Append(admitted, values, env);
  }

  // ------------------------------------------------------------ round trip

  /** What of a source survives the round trip: its label (caption), its flags and,
      for an offer, its dates. Ids, URLs, prices and creation times do not. */
  datatype SourceSummary = SourceSummary(
    caption: string, isOffer: bool, alertsEnabled: bool, startDate: string, endDate: string)

  datatype ProductSummary = ProductSummary(productName: string, isArchived: bool, sources: seq<SourceSummary>)

  function SummarizeSource(s: ProductSource): SourceSummary
  {
    SourceSummary(Label(s), s.isOffer, s.alertsEnabled,
                  if s.isOffer then s.startDate else "", if s.isOffer then s.endDate else "")
  }

  function SummarizeSources(ss: seq<ProductSource>): (r: seq<SourceSummary>)
    ensures |r| == |ss| && forall j :: 0 <= j < |ss| ==> r[j] == SummarizeSource(ss[j])
  {
    seq(|ss|, j requires 0 <= j < |ss| => SummarizeSource(ss[j]))
  }

  function Summarize(p: Product): ProductSummary
  {
    ProductSummary(p.productName, p.isArchived, SummarizeSources(p.sources))
  }

  function SummarizeAll(ps: seq<Product>): (r: seq<ProductSummary>)
    ensures |r| == |ps| && forall i :: 0 <= i < |ps| ==> r[i] == Summarize(ps[i])
  {
    seq(|ps|, i requires 0 <= i < |ps| => Summarize(ps[i]))
  }

  /** The conditions under which the format can carry a product list: distinct
      product names none of which is an inherited property, at least one
      source per product, and no comma, quote or line break in any exported
      name, offer date or price text. */
  ghost predicate Exportable(ps: seq<Product>, priceText: real -> string)
  {
    && (forall i, j :: 0 <= i < j < |ps| ==> ps[i].productName != ps[j].productName)
    && (forall i :: 0 <= i < |ps| ==> ps[i].productName !in PrototypeKeys)
    && (forall i :: 0 <= i < |ps| ==> |ps[i].sources| > 0)
    && (forall i, j :: 0 <= i < |ps| && 0 <= j < |ps[i].sources| ==> PlainPair(ps[i], ps[i].sources[j]))
    && (forall x :: Plain(priceText(x)))
  }

  /** Exporting and then importing does not throw, and recovers, product by
      product in order, the product names, the `isArchived` flags, and per
      source in order the label, the `isOffer` and `alertsEnabled` flags and
      the offer dates. */
  lemma RoundTrip(ps: seq<Product>, priceText: real -> string, env: ImportEnv)
    requires Exportable(ps, priceText)
    ensures !InheritedName(BodyLines(CsvText(ps, priceText)))
    ensures |ParseCsv(CsvText(ps, priceText), env)| == |ps|
    ensures SummarizeAll(ParseCsv(CsvText(ps, priceText), env)) == SummarizeAll(ps)
  {
    BodyOfExport(ps, priceText);
    ExportedNames(ps, priceText);
    AllLines(ps, |ps|, priceText, env);
    assert ps[..|ps|] == ps;
    var g := FoldLines(NoGroups, Rows(Pairs(ps), priceText), env);
    assert Holds(g, ps);
  }

  /** Every row of an export is read back under the name of a product in
      the list, so none is an inherited property. */
  lemma ExportedNames(ps: seq<Product>, priceText: real -> string)
    requires Exportable(ps, priceText)
    ensures !InheritedName(Rows(Pairs(ps), priceText))
  {
    var rows := Rows(Pairs(ps), priceText);
    forall k | 0 <= k < |rows|
      ensures Field(Values(rows[k]), 0) !in PrototypeKeys
    {
      PairsMember(ps, k);
      var i, j :| 0 <= i < |ps| && 0 <= j < |ps[i].sources| && Pairs(ps)[k] == (ps[i], ps[i].sources[j]);
      RowCells(ps[i], ps[i].sources[j], priceText);
    }
  }

  /** The lines after the header of an exported text are its rows. */
  lemma BodyOfExport(ps: seq<Product>, priceText: real -> string)
    requires Exportable(ps, priceText)
    ensures BodyLines(CsvText(ps, priceText)) == Rows(Pairs(ps), priceText)
  {
    ExportLines(ps, priceText);
    TextEnds(ps, priceText);
    TrimUnchanged(CsvText(ps, priceText));
  }

  /** An exported text neither starts nor ends with white space: it starts
      with the header and ends with the header or with a "true"/"false" cell. */
  lemma TextEnds(ps: seq<Product>, priceText: real -> string)
    ensures var t := CsvText(ps, priceText); |t| > 0 && !IsSpace(t[0]) && !IsSpace(t[|t| - 1])
  {
    var rows := Rows(Pairs(ps), priceText);
    var lines := [Header] + rows;
    HeaderShape();
    if |rows| > 0 {
      var last := Pairs(ps)[|rows| - 1];
      RowEnds(last, priceText);
      assert lines[|lines| - 1] == Row(last, priceText);
    }
    JoinEnds(lines, '\n');
  }

  lemma RowEnds(pair: (Product, ProductSource), priceText: real -> string)
    ensures var r := Row(pair, priceText); |r| > 0 && r[|r| - 1] == 'e'
  {
    var cells := Cells(pair.0, pair.1, priceText);
    JoinEndsLast(cells, ',');
  }

  /** The dictionary after reading the lines of the products `done`: one
      group per product, in order, each summarized as that product. */
  ghost predicate Holds(g: Groups, done: seq<Product>)
  {
    && g.Valid()
    && |g.names| == |done|
    && (forall k :: 0 <= k < |done| ==> g.names[k] == done[k].productName)
    && (forall k :: 0 <= k < |done| ==> Summarize(g.table[g.names[k]]) == Summarize(done[k]))
  }

  lemma {:induction false} AllLines(ps: seq<Product>, i: nat, priceText: real -> string, env: ImportEnv)
    requires Exportable(ps, priceText) && i <= |ps|
    ensures Holds(FoldLines(NoGroups, Rows(Pairs(ps[..i]), priceText), env), ps[..i])
  {
    if i == 0 {
      assert Rows(Pairs(ps[..0]), priceText) == [];
    } else {
      var done := ps[..i - 1];
      var p := ps[i - 1];
      assert ps[..i] == done + [p];
      AllLines(ps, i - 1, priceText, env);
      var g := FoldLines(NoGroups, Rows(Pairs(done), priceText), env);
      NameIsNew(g, ps, i - 1);
      assert forall j :: 0 <= j < |p.sources| ==> PlainPair(p, p.sources[j]);
      OneProduct(g, done, p, priceText, env);
      RowsOfPrefix(ps, i - 1, priceText, env);
    }
  }

  lemma NameIsNew(g: Groups, ps: seq<Product>, i: nat)
    requires i < |ps| && Holds(g, ps[..i])
    requires forall a, b :: 0 <= a < b < |ps| ==> ps[a].productName != ps[b].productName
    ensures ps[i].productName !in g.names
  {
    forall k | 0 <= k < |g.names|
      ensures g.names[k] != ps[i].productName
    {
      assert g.names[k] == ps[..i][k].productName == ps[k].productName;
    }
  }

  lemma RowsOfPrefix(ps: seq<Product>, i: nat, priceText: real -> string, env: ImportEnv)
    requires i < |ps|
    ensures FoldLines(NoGroups, Rows(Pairs(ps[..i + 1]), priceText), env)
         == FoldLines(FoldLines(NoGroups, Rows(Pairs(ps[..i]), priceText), env), Rows(SourcePairs(ps[i]), priceText), env)
  {
    PairsSnoc(ps, i);
    RowsAppend(Pairs(ps[..i]), SourcePairs(ps[i]), priceText);
    FoldLinesAppend(NoGroups, Rows(Pairs(ps[..i]), priceText), Rows(SourcePairs(ps[i]), priceText), env);
  }

  /** Reading all lines of a product whose name is new adds one group that
      summarizes as that product. */
  lemma OneProduct(g: Groups, done: seq<Product>, p: Product, priceText: real -> string, env: ImportEnv)
    requires Holds(g, done) && p.productName !in g.names && |p.sources| > 0
    requires forall k :: 0 <= k < |p.sources| ==> PlainPair(p, p.sources[k])
    requires forall x :: Plain(priceText(x))
    ensures Holds(FoldLines(g, Rows(SourcePairs(p), priceText), env), done + [p])
  {
    SourceLines(g, p, |p.sources|, priceText, env);
    assert SourcePairs(p)[..|p.sources|] == SourcePairs(p);
    assert p.sources[..|p.sources|] == p.sources;
    assert Extended(g, FoldLines(g, Rows(SourcePairs(p), priceText), env), p, |p.sources|);
    ExtendHolds(g, FoldLines(g, Rows(SourcePairs(p), priceText), env), done, p);
  }

  lemma ExtendHolds(g: Groups, g': Groups, done: seq<Product>, p: Product)
    requires Holds(g, done)
    requires g'.Valid() && g'.names == g.names + [p.productName] && p.productName in g'.table
    requires Summarize(g'.table[p.productName]) == Summarize(p)
    requires forall k :: k in g.table ==> k in g'.table && g'.table[k] == g.table[k]
    ensures Holds(g', done + [p])
  {
    forall k | 0 <= k < |done| + 1
      ensures g'.names[k] == (done + [p])[k].productName
      ensures Summarize(g'.table[g'.names[k]]) == Summarize((done + [p])[k])
    {
      if k < |done| {
        assert g'.names[k] == g.names[k];
        assert g.names[k] in g.table;
      }
    }
  }

  /** Reading the first `j` lines of a product whose name is new: the
      product is added after the others with its first `j` sources; nothing
      else changes. */
  lemma {:induction false} SourceLines(g: Groups, p: Product, j: nat, priceText: real -> string, env: ImportEnv)
    requires g.Valid() && p.productName !in g.names
    requires 1 <= j <= |p.sources|
    requires forall k :: 0 <= k < |p.sources| ==> PlainPair(p, p.sources[k])
    requires forall x :: Plain(priceText(x))
    ensures Extended(g, FoldLines(g, Rows(SourcePairs(p)[..j], priceText), env), p, j)
  {
    LinesOfPrefix(g, p, j, priceText, env);
    if j == 1 {
      FirstLine(g, p, priceText, env);
    } else {
      SourceLines(g, p, j - 1, priceText, env);
      var h := FoldLines(g, Rows(SourcePairs(p)[..j - 1], priceText), env);
      NextLine(g, h, p, j, priceText, env);
    }
  }

  /** `g'` is `g` with one more group, for `p`, holding its first `n`
      sources; the other groups are those of `g`. */
  ghost predicate Extended(g: Groups, g': Groups, p: Product, n: nat)
    requires n <= |p.sources|
  {
    && g'.Valid()
    && g'.names == g.names + [p.productName]
    && p.productName in g'.table
    && Summarize(g'.table[p.productName]) == ProductSummary(p.productName, p.isArchived, SummarizeSources(p.sources[..n]))
    && (forall k :: k in g.table ==> k in g'.table && g'.table[k] == g.table[k])
  }

  lemma LinesOfPrefix(g: Groups, p: Product, j: nat, priceText: real -> string, env: ImportEnv)
    requires 1 <= j <= |p.sources|
    ensures FoldLines(g, Rows(SourcePairs(p)[..j], priceText), env)
         == Step(FoldLines(g, Rows(SourcePairs(p)[..j - 1], priceText), env), Row((p, p.sources[j - 1]), priceText), env)
  {
    assert SourcePairs(p)[..j] == SourcePairs(p)[..j - 1] + [(p, p.sources[j - 1])];
    RowsSnoc(SourcePairs(p)[..j - 1], (p, p.sources[j - 1]), priceText);
    FoldLinesSnoc(g, Rows(SourcePairs(p)[..j - 1], priceText), Row((p, p.sources[j - 1]), priceText), env);
  }

  lemma FirstLine(g: Groups, p: Product, priceText: real -> string, env: ImportEnv)
    requires g.Valid() && p.productName !in g.names && |p.sources| >= 1
    requires PlainPair(p, p.sources[0])
    requires forall x :: Plain(priceText(x))
    ensures Extended(g, Step(g, Row((p, p.sources[0]), priceText), env), p, 1)
  {
    var row := Row((p, p.sources[0]), priceText);
    SourceRead(p, p.sources[0], priceText, env, env.freshId(g.drawn), env.freshId(g.drawn + 1));
    StepNew(g, row, env);
    StepValid(g, row, env);
    forall k | k in g.table
      ensures k in Step(g, row, env).table && Step(g, row, env).table[k] == g.table[k]
    {
      StepOthers(g, row, env, k);
    }
  }

  lemma NextLine(g: Groups, h: Groups, p: Product, j: nat, priceText: real -> string, env: ImportEnv)
    requires 2 <= j <= |p.sources|
    requires PlainPair(p, p.sources[j - 1])
    requires forall x :: Plain(priceText(x))
    requires g.Valid() && p.productName !in g.names
    requires Extended(g, h, p, j - 1)
    ensures Extended(g, Step(h, Row((p, p.sources[j - 1]), priceText), env), p, j)
  {
    var row := Row((p, p.sources[j - 1]), priceText);
    SourceRead(p, p.sources[j - 1], priceText, env, env.freshId(h.drawn), env.freshId(h.drawn));
    StepValid(h, row, env);
    StepKeepsOthers(g, h, row, env);
    NextSummary(h, p, j, row, env);
  }

  /** A step on a line of another product leaves the groups of `g` alone. */
  lemma StepKeepsOthers(g: Groups, h: Groups, row: string, env: ImportEnv)
    requires Field(Values(row), 0) !in g.table
    requires forall k :: k in g.table ==> k in h.table && h.table[k] == g.table[k]
    ensures forall k :: k in g.table ==> k in Step(h, row, env).table && Step(h, row, env).table[k] == g.table[k]
  {
    forall k | k in g.table
      ensures k in Step(h, row, env).table && Step(h, row, env).table[k] == g.table[k]
    {
      StepOthers(h, row, env, k);
    }
  }

  /** The line of the `j`-th source of a product already started appends
      that source, summarized as the original. */
  lemma NextSummary(h: Groups, p: Product, j: nat, row: string, env: ImportEnv)
    requires 2 <= j <= |p.sources|
    requires p.productName in h.table
    requires Summarize(h.table[p.productName]) == ProductSummary(p.productName, p.isArchived, SummarizeSources(p.sources[..j - 1]))
    requires Field(Values(row), 0) == p.productName
    requires SummarizeSource(SourceOf(Values(row), env, env.freshId(h.drawn))) == SummarizeSource(p.sources[j - 1])
    ensures p.productName in Step(h, row, env).table
    ensures Summarize(Step(h, row, env).table[p.productName])
         == ProductSummary(p.productName, p.isArchived, SummarizeSources(p.sources[..j]))
  {
    StepKnown(h, row, env);
    var before := h.table[p.productName].sources;
    var added := SourceOf(Values(row), env, env.freshId(h.drawn));
    SummarizeSnoc(before, added);
    assert p.sources[..j] == p.sources[..j - 1] + [p.sources[j - 1]];
    SummarizeSnoc(p.sources[..j - 1], p.sources[j - 1]);
  }

  lemma SummarizeSnoc(ss: seq<ProductSource>, s: ProductSource)
    ensures SummarizeSources(ss + [s]) == SummarizeSources(ss) + [SummarizeSource(s)]
  {
  }

  /** A source read back from its own line summarizes as the original, and a
      product started by that line has the original `isArchived`. */
  lemma SourceRead(p: Product, s: ProductSource, priceText: real -> string, env: ImportEnv, pid: string, sid: string)
    requires PlainPair(p, s)
    requires forall x :: Plain(priceText(x))
    ensures var vs := Values(Row((p, s), priceText));
      && Field(vs, 0) == p.productName
      && (NewProduct(p.productName, vs, env, pid).isArchived <==> p.isArchived)
      && SummarizeSource(SourceOf(vs, env, sid)) == SummarizeSource(s)
  {
    RowCells(p, s, priceText);
  }

  lemma RowsAppend(a: seq<(Product, ProductSource)>, b: seq<(Product, ProductSource)>, priceText: real -> string)
    ensures Rows(a + b, priceText) == Rows(a, priceText) + Rows(b, priceText)
  {
  }

  lemma {:induction false} FoldLinesAppend(g: Groups, a: seq<string>, b: seq<string>, env: ImportEnv)
    ensures FoldLines(g, a + b, env) == FoldLines(FoldLines(g, a, env), b, env)
    decreases |a|
  {
    if |a| == 0 {
      assert a + b == b;
    } else {
      assert (a + b)[1..] == a[1..] + b;
      FoldLinesAppend(Step(g, a[0], env), a[1..], b, env);
    }
  }

  lemma FoldLinesSnoc(g: Groups, a: seq<string>, x: string, env: ImportEnv)
    ensures FoldLines(g, a + [x], env) == Step(FoldLines(g, a, env), x, env)
  {
    FoldLinesAppend(g, a, [x], env);
    assert [x][1..] == [];
  }
}
