// The offer lifecycle engine of src/utils/productUtils.ts: days remaining,
// the four-way urgency classification, the progress ratio through an offer
// window, the per-product aggregate status, and the status and source
// counters. Every function reads the clock once per call in the source; here
// the instant `now` is a parameter, so one evaluation uses one instant.

module ProductUtils {
  import opened Wrappers
  import opened Types
  import opened Clock
  import Seqs
  import Tally

  /** `Math.ceil((end - now) / 86400000)`: the whole days left, rounding a
      partial day up. The result is the one integer `d` with
      `(d - 1) days < end - now <= d days`. */
  function DaysRemaining(end: Instant, now: Instant): (d: int)
    ensures (d - 1) * MsPerDay < end - now <= d * MsPerDay
  {
    -((now - end) / MsPerDay)
  }

  /** The classification `calculateOfferStatus` applies to a day count. */
  function Classify(days: int): OfferStatus
  {
    if days < 0 then Expired
    else if days <= 2 then Urgent
    else if days <= 5 then Warning
    else Active
  }

  /** `calculateOfferStatus`: the status of an offer ending at `end`, seen at
      `now`. In milliseconds: expired once a full day has passed since the
      end, urgent up to two days ahead, warning up to five, active beyond. It
      is expired exactly when the day count is negative. */
  function OfferStatusAt(end: Instant, now: Instant): (st: OfferStatus)
    ensures st == Expired <==> end - now <= -MsPerDay
    ensures st == Urgent <==> -MsPerDay < end - now <= 2 * MsPerDay
    ensures st == Warning <==> 2 * MsPerDay < end - now <= 5 * MsPerDay
    ensures st == Active <==> 5 * MsPerDay < end - now
    ensures st == Expired <==> DaysRemaining(end, now) < 0
  {
    Classify(DaysRemaining(end, now))
  }

  /** `calculateProgress` as written: 0 before the start, 100 after the end,
      otherwise the elapsed share of the window in percent. When start, end
      and now coincide the source divides zero by zero; that NaN is `None`. */
  function CalculateProgress(start: Instant, end: Instant, now: Instant): (r: Option<real>)
    ensures r.None? <==> start == end == now
    ensures r.Some? ==> 0.0 <= r.value <= 100.0
    ensures now < start ==> r == Some(0.0)
    ensures start <= now && end < now ==> r == Some(100.0)
  {
    if now < start then Some(0.0)
    else if now > end then Some(100.0)
    else if end == start then None
    else
      var ratio := (now - start) as real / (end - start) as real;
      RatioBounds(now - start, end - start);
      Some(ratio * 100.0)
  }

  lemma RatioBounds(a: int, b: int)
    requires 0 <= a <= b && 0 < b
    ensures 0.0 <= a as real / b as real <= 1.0
  {
    var q := a as real / b as real;
    assert q * b as real == a as real;
  }

  lemma RatioMonotone(a1: int, a2: int, b: int)
    requires a1 <= a2 && 0 < b
    ensures a1 as real / b as real <= a2 as real / b as real
  {
    var q1 := a1 as real / b as real;
    var q2 := a2 as real / b as real;
    assert q1 * b as real == a1 as real;
    assert q2 * b as real == a2 as real;
    assert (q2 - q1) * b as real == (a2 - a1) as real;
  }

  /** For a proper window (start < end) the progress never decreases as time
      moves on. */
  lemma ProgressMonotone(start: Instant, end: Instant, now1: Instant, now2: Instant)
    requires start < end && now1 <= now2
    ensures CalculateProgress(start, end, now1).Some? && CalculateProgress(start, end, now2).Some?
    ensures CalculateProgress(start, end, now1).value <= CalculateProgress(start, end, now2).value
  {
    if start <= now1 && now2 <= end {
      RatioMonotone(now1 - start, now2 - start, end - start);
    }
  }

  /** The progress ratio with the degenerate window (start == end == now)
      reading as complete, which is what the two outer branches evidently
      mean: an offer window of no length has run its course. */
  function ProgressIntended(start: Instant, end: Instant, now: Instant): (r: real)
    ensures 0.0 <= r <= 100.0
    ensures now < start ==> r == 0.0
    ensures start <= now && end <= now ==> r == 100.0
    ensures CalculateProgress(start, end, now).Some? ==> CalculateProgress(start, end, now).value == r
  {
    if now < start then 0.0
    else if now >= end then 100.0
    else
      RatioBounds(now - start, end - start);
      (now - start) as real / (end - start) as real * 100.0
  }

  /** The source's NaN: a window of no length observed at its own instant. */
  lemma ProgressUndefinedAtDegenerateWindow(t: Instant)
    ensures CalculateProgress(t, t, t) == None
    ensures ProgressIntended(t, t, t) == 100.0
  {
  }

  /** The intended progress is total and never decreases, for every window. */
  lemma ProgressIntendedMonotone(start: Instant, end: Instant, now1: Instant, now2: Instant)
    requires now1 <= now2
    ensures ProgressIntended(start, end, now1) <= ProgressIntended(start, end, now2)
  {
    if start <= now1 && now2 < end {
      RatioMonotone(now1 - start, now2 - start, end - start);
    }
  }

  /** How urgent a status is when statuses are aggregated: expired first. */
  function Urgency(st: OfferStatus): nat
  {
    match st
    case Expired => 3
    case Urgent => 2
    case Warning => 1
    case Active => 0
  }

  /** The status of one offer source (`calculateOfferStatus(source.endDate)`). */
  function SourceStatus(s: ProductSource, now: Instant, instantOf: InstantOf): OfferStatus
  {
    OfferStatusAt(instantOf(s.endDate), now)
  }

  /** `offerSources.map(s => calculateOfferStatus(s.endDate))`: the statuses of
      the offer sources, one per offer source, non-offer sources skipped. */
  function OfferStatuses(ss: seq<ProductSource>, now: Instant, instantOf: InstantOf): (r: seq<OfferStatus>)
    ensures |r| <= |ss|
  {
    var offerSources := Seqs.Filter(ss, (s: ProductSource) => s.isOffer);
    seq(|offerSources|, k requires 0 <= k < |offerSources| => SourceStatus(offerSources[k], now, instantOf))
  }

  /** There are no statuses exactly when no source is an offer; every status
      is that of some offer source, and every offer source's status is
      among them. */
  lemma OfferStatusesFacts(ss: seq<ProductSource>, now: Instant, instantOf: InstantOf)
    ensures var r := OfferStatuses(ss, now, instantOf);
      && (|r| == 0 <==> forall i :: 0 <= i < |ss| ==> !ss[i].isOffer)
      && (forall k :: 0 <= k < |r| ==>
            exists i :: 0 <= i < |ss| && ss[i].isOffer && SourceStatus(ss[i], now, instantOf) == r[k])
      && (forall i :: 0 <= i < |ss| && ss[i].isOffer ==> SourceStatus(ss[i], now, instantOf) in r)
  {
    StatusesFromOffers(ss, now, instantOf);
    OffersHaveStatuses(ss, now, instantOf);
  }

  lemma StatusesFromOffers(ss: seq<ProductSource>, now: Instant, instantOf: InstantOf)
    ensures var r := OfferStatuses(ss, now, instantOf);
      forall k :: 0 <= k < |r| ==>
        exists i :: 0 <= i < |ss| && ss[i].isOffer && SourceStatus(ss[i], now, instantOf) == r[k]
  {
    var offerSources := Seqs.Filter(ss, (s: ProductSource) => s.isOffer);
    var r := OfferStatuses(ss, now, instantOf);
    forall k | 0 <= k < |r|
      ensures exists i :: 0 <= i < |ss| && ss[i].isOffer && SourceStatus(ss[i], now, instantOf) == r[k]
    {
      assert offerSources[k] in ss;
      var i :| 0 <= i < |ss| && ss[i] == offerSources[k];
      assert SourceStatus(ss[i], now, instantOf) == r[k];
    }
  }

  lemma OffersHaveStatuses(ss: seq<ProductSource>, now: Instant, instantOf: InstantOf)
    ensures var r := OfferStatuses(ss, now, instantOf);
      forall i :: 0 <= i < |ss| && ss[i].isOffer ==> SourceStatus(ss[i], now, instantOf) in r
  {
    var offerSources := Seqs.Filter(ss, (s: ProductSource) => s.isOffer);
    var r := OfferStatuses(ss, now, instantOf);
    forall i | 0 <= i < |ss| && ss[i].isOffer
      ensures SourceStatus(ss[i], now, instantOf) in r
    {
      var k :| 0 <= k < |offerSources| && offerSources[k] == ss[i];
      assert r[k] == SourceStatus(ss[i], now, instantOf);
    }
  }

  /** `getProductStatus`: `Regular` when no source is an offer; otherwise the
      most urgent status among the offer sources, non-offer sources ignored. */
  function ProductStatus(p: Product, now: Instant, instantOf: InstantOf): (st: Status)
    ensures st == Regular <==> !HasOffers(p)
  {
    var statuses := OfferStatuses(p.sources, now, instantOf);
    OfferStatusesFacts(p.sources, now, instantOf);
    if |statuses| == 0 then Regular
    else if Expired in statuses then Expired
    else if Urgent in statuses then Urgent
    else if Warning in statuses then Warning
    else
      assert statuses[0] == Active;
      Active
  }

  /** A product with offers takes the status of one of its offer sources,
      and no offer source is more urgent than it. */
  lemma MostUrgentWins(p: Product, now: Instant, instantOf: InstantOf)
    ensures var st := ProductStatus(p, now, instantOf);
      && (st != Regular ==>
            exists i :: 0 <= i < |p.sources| && p.sources[i].isOffer
                     && SourceStatus(p.sources[i], now, instantOf) == st)
      && (st != Regular ==>
            forall i :: 0 <= i < |p.sources| && p.sources[i].isOffer ==>
              Urgency(SourceStatus(p.sources[i], now, instantOf)) <= Urgency(st))
  {
    var statuses := OfferStatuses(p.sources, now, instantOf);
    OfferStatusesFacts(p.sources, now, instantOf);
    if |statuses| > 0 && Expired !in statuses && Urgent !in statuses && Warning !in statuses {
      assert forall k :: 0 <= k < |statuses| ==> statuses[k] == Active;
    }
  }

  /** The example the design notes give: an ordinary source, an offer in
      warning and an expired offer make the product expired. */
  lemma MostUrgentWinsExample(p: Product, now: Instant, instantOf: InstantOf)
    requires |p.sources| == 3
    requires !p.sources[0].isOffer
    requires p.sources[1].isOffer && SourceStatus(p.sources[1], now, instantOf) == Warning
    requires p.sources[2].isOffer && SourceStatus(p.sources[2], now, instantOf) == Expired
    ensures ProductStatus(p, now, instantOf) == Expired
  {
    OffersHaveStatuses(p.sources, now, instantOf);
  }

  /** The five counters of `getStatusCounts`. */
  datatype StatusCounts = StatusCounts(active: nat, warning: nat, urgent: nat, expired: nat, regular: nat)
  {
    function Sum(): nat { active + warning + urgent + expired + regular }

    function Get(st: Status): nat
    {
      match st
      case Active => active
      case Warning => warning
      case Urgent => urgent
      case Expired => expired
      case Regular => regular
    }

    /** `counts[st]++`. */
    function Incr(st: Status): (c: StatusCounts)
      ensures c.Get(st) == Get(st) + 1
      ensures forall other :: other != st ==> c.Get(other) == Get(other)
      ensures c.Sum() == Sum() + 1
    {
      match st
      case Active => this.(active := active + 1)
      case Warning => this.(warning := warning + 1)
      case Urgent => this.(urgent := urgent + 1)
      case Expired => this.(expired := expired + 1)
      case Regular => this.(regular := regular + 1)
    }
  }

  /** The counters for a list of products, built from the front as the
      source's `forEach` does. */
  function Counts(ps: seq<Product>, now: Instant, instantOf: InstantOf): StatusCounts
  {
    if |ps| == 0 then StatusCounts(0, 0, 0, 0, 0)
    else
      var last := ps[|ps| - 1];
      var c := Counts(ps[..|ps| - 1], now, instantOf);
      if last.isArchived then c else c.Incr(ProductStatus(last, now, instantOf))
  }

  /** Number of products that are not archived and have status `st`. */
  function CountStatus(ps: seq<Product>, st: Status, now: Instant, instantOf: InstantOf): nat
  {
    Seqs.CountWhere(ps, (p: Product) => !p.isArchived && ProductStatus(p, now, instantOf) == st)
  }

  /** Number of products that are not archived. */
  function CountLive(ps: seq<Product>): nat
  {
    Seqs.CountWhere(ps, (p: Product) => !p.isArchived)
  }

  /** `getStatusCounts`: one pass over the products, archived ones skipped,
      each other product counted once under its aggregate status. */
  method GetStatusCounts(ps: seq<Product>, now: Instant, instantOf: InstantOf) returns (c: StatusCounts)
    ensures c == Counts(ps, now, instantOf)
  {
    c := StatusCounts(0, 0, 0, 0, 0);
    var i := 0;
    while i < |ps|
      invariant 0 <= i <= |ps|
      invariant c == Counts(ps[..i], now, instantOf)
    {
      assert ps[..i + 1][..i] == ps[..i];
      if !ps[i].isArchived {
        var status := ProductStatus(ps[i], now, instantOf);
        c := c.Incr(status);
      }
      i := i + 1;
    }
    assert ps[..|ps|] == ps;
  }

  /** Each counter holds the number of live products with that status, and
      the five counters add up to the number of live products: archived
      products are skipped and no live product is counted twice. */
  lemma {:induction false} CountsMeaning(ps: seq<Product>, now: Instant, instantOf: InstantOf)
    ensures forall st :: Counts(ps, now, instantOf).Get(st) == CountStatus(ps, st, now, instantOf)
    ensures Counts(ps, now, instantOf).Sum() == CountLive(ps)
  {
    if |ps| > 0 {
      var init := ps[..|ps| - 1];
      var last := ps[|ps| - 1];
      CountsMeaning(init, now, instantOf);
      assert ps == init + [last];
      forall st
        ensures Counts(ps, now, instantOf).Get(st) == CountStatus(ps, st, now, instantOf)
      {
        CountWhereSnoc(init, last, (p: Product) => !p.isArchived && ProductStatus(p, now, instantOf) == st);
      }
      CountWhereSnoc(init, last, (p: Product) => !p.isArchived);
    }
  }

  lemma {:induction false} CountWhereSnoc<T>(xs: seq<T>, x: T, p: T -> bool)
    ensures Seqs.CountWhere(xs + [x], p) == Seqs.CountWhere(xs, p) + (if p(x) then 1 else 0)
  {
    if |xs| > 0 {
      assert (xs + [x])[1..] == xs[1..] + [x];
      CountWhereSnoc(xs[1..], x, p);
    }
  }

  /** The label of every source, product by product. */
  function SourceLabels(ps: seq<Product>): (r: seq<string>)
    ensures |r| == SourceCount(ps)
  {
    if |ps| == 0 then [] else Labels(ps[0].sources) + SourceLabels(ps[1..])
  }

  function Labels(ss: seq<ProductSource>): (r: seq<string>)
    ensures |r| == |ss| && forall j :: 0 <= j < |ss| ==> r[j] == Label(ss[j])
  {
    seq(|ss|, j requires 0 <= j < |ss| => Label(ss[j]))
  }

  lemma {:induction false} SourceLabelsAppend(a: seq<Product>, b: seq<Product>)
    ensures SourceLabels(a + b) == SourceLabels(a) + SourceLabels(b)
  {
    if |a| == 0 {
      assert a + b == b;
    } else {
      assert (a + b)[1..] == a[1..] + b;
      SourceLabelsAppend(a[1..], b);
    }
  }

  /** `getSourceDistribution`: the number of sources under each label, labels
      in order of first appearance. The counts add up to the number of
      sources, and every label holds the number of sources showing it. */
  method GetSourceDistribution(ps: seq<Product>) returns (dist: seq<Tally.Entry>)
    ensures dist == Tally.Count(SourceLabels(ps))
    ensures Tally.Total(dist) == SourceCount(ps)
    ensures forall k :: Tally.Lookup(dist, k) == multiset(SourceLabels(ps))[k]
  {
    dist := [];
    var i := 0;
    while i < |ps|
      invariant 0 <= i <= |ps|
      invariant Tally.Fold(dist, SourceLabels(ps[i..])) == Tally.Count(SourceLabels(ps))
    {
      assert ps[i..][1..] == ps[i + 1..];
      FoldConcat(dist, Labels(ps[i].sources), SourceLabels(ps[i + 1..]));
      dist := CountSources(dist, ps[i].sources);
      i := i + 1;
    }
    Tally.CountFacts(SourceLabels(ps));
  }

  /** The inner `forEach` of `getSourceDistribution`: one product's sources
      counted into `dist`. */
  method CountSources(dist0: seq<Tally.Entry>, ss: seq<ProductSource>) returns (dist: seq<Tally.Entry>)
    ensures dist == Tally.Fold(dist0, Labels(ss))
  {
    ghost var names := Labels(ss);
    dist := dist0;
    var j := 0;
    while j < |ss|
      invariant 0 <= j <= |ss|
      invariant Tally.Fold(dist, names[j..]) == Tally.Fold(dist0, names)
    {
      var name := Label(ss[j]);
      NextName(names, j, name);
      Tally.FoldStep(dist, name, names[j + 1..]);
      dist := Tally.Bump(dist, name);
      j := j + 1;
    }
    assert names[|ss|..] == [];
  }

  lemma NextName(names: seq<string>, j: nat, name: string)
    requires j < |names| && names[j] == name
    ensures names[j..] == [name] + names[j + 1..]
  {
  }

  lemma {:induction false} FoldConcat(acc: seq<Tally.Entry>, a: seq<string>, b: seq<string>)
    ensures Tally.Fold(acc, a + b) == Tally.Fold(Tally.Fold(acc, a), b)
    decreases |a|
  {
    if |a| == 0 {
      assert a + b == b;
    } else {
      assert (a + b)[1..] == a[1..] + b;
      FoldConcat(Tally.Bump(acc, a[0]), a[1..], b);
    }
  }
}
