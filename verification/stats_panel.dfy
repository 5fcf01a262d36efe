// The figures of src/components/StatsPanel.tsx: the offer/regular split,
// the per-channel counts, the per-creator and per-category dictionaries
// built by `reduce`, their top-5 lists, the percentages shown beside them,
// and the "recent activity" list, which sorts the products array in place.

module Stats {
  import opened Wrappers
  import opened Types
  import opened Clock
  import Seqs
  import Tally
  import Sorting

  // ------------------------------------------------------------- overview

  /** `totalOffers`: the products with at least one offer source. */
  function TotalOffers(ps: seq<Product>): nat
  {
    |Seqs.Filter(ps, (p: Product) => HasOffers(p))|
  }

  /** `regularProducts`: the rest. */
  function RegularProducts(ps: seq<Product>): int
  {
    |ps| - TotalOffers(ps)
  }

  /** Both figures lie between 0 and the total, and `totalOffers` is the
      number of products with an offer source. */
  lemma OverviewBounds(ps: seq<Product>)
    ensures 0 <= TotalOffers(ps) <= |ps|
    ensures 0 <= RegularProducts(ps) <= |ps|
    ensures TotalOffers(ps) == Seqs.CountWhere(ps, (p: Product) => HasOffers(p))
  {
    Seqs.FilterPartition(ps, (p: Product) => HasOffers(p));
  }

  /** `products.filter(p => p.channelStatus === c).length`. */
  function ChannelCount(ps: seq<Product>, c: Channel): nat
  {
    |Seqs.Filter(ps, (p: Product) => p.channelStatus == Some(c))|
  }

  /** A product with a channel status has exactly one of the four, so the
      four channel counts add up to the number of products that have one, and
      to the number of products when all of them have one. A product without
      the property is counted under none of the four. */
  lemma {:induction false} ChannelsSum(ps: seq<Product>)
    ensures ChannelCount(ps, NotUploaded) + ChannelCount(ps, TikTok)
          + ChannelCount(ps, Amazon) + ChannelCount(ps, Ebay)
         == Seqs.CountWhere(ps, (p: Product) => p.channelStatus.Some?)
    ensures (forall i :: 0 <= i < |ps| ==> ps[i].channelStatus.Some?) ==>
      ChannelCount(ps, NotUploaded) + ChannelCount(ps, TikTok)
      + ChannelCount(ps, Amazon) + ChannelCount(ps, Ebay) == |ps|
  {
    Seqs.FilterPartition(ps, (p: Product) => p.channelStatus.Some?);
    AllHaveChannel(ps);
    ChannelsSumOfPresent(ps);
  }

  lemma {:induction false} AllHaveChannel(ps: seq<Product>)
    ensures (forall i :: 0 <= i < |ps| ==> ps[i].channelStatus.Some?) ==>
      Seqs.CountWhere(ps, (p: Product) => p.channelStatus.Some?) == |ps|
  {
    if |ps| > 0 {
      AllHaveChannel(ps[1..]);
    }
  }

  lemma {:induction false} ChannelsSumOfPresent(ps: seq<Product>)
    ensures ChannelCount(ps, NotUploaded) + ChannelCount(ps, TikTok)
          + ChannelCount(ps, Amazon) + ChannelCount(ps, Ebay)
         == Seqs.CountWhere(ps, (p: Product) => p.channelStatus.Some?)
  {
    if |ps| > 0 {
      ChannelsSumOfPresent(ps[1..]);
      ChannelStep(ps, NotUploaded);
      ChannelStep(ps, TikTok);
      ChannelStep(ps, Amazon);
      ChannelStep(ps, Ebay);
      ghost var present := Seqs.CountWhere(ps[1..], (p: Product) => p.channelStatus.Some?);
      assert Seqs.CountWhere(ps, (p: Product) => p.channelStatus.Some?)
          == present + (if ps[0].channelStatus.Some? then 1 else 0);
      OneChannel(ps[0].channelStatus);
    }
  }

  lemma OneChannel(c: Option<Channel>)
    ensures (if c == Some(NotUploaded) then 1 else 0) + (if c == Some(TikTok) then 1 else 0)
          + (if c == Some(Amazon) then 1 else 0) + (if c == Some(Ebay) then 1 else 0)
         == (if c.Some? then 1 else 0)
  {
    match c
    case None =>
    case Some(ch) =>
      match ch
      case NotUploaded =>
      case TikTok =>
      case Amazon =>
      case Ebay =>
  }

  lemma ChannelStep(ps: seq<Product>, c: Channel)
    requires |ps| > 0
    ensures ChannelCount(ps, c) == ChannelCount(ps[1..], c) + (if ps[0].channelStatus == Some(c) then 1 else 0)
  {
    assert ps == [ps[0]] + ps[1..];
    Seqs.FilterAppend([ps[0]], ps[1..], (x: Product) => x.channelStatus == Some(c));
  }

  // -------------------------------------------------- counting dictionaries

  /** `product.creatorName || 'Unknown'`. */
  function CreatorKey(p: Product): string
  {
    OrElse(p.creatorName, "Unknown")
  }

  /** `product.categoryName || 'Uncategorized'`. */
  function CategoryKey(p: Product): string
  {
    OrElse(p.categoryName, "Uncategorized")
  }

  function CreatorKeys(ps: seq<Product>): (ks: seq<string>)
    ensures |ks| == |ps| && forall i :: 0 <= i < |ps| ==> ks[i] == CreatorKey(ps[i])
  {
    seq(|ps|, i requires 0 <= i < |ps| => CreatorKey(ps[i]))
  }

  function CategoryKeys(ps: seq<Product>): (ks: seq<string>)
    ensures |ks| == |ps| && forall i :: 0 <= i < |ps| ==> ks[i] == CategoryKey(ps[i])
  {
    seq(|ps|, i requires 0 <= i < |ps| => CategoryKey(ps[i]))
  }

  /** The `reduce` callback run over all keys: every key adds one to its
      entry of the accumulator dictionary. */
  method Reduce(keys: seq<string>) returns (acc: seq<Tally.Entry>)
    ensures acc == Tally.Count(keys)
  {
    acc := [];
    var i := 0;
    while i < |keys|
      invariant 0 <= i <= |keys|
      invariant Tally.Fold(acc, keys[i..]) == Tally.Count(keys)
    {
      assert keys[i..] == [keys[i]] + keys[i + 1..];
      Tally.FoldStep(acc, keys[i], keys[i + 1..]);
      acc := Tally.Bump(acc, keys[i]);
      i := i + 1;
    }
    assert keys[|keys|..] == [];
  }

  /** `userContributions`: one entry per creator (`'Unknown'` standing for a
      missing one), counting that creator's products; the counts add up to
      the number of products. */
  method UserContributions(ps: seq<Product>) returns (acc: seq<Tally.Entry>)
    ensures Tally.Total(acc) == |ps|
    ensures forall name :: Tally.Lookup(acc, name) == multiset(CreatorKeys(ps))[name]
    ensures forall name :: name in Tally.Keys(acc) <==> exists i :: 0 <= i < |ps| && CreatorKey(ps[i]) == name
    ensures Seqs.Distinct(Tally.Keys(acc))
  {
    acc := Reduce(CreatorKeys(ps));
    Tally.CountFacts(CreatorKeys(ps));
    KeysMembership(ps, CreatorKeys(ps), CreatorKey);
  }

  /** `categoryStats`: the same with the category name, `'Uncategorized'`
      standing for a missing one. */
  method CategoryStats(ps: seq<Product>) returns (acc: seq<Tally.Entry>)
    ensures Tally.Total(acc) == |ps|
    ensures forall name :: Tally.Lookup(acc, name) == multiset(CategoryKeys(ps))[name]
    ensures forall name :: name in Tally.Keys(acc) <==> exists i :: 0 <= i < |ps| && CategoryKey(ps[i]) == name
    ensures Seqs.Distinct(Tally.Keys(acc))
  {
    acc := Reduce(CategoryKeys(ps));
    Tally.CountFacts(CategoryKeys(ps));
    KeysMembership(ps, CategoryKeys(ps), CategoryKey);
  }

  lemma KeysMembership(ps: seq<Product>, ks: seq<string>, key: Product -> string)
    requires |ks| == |ps| && forall i :: 0 <= i < |ps| ==> ks[i] == key(ps[i])
    ensures forall name :: name in ks <==> exists i :: 0 <= i < |ps| && key(ps[i]) == name
  {
    forall name | name in ks
      ensures exists i :: 0 <= i < |ps| && key(ps[i]) == name
    {
      var i :| 0 <= i < |ks| && ks[i] == name;
    }
  }

  /** A product counts under "Unknown" exactly when it has no creator name or
      an empty one. */
  lemma UnknownCreator(p: Product)
    requires p.creatorName != Some("Unknown")
    ensures CreatorKey(p) == "Unknown" <==> p.creatorName.None? || p.creatorName.value == ""
  {
  }

  // ------------------------------------------------------------ top lists

  /** `([, a], [, b]) => b - a`: larger counts first. */
  function ByCountDesc(a: Tally.Entry, b: Tally.Entry): int
  {
    b.count - a.count
  }

  function Min(a: nat, b: nat): nat
  {
    if a <= b then a else b
  }

  /** `Object.entries(acc).sort(byCountDesc).slice(0, 5)`. */
  function Top(es: seq<Tally.Entry>): seq<Tally.Entry>
  {
    var sorted := Sorting.SortBy(es, ByCountDesc);
    sorted[..Min(5, |sorted|)]
  }

  /** The top list holds the first five entries (all of them when there are
      fewer) by count, largest first, each taken from the dictionary; an
      entry left out has no larger count than the fifth one shown. */
  lemma TopFacts(es: seq<Tally.Entry>)
    ensures |Top(es)| == Min(5, |es|) && |Top(es)| <= 5
    ensures forall k :: 0 <= k < |Top(es)| - 1 ==> Top(es)[k].count >= Top(es)[k + 1].count
    ensures forall k :: 0 <= k < |Top(es)| ==> Top(es)[k] in es
    ensures forall e :: e in es && e !in Top(es) ==> |Top(es)| == 5 && e.count <= Top(es)[4].count
  {
    var sorted := Sorting.SortBy(es, ByCountDesc);
    assert Sorting.Total(ByCountDesc);
    NonIncreasing(sorted);
    TopFromEntries(es);
    TopOmitted(es);
  }

  lemma TopFromEntries(es: seq<Tally.Entry>)
    ensures forall k :: 0 <= k < |Top(es)| ==> Top(es)[k] in es
  {
    var sorted := Sorting.SortBy(es, ByCountDesc);
    var top := Top(es);
    forall k | 0 <= k < |top|
      ensures top[k] in es
    {
      assert top[k] == sorted[k];
      assert sorted[k] in multiset(es);
    }
  }

  lemma TopOmitted(es: seq<Tally.Entry>)
    ensures forall e :: e in es && e !in Top(es) ==> |Top(es)| == 5 && e.count <= Top(es)[4].count
  {
    forall e | e in es && e !in Top(es)
      ensures |Top(es)| == 5 && e.count <= Top(es)[4].count
    {
      OmittedEntry(es, e);
    }
  }

  lemma OmittedEntry(es: seq<Tally.Entry>, e: Tally.Entry)
    requires e in es && e !in Top(es)
    ensures |Top(es)| == 5 && e.count <= Top(es)[4].count
  {
    var sorted := Sorting.SortBy(es, ByCountDesc);
    var top := Top(es);
    assert top == sorted[..|top|];
    assert e in multiset(sorted);
    var m :| 0 <= m < |sorted| && sorted[m] == e;
    assert forall q :: 0 <= q < |top| ==> sorted[q] in top;
    assert m >= |top| && |top| == 5;
    assert Sorting.Total(ByCountDesc);
    NonIncreasing(sorted);
    assert top[4] == sorted[4];
  }

  lemma {:induction false} NonIncreasing(s: seq<Tally.Entry>)
    requires Sorting.Sorted(s, ByCountDesc)
    ensures forall k, l :: 0 <= k <= l < |s| ==> s[k].count >= s[l].count
  {
    if |s| > 1 {
      var rest := s[1..];
      assert Sorting.Sorted(rest, ByCountDesc) by {
        forall i | 0 <= i < |rest| - 1
          ensures ByCountDesc(rest[i], rest[i + 1]) <= 0
        {
          assert rest[i] == s[i + 1] && rest[i + 1] == s[i + 2];
        }
      }
      NonIncreasing(rest);
      forall k, l | 0 <= k <= l < |s|
        ensures s[k].count >= s[l].count
      {
        if k > 0 {
          assert s[k] == rest[k - 1] && s[l] == rest[l - 1];
        } else if l > 0 {
          assert s[1] == rest[0] && s[l] == rest[l - 1];
          assert ByCountDesc(s[0], s[1]) <= 0;
        }
      }
    }
  }

  // ------------------------------------------------------------ percentages

  /** `totalProducts > 0 ? (count / totalProducts) * 100 : 0`. */
  function Percent(count: nat, total: nat): (r: real)
    ensures total == 0 ==> r == 0.0
    ensures total > 0 ==> r * (total as real) == (count as real) * 100.0
  {
    if total > 0 then (count as real) / (total as real) * 100.0 else 0.0
  }

  /** A count that is part of the total gives a percentage between 0 and 100. */
  lemma PercentBounds(count: nat, total: nat)
    requires count <= total
    ensures 0.0 <= Percent(count, total) <= 100.0
  {
    if total > 0 {
      assert (count as real) / (total as real) <= 1.0;
    }
  }

  /** The offers card: a share only when there are offers, "No offers yet"
      (`None`) otherwise. */
  function OffersShare(ps: seq<Product>): Option<real>
  {
    if TotalOffers(ps) > 0 then Some((TotalOffers(ps) as real) / (|ps| as real) * 100.0) else None
  }

  /** The share is only computed when there are offers, which makes the
      total positive, so it never divides by zero; it lies in (0, 100]. */
  lemma OffersShareFacts(ps: seq<Product>)
    ensures OffersShare(ps).Some? <==> TotalOffers(ps) > 0
    ensures OffersShare(ps).Some? ==>
      && |ps| > 0
      && OffersShare(ps).value == Percent(TotalOffers(ps), |ps|)
      && 0.0 < OffersShare(ps).value <= 100.0
  {
    OverviewBounds(ps);
    if TotalOffers(ps) > 0 {
      PercentBounds(TotalOffers(ps), |ps|);
    }
  }

  // -------------------------------------------------------- recent activity

  /** Creation instants never increase along the sequence. */
  ghost predicate NewestFirst(s: seq<Product>, instantOf: InstantOf)
  {
    forall k, l :: 0 <= k < l < |s| ==> Created(s[k], instantOf) >= Created(s[l], instantOf)
  }

  /** `products.sort((a, b) => created(b) - created(a))`, in place: the array
      ends up newest first and holds the same products. */
  method SortNewestFirst(a: array<Product>, instantOf: InstantOf)
    modifies a
    ensures NewestFirst(a[..], instantOf)
    ensures multiset(a[..]) == old(multiset(a[..]))
  {
    var i := 0;
    while i < a.Length
      invariant 0 <= i <= a.Length
      invariant NewestFirst(a[..i], instantOf)
      invariant multiset(a[..]) == old(multiset(a[..]))
    {
      SinkLast(a, i, instantOf);
      i := i + 1;
    }
    assert a[..a.Length] == a[..];
  }

  function Created(p: Product, instantOf: InstantOf): int
  {
    instantOf(p.createdAt)
  }

  /** `s[..i + 1]` is newest first except possibly at position `j`. */
  ghost predicate NewestFirstExcept(s: seq<Product>, i: nat, j: nat, instantOf: InstantOf)
    requires i < |s|
  {
    forall k, l :: 0 <= k < l <= i && l != j ==> Created(s[k], instantOf) >= Created(s[l], instantOf)
  }

  /** One insertion step: `a[i]` is moved left past the older products until
      the prefix `a[..i + 1]` is newest first. */
  method SinkLast(a: array<Product>, i: nat, instantOf: InstantOf)
    requires i < a.Length && NewestFirst(a[..i], instantOf)
    modifies a
    ensures NewestFirst(a[..i + 1], instantOf)
    ensures multiset(a[..]) == old(multiset(a[..]))
  {
    var j := i;
    StartSink(a[..], i, instantOf);
    while j > 0 && Created(a[j - 1], instantOf) < Created(a[j], instantOf)
      invariant 0 <= j <= i
      invariant multiset(a[..]) == old(multiset(a[..]))
      invariant NewestFirstExcept(a[..], i, j, instantOf)
      invariant 0 < j < i ==> Created(a[j - 1], instantOf) >= Created(a[j + 1], instantOf)
    {
      ghost var s := a[..];
      a[j - 1], a[j] := a[j], a[j - 1];
      assert a[..] == s[j - 1 := s[j]][j := s[j - 1]];
      SwapStep(s, i, j, instantOf);
      j := j - 1;
    }
    FinishSink(a[..], i, j, instantOf);
  }

  lemma StartSink(s: seq<Product>, i: nat, instantOf: InstantOf)
    requires i < |s| && NewestFirst(s[..i], instantOf)
    ensures NewestFirstExcept(s, i, i, instantOf)
  {
    forall k, l | 0 <= k < l <= i && l != i
      ensures Created(s[k], instantOf) >= Created(s[l], instantOf)
    {
      assert s[..i][k] == s[k] && s[..i][l] == s[l];
    }
  }

  /** Once the out-of-place product is no newer than its left neighbour, the
      whole prefix is newest first. */
  lemma FinishSink(s: seq<Product>, i: nat, j: nat, instantOf: InstantOf)
    requires j <= i < |s| && NewestFirstExcept(s, i, j, instantOf)
    requires j > 0 ==> Created(s[j - 1], instantOf) >= Created(s[j], instantOf)
    ensures NewestFirst(s[..i + 1], instantOf)
  {
    var t := s[..i + 1];
    forall k, l | 0 <= k < l < |t|
      ensures Created(t[k], instantOf) >= Created(t[l], instantOf)
    {
      if l == j && k < j - 1 {
        assert Created(s[k], instantOf) >= Created(s[j - 1], instantOf);
      }
    }
  }

  /** Swapping the out-of-place product with its older left neighbour moves
      the exception one place left. */
  lemma SwapStep(s: seq<Product>, i: nat, j: nat, instantOf: InstantOf)
    requires 0 < j <= i < |s|
    requires NewestFirstExcept(s, i, j, instantOf)
    requires Created(s[j - 1], instantOf) < Created(s[j], instantOf)
    requires j < i ==> Created(s[j - 1], instantOf) >= Created(s[j + 1], instantOf)
    ensures var t := s[j - 1 := s[j]][j := s[j - 1]];
      && multiset(t) == multiset(s)
      && NewestFirstExcept(t, i, j - 1, instantOf)
      && (0 < j - 1 ==> Created(t[j - 2], instantOf) >= Created(t[j], instantOf))
  {
    var t := s[j - 1 := s[j]][j := s[j - 1]];
    forall k, l | 0 <= k < l <= i && l != j - 1
      ensures Created(t[k], instantOf) >= Created(t[l], instantOf)
    {
      if l == j {
        if k < j - 1 {
          assert Created(s[k], instantOf) >= Created(s[j - 1], instantOf);
        }
      } else if k == j - 1 {
        assert Created(s[j - 1], instantOf) >= Created(s[l], instantOf) || l == j;
      } else if k == j {
        assert Created(s[j - 1], instantOf) >= Created(s[l], instantOf);
      }
    }
  }

  /** The recent activity card: the passed array is sorted in place and its
      first five products are shown; no product left out is newer than the
      last one shown. */
  method RecentActivity(a: array<Product>, instantOf: InstantOf) returns (shown: seq<Product>)
    modifies a
    ensures multiset(a[..]) == old(multiset(a[..]))
    ensures NewestFirst(a[..], instantOf)
    ensures |shown| == Min(5, a.Length) && shown == a[..|shown|]
    ensures forall k :: |shown| <= k < a.Length ==> Created(a[k], instantOf) <= Created(shown[|shown| - 1], instantOf)
  {
    SortNewestFirst(a, instantOf);
    shown := a[..Min(5, a.Length)];
  }
}
