// Helper modules shared by the model of the product tracker: an Option
// type for JavaScript's optional values, order-preserving filtering and
// de-duplication of sequences (Array.prototype.filter, `new Set(...)`), and
// the ordered key/count accumulator that the `acc[key] = (acc[key] || 0) + 1`
// reductions build.

module Wrappers {
  /** An optional value: `undefined`/`null` in the source is `None`. */
  datatype Option<+T> = None | Some(value: T) {
    function GetOr(default: T): T {
      if Some? then value else default
    }
  }
}

module Seqs {

  /** `xs.filter(keep)`: the elements that satisfy `keep`, in their order. */
  function Filter<T(==)>(xs: seq<T>, keep: T -> bool): (r: seq<T>)
    ensures |r| <= |xs|
    ensures forall i :: 0 <= i < |r| ==> r[i] in xs && keep(r[i])
    ensures forall i :: 0 <= i < |xs| && keep(xs[i]) ==> xs[i] in r
    ensures SubsequenceOf(r, xs)
  {
    if |xs| == 0 then []
    else if keep(xs[0]) then [xs[0]] + Filter(xs[1..], keep)
    else Filter(xs[1..], keep)
  }

  /** `a` is obtained from `b` by deleting elements; the order is kept. */
  predicate SubsequenceOf<T(==)>(a: seq<T>, b: seq<T>)
    decreases |b|
  {
    if |a| == 0 then true
    else if |b| == 0 then false
    else if a[0] == b[0] then SubsequenceOf(a[1..], b[1..])
    else SubsequenceOf(a, b[1..])
  }

  /** Number of elements that satisfy `p`. */
  function CountWhere<T>(xs: seq<T>, p: T -> bool): nat
  {
    if |xs| == 0 then 0 else (if p(xs[0]) then 1 else 0) + CountWhere(xs[1..], p)
  }

  lemma {:induction false} FilterAppend<T>(a: seq<T>, b: seq<T>, keep: T -> bool)
    ensures Filter(a + b, keep) == Filter(a, keep) + Filter(b, keep)
  {
    if |a| == 0 {
      assert a + b == b;
    } else {
      assert (a + b)[1..] == a[1..] + b;
      FilterAppend(a[1..], b, keep);
    }
  }

  /** A filter and its complement split a sequence into two parts whose sizes
      and contents add up to the whole. */
  lemma {:induction false} FilterPartition<T>(xs: seq<T>, keep: T -> bool)
    ensures |Filter(xs, keep)| + |Filter(xs, x => !keep(x))| == |xs|
    ensures multiset(Filter(xs, keep)) + multiset(Filter(xs, x => !keep(x))) == multiset(xs)
    ensures |Filter(xs, keep)| == CountWhere(xs, keep)
  {
    if |xs| > 0 {
      FilterPartition(xs[1..], keep);
      assert xs == [xs[0]] + xs[1..];
    }
  }

  predicate Distinct<T(==)>(xs: seq<T>) {
    forall i, j :: 0 <= i < j < |xs| ==> xs[i] != xs[j]
  }

  /** Index of the first occurrence of `x` in `xs`. */
  function FirstIndex<T(==)>(xs: seq<T>, x: T): (i: nat)
    requires x in xs
    ensures i < |xs| && xs[i] == x && x !in xs[..i]
  {
    if xs[0] == x then 0 else 1 + FirstIndex(xs[1..], x)
  }

  /** The elements of `xs` without repeats, in order of first appearance: what
      iterating a JavaScript `Set` or `Map` built from `xs` yields. */
  function Dedupe<T(==)>(xs: seq<T>): (d: seq<T>)
    ensures Distinct(d)
    ensures forall i :: 0 <= i < |d| ==> d[i] in xs
    ensures forall i :: 0 <= i < |xs| ==> xs[i] in d
    ensures forall i, j :: 0 <= i < j < |d| ==> FirstIndex(xs, d[i]) < FirstIndex(xs, d[j])
  {
    if |xs| == 0 then []
    else
      var init := xs[..|xs| - 1];
      var last := xs[|xs| - 1];
      var d := Dedupe(init);
      assert xs == init + [last];
      FirstIndexExtend(init, last);
      if last in d then d else d + [last]
  }

  lemma {:induction false} FirstIndexAppend<T>(xs: seq<T>, y: T, x: T)
    requires x in xs
    ensures FirstIndex(xs + [y], x) == FirstIndex(xs, x)
  {
    if xs[0] != x {
      assert (xs + [y])[1..] == xs[1..] + [y];
      FirstIndexAppend(xs[1..], y, x);
    }
  }

  lemma {:induction false} FirstIndexAppendNew<T>(xs: seq<T>, y: T)
    requires y !in xs
    ensures FirstIndex(xs + [y], y) == |xs|
  {
    if |xs| > 0 {
      assert (xs + [y])[1..] == xs[1..] + [y];
      FirstIndexAppendNew(xs[1..], y);
    }
  }

  /** Appending an element moves no first occurrence; a new element is first
      found at the end. */
  lemma FirstIndexExtend<T>(xs: seq<T>, y: T)
    ensures forall x :: x in xs ==> FirstIndex(xs + [y], x) == FirstIndex(xs, x)
    ensures y !in xs ==> FirstIndex(xs + [y], y) == |xs|
  {
    forall x | x in xs
      ensures FirstIndex(xs + [y], x) == FirstIndex(xs, x)
    {
      FirstIndexAppend(xs, y, x);
    }
    if y !in xs {
      FirstIndexAppendNew(xs, y);
    }
  }
}

module Tally {
  import opened Seqs

  /** One `[key, count]` pair of a counting dictionary. */
  datatype Entry = Entry(key: string, count: nat)

  function Keys(es: seq<Entry>): (ks: seq<string>)
    ensures |ks| == |es| && forall i :: 0 <= i < |es| ==> ks[i] == es[i].key
  {
    if |es| == 0 then [] else [es[0].key] + Keys(es[1..])
  }

  /** `acc[k] || 0`: the count stored under `k`, or 0 when `k` is absent. */
  function Lookup(es: seq<Entry>, k: string): nat
  {
    if |es| == 0 then 0
    else if es[0].key == k then es[0].count
    else Lookup(es[1..], k)
  }

  /** The sum of all counts. */
  function Total(es: seq<Entry>): nat
  {
    if |es| == 0 then 0 else es[0].count + Total(es[1..])
  }

  /** `acc[k] = (acc[k] || 0) + 1`: a present key is incremented in place, a new
      key is added at the end, as JavaScript objects keep insertion order. */
  function Bump(es: seq<Entry>, k: string): (r: seq<Entry>)
    ensures Total(r) == Total(es) + 1
    ensures forall j :: Lookup(r, j) == Lookup(es, j) + (if j == k then 1 else 0)
    ensures Keys(r) == if k in Keys(es) then Keys(es) else Keys(es) + [k]
  {
    if |es| == 0 then [Entry(k, 1)]
    else if es[0].key == k then [Entry(k, es[0].count + 1)] + es[1..]
    else [es[0]] + Bump(es[1..], k)
  }

  /** The dictionary a left-to-right reduction over `ks` builds from `acc`. */
  function Fold(acc: seq<Entry>, ks: seq<string>): seq<Entry>
    decreases |ks|
  {
    if |ks| == 0 then acc else Fold(Bump(acc, ks[0]), ks[1..])
  }

  lemma FoldStep(acc: seq<Entry>, k: string, rest: seq<string>)
    ensures Fold(acc, [k] + rest) == Fold(Bump(acc, k), rest)
  {
    assert ([k] + rest)[1..] == rest;
  }

  lemma BumpKeys(es: seq<Entry>, k: string)
    ensures forall j :: j in Keys(Bump(es, k)) <==> j in Keys(es) || j == k
    ensures Distinct(Keys(es)) ==> Distinct(Keys(Bump(es, k)))
  {
    var ks := Keys(es);
    if k !in ks {
      assert Keys(Bump(es, k)) == ks + [k];
      assert forall i :: 0 <= i < |ks| ==> (ks + [k])[i] == ks[i];
    }
  }

  /** Counting from the empty dictionary. */
  function Count(ks: seq<string>): seq<Entry>
  {
    Fold([], ks)
  }

  lemma FoldFacts(acc: seq<Entry>, ks: seq<string>)
    ensures Total(Fold(acc, ks)) == Total(acc) + |ks|
    ensures forall j :: Lookup(Fold(acc, ks), j) == Lookup(acc, j) + multiset(ks)[j]
    ensures forall j :: j in Keys(Fold(acc, ks)) <==> j in Keys(acc) || j in ks
    ensures Distinct(Keys(acc)) ==> Distinct(Keys(Fold(acc, ks)))
  {
    FoldTotal(acc, ks);
    FoldLookup(acc, ks);
    FoldKeys(acc, ks);
    if Distinct(Keys(acc)) {
      FoldDistinct(acc, ks);
    }
  }

  lemma {:induction false} FoldTotal(acc: seq<Entry>, ks: seq<string>)
    ensures Total(Fold(acc, ks)) == Total(acc) + |ks|
    decreases |ks|
  {
    if |ks| > 0 {
      FoldTotal(Bump(acc, ks[0]), ks[1..]);
    }
  }

  lemma {:induction false} FoldLookup(acc: seq<Entry>, ks: seq<string>)
    ensures forall j :: Lookup(Fold(acc, ks), j) == Lookup(acc, j) + multiset(ks)[j]
    decreases |ks|
  {
    if |ks| > 0 {
      FoldLookup(Bump(acc, ks[0]), ks[1..]);
      assert ks == [ks[0]] + ks[1..];
      assert multiset(ks) == multiset{ks[0]} + multiset(ks[1..]);
    }
  }

  lemma {:induction false} FoldKeys(acc: seq<Entry>, ks: seq<string>)
    ensures forall j :: j in Keys(Fold(acc, ks)) <==> j in Keys(acc) || j in ks
    decreases |ks|
  {
    if |ks| > 0 {
      var acc' := Bump(acc, ks[0]);
      assert Fold(acc, ks) == Fold(acc', ks[1..]);
      FoldKeys(acc', ks[1..]);
      BumpKeys(acc, ks[0]);
      assert forall j :: j in ks <==> j == ks[0] || j in ks[1..];
    }
  }

  lemma {:induction false} FoldDistinct(acc: seq<Entry>, ks: seq<string>)
    requires Distinct(Keys(acc))
    ensures Distinct(Keys(Fold(acc, ks)))
    decreases |ks|
  {
    if |ks| > 0 {
      var acc' := Bump(acc, ks[0]);
      assert Fold(acc, ks) == Fold(acc', ks[1..]);
      BumpKeys(acc, ks[0]);
      FoldDistinct(acc', ks[1..]);
    }
  }

  /** The counting dictionary has one entry per distinct key, each holding the
      number of occurrences of its key, and its counts sum to the input size. */
  lemma CountFacts(ks: seq<string>)
    ensures Total(Count(ks)) == |ks|
    ensures forall j :: Lookup(Count(ks), j) == multiset(ks)[j]
    ensures forall j :: j in Keys(Count(ks)) <==> j in ks
    ensures Distinct(Keys(Count(ks)))
  {
    FoldFacts([], ks);
  }
}

module Sorting {
  import Seqs

  /** A comparator in the style of `Array.prototype.sort`: negative, zero or
      positive. It is total when of any two values at least one may precede
      the other. */
  ghost predicate Total<T(!new)>(cmp: (T, T) -> int)
  {
    forall a, b :: cmp(a, b) <= 0 || cmp(b, a) <= 0
  }

  /** Every element may precede its successor. */
  predicate Sorted<T>(s: seq<T>, cmp: (T, T) -> int)
  {
    forall i :: 0 <= i < |s| - 1 ==> cmp(s[i], s[i + 1]) <= 0
  }

  /** `x` placed before the first element it may precede. */
  function Insert<T(!new)>(x: T, s: seq<T>, cmp: (T, T) -> int): (r: seq<T>)
    ensures multiset(r) == multiset(s) + multiset{x}
    ensures |r| == |s| + 1
    ensures r[0] == x || (|s| > 0 && r[0] == s[0])
  {
    if |s| == 0 then [x]
    else if cmp(x, s[0]) <= 0 then [x] + s
    else
      var rest := Insert(x, s[1..], cmp);
      assert s == [s[0]] + s[1..];
      [s[0]] + rest
  }

  /** Inserting into a sorted sequence keeps it sorted. */
  lemma {:induction false} InsertSorted<T(!new)>(x: T, s: seq<T>, cmp: (T, T) -> int)
    ensures Total(cmp) && Sorted(s, cmp) ==> Sorted(Insert(x, s, cmp), cmp)
  {
    if Total(cmp) && Sorted(s, cmp) && |s| > 0 && cmp(x, s[0]) > 0 {
      var rest := Insert(x, s[1..], cmp);
      InsertSorted(x, s[1..], cmp);
      assert cmp(s[0], x) <= 0;
      assert Insert(x, s, cmp) == [s[0]] + rest;
    }
  }

  /** `xs.sort(cmp)`: a permutation of `xs` in which every element may
      precede its successor, provided the comparator is total. */
  function SortBy<T(!new)>(xs: seq<T>, cmp: (T, T) -> int): (r: seq<T>)
    ensures multiset(r) == multiset(xs)
    ensures |r| == |xs|
    ensures Total(cmp) ==> Sorted(r, cmp)
  {
    if |xs| == 0 then []
    else
      assert xs == [xs[0]] + xs[1..];
      InsertSorted(xs[0], SortBy(xs[1..], cmp), cmp);
      Insert(xs[0], SortBy(xs[1..], cmp), cmp)
  }

  /** A sequence with the same elements as a sequence without repeats has no
      repeats either. */
  lemma DistinctPermutation<T>(a: seq<T>, b: seq<T>)
    requires multiset(a) == multiset(b) && Seqs.Distinct(a)
    ensures Seqs.Distinct(b)
  {
    DistinctCounts(a);
    forall i, j | 0 <= i < j < |b|
      ensures b[i] != b[j]
    {
      var x := b[j];
      assert b == b[..j] + [b[j]] + b[j + 1..];
      assert multiset(b) == multiset(b[..j]) + multiset{x} + multiset(b[j + 1..]);
      assert multiset(b)[x] >= multiset(b[..j])[x] + 1;
      assert b[..j][i] == b[i];
      assert multiset(b)[b[i]] <= 1;
    }
  }

  /** In a sequence without repeats every element occurs at most once. */
  lemma {:induction false} DistinctCounts<T>(a: seq<T>)
    requires Seqs.Distinct(a)
    ensures forall x :: multiset(a)[x] <= 1
  {
    if |a| > 0 {
      var rest := a[1..];
      assert Seqs.Distinct(rest);
      DistinctCounts(rest);
      assert a == [a[0]] + rest;
      assert a[0] !in rest;
      assert multiset(rest)[a[0]] == 0;
    }
  }
}
