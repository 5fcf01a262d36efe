// The list edits the product dialogs apply to their list of source forms:
// `filter((_, i) => i !== index)` to remove a row and
// `map((s, i) => i === index ? f(s) : s)` to rewrite one.

module FormLists {

  /** The elements of `xs` whose position, counted from `start`, is not
      `index`: the index-aware `filter` of the dialogs. */
  function KeepOthers<T>(xs: seq<T>, index: int, start: int): seq<T>
    decreases |xs|
  {
    if |xs| == 0 then []
    else (if start == index then [] else [xs[0]]) + KeepOthers(xs[1..], index, start + 1)
  }

  /** `xs.filter((_, i) => i !== index)`: exactly position `index` is gone and
      the others keep their order; an index outside the list removes
      nothing. */
  function RemoveAt<T>(xs: seq<T>, index: int): (r: seq<T>)
    ensures 0 <= index < |xs| ==> r == xs[..index] + xs[index + 1..]
    ensures !(0 <= index < |xs|) ==> r == xs
  {
    if 0 <= index < |xs| then
      KeepOthersDrops(xs, index, 0);
      KeepOthers(xs, index, 0)
    else
      KeepOthersKeeps(xs, index, 0);
      KeepOthers(xs, index, 0)
  }

  lemma {:induction false} KeepOthersKeeps<T>(xs: seq<T>, index: int, start: int)
    requires !(start <= index < start + |xs|)
    ensures KeepOthers(xs, index, start) == xs
    decreases |xs|
  {
    if |xs| > 0 {
      KeepOthersKeeps(xs[1..], index, start + 1);
      assert xs == [xs[0]] + xs[1..];
    }
  }

  lemma {:induction false} KeepOthersDrops<T>(xs: seq<T>, index: int, start: int)
    requires start <= index < start + |xs|
    ensures KeepOthers(xs, index, start) == xs[..index - start] + xs[index - start + 1..]
    decreases |xs|
  {
    if start == index {
      KeepOthersKeeps(xs[1..], index, start + 1);
    } else {
      var k := index - start;
      KeepOthersDrops(xs[1..], index, start + 1);
      assert KeepOthers(xs, index, start) == [xs[0]] + KeepOthers(xs[1..], index, start + 1);
      assert xs[..k] == [xs[0]] + xs[1..][..k - 1];
      assert xs[k + 1..] == xs[1..][k..];
    }
  }

  /** `xs.map((s, i) => i === index ? f(s) : s)`: the length is kept, position
      `index` becomes `f` of what it held and every other position is
      untouched. */
  function UpdateAt<T>(xs: seq<T>, index: int, f: T -> T): (r: seq<T>)
    ensures |r| == |xs|
    ensures 0 <= index < |xs| ==> r[index] == f(xs[index])
    ensures forall i :: 0 <= i < |xs| && i != index ==> r[i] == xs[i]
  {
    seq(|xs|, i requires 0 <= i < |xs| => if i == index then f(xs[i]) else xs[i])
  }

  /** The dialogs offer removal only while more than one row exists, so a
      removal through them never empties the list. */
  lemma RemoveKeepsOne<T>(xs: seq<T>, index: int)
    requires |xs| > 1
    ensures |RemoveAt(xs, index)| >= 1
    ensures 0 <= index < |xs| ==> |RemoveAt(xs, index)| == |xs| - 1
  {
  }

  /** Removing a row and then appending one is the same as appending first and
      removing the same position afterwards. */
  lemma {:induction false} RemoveThenAppend<T>(xs: seq<T>, index: int, x: T)
    requires 0 <= index < |xs|
    ensures RemoveAt(xs, index) + [x] == RemoveAt(xs + [x], index)
  {
    assert (xs + [x])[..index] == xs[..index];
    assert (xs + [x])[index + 1..] == xs[index + 1..] + [x];
  }
}
