/** Boolean row masks over a table column, and selection of the masked rows
    in order: the `df.loc[mask, ...]` of the pipeline. */
module Columns {
  /** The number of true entries in a mask. */
  function Count(mask: seq<bool>): (n: nat)
    ensures n <= |mask|
  {
    if mask == [] then 0
    else Count(mask[..|mask| - 1]) + (if mask[|mask| - 1] then 1 else 0)
  }

  /** The entries of `xs` whose mask entry is true, in their original order. */
  function Select<T>(xs: seq<T>, mask: seq<bool>): (r: seq<T>)
    requires |xs| == |mask|
    ensures |r| == Count(mask)
  {
    if xs == [] then []
    else Select(xs[..|xs| - 1], mask[..|mask| - 1])
         + (if mask[|mask| - 1] then [xs[|xs| - 1]] else [])
  }

  /** Extending a prefix by one entry adds that entry to the count. */
  lemma CountPrefix(mask: seq<bool>, i: nat)
    requires i < |mask|
    ensures Count(mask[..i + 1]) == Count(mask[..i]) + (if mask[i] then 1 else 0)
  {
    assert mask[..i + 1][..i] == mask[..i];
  }

  /** Two masks that disagree at every row have counts adding up to the
      number of rows. */
  lemma {:induction false} CountComplement(a: seq<bool>, b: seq<bool>)
    requires |a| == |b|
    requires forall i :: 0 <= i < |a| ==> a[i] != b[i]
    ensures Count(a) + Count(b) == |a|
  {
    if a != [] {
      var n := |a|;
      CountComplement(a[..n - 1], b[..n - 1]);
    }
  }

  /** A mask with no true entry is false everywhere. */
  lemma CountZero(mask: seq<bool>, j: nat)
    requires Count(mask) == 0 && j < |mask|
    ensures !mask[j]
  {
  }

  /** Row i, when masked, is the entry of the selection whose position is the
      number of masked rows before it. */
  lemma {:induction false} SelectAt<T>(xs: seq<T>, mask: seq<bool>, i: nat)
    requires |xs| == |mask| && i < |xs| && mask[i]
    ensures Count(mask[..i]) < Count(mask)
    ensures Select(xs, mask)[Count(mask[..i])] == xs[i]
  {
    var n := |xs|;
    var xs', mask' := xs[..n - 1], mask[..n - 1];
    if i == n - 1 {
      assert mask[..i] == mask';
    } else {
      assert mask'[..i] == mask[..i];
      SelectAt(xs', mask', i);
    }
  }

  /** Every entry of the selection comes from a masked row. */
  lemma {:induction false} SelectFrom<T>(xs: seq<T>, mask: seq<bool>, k: nat)
    requires |xs| == |mask| && k < Count(mask)
    ensures exists i :: 0 <= i < |xs| && mask[i] && xs[i] == Select(xs, mask)[k]
  {
    var n := |xs|;
    var xs', mask' := xs[..n - 1], mask[..n - 1];
    if k < Count(mask') {
      SelectFrom(xs', mask', k);
      var i :| 0 <= i < |xs'| && mask'[i] && xs'[i] == Select(xs', mask')[k];
      assert mask[i] && xs[i] == Select(xs, mask)[k];
    } else {
      assert mask[n - 1] && xs[n - 1] == Select(xs, mask)[k];
    }
  }
}
