/** numpy boolean-mask indexing (`a[mask]`) and `mask.sum()`, used by `random_perspective`
    (exps/data/tal_flip_mosaicdetection.py:113-115) and by `mixup` (:550-554). */
module Masks {

  /** `mask.sum()`: the number of true entries. */
  function CountTrue(keep: seq<bool>): (n: nat)
    ensures n <= |keep|
  {
    if |keep| == 0 then 0
    else CountTrue(keep[..|keep| - 1]) + (if keep[|keep| - 1] then 1 else 0)
  }

  /** `xs[keep]`: the elements whose mask entry is true, in their original order. */
  function Mask<T>(xs: seq<T>, keep: seq<bool>): (r: seq<T>)
    requires |keep| == |xs|
    ensures |r| == CountTrue(keep)
  {
    if |xs| == 0 then []
    else Mask(xs[..|xs| - 1], keep[..|keep| - 1]) + (if keep[|keep| - 1] then [xs[|xs| - 1]] else [])
  }

  /** The positions of the true entries of `keep`, in increasing order: an independent
      description of what `Mask` selects. */
  function TrueIndices(keep: seq<bool>): (idx: seq<nat>)
    ensures |idx| == CountTrue(keep)
    ensures forall k :: 0 <= k < |idx| ==> idx[k] < |keep| && keep[idx[k]]
    ensures forall a, b :: 0 <= a < b < |idx| ==> idx[a] < idx[b]
    ensures forall i :: 0 <= i < |keep| && keep[i] ==> i in idx
  {
    if |keep| == 0 then []
    else
      var n := |keep| - 1;
      var prefix := TrueIndices(keep[..n]);
      assert forall i :: 0 <= i < n && keep[i] ==> keep[..n][i];
      prefix + (if keep[n] then [n] else [])
  }

  /** Mask selects exactly the elements at the true positions, in order. */
  lemma {:induction false} MaskSelects<T>(xs: seq<T>, keep: seq<bool>)
    requires |keep| == |xs|
    ensures |Mask(xs, keep)| == |TrueIndices(keep)|
    ensures forall k :: 0 <= k < |TrueIndices(keep)| ==> TrueIndices(keep)[k] < |xs| && Mask(xs, keep)[k] == xs[TrueIndices(keep)[k]]
  {
    if |xs| > 0 {
      var n := |xs| - 1;
      MaskSelects(xs[..n], keep[..n]);
    }
  }
}
