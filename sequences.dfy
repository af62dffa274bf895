/**
 * The one list idiom the finder uses twice: walk a list in order and append
 * to a result whatever a per-element decision yields. `Keep` is that idiom
 * as a function; `KeptIndices` says which input positions produced the output.
 */
module Sequences {
  import opened Wrappers

  /** The values `pick` yields, in input order; elements for which it yields `None` are dropped. */
  function Keep<T, U>(xs: seq<T>, pick: T -> Option<U>): seq<U>
  {
    if |xs| == 0 then []
    else
      var rest := Keep(xs[..|xs| - 1], pick);
      match pick(xs[|xs| - 1])
      case Some(u) => rest + [u]
      case None => rest
  }

  /**
   * The positions of `xs` that produced `Keep(xs, pick)`: strictly increasing
   * (so the output is an order-preserving subsequence and no element is used
   * twice), each yielding the output element at the same rank, and covering
   * every position whose element `pick` keeps.
   */
  function KeptIndices<T, U>(xs: seq<T>, pick: T -> Option<U>): (idx: seq<nat>)
    ensures |idx| == |Keep(xs, pick)| <= |xs|
    ensures forall k :: 0 <= k < |idx| ==> idx[k] < |xs| && pick(xs[idx[k]]) == Some(Keep(xs, pick)[k])
    ensures forall k, l :: 0 <= k < l < |idx| ==> idx[k] < idx[l]
    ensures forall i :: 0 <= i < |xs| && pick(xs[i]).Some? ==> i in idx
  {
    if |xs| == 0 then []
    else
      var init := xs[..|xs| - 1];
      var rest := KeptIndices(init, pick);
      assert forall i :: 0 <= i < |init| ==> init[i] == xs[i];
      if pick(xs[|xs| - 1]).Some? then rest + [|xs| - 1] else rest
  }
}
