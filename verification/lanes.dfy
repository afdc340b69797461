/**
  Lane-wise tensor operations. A tensor whose leading dimension is the
  flattened batch x beam axis is a sequence with one entry per lane.
 */
module Lanes {

  /** `tf.reduce_all` over a boolean mask; true for the empty mask. */
  predicate AllTrue(mask: seq<bool>)
  {
    forall i :: 0 <= i < |mask| ==> mask[i]
  }

  /** Every lane that is true in `before` is still true in `after`. */
  predicate StaysTrue(before: seq<bool>, after: seq<bool>)
  {
    |before| == |after| && forall i :: 0 <= i < |before| ==> before[i] ==> after[i]
  }

  /** `tf.logical_or` of two masks of the same lane count. */
  function Or(a: seq<bool>, b: seq<bool>): (r: seq<bool>)
    requires |a| == |b|
    ensures |r| == |a|
    ensures StaysTrue(a, r) && StaysTrue(b, r)
    ensures forall i :: 0 <= i < |r| && r[i] ==> a[i] || b[i]
  {
    seq(|a|, i requires 0 <= i < |a| => a[i] || b[i])
  }

  /** Every index points at one of `n` lanes. */
  predicate ValidIds(ids: seq<nat>, n: nat)
  {
    forall i :: 0 <= i < |ids| ==> ids[i] < n
  }

  /**
    `gather_states`: lane `i` of the result is lane `ids[i]` of `xs`.
   */
  function Gather<T>(xs: seq<T>, ids: seq<nat>): (r: seq<T>)
    requires ValidIds(ids, |xs|)
    ensures |r| == |ids|
    ensures forall i :: 0 <= i < |ids| ==> r[i] == xs[ids[i]]
  {
    if ids == [] then [] else [xs[ids[0]]] + Gather(xs, ids[1..])
  }

  /**
    Two reorderings compose: following `inner` parents and then `outer`
    parents is one reordering by the composed parent indices. This is what
    lets a caller trace a hypothesis back through the recorded `beam_ids`.
   */
  lemma GatherCompose<T>(xs: seq<T>, inner: seq<nat>, outer: seq<nat>)
    requires ValidIds(inner, |xs|) && ValidIds(outer, |inner|)
    ensures ValidIds(Gather(inner, outer), |xs|)
    ensures Gather(Gather(xs, inner), outer) == Gather(xs, Gather(inner, outer))
  {
  }

  /** Multiplying by a non-negative factor keeps an order. */
  lemma MulMonotone(a: int, c: int, k: nat)
    requires a <= c
    ensures a * k <= c * k
  {
    var d := c - a;
    assert c * k == a * k + d * k;
  }

  /** Index `b * k + j` with `j < k` lies in block `b`. */
  lemma BlockIndex(b: nat, j: nat, k: nat)
    requires j < k
    ensures (b * k + j) / k == b
  {
    var q := (b * k + j) / k;
    var r := (b * k + j) % k;
    assert q * k + r == b * k + j;
    if q < b {
      assert (q + 1) * k == q * k + k;
      MulMonotone(q + 1, b, k);
      assert false;
    } else if q > b {
      assert (b + 1) * k == b * k + k;
      MulMonotone(b + 1, q, k);
      assert false;
    }
  }

  /** A lane of `n * k` lanes lies in a block below `n`. */
  lemma BlockBound(i: nat, n: nat, k: nat)
    requires k > 0 && i < n * k
    ensures i / k < n
  {
    var q := i / k;
    assert q * k + i % k == i;
    if q >= n {
      MulMonotone(n, q, k);
      assert false;
    }
  }

  /**
    `stack_beam_size`: every batch entry is replicated into `k` consecutive
    beam lanes, so the result has `|xs| * k` lanes and lane `i` copies entry
    `i / k`.
   */
  function StackBeam<T>(xs: seq<T>, k: nat): (r: seq<T>)
    ensures |r| == |xs| * k
    ensures forall i :: 0 <= i < |r| ==> k > 0 && r[i] == xs[i / k]
  {
    if k == 0 then []
    else
      seq(|xs| * k, i requires 0 <= i < |xs| * k => BlockBound(i, |xs|, k); xs[i / k])
  }

  /** Lane `j` of block `b` of the stacked lanes is batch entry `b`. */
  lemma StackBeamBlock<T>(xs: seq<T>, k: nat, b: nat, j: nat)
    requires b < |xs| && j < k
    ensures b * k + j < |StackBeam(xs, k)|
    ensures StackBeam(xs, k)[b * k + j] == xs[b]
  {
    MulMonotone(b + 1, |xs|, k);
    assert (b + 1) * k == b * k + k;
    BlockIndex(b, j, k);
  }

}
