/**
  The growable output buffers of the decoding loop (`tf.TensorArray` created
  with `size=0, dynamic_size=True`): slots written by time index, stacked
  once after the loop into one time-ordered sequence.
 */
module TensorArrays {
  import opened Common

  /** `size` is one past the highest index written; `slots` holds the written values. */
  datatype TensorArray<V> = TensorArray(size: nat, slots: map<nat, V>)

  /** Exactly the slots `0 .. k-1` have been written, and nothing else. */
  ghost predicate Filled<V>(ta: TensorArray<V>, k: nat)
  {
    ta.size == k && forall i: nat :: i in ta.slots <==> i < k
  }

  /** `_create_ta`: a dynamic-size array holding no slot. */
  function Empty<V>(): (ta: TensorArray<V>)
    ensures Filled(ta, 0)
  {
    TensorArray(0, map[])
  }

  /**
    `ta.write(index, v)`: a dynamic array grows to exactly `max(size, index + 1)`;
    other slots are kept.
   */
  function Write<V>(ta: TensorArray<V>, index: nat, v: V): (r: TensorArray<V>)
    ensures index in r.slots && r.slots[index] == v
    ensures r.size == if index < ta.size then ta.size else index + 1
    ensures forall i :: i in ta.slots && i != index ==> i in r.slots && r.slots[i] == ta.slots[i]
    ensures forall i :: i in r.slots ==> i == index || i in ta.slots
  {
    TensorArray(if index < ta.size then ta.size else index + 1, ta.slots[index := v])
  }

  /** Every index below `size` has been written. */
  predicate NoGaps<V>(ta: TensorArray<V>)
  {
    forall i :: 0 <= i < ta.size ==> i in ta.slots
  }

  /**
    `ta.stack()`: the written slots in index order. Stacking an array with an
    unwritten slot below its size is a contract violation, reported as `None`.
   */
  function Stack<V>(ta: TensorArray<V>): (r: Option<seq<V>>)
    ensures r.Some? <==> NoGaps(ta)
    ensures r.Some? ==> |r.value| == ta.size
    ensures r.Some? ==> forall i :: 0 <= i < ta.size ==> r.value[i] == ta.slots[i]
  {
    if NoGaps(ta) then Some(seq(ta.size, i requires 0 <= i < ta.size => ta.slots[i]))
    else None
  }

  /**
    Writing the next index of a gap-free array: the slot was free before (so
    no slot is written twice) and the array is gap-free one step further.
   */
  lemma WriteNext<V>(ta: TensorArray<V>, k: nat, v: V)
    requires Filled(ta, k)
    ensures k !in ta.slots
    ensures Filled(Write(ta, k, v), k + 1)
    ensures Write(ta, k, v).slots[k] == v
  {
    var r := Write(ta, k, v);
    forall i: nat
      ensures i in r.slots <==> i < k + 1
    {
      if i < k {
        assert i in ta.slots;
      }
    }
  }

  /** A filled array stacks into exactly `k` values, in index order. */
  lemma StackFilled<V>(ta: TensorArray<V>, k: nat)
    requires Filled(ta, k)
    ensures Stack(ta).Some?
    ensures |Stack(ta).value| == k
    ensures forall i :: 0 <= i < k ==> Stack(ta).value[i] == ta.slots[i]
  {
  }
}
