/**
  Properties of the decoding loop that relate several iterations: where the
  loop stops, what the stacked buffers hold and in which order, and the
  scenarios the driver's design singles out (empty batch, forced finish,
  pass-through hooks).
 */
module DecodeProperties {
  import opened Common
  import opened Lanes
  import opened TensorArrays
  import opened OutputRemover
  import opened Collaborators
  import opened WhileLoops
  import opened DynamicDecode

  /** Running `j + k` iterations is running `j` and then `k`. */
  lemma IterateSplit<X, E(!new), S(!new), P(!new), V(!new), F, L(!new)>(
    c: Context<X, E, S, P, V, F, L>, st: LoopState<E, S, V>, j: nat, k: nat)
    requires Valid(c) && Inv(c, st)
    ensures Iterate(c, st, j + k) == Iterate(c, Iterate(c, st, j), k)
  {
    BodyKeepsInv(c);
    RepeatSplit(BodyFn(c), InvFn(c), st, j, k);
  }

  /** The state after `k + 1` iterations is one body after the state after `k`. */
  lemma IterateLast<X, E(!new), S(!new), P(!new), V(!new), F, L(!new)>(
    c: Context<X, E, S, P, V, F, L>, st: LoopState<E, S, V>, k: nat)
    requires Valid(c) && Inv(c, st)
    ensures Iterate(c, st, k + 1) == Body(c, Iterate(c, st, k))
  {
    BodyKeepsInv(c);
    RepeatLast(BodyFn(c), InvFn(c), st, k);
  }

  /** The states whose mask has every lane of `mask` set. */
  ghost function CoversFn<E, S, V>(mask: seq<bool>): LoopState<E, S, V> -> bool
  {
    (s: LoopState<E, S, V>) => StaysTrue(mask, s.finished)
  }

  /** One iteration keeps every set lane set. */
  lemma BodyKeepsCover<X, E(!new), S(!new), P(!new), V(!new), F, L(!new)>(
    c: Context<X, E, S, P, V, F, L>, mask: seq<bool>)
    ensures Preserves(BodyFn(c), InvFn(c))
    ensures Keeps(BodyFn(c), InvFn(c), CoversFn(mask))
  {
    BodyKeepsInv(c);
    forall s | InvFn(c)(s) && CoversFn(mask)(s)
      ensures CoversFn(mask)(BodyFn(c)(s))
    {
      BodyEffect(c, s);
    }
  }

  /** Monotone finished mask: a lane finished after `j` iterations is finished after any later one. */
  lemma MaskMonotone<X, E(!new), S(!new), P(!new), V(!new), F, L(!new)>(
    c: Context<X, E, S, P, V, F, L>, st: LoopState<E, S, V>, j: nat, k: nat)
    requires Valid(c) && Inv(c, st) && j <= k
    ensures StaysTrue(Iterate(c, st, j).finished, Iterate(c, st, k).finished)
  {
    var mask := Iterate(c, st, j).finished;
    BodyKeepsCover(c, mask);
    RepeatKeepsFrom(BodyFn(c), InvFn(c), CoversFn(mask), st, j, k);
  }

  /**
    Conversely to `Loop`'s contract: if the mask first becomes all-true after
    `k <= fuel` iterations, the loop stops there, with `AllFinished`.
   */
  lemma LoopStopsWhenFirstAllTrue<X, E(!new), S(!new), P(!new), V(!new), F, L(!new)>(
    c: Context<X, E, S, P, V, F, L>, st: LoopState<E, S, V>, fuel: nat, k: nat)
    requires Valid(c) && Inv(c, st) && k <= fuel
    requires AllTrue(Iterate(c, st, k).finished)
    requires forall j :: 0 <= j < k ==> !AllTrue(Iterate(c, st, j).finished)
    ensures Loop(c, st, fuel) == AllFinished(Iterate(c, st, k))
  {
    BodyKeepsInv(c);
    forall j | 0 <= j < k
      ensures Continue(Repeat(BodyFn(c), InvFn(c), st, j))
    {
      assert !AllTrue(Iterate(c, st, j).finished);
    }
    WhileStopsAtFirstFailure(Continue, BodyFn(c), InvFn(c), st, fuel, k);
  }

  /** Slot `i` read across the buffers of a loop state: the output record, and the status entry in inference. */
  datatype Slot<V> = Slot(record: map<string, V>, status: Option<BeamStatus>)

  /** Slot `i` of every output buffer that has it written, and of the status buffer if present and written. */
  function SlotAt<E, S, V>(st: LoopState<E, S, V>, i: nat): Slot<V>
  {
    Slot(map f | f in st.outputs && i in st.outputs[f].slots :: st.outputs[f].slots[i],
         if st.infer.Some? && i in st.infer.value.status.slots then Some(st.infer.value.status.slots[i]) else None)
  }

  /** What the iteration from `st` writes at slot `st.time`: its filtered record and, in inference, its status entry. */
  function Written<X, E(!new), S(!new), P(!new), V(!new), F, L(!new)>(
    c: Context<X, E, S, P, V, F, L>, st: LoopState<E, S, V>): Slot<V>
    requires Valid(c) && Inv(c, st)
  {
    var t := Advance(c, st);
    Slot(t.record, if t.sample.Some? then Some(StatusEntry(t.sample.value)) else None)
  }

  /**
    A state `b` whose buffers are those of `a` with slot `a.time` set to the
    entries of `w` reads `w` at that slot and reads as `a` at every other.
   */
  lemma SlotsAfterWrite<E, S, V>(a: LoopState<E, S, V>, b: LoopState<E, S, V>, w: Slot<V>, i: nat)
    requires b.outputs.Keys == a.outputs.Keys == w.record.Keys
    requires forall f :: f in b.outputs ==> b.outputs[f].slots == a.outputs[f].slots[a.time := w.record[f]]
    requires (a.infer.Some? <==> w.status.Some?) && (b.infer.Some? <==> w.status.Some?)
    requires b.infer.Some? ==> b.infer.value.status.slots == a.infer.value.status.slots[a.time := w.status.value]
    ensures i == a.time ==> SlotAt(b, i) == w
    ensures i != a.time ==> SlotAt(b, i) == SlotAt(a, i)
  {
  }

  /** One iteration leaves every slot before `time` as it was. */
  lemma BodyKeepsEarlierSlot<X, E(!new), S(!new), P(!new), V(!new), F, L(!new)>(
    c: Context<X, E, S, P, V, F, L>, st: LoopState<E, S, V>, i: nat)
    requires Valid(c) && Inv(c, st) && i < st.time
    ensures SlotAt(Body(c, st), i) == SlotAt(st, i)
  {
    BodyEffect(c, st);
    SlotsAfterWrite(st, Body(c, st), Written(c, st), i);
  }

  /** One iteration writes at slot `time` exactly what `Written` says, in every buffer. */
  lemma BodyWritesSlot<X, E(!new), S(!new), P(!new), V(!new), F, L(!new)>(
    c: Context<X, E, S, P, V, F, L>, st: LoopState<E, S, V>, i: nat)
    requires Valid(c) && Inv(c, st) && i == st.time
    ensures SlotAt(Body(c, st), i) == Written(c, st)
  {
    BodyEffect(c, st);
    SlotsAfterWrite(st, Body(c, st), Written(c, st), i);
  }

  /** The states in which slot `i` lies before `time` and holds `w`. */
  ghost function HoldsFn<E, S, V>(i: nat, w: Slot<V>): LoopState<E, S, V> -> bool
  {
    (s: LoopState<E, S, V>) => i < s.time && SlotAt(s, i) == w
  }

  /** A slot before `time` keeps its contents through one iteration. */
  lemma BodyKeepsHolds<X, E(!new), S(!new), P(!new), V(!new), F, L(!new)>(
    c: Context<X, E, S, P, V, F, L>, i: nat, w: Slot<V>)
    ensures Preserves(BodyFn(c), InvFn(c))
    ensures Keeps(BodyFn(c), InvFn(c), HoldsFn(i, w))
  {
    BodyKeepsInv(c);
    forall s | InvFn(c)(s) && HoldsFn(i, w)(s)
      ensures HoldsFn(i, w)(BodyFn(c)(s))
    {
      BodyKeepsEarlierSlot(c, s, i);
    }
  }

  /** Slots written before the current time are never touched again, in any buffer. */
  lemma EarlierSlotsKept<X, E(!new), S(!new), P(!new), V(!new), F, L(!new)>(
    c: Context<X, E, S, P, V, F, L>, st: LoopState<E, S, V>, k: nat, i: nat)
    requires Valid(c) && Inv(c, st) && i < st.time
    ensures SlotAt(Iterate(c, st, k), i) == SlotAt(st, i)
  {
    BodyKeepsHolds(c, i, SlotAt(st, i));
    RepeatKeeps(BodyFn(c), InvFn(c), HoldsFn(i, SlotAt(st, i)), st, k);
  }

  /** The slot iteration `t` writes, seen from its starting state. */
  lemma IterationWritesSlot<X, E(!new), S(!new), P(!new), V(!new), F, L(!new)>(
    c: Context<X, E, S, P, V, F, L>, st: LoopState<E, S, V>, t: nat)
    requires Valid(c) && Inv(c, st)
    ensures SlotAt(Body(c, Iterate(c, st, t)), st.time + t) == Written(c, Iterate(c, st, t))
  {
    BodyWritesSlot(c, Iterate(c, st, t), st.time + t);
  }

  /** Slot `i` after `t + 1` iterations is slot `i` after one body from the state after `t`. */
  lemma IterateLastSlot<X, E(!new), S(!new), P(!new), V(!new), F, L(!new)>(
    c: Context<X, E, S, P, V, F, L>, st: LoopState<E, S, V>, t: nat, i: nat)
    requires Valid(c) && Inv(c, st)
    ensures SlotAt(Iterate(c, st, t + 1), i) == SlotAt(Body(c, Iterate(c, st, t)), i)
  {
    IterateLast(c, st, t);
  }

  /** Iteration `t` leaves its own entry at slot `st.time + t`. */
  lemma StepWritesOwnSlot<X, E(!new), S(!new), P(!new), V(!new), F, L(!new)>(
    c: Context<X, E, S, P, V, F, L>, st: LoopState<E, S, V>, t: nat)
    requires Valid(c) && Inv(c, st)
    ensures SlotAt(Iterate(c, st, t + 1), st.time + t) == Written(c, Iterate(c, st, t))
  {
    IterationWritesSlot(c, st, t);
    IterateLastSlot(c, st, t, st.time + t);
  }

  /** A slot that holds `w` once the clock has passed it holds `w` in every later state. */
  lemma SlotKeptFrom<X, E(!new), S(!new), P(!new), V(!new), F, L(!new)>(
    c: Context<X, E, S, P, V, F, L>, st: LoopState<E, S, V>, j: nat, k: nat, i: nat, w: Slot<V>)
    requires Valid(c) && Inv(c, st) && j <= k && i < st.time + j
    requires SlotAt(Iterate(c, st, j), i) == w
    ensures SlotAt(Iterate(c, st, k), i) == w
  {
    assert HoldsFn(i, w)(Iterate(c, st, j));
    BodyKeepsHolds(c, i, w);
    RepeatKeepsFrom(BodyFn(c), InvFn(c), HoldsFn(i, w), st, j, k);
  }

  /**
    One write per step, in time order: after `k` iterations, slot
    `st.time + t` of every buffer holds what the `t`-th iteration wrote.
   */
  lemma HistoryRecorded<X, E(!new), S(!new), P(!new), V(!new), F, L(!new)>(
    c: Context<X, E, S, P, V, F, L>, st: LoopState<E, S, V>, k: nat, t: nat)
    requires Valid(c) && Inv(c, st) && t < k
    ensures SlotAt(Iterate(c, st, k), st.time + t) == Written(c, Iterate(c, st, t))
  {
    StepWritesOwnSlot(c, st, t);
    SlotKeptFrom(c, st, t + 1, k, st.time + t, Written(c, Iterate(c, st, t)));
  }

  /** Entry `t` read across a stacked result: every stacked field that has one, and the beam status in inference. */
  function EntryAt<V>(out: DynamicOutput<V>, t: nat): Slot<V>
  {
    Slot(map f | f in out.outputs && t < |out.outputs[f]| :: out.outputs[f][t],
         if out.inferStatus.Some? && t < |out.inferStatus.value| then Some(out.inferStatus.value[t]) else None)
  }

  /** Stacking a state that satisfies the invariant succeeds and reads every slot before `time` unchanged. */
  lemma FinalizeReadsSlots<X, E, S, P, V, F, L>(c: Context<X, E, S, P, V, F, L>, st: LoopState<E, S, V>, t: nat)
    requires Inv(c, st) && t < st.time
    ensures Finalize(st).Success?
    ensures EntryAt(Finalize(st).value, t) == SlotAt(st, t)
  {
    InvStacks(c, st);
  }

  /** Equal states read equal slots. */
  lemma SlotAtEqual<E, S, V>(a: LoopState<E, S, V>, b: LoopState<E, S, V>, i: nat)
    requires a == b
    ensures SlotAt(a, i) == SlotAt(b, i)
  {
  }

  /**
    Stacking the state reached after `k` iterations succeeds, and its entry
    `i == st.time + t` is what iteration `t` wrote.
   */
  lemma StackedHistory<X, E(!new), S(!new), P(!new), V(!new), F, L(!new)>(
    c: Context<X, E, S, P, V, F, L>, st: LoopState<E, S, V>, last: LoopState<E, S, V>, k: nat, t: nat, i: nat)
    requires Valid(c) && Inv(c, st) && t < k
    requires last == Iterate(c, st, k) && i == st.time + t
    ensures Finalize(last).Success?
    ensures EntryAt(Finalize(last).value, i) == Written(c, Iterate(c, st, t))
  {
    FinalizeReadsSlots(c, last, i);
    SlotAtEqual(last, Iterate(c, st, k), i);
    HistoryRecorded(c, st, k, t);
  }

  /** The loop state at the start of iteration `t` of one decode call. */
  function StateAt<X, E(!new), S(!new), P(!new), V(!new), F, L(!new)>(
    d: Decoder<X, E, S, P, V, F>, fb: Feedback<L>, m: Modality<E, F, L>, x: X, t: nat): (st: LoopState<E, S, V>)
    requires WellFormed(d, fb, m, x)
    ensures Inv(MakeContext(d, fb, m, x), st)
    ensures st.time == t
  {
    var c := MakeContext(d, fb, m, x);
    Iterate(c, Init(c), t)
  }

  /**
    The decode result holds the whole history in time order: entry `t` of
    every stacked field, and in inference of the beam status, is what
    iteration `t` wrote (`Written`: the filtered record, and the
    `(next_log_probs, sample_ids, beam_ids, next_lengths)` entry). The loop
    ran exactly as many iterations as there are entries, and it ran them
    because the mask was not all-true before.
   */
  lemma DecodedHistoryInTimeOrder<X, E(!new), S(!new), P(!new), V(!new), F, L(!new)>(
    d: Decoder<X, E, S, P, V, F>, fb: Feedback<L>, m: Modality<E, F, L>, x: X, fuel: nat)
    requires WellFormed(d, fb, m, x)
    requires DynamicDecodeFn(d, fb, m, x, fuel).Success?
    ensures var out := DynamicDecodeFn(d, fb, m, x, fuel).value;
            var steps := RunLoop(d, fb, m, x, fuel).st.time;
      && AllTrue(StateAt(d, fb, m, x, steps).finished)
      && (forall j :: 0 <= j < steps ==> !AllTrue(StateAt(d, fb, m, x, j).finished))
      && (forall t :: 0 <= t < steps ==> EntryAt(out, t) == Written(MakeContext(d, fb, m, x), StateAt(d, fb, m, x, t)))
  {
    var c := MakeContext(d, fb, m, x);
    var init := Init(c);
    var last := Loop(c, init, fuel).st;
    var k := last.time - init.time;
    forall t | 0 <= t < last.time
      ensures EntryAt(DynamicDecodeFn(d, fb, m, x, fuel).value, t) == Written(c, StateAt(d, fb, m, x, t))
    {
      StackedHistory(c, init, last, k, t, t);
    }
  }

  /**
    An all-true initial mask means zero iterations: `step` is never called,
    every stacked field is empty, and so is the beam status in inference.
   */
  lemma AllFinishedAtStart<X, E(!new), S(!new), P(!new), V(!new), F, L(!new)>(
    d: Decoder<X, E, S, P, V, F>, fb: Feedback<L>, m: Modality<E, F, L>, x: X, fuel: nat)
    requires WellFormed(d, fb, m, x)
    requires AllTrue(fb.initial.finished)
    ensures RunLoop(d, fb, m, x, fuel).st.time == 0
    ensures DynamicDecodeFn(d, fb, m, x, fuel).Success?
    ensures var out := DynamicDecodeFn(d, fb, m, x, fuel).value;
      && (forall f :: f in out.outputs ==> out.outputs[f] == [])
      && (d.mode == Infer ==> out.inferStatus == Some([]))
  {
    var c := MakeContext(d, fb, m, x);
    assert Loop(c, Init(c), fuel) == AllFinished(Init(c));
  }

  /** An empty batch (no lanes) finishes before the first iteration. */
  lemma EmptyBatch<X, E(!new), S(!new), P(!new), V(!new), F, L(!new)>(
    d: Decoder<X, E, S, P, V, F>, fb: Feedback<L>, m: Modality<E, F, L>, x: X, fuel: nat)
    requires WellFormed(d, fb, m, x)
    requires LaneCount(fb) == 0
    ensures RunLoop(d, fb, m, x, fuel).st.time == 0
    ensures DynamicDecodeFn(d, fb, m, x, fuel).Success?
    ensures var out := DynamicDecodeFn(d, fb, m, x, fuel).value;
      && (forall f :: f in out.outputs ==> out.outputs[f] == [])
      && (d.mode == Infer ==> out.inferStatus == Some([]))
  {
    AllFinishedAtStart(d, fb, m, x, fuel);
  }

  /** No lane of the mask is set. */
  predicate NoneTrue(mask: seq<bool>)
  {
    forall i :: 0 <= i < |mask| ==> !mask[i]
  }

  /** The states before time `K` whose mask has no lane set. */
  ghost function QuietBeforeFn<E, S, V>(K: nat): LoopState<E, S, V> -> bool
  {
    (s: LoopState<E, S, V>) => s.time < K ==> NoneTrue(s.finished)
  }

  /** A helper that reports no finished lane before time `K - 1` keeps the mask clear up to time `K - 1`. */
  lemma BodyKeepsQuiet<X, E(!new), S(!new), P(!new), V(!new), F, L(!new)>(
    c: Context<X, E, S, P, V, F, L>, K: nat)
    requires forall t: nat, ids :: t + 1 < K ==> NoneTrue(c.fb.nextSymbols(t, ids).finished)
    ensures Preserves(BodyFn(c), InvFn(c))
    ensures Keeps(BodyFn(c), InvFn(c), QuietBeforeFn(K))
  {
    BodyKeepsInv(c);
    forall s | InvFn(c)(s) && QuietBeforeFn(K)(s)
      ensures QuietBeforeFn(K)(BodyFn(c)(s))
    {
      BodyEffect(c, s);
      BeamReorderAligned(c, s);
    }
  }

  /**
    While the helper reports no finished lane before time `K - 1`, the mask
    stays all-false for the first `K` loop states.
   */
  lemma NoneFinishedBefore<X, E(!new), S(!new), P(!new), V(!new), F, L(!new)>(
    c: Context<X, E, S, P, V, F, L>, K: nat, j: nat)
    requires Valid(c) && j < K
    requires NoneTrue(c.fb.initial.finished)
    requires forall t: nat, ids :: t + 1 < K ==> NoneTrue(c.fb.nextSymbols(t, ids).finished)
    ensures NoneTrue(Iterate(c, Init(c), j).finished)
  {
    BodyKeepsQuiet(c, K);
    RepeatKeeps(BodyFn(c), InvFn(c), QuietBeforeFn(K), Init(c), j);
  }

  /**
    A helper that reports nothing finished before time `K - 1` and every lane
    finished at time `K - 1` makes a non-empty batch run exactly `K`
    iterations (times `0 .. K-1`), leaving `K` entries in every buffer.
   */
  lemma ForcedFinishRunsKSteps<X, E(!new), S(!new), P(!new), V(!new), F, L(!new)>(
    d: Decoder<X, E, S, P, V, F>, fb: Feedback<L>, m: Modality<E, F, L>, x: X, fuel: nat, K: nat)
    requires WellFormed(d, fb, m, x)
    requires 1 <= K <= fuel && LaneCount(fb) > 0
    requires NoneTrue(fb.initial.finished)
    requires forall t: nat, ids :: t + 1 < K ==> NoneTrue(fb.nextSymbols(t, ids).finished)
    requires forall t: nat, ids :: t + 1 == K ==> AllTrue(fb.nextSymbols(t, ids).finished)
    ensures RunLoop(d, fb, m, x, fuel).AllFinished?
    ensures RunLoop(d, fb, m, x, fuel).st.time == K
    ensures DynamicDecodeFn(d, fb, m, x, fuel).Success?
    ensures var out := DynamicDecodeFn(d, fb, m, x, fuel).value;
      && (forall f :: f in out.outputs ==> |out.outputs[f]| == K)
      && (out.inferStatus.Some? ==> |out.inferStatus.value| == K)
  {
    var c := MakeContext(d, fb, m, x);
    var init := Init(c);
    forall j | 0 <= j < K
      ensures !AllTrue(Iterate(c, init, j).finished)
    {
      NoneFinishedBefore(c, K, j);
      assert !Iterate(c, init, j).finished[0];
    }
    var last := Iterate(c, init, K - 1);
    IterateLast(c, init, K - 1);
    BodyEffect(c, last);
    BeamReorderAligned(c, last);
    LoopStopsWhenFirstAllTrue(c, init, fuel, K);
  }

  /**
    With pass-through hooks, `step` receives the current input unchanged and
    the next input is exactly the embedding of the helper's next symbols at
    `time + 1`; the initial input is the embedding of the start symbols.
    In TRAIN/EVAL those symbols come from `next_symbols(time, None)` alone,
    so the inputs never depend on the decoder's own outputs.
   */
  lemma PassThroughHooksFeedEmbeddedSymbols<X, E(!new), S(!new), P(!new), V(!new), F, L(!new)>(
    c: Context<X, E, S, P, V, F, L>, st: LoopState<E, S, V>)
    requires Valid(c) && Inv(c, st) && IdentityHooks(c.dec.hooks)
    ensures Init(c).inputs == EmbedWords(c.modality, c.fb.initial.symbols, 0)
    ensures Advance(c, st).stepInputs == st.inputs
    ensures Body(c, st).inputs == EmbedWords(c.modality, Advance(c, st).feedback.symbols, st.time + 1)
    ensures c.dec.mode != Infer ==>
      Body(c, st).inputs == EmbedWords(c.modality, c.fb.nextSymbols(st.time, None).symbols, st.time + 1)
  {
    BodyEffect(c, st);
    BeamReorderAligned(c, st);
  }
}
