/**
  The decoding loop driver `dynamic_decode` and the mode dispatch of
  `Decoder.decode`, as an explicit state machine over one loop-state value.

  One iteration (`Body`) pre-processes the current input, calls `step`,
  writes the filtered output record at slot `time`, and in inference samples
  the next symbols, reorders the new state and the current input by the
  parent beam ids and records one beam-status entry. It then embeds and
  post-processes the next symbols, ORs the new finished flags into the mask
  and advances time. The loop (`Loop`) runs while some lane is unfinished;
  `tf.while_loop` has no step cap, so the model takes a fuel bound.
 */
module DynamicDecode {
  import opened Common
  import opened Lanes
  import opened TensorArrays
  import opened OutputRemover
  import opened Collaborators
  import opened WhileLoops

  /** One beam-search status entry (`BeamSearchStateSpec`), recorded per step. */
  datatype BeamStatus = BeamStatus(
    logProbs: seq<real>,
    predictedIds: seq<nat>,
    beamIds: seq<nat>,
    lengths: seq<int>)

  /** The loop variables that exist only in inference. */
  datatype InferVars = InferVars(
    logProbs: seq<real>,
    lengths: seq<int>,
    status: TensorArray<BeamStatus>)

  /** The `tf.while_loop` loop variables. */
  datatype LoopState<E, S, V> = LoopState(
    time: nat,
    inputs: seq<E>,
    states: seq<S>,
    outputs: map<string, TensorArray<V>>,
    finished: seq<bool>,
    infer: Option<InferVars>)

  /** Everything fixed before the loop starts. */
  datatype Context<!X, !E, !S, !P, !V, !F, !L> = Context(
    dec: Decoder<X, E, S, P, V, F>,
    fb: Feedback<L>,
    modality: Modality<E, F, L>,
    prepared: Prepared<S, P>,   // after `stack_beam_size` in inference
    remover: Remover)

  /** Why a decode call produced no result. */
  datatype DecodeError =
    | FuelExhausted   // the finished mask did not become all-true within the fuel bound
    | UnwrittenSlot   // a buffer was stacked with a slot never written

  /** How the loop ended. */
  datatype LoopOutcome<E, S, V> = AllFinished(st: LoopState<E, S, V>) | OutOfFuel(st: LoopState<E, S, V>)

  /** What `dynamic_decode` returns: stacked outputs, plus the stacked beam status in inference. */
  datatype DynamicOutput<V> = DynamicOutput(outputs: map<string, seq<V>>, inferStatus: Option<seq<BeamStatus>>)

  /** The second half of what `Decoder.decode` returns. */
  datatype DecoderStatus<L> = BeamSearch(status: seq<BeamStatus>) | Logits(logits: L)

  datatype Decoded<V, L> = Decoded(outputs: map<string, seq<V>>, status: DecoderStatus<L>)

  /** The intermediate values of one loop iteration. */
  datatype Transition<E, S, V> = Transition(
    stepInputs: seq<E>,          // the pre-processed input handed to `step`
    raw: StepResult<S, V>,       // what `step` returned
    record: map<string, V>,      // the filtered record written at slot `time`
    sample: Option<Sample>,      // inference only
    nextStates: seq<S>,          // the new states, reordered in inference
    prevInputs: seq<E>,          // the input handed to post-processing as the previous one
    feedback: FeedbackSymbols,   // `next_symbols`
    nextInputs: seq<E>)          // the embedded, post-processed next input

  function LaneNum<X, E, S, P, V, F, L>(c: Context<X, E, S, P, V, F, L>): nat
  {
    LaneCount(c.fb)
  }

  /** The collaborators honour their contracts and the prepared states cover every lane. */
  ghost predicate Valid<X, E(!new), S(!new), P(!new), V(!new), F, L(!new)>(c: Context<X, E, S, P, V, F, L>)
  {
    && EmbedKeepsLanes(c.modality)
    && HooksKeepLanes(c.dec.hooks)
    && StepContract(c.dec)
    && FeedbackContract(c.fb, c.dec.mode == Infer)
    && |c.prepared.states| == LaneNum(c)
    && c.remover == MakeRemover(c.dec.mode, c.dec.outputFields, c.dec.ignoreFields)
  }

  /** The fields that received a buffer. */
  function BufferFields<X, E, S, P, V, F, L>(c: Context<X, E, S, P, V, F, L>): set<string>
  {
    ApplySchema(c.remover, c.dec.outputFields)
  }

  /**
    The loop invariant: constant lane count, one buffer per retained field,
    every buffer holding exactly the slots `0 .. time-1`, and the inference
    variables present exactly in inference.
   */
  ghost predicate Inv<X, E, S, P, V, F, L>(c: Context<X, E, S, P, V, F, L>, st: LoopState<E, S, V>)
  {
    var n := LaneNum(c);
    && |st.inputs| == n
    && |st.states| == n
    && |st.finished| == n
    && st.outputs.Keys == BufferFields(c)
    && (forall f :: f in st.outputs ==> Filled(st.outputs[f], st.time))
    && (st.infer.Some? <==> c.dec.mode == Infer)
    && (st.infer.Some? ==>
          |st.infer.value.logProbs| == n && |st.infer.value.lengths| == n && Filled(st.infer.value.status, st.time))
  }

  // ---- Setting up -----------------------------------------------------------

  /** What the source demands of the collaborators handed to `dynamic_decode`. */
  ghost predicate WellFormed<X, E(!new), S(!new), P(!new), V(!new), F, L(!new)>(
    d: Decoder<X, E, S, P, V, F>, fb: Feedback<L>, m: Modality<E, F, L>, x: X)
  {
    && EmbedKeepsLanes(m)
    && HooksKeepLanes(d.hooks)
    && StepContract(d)
    && FeedbackContract(fb, d.mode == Infer)
    && |d.prepare(x).states| * (if d.mode == Infer then fb.beamSize else 1) == LaneCount(fb)
  }

  /**
    Calls `prepare` once; in inference replicates states and params over the
    beam, and fixes the output remover for the whole call.
   */
  function MakeContext<X, E(!new), S(!new), P(!new), V(!new), F, L(!new)>(
    d: Decoder<X, E, S, P, V, F>, fb: Feedback<L>, m: Modality<E, F, L>, x: X): (c: Context<X, E, S, P, V, F, L>)
    requires WellFormed(d, fb, m, x)
    ensures Valid(c)
    ensures c.dec == d && c.fb == fb && c.modality == m
    ensures c.prepared ==
      if d.mode == Infer then
        Prepared(StackBeam(d.prepare(x).states, fb.beamSize), StackBeam(d.prepare(x).params, fb.beamSize))
      else d.prepare(x)
    ensures c.remover == MakeRemover(d.mode, d.outputFields, d.ignoreFields)
  {
    var prep := d.prepare(x);
    var prepared :=
      if d.mode == Infer then Prepared(StackBeam(prep.states, fb.beamSize), StackBeam(prep.params, fb.beamSize))
      else prep;
    Context(d, fb, m, prepared, MakeRemover(d.mode, d.outputFields, d.ignoreFields))
  }

  /** `n` zeros: `tf.zeros_like` on the start symbols, as float log-probs. */
  function ZeroLogProbs(n: nat): (r: seq<real>)
    ensures |r| == n && forall i :: 0 <= i < n ==> r[i] == 0.0
  {
    seq(n, i => 0.0)
  }

  /** `n` zeros: `tf.zeros_like` on the start symbols, as int lengths. */
  function ZeroLengths(n: nat): (r: seq<int>)
    ensures |r| == n && forall i :: 0 <= i < n ==> r[i] == 0
  {
    seq(n, i => 0)
  }

  /**
    The initial loop variables: time 0, the embedded start symbols
    post-processed once with no previous input, the prepared states, one
    empty buffer per retained field, the helper's initial mask, and in
    inference zero log-probs and lengths per lane and an empty status buffer.
   */
  function Init<X, E(!new), S(!new), P(!new), V(!new), F, L(!new)>(c: Context<X, E, S, P, V, F, L>): (st: LoopState<E, S, V>)
    requires Valid(c)
    ensures Inv(c, st)
    ensures st.time == 0
    ensures st.inputs == c.dec.hooks.postprocess(None, EmbedWords(c.modality, c.fb.initial.symbols, 0))
    ensures st.states == c.prepared.states
    ensures st.finished == c.fb.initial.finished
    ensures forall f :: f in st.outputs ==> st.outputs[f].slots == map[]
    ensures c.dec.mode == Infer ==>
      && st.infer.Some?
      && (forall i :: 0 <= i < LaneNum(c) ==> st.infer.value.logProbs[i] == 0.0 && st.infer.value.lengths[i] == 0)
      && st.infer.value.status.slots == map[]
  {
    var n := LaneNum(c);
    var inputs := c.dec.hooks.postprocess(None, EmbedWords(c.modality, c.fb.initial.symbols, 0));
    var buffers := map f | f in BufferFields(c) :: Empty<V>();
    var infer := if c.dec.mode == Infer then Some(InferVars(ZeroLogProbs(n), ZeroLengths(n), Empty())) else None;
    LoopState(0, inputs, c.prepared.states, buffers, c.fb.initial.finished, infer)
  }

  // ---- One iteration --------------------------------------------------------

  /**
    The values one iteration of `body_traininfer` computes. The new states and
    the previous input are reordered by the same parent ids in inference and
    passed through untouched otherwise.
   */
  function Advance<X, E(!new), S(!new), P(!new), V(!new), F, L(!new)>(
    c: Context<X, E, S, P, V, F, L>, st: LoopState<E, S, V>): (t: Transition<E, S, V>)
    requires Valid(c) && Inv(c, st)
    ensures |t.nextStates| == LaneNum(c) && |t.prevInputs| == LaneNum(c) && |t.nextInputs| == LaneNum(c)
    ensures |t.feedback.finished| == LaneNum(c)
    ensures |t.stepInputs| == LaneNum(c) && |t.raw.states| == LaneNum(c)
    ensures t.record.Keys == BufferFields(c)
    ensures t.sample.Some? <==> c.dec.mode == Infer
    ensures t.sample.Some? ==> ValidSample(t.sample.value, LaneNum(c))
  {
    var stepInputs := c.dec.hooks.preprocess(st.time, st.inputs);
    var raw := c.dec.step(stepInputs, st.states, c.prepared.params);
    var record := Apply(c.remover, raw.outputs);
    var sample :=
      if c.dec.mode == Infer then
        Some(c.fb.sampleSymbols(StepLogits(c.dec, c.modality, raw.outputs),
                                st.infer.value.logProbs, st.finished, st.infer.value.lengths, st.time))
      else None;
    var nextStates := if sample.Some? then Gather(raw.states, sample.value.beamIds) else raw.states;
    var prevInputs := if sample.Some? then Gather(stepInputs, sample.value.beamIds) else stepInputs;
    var feedback := c.fb.nextSymbols(st.time, if sample.Some? then Some(sample.value.sampleIds) else None);
    var nextInputs := c.dec.hooks.postprocess(Some(prevInputs), EmbedWords(c.modality, feedback.symbols, st.time + 1));
    Transition(stepInputs, raw, record, sample, nextStates, prevInputs, feedback, nextInputs)
  }

  /** Writes every field of `record` into its buffer at slot `time`. */
  function WriteRecord<V>(buffers: map<string, TensorArray<V>>, time: nat, record: map<string, V>): (r: map<string, TensorArray<V>>)
    requires buffers.Keys == record.Keys
    ensures r.Keys == buffers.Keys
    ensures forall f :: f in r ==> r[f] == Write(buffers[f], time, record[f])
  {
    map f | f in buffers :: Write(buffers[f], time, record[f])
  }

  /** The beam-status entry recorded for one sample. */
  function StatusEntry(s: Sample): BeamStatus
  {
    BeamStatus(s.nextLogProbs, s.sampleIds, s.beamIds, s.nextLengths)
  }

  /**
    `body_traininfer`: one loop iteration. Time advances by one and the loop
    invariant is kept; what the iteration writes is `BodyEffect`.
   */
  function Body<X, E(!new), S(!new), P(!new), V(!new), F, L(!new)>(
    c: Context<X, E, S, P, V, F, L>, st: LoopState<E, S, V>): (r: LoopState<E, S, V>)
    requires Valid(c) && Inv(c, st)
    ensures Inv(c, r)
    ensures r.time == st.time + 1
  {
    var t := Advance(c, st);
    var outputs := WriteRecord(st.outputs, st.time, t.record);
    var infer :=
      if t.sample.Some? then
        Some(InferVars(t.sample.value.nextLogProbs, t.sample.value.nextLengths,
                       Write(st.infer.value.status, st.time, StatusEntry(t.sample.value))))
      else None;
    var r := LoopState(st.time + 1, t.nextInputs, t.nextStates, outputs, Or(t.feedback.finished, st.finished), infer);
    assert Inv(c, r) by {
      forall f | f in r.outputs
        ensures Filled(r.outputs[f], r.time)
      {
        WriteNext(st.outputs[f], st.time, t.record[f]);
      }
      if infer.Some? {
        WriteNext(st.infer.value.status, st.time, StatusEntry(t.sample.value));
      }
    }
    r
  }

  /**
    What one iteration hands its collaborators: `step` gets the pre-processed
    input with the current states and the prepared params; the record written
    to the buffers is the remover's filter of `step`'s outputs; in inference
    `sample_symbols` gets the logits of that step output with the current
    log-probs, mask, lengths and time.
   */
  lemma StepWiring<X, E(!new), S(!new), P(!new), V(!new), F, L(!new)>(
    c: Context<X, E, S, P, V, F, L>, st: LoopState<E, S, V>)
    requires Valid(c) && Inv(c, st)
    ensures var t := Advance(c, st);
      && t.stepInputs == c.dec.hooks.preprocess(st.time, st.inputs)
      && t.raw == c.dec.step(t.stepInputs, st.states, c.prepared.params)
      && t.record == Apply(c.remover, t.raw.outputs)
    ensures var t := Advance(c, st);
      c.dec.mode == Infer ==>
        t.sample == Some(c.fb.sampleSymbols(StepLogits(c.dec, c.modality, t.raw.outputs),
                                            st.infer.value.logProbs, st.finished, st.infer.value.lengths, st.time))
  {
  }

  /**
    Consistent beam reordering. In inference lane `i` of the new states and
    lane `i` of the previous input handed to post-processing both come from
    parent lane `beam_ids[i]`, and the next symbols are asked for with the
    sampled ids. In TRAIN/EVAL nothing is reordered, the previous input is
    the pre-processed input itself, and `next_symbols` gets no sample ids.
   */
  lemma BeamReorderAligned<X, E(!new), S(!new), P(!new), V(!new), F, L(!new)>(
    c: Context<X, E, S, P, V, F, L>, st: LoopState<E, S, V>)
    requires Valid(c) && Inv(c, st)
    ensures var t := Advance(c, st);
      c.dec.mode == Infer ==>
        && (forall i :: 0 <= i < LaneNum(c) ==>
              && t.nextStates[i] == t.raw.states[t.sample.value.beamIds[i]]
              && t.prevInputs[i] == t.stepInputs[t.sample.value.beamIds[i]])
        && t.feedback == c.fb.nextSymbols(st.time, Some(t.sample.value.sampleIds))
    ensures var t := Advance(c, st);
      c.dec.mode != Infer ==>
        t.nextStates == t.raw.states && t.prevInputs == t.stepInputs && t.feedback == c.fb.nextSymbols(st.time, None)
    ensures Advance(c, st).nextInputs ==
      c.dec.hooks.postprocess(Some(Advance(c, st).prevInputs),
                              EmbedWords(c.modality, Advance(c, st).feedback.symbols, st.time + 1))
  {
  }

  /**
    What one iteration writes: every buffer gains the filtered record at the
    old time and keeps its other slots; the mask is the old mask OR the
    helper's new flags, so a finished lane stays finished; in inference the
    log-probs and lengths are replaced by the sampled ones and one status
    entry `(next_log_probs, sample_ids, beam_ids, next_lengths)` is written at
    the old time.
   */
  lemma BodyEffect<X, E(!new), S(!new), P(!new), V(!new), F, L(!new)>(
    c: Context<X, E, S, P, V, F, L>, st: LoopState<E, S, V>)
    requires Valid(c) && Inv(c, st)
    ensures var r := Body(c, st);
      forall f :: f in r.outputs ==> r.outputs[f].slots == st.outputs[f].slots[st.time := Advance(c, st).record[f]]
    ensures Body(c, st).states == Advance(c, st).nextStates && Body(c, st).inputs == Advance(c, st).nextInputs
    ensures StaysTrue(st.finished, Body(c, st).finished)
    ensures var r := Body(c, st);
      forall i :: 0 <= i < |r.finished| ==> (r.finished[i] <==> st.finished[i] || Advance(c, st).feedback.finished[i])
    ensures var r := Body(c, st);
      r.infer.Some? ==>
        && r.infer.value.logProbs == Advance(c, st).sample.value.nextLogProbs
        && r.infer.value.lengths == Advance(c, st).sample.value.nextLengths
        && r.infer.value.status.slots == st.infer.value.status.slots[st.time := StatusEntry(Advance(c, st).sample.value)]
  {
  }

  // ---- The loop -------------------------------------------------------------

  /** `Body` as the loop body handed to `tf.while_loop`: defined on the states satisfying the invariant. */
  function BodyFn<X, E(!new), S(!new), P(!new), V(!new), F, L(!new)>(
    c: Context<X, E, S, P, V, F, L>): LoopState<E, S, V> --> LoopState<E, S, V>
  {
    st requires Valid(c) && Inv(c, st) => Body(c, st)
  }

  /** The loop invariant as a predicate on loop states. */
  ghost function InvFn<X, E(!new), S(!new), P(!new), V(!new), F, L(!new)>(
    c: Context<X, E, S, P, V, F, L>): LoopState<E, S, V> -> bool
  {
    st => Valid(c) && Inv(c, st)
  }

  /** The loop condition: `not reduce_all(finished)`. */
  function Continue<E, S, V>(st: LoopState<E, S, V>): bool
  {
    !AllTrue(st.finished)
  }

  /** The loop counter `time`. */
  function Time<E, S, V>(st: LoopState<E, S, V>): nat
  {
    st.time
  }

  /** The body keeps the invariant, and advances time by one. */
  lemma BodyKeepsInv<X, E(!new), S(!new), P(!new), V(!new), F, L(!new)>(c: Context<X, E, S, P, V, F, L>)
    ensures Preserves(BodyFn(c), InvFn(c))
    ensures Ticks(BodyFn(c), InvFn(c), Time)
  {
  }

  /** `k` iterations of the body, regardless of the mask; time advances by `k`. */
  function Iterate<X, E(!new), S(!new), P(!new), V(!new), F, L(!new)>(
    c: Context<X, E, S, P, V, F, L>, st: LoopState<E, S, V>, k: nat): (r: LoopState<E, S, V>)
    requires Valid(c) && Inv(c, st)
    ensures Inv(c, r)
    ensures r.time == st.time + k
  {
    BodyKeepsInv(c);
    RepeatClock(BodyFn(c), InvFn(c), Time, st, k);
    Repeat(BodyFn(c), InvFn(c), st, k)
  }

  /**
    `tf.while_loop` with condition `not reduce_all(finished)`, bounded by
    `fuel`. It ends in the state after some number of iterations, not more
    than `fuel`; the mask was not all-true in any earlier state; it reports
    `AllFinished` exactly when the mask of the last state is all-true, and
    `OutOfFuel` only after all `fuel` iterations.
   */
  function Loop<X, E(!new), S(!new), P(!new), V(!new), F, L(!new)>(
    c: Context<X, E, S, P, V, F, L>, st: LoopState<E, S, V>, fuel: nat): (r: LoopOutcome<E, S, V>)
    requires Valid(c) && Inv(c, st)
    ensures Inv(c, r.st)
    ensures st.time <= r.st.time <= st.time + fuel
    ensures r.st == Iterate(c, st, r.st.time - st.time)
    ensures forall k :: 0 <= k < r.st.time - st.time ==> !AllTrue(Iterate(c, st, k).finished)
    ensures r.AllFinished? <==> AllTrue(r.st.finished)
    ensures r.OutOfFuel? ==> r.st.time == st.time + fuel
  {
    BodyKeepsInv(c);
    var run := While(Continue, BodyFn(c), InvFn(c), st, fuel);
    assert run.final == Iterate(c, st, run.steps);
    assert forall k :: 0 <= k < run.steps ==> !AllTrue(Iterate(c, st, k).finished) by {
      forall k | 0 <= k < run.steps
        ensures !AllTrue(Iterate(c, st, k).finished)
      {
        assert Continue(Repeat(BodyFn(c), InvFn(c), st, k));
      }
    }
    if run.stopped then AllFinished(run.final) else OutOfFuel(run.final)
  }

  /** Every buffer stacked in time order. */
  function StackAll<V>(buffers: map<string, TensorArray<V>>): (r: Option<map<string, seq<V>>>)
    ensures r.Some? <==> forall f :: f in buffers ==> NoGaps(buffers[f])
    ensures r.Some? ==> r.value.Keys == buffers.Keys
    ensures r.Some? ==> forall f :: f in buffers ==> Stack(buffers[f]) == Some(r.value[f])
  {
    if forall f :: f in buffers ==> NoGaps(buffers[f]) then
      Some(map f | f in buffers :: Stack(buffers[f]).value)
    else None
  }

  /**
    The stacking after the loop (`ta.stack()` on every output buffer, and on
    the status buffer in inference). A gap in any buffer is reported as
    `UnwrittenSlot`.
   */
  function Finalize<E, S, V>(st: LoopState<E, S, V>): (r: Result<DynamicOutput<V>, DecodeError>)
    ensures r.Success? <==>
      (forall f :: f in st.outputs ==> NoGaps(st.outputs[f])) && (st.infer.Some? ==> NoGaps(st.infer.value.status))
    ensures r.Failure? ==> r.error == UnwrittenSlot
    ensures r.Success? ==> r.value.outputs.Keys == st.outputs.Keys
    ensures r.Success? ==> forall f :: f in st.outputs ==> Stack(st.outputs[f]) == Some(r.value.outputs[f])
    ensures r.Success? ==> (r.value.inferStatus.Some? <==> st.infer.Some?)
    ensures r.Success? && st.infer.Some? ==> Stack(st.infer.value.status) == r.value.inferStatus
  {
    match StackAll(st.outputs)
    case None => Failure(UnwrittenSlot)
    case Some(outputs) =>
      if st.infer.None? then Success(DynamicOutput(outputs, None))
      else
        match Stack(st.infer.value.status)
        case None => Failure(UnwrittenSlot)
        case Some(status) => Success(DynamicOutput(outputs, Some(status)))
  }

  /** A state satisfying the invariant stacks without gaps, `time` entries per buffer. */
  lemma InvStacks<X, E, S, P, V, F, L>(c: Context<X, E, S, P, V, F, L>, st: LoopState<E, S, V>)
    requires Inv(c, st)
    ensures forall f :: f in st.outputs ==> NoGaps(st.outputs[f]) && |Stack(st.outputs[f]).value| == st.time
    ensures st.infer.Some? ==> NoGaps(st.infer.value.status) && |Stack(st.infer.value.status).value| == st.time
  {
    forall f | f in st.outputs
      ensures NoGaps(st.outputs[f]) && |Stack(st.outputs[f]).value| == st.time
    {
      StackFilled(st.outputs[f], st.time);
    }
    if st.infer.Some? {
      StackFilled(st.infer.value.status, st.time);
    }
  }

  /** The loop of one decode call, from its initial state. */
  function RunLoop<X, E(!new), S(!new), P(!new), V(!new), F, L(!new)>(
    d: Decoder<X, E, S, P, V, F>, fb: Feedback<L>, m: Modality<E, F, L>, x: X, fuel: nat): (r: LoopOutcome<E, S, V>)
    requires WellFormed(d, fb, m, x)
  {
    var c := MakeContext(d, fb, m, x);
    Loop(c, Init(c), fuel)
  }

  /**
    `dynamic_decode`. It fails only when the fuel runs out; otherwise every
    retained field is stacked into exactly as many entries as the loop ran
    iterations, and in inference (only) so is the beam status.
   */
  function DynamicDecodeFn<X, E(!new), S(!new), P(!new), V(!new), F, L(!new)>(
    d: Decoder<X, E, S, P, V, F>, fb: Feedback<L>, m: Modality<E, F, L>, x: X, fuel: nat): (r: Result<DynamicOutput<V>, DecodeError>)
    requires WellFormed(d, fb, m, x)
    ensures r.Failure? <==> RunLoop(d, fb, m, x, fuel).OutOfFuel?
    ensures r.Failure? ==> r.error == FuelExhausted
    ensures r.Success? ==>
      var steps := RunLoop(d, fb, m, x, fuel).st.time;
      && steps <= fuel
      && r.value.outputs.Keys == ApplySchema(MakeRemover(d.mode, d.outputFields, d.ignoreFields), d.outputFields)
      && (forall f :: f in r.value.outputs ==> |r.value.outputs[f]| == steps)
      && (r.value.inferStatus.Some? <==> d.mode == Infer)
      && (r.value.inferStatus.Some? ==> |r.value.inferStatus.value| == steps)
  {
    var c := MakeContext(d, fb, m, x);
    var outcome := Loop(c, Init(c), fuel);
    match outcome
    case OutOfFuel(_) => Failure(FuelExhausted)
    case AllFinished(st) =>
      InvStacks(c, st);
      Finalize(st)
  }

  /**
    `Decoder.decode`: in inference the result pairs the outputs with the beam
    status that `dynamic_decode` stacked, one entry per output step; in TRAIN/EVAL
    it pairs them with the logits computed once from the whole stacked output.
   */
  function Decode<X, E(!new), S(!new), P(!new), V(!new), F, L(!new)>(
    d: Decoder<X, E, S, P, V, F>, fb: Feedback<L>, m: Modality<E, F, L>, x: X, fuel: nat): (r: Result<Decoded<V, L>, DecodeError>)
    requires WellFormed(d, fb, m, x)
    ensures r.Failure? <==> RunLoop(d, fb, m, x, fuel).OutOfFuel?
    ensures r.Success? ==> r.value.outputs == DynamicDecodeFn(d, fb, m, x, fuel).value.outputs
    ensures r.Success? ==> (r.value.status.BeamSearch? <==> d.mode == Infer)
    ensures r.Success? && d.mode == Infer ==>
      forall f :: f in r.value.outputs ==> |r.value.status.status| == |r.value.outputs[f]|
    ensures r.Success? && d.mode == Infer ==>
      r.value.status == BeamSearch(DynamicDecodeFn(d, fb, m, x, fuel).value.inferStatus.value)
    ensures r.Success? && d.mode != Infer ==> r.value.status == Logits(StackedLogits(d, m, r.value.outputs))
  {
    match DynamicDecodeFn(d, fb, m, x, fuel)
    case Failure(e) => Failure(e)
    case Success(out) =>
      if d.mode == Infer then Success(Decoded(out.outputs, BeamSearch(out.inferStatus.value)))
      else Success(Decoded(out.outputs, Logits(StackedLogits(d, m, out.outputs))))
  }
}
