/**
  The collaborators the decoding loop drives but does not implement: the
  decoder architecture (`prepare`, `step`, `merge_top_features`, the input
  hooks), the feedback helper (start symbols, sampling, next symbols) and the
  target modality (embedding and top projection). Each is a record of opaque
  functions; the predicates below are the only facts the loop relies on.

  Type parameters: `X` the encoder output and bridge handed to `prepare`,
  `E` one lane of an embedded input, `S` one lane of decoder state, `P` one
  lane of decoding params, `V` one field of one step's output record, `F`
  merged top features, `L` logits.
 */
module Collaborators {
  import opened Common
  import opened Lanes

  /** What `prepare` returns: initial decoder states and decoding params, one entry per lane. */
  datatype Prepared<S, P> = Prepared(states: seq<S>, params: seq<P>)

  /** What `step` returns: the output record (one value per named field) and the new states. */
  datatype StepResult<S, V> = StepResult(outputs: map<string, V>, states: seq<S>)

  /** The pair returned by `inputs_prepost_processing_fn`. */
  datatype Hooks<!E> = Hooks(
    preprocess: (nat, seq<E>) -> seq<E>,
    postprocess: (Option<seq<E>>, seq<E>) -> seq<E>)

  datatype Decoder<!X, !E, !S, !P, !V, F> = Decoder(
    mode: Mode,
    outputFields: set<string>,            // `output_dtype._fields`
    ignoreFields: Option<set<string>>,    // `output_ignore_fields`
    prepare: X -> Prepared<S, P>,
    step: (seq<E>, seq<S>, seq<P>) -> StepResult<S, V>,
    mergeStepFeatures: map<string, V> -> F,          // `merge_top_features` on one step's record
    mergeStackedFeatures: map<string, seq<V>> -> F,  // `merge_top_features` on the stacked outputs
    hooks: Hooks<E>)

  /** `init_symbols()` and `next_symbols(...)` both return a finished mask and symbols. */
  datatype FeedbackSymbols = FeedbackSymbols(finished: seq<bool>, symbols: seq<nat>)

  /** What `sample_symbols` returns. */
  datatype Sample = Sample(
    sampleIds: seq<nat>,
    beamIds: seq<nat>,
    nextLogProbs: seq<real>,
    nextLengths: seq<int>)

  datatype Feedback<!L> = Feedback(
    beamSize: nat,
    initial: FeedbackSymbols,
    sampleSymbols: (L, seq<real>, seq<bool>, seq<int>, nat) -> Sample,  // logits, log_probs, finished, lengths, time
    nextSymbols: (nat, Option<seq<nat>>) -> FeedbackSymbols)             // time, sample_ids

  datatype Modality<E, !F, L> = Modality(
    targetsBottom: (seq<nat>, nat) -> seq<E>,  // symbols, time
    top: F -> L)

  /** The default pre-processing hook: the input passes through. */
  function DefaultPreprocess<E>(time: nat, inputs: seq<E>): (r: seq<E>)
    ensures r == inputs
  {
    inputs
  }

  /** The default post-processing hook: the new input passes through, the previous one is ignored. */
  function DefaultPostprocess<E>(prevInputs: Option<seq<E>>, predictedInputs: seq<E>): (r: seq<E>)
    ensures r == predictedInputs
  {
    predictedInputs
  }

  /** The base class's `inputs_prepost_processing_fn`. */
  function DefaultHooks<E>(): Hooks<E>
  {
    Hooks(DefaultPreprocess, DefaultPostprocess)
  }

  /** Pre-processing returns its input and post-processing returns the new input. */
  ghost predicate IdentityHooks<E(!new)>(h: Hooks<E>)
  {
    && (forall t, x :: h.preprocess(t, x) == x)
    && (forall p, x :: h.postprocess(p, x) == x)
  }

  /** The default hooks pass inputs through, ignoring the previous input. */
  lemma DefaultHooksAreIdentity<E(!new)>()
    ensures IdentityHooks(DefaultHooks<E>())
    ensures HooksKeepLanes(DefaultHooks<E>())
  {
  }

  /** `_embed_words`. */
  function EmbedWords<E, F, L>(m: Modality<E, F, L>, symbols: seq<nat>, time: nat): seq<E>
  {
    m.targetsBottom(symbols, time)
  }

  /** `_compute_logits` on one step's output record. */
  function StepLogits<X, E, S, P, V, F, L>(d: Decoder<X, E, S, P, V, F>, m: Modality<E, F, L>, record: map<string, V>): L
  {
    m.top(d.mergeStepFeatures(record))
  }

  /** `_compute_logits` on the stacked outputs of the whole loop. */
  function StackedLogits<X, E, S, P, V, F, L>(d: Decoder<X, E, S, P, V, F>, m: Modality<E, F, L>, outputs: map<string, seq<V>>): L
  {
    m.top(d.mergeStackedFeatures(outputs))
  }

  // ---- The contracts the loop relies on -----------------------------------

  /** Embedding gives one vector per symbol. */
  ghost predicate EmbedKeepsLanes<E, F, L>(m: Modality<E, F, L>)
  {
    forall syms, t :: |m.targetsBottom(syms, t)| == |syms|
  }

  /** Both hooks keep the lane count. */
  ghost predicate HooksKeepLanes<E(!new)>(h: Hooks<E>)
  {
    && (forall t, x :: |h.preprocess(t, x)| == |x|)
    && (forall p, x :: |h.postprocess(p, x)| == |x|)
  }

  /** `step` keeps the state's lane count and returns a record with exactly the declared fields. */
  ghost predicate StepContract<X, E(!new), S(!new), P(!new), V, F>(d: Decoder<X, E, S, P, V, F>)
  {
    forall x, s, p ::
      |d.step(x, s, p).states| == |s| && d.step(x, s, p).outputs.Keys == d.outputFields
  }

  /** A sample for `n` lanes: `n` entries everywhere, parents that are lanes. */
  predicate ValidSample(s: Sample, n: nat)
  {
    && |s.sampleIds| == n
    && |s.beamIds| == n
    && |s.nextLogProbs| == n
    && |s.nextLengths| == n
    && ValidIds(s.beamIds, n)
  }

  /** The number of lanes, fixed by the start symbols. */
  function LaneCount<L>(fb: Feedback<L>): nat
  {
    |fb.initial.symbols|
  }

  /**
    The feedback helper works on a fixed number of lanes throughout; in
    inference its samples name valid parent lanes.
   */
  ghost predicate FeedbackContract<L(!new)>(fb: Feedback<L>, inference: bool)
  {
    var n := LaneCount(fb);
    && |fb.initial.finished| == n
    && (forall t, ids :: |fb.nextSymbols(t, ids).finished| == n && |fb.nextSymbols(t, ids).symbols| == n)
    && (inference ==> forall l, lp, fin, len, t :: ValidSample(fb.sampleSymbols(l, lp, fin, len, t), n))
  }
}
