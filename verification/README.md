# dynamic_decode, as a state machine

This project models the decoding loop driver of NJUNMT-tf. It covers
`dynamic_decode` in `njunmt/decoders/decoder.py`, the mode dispatch of
`Decoder.decode`, and the default input pre/post-processing hooks.

With the TensorFlow graph building stripped away, `dynamic_decode` is a
sequential state machine over one loop-state value:

- `time`, `inputs`, the decoder states, one output buffer per retained
  output field, and the finished mask;
- in inference only, also the running log-probs, the lengths and a
  beam-status buffer.

One iteration (`body_traininfer`) does the following, in order:

1. pre-processes the input and calls `step`;
2. writes the filtered output record at slot `time`;
3. in inference only, samples the next symbols, reorders the new states and
   the current input by the parent beam ids, and records one status entry;
4. embeds and post-processes the next symbols;
5. ORs the new finished flags into the mask;
6. advances `time`.

The loop runs while some lane is unfinished. Then every buffer is stacked
in time order. `Decoder.decode` pairs the stacked outputs with the beam
status in inference. In TRAIN/EVAL it pairs them with logits computed once
from the whole stacked output.

Modules:

- `Common` (common.dfy): `Option`, `Result` and the three modes.
- `Lanes` (lanes.dfy): a tensor whose leading axis is the flattened
  batch x beam axis is a sequence with one entry per lane. This module holds
  `reduce_all`, `logical_or`, `gather_states` and `stack_beam_size` on such
  sequences.
- `TensorArrays` (tensor_array.dfy): the growable buffers, as a size and a
  map of written slots, with `write` and `stack`.
- `OutputRemover` (output_remover.dfy): the field filter that sizes the
  buffers and trims every step's record.
- `Collaborators` (collaborators.dfy): the decoder, the feedback helper and
  the target modality. Each is a record of functions. The contract
  predicates in this module, together with the shape requirement on
  `prepare` stated by `DynamicDecode.WellFormed`, are the only facts about
  them that the loop relies on:
  - lane counts are kept;
  - `beam_ids` are valid lanes;
  - `step` returns the declared fields;
  - `prepare` returns one state per batch entry, so that after the beam
    tiling in inference there is one state per lane.
- `WhileLoops` (while_loop.dfy): `tf.while_loop` over any state type, with
  a fuel bound, plus facts about repeating a body that keeps an invariant.
- `DynamicDecode` (dynamic_decode.dfy): the loop state, its invariant, the
  initial state, one iteration, the loop, the final stacking,
  `dynamic_decode` and `Decoder.decode`.
- `DecodeProperties` (decode_properties.dfy): properties relating several
  iterations:
  - the mask is monotone;
  - the loop stops exactly when the mask first becomes all-true;
  - the stacked result holds the whole history in time order;
  - the empty-batch, forced-finish and pass-through-hook scenarios.

`Written(c, st)` is what the iteration starting from `st` writes: the
filtered record, plus, in inference, the status entry
`(next_log_probs, sample_ids, beam_ids, next_lengths)`. `SlotAt(st, i)`
reads slot `i` across all buffers of a loop state. `EntryAt(out, t)` reads
entry `t` across a stacked result.

## Model

| member | source | states |
|---|---|---|
| Lanes.Or | njunmt/decoders/decoder.py:322 | The new mask has the lane count of its operands. Every lane true in either operand is true in it. Every lane true in it was true in one of the operands. |
| Lanes.Gather | njunmt/decoders/decoder.py:306-307 | `gather_states`: the result has one lane per parent id, and lane `i` is lane `beam_ids[i]` of the input. |
| Lanes.GatherCompose | njunmt/decoders/decoder.py:306-307 | Two reorderings in a row are one reordering by the composed parent ids, and those ids are valid lanes. |
| Lanes.StackBeam | njunmt/decoders/decoder.py:269-270 | `stack_beam_size` gives `batch * beam` lanes, and lane `i` copies batch entry `i / beam`. |
| Lanes.StackBeamBlock | njunmt/decoders/decoder.py:269-270 | Lane `j` of beam block `b` exists and is a copy of batch entry `b`. |
| TensorArrays.Empty | njunmt/decoders/decoder.py:251-254 | A freshly created dynamic-size buffer holds no slot and has size 0. |
| TensorArrays.Write | njunmt/decoders/decoder.py:293 | `ta.write(time, out)` stores the value at `time` and sets the size to exactly `max(size, time + 1)`. Every other slot keeps its value, and no other slot appears. |
| TensorArrays.Stack | njunmt/decoders/decoder.py:345 | `ta.stack()` succeeds exactly when no slot below the size is missing. The result has one entry per slot, in index order. |
| TensorArrays.WriteNext | njunmt/decoders/decoder.py:293 | In a buffer holding exactly slots `0..k-1`, slot `k` is still free, so no slot is written twice. After the write the buffer holds exactly slots `0..k`. |
| TensorArrays.StackFilled | njunmt/decoders/decoder.py:344-345 | A buffer holding exactly slots `0..k-1` stacks into exactly `k` entries, entry `i` being slot `i`. |
| OutputRemover.MakeRemover | njunmt/decoders/decoder.py:256-257 | The remover keeps only declared fields. It keeps all of them in TRAIN/EVAL or when there is no ignore list. In inference with an ignore list it keeps exactly the declared fields that are not ignored. |
| OutputRemover.ApplySchema | njunmt/decoders/decoder.py:272-273 | The fields that get a buffer are exactly the declared fields the remover keeps. |
| OutputRemover.Apply | njunmt/decoders/decoder.py:293-294 | A filtered record has exactly the retained fields of the step's record, each with its original value. |
| OutputRemover.ApplyIdempotent | njunmt/decoders/decoder.py:293-294 | Filtering an already filtered record changes nothing. |
| OutputRemover.ApplyMatchesBuffers | njunmt/decoders/decoder.py:293-294 | Sizing and writing use one filter: a record with exactly the declared fields is trimmed to exactly the fields that received a buffer. |
| Collaborators.DefaultHooksAreIdentity | njunmt/decoders/decoder.py:139-141 | The default pre-processing returns its input unchanged. The default post-processing returns the predicted input and ignores the previous one. Both keep the lane count. |
| WhileLoops.While | njunmt/decoders/decoder.py:337-342 | `tf.while_loop` under a fuel bound. It runs `steps <= fuel` bodies and ends in the state those bodies reach, with the condition true in every earlier state. It reports stopping exactly when the condition fails in the last state; otherwise it used all the fuel. |
| WhileLoops.WhileStopsAtFirstFailure | njunmt/decoders/decoder.py:337-338 | The converse of `While`: if the condition first fails after `k <= fuel` bodies, the loop stops there. |
| WhileLoops.RepeatSplit | njunmt/decoders/decoder.py:337-342 | Running `j + k` bodies is running `j` bodies and then `k`. |
| WhileLoops.RepeatClock | njunmt/decoders/decoder.py:295 | A counter that every body advances by one has advanced by `k` after `k` bodies. |
| WhileLoops.RepeatKeeps | njunmt/decoders/decoder.py:337-342 | A property that every body keeps and that holds at the start holds after any number of bodies. |
| WhileLoops.RepeatKeepsFrom | njunmt/decoders/decoder.py:337-342 | A property that every body keeps and that holds after `j` bodies holds after every `k >= j`. |
| DynamicDecode.MakeContext | njunmt/decoders/decoder.py:255-270 | `prepare` is called once. In inference the prepared states and params are exactly `stack_beam_size` of `prepare`'s states and params; in TRAIN/EVAL they are `prepare`'s own. The remover is built from the mode, the declared fields and the ignore list, and is fixed for the whole call. The result meets the loop's collaborator contracts, with one prepared state per lane. |
| DynamicDecode.Init | njunmt/decoders/decoder.py:259-335 | The initial loop variables satisfy the invariant. They are: time 0, the start symbols embedded at time 0 and post-processed once with no previous input, the prepared states, the helper's initial mask, and one empty buffer per retained field. In inference they also hold zero log-probs and zero lengths per lane and an empty status buffer. |
| DynamicDecode.Advance | njunmt/decoders/decoder.py:290-320 | The values of one iteration keep the lane count. The filtered record has exactly the buffered fields. A sample exists exactly in inference, and its parent ids are valid lanes. |
| DynamicDecode.WriteRecord | njunmt/decoders/decoder.py:293-294 | Every buffer receives its field of the record at slot `time`, and no buffer is added or lost. |
| DynamicDecode.Body | njunmt/decoders/decoder.py:275-326 | One iteration keeps the loop invariant and advances time by exactly one. |
| DynamicDecode.StepWiring | njunmt/decoders/decoder.py:290-304 | `step` receives the pre-processed input (pre-processed with the current `time`), the current states and the prepared params. The record written to the buffers is the remover's filter of `step`'s outputs. In inference `sample_symbols` receives the logits of that step output, the current log-probs, mask and lengths, and `time`. |
| DynamicDecode.BeamReorderAligned | njunmt/decoders/decoder.py:297-320 | In inference, lane `i` of the new states and lane `i` of the previous input handed to post-processing both come from parent lane `beam_ids[i]`. The next symbols are asked for with the sampled ids. In TRAIN/EVAL nothing is reordered, the previous input is the pre-processed input itself, and `next_symbols` gets no ids. The next input is the post-processed embedding of the next symbols at `time + 1`. |
| DynamicDecode.BodyEffect | njunmt/decoders/decoder.py:293-325 | Each buffer gains the filtered record at the old time and keeps its other slots. The new mask is the old mask OR the helper's flags, so a finished lane stays finished. In inference the log-probs and lengths become the sampled ones, and one status entry is written at the old time. |
| DynamicDecode.BodyKeepsInv | njunmt/decoders/decoder.py:337-339 | The iteration is a loop body that keeps the invariant and advances the time counter by one. |
| DynamicDecode.Iterate | njunmt/decoders/decoder.py:337-342 | After `k` iterations the invariant still holds and time has advanced by exactly `k`. |
| DynamicDecode.Loop | njunmt/decoders/decoder.py:337-342 | The loop keeps the invariant and runs at most `fuel` iterations, ending in the state after that many. It ran each iteration because the mask was not all-true. It reports all-finished exactly when the final mask is all-true; otherwise it used all its fuel. |
| DynamicDecode.StackAll | njunmt/decoders/decoder.py:345 | Stacking every buffer succeeds exactly when none has a gap. The result has the same fields, each field the stack of its own buffer. |
| DynamicDecode.Finalize | njunmt/decoders/decoder.py:344-348 | Final stacking succeeds exactly when no output buffer and no status buffer has a gap; otherwise it reports an unwritten slot. The outputs keep the buffered fields in time order, and a status sequence exists exactly when the status buffer does. |
| DynamicDecode.InvStacks | njunmt/decoders/decoder.py:344-348 | Every buffer of a state satisfying the invariant stacks without a gap into exactly `time` entries, and so does the status buffer. |
| DynamicDecode.DynamicDecodeFn | njunmt/decoders/decoder.py:337-351 | `dynamic_decode` fails only when the fuel runs out, so stacking never meets a gap. On success the stacked outputs have exactly the buffered fields, each with one entry per iteration run. The beam status exists exactly in inference and has the same length. |
| DynamicDecode.Decode | njunmt/decoders/decoder.py:168-178 | `Decoder.decode` returns the stacked outputs of `dynamic_decode`. In inference it pairs them with exactly the beam status `dynamic_decode` stacked, one entry per output step. In TRAIN/EVAL it pairs them with logits computed once from the whole stacked output. |
| DecodeProperties.IterateSplit | njunmt/decoders/decoder.py:337-342 | Running `j + k` iterations is running `j` and then `k`. |
| DecodeProperties.IterateLast | njunmt/decoders/decoder.py:337-342 | The state after `k + 1` iterations is one iteration after the state after `k`. |
| DecodeProperties.BodyKeepsCover | njunmt/decoders/decoder.py:322 | One iteration keeps every set lane of any given mask set. |
| DecodeProperties.MaskMonotone | njunmt/decoders/decoder.py:317-322 | A lane finished after `j` iterations is finished after every later iteration `k >= j`. |
| DecodeProperties.LoopStopsWhenFirstAllTrue | njunmt/decoders/decoder.py:337-338 | If the mask first becomes all-true after `k <= fuel` iterations, the loop ends there, all-finished. Together with `Loop` this shows the loop stops exactly at the first all-true mask. |
| DecodeProperties.SlotsAfterWrite | njunmt/decoders/decoder.py:293-314 | After a write of `w` at slot `time`, slot `time` reads `w` in every buffer, and every other slot reads as before. |
| DecodeProperties.BodyKeepsEarlierSlot | njunmt/decoders/decoder.py:293-294 | One iteration leaves every slot before the current time unchanged, in every buffer. |
| DecodeProperties.BodyWritesSlot | njunmt/decoders/decoder.py:293-314 | One iteration writes at slot `time` exactly `Written`: its filtered record and, in inference, its status entry. |
| DecodeProperties.BodyKeepsHolds | njunmt/decoders/decoder.py:293-294 | A slot before the current time that holds a value still holds it after one more iteration. |
| DecodeProperties.EarlierSlotsKept | njunmt/decoders/decoder.py:293-294 | Slots written before the current time are never changed by any number of later iterations. |
| DecodeProperties.StepWritesOwnSlot | njunmt/decoders/decoder.py:293-314 | Iteration `t` leaves its own entry at slot `start + t`. |
| DecodeProperties.SlotKeptFrom | njunmt/decoders/decoder.py:293-294 | A slot holding `w` once the clock has passed it holds `w` in every later state. |
| DecodeProperties.HistoryRecorded | njunmt/decoders/decoder.py:293-315 | One write per step, in time order: after `k` iterations, slot `start + t` of every buffer holds what iteration `t` wrote, for every `t < k`. |
| DecodeProperties.FinalizeReadsSlots | njunmt/decoders/decoder.py:344-348 | Stacking a state that satisfies the invariant succeeds, and entry `t` of the result reads slot `t` unchanged. |
| DecodeProperties.StackedHistory | njunmt/decoders/decoder.py:344-348 | Stacking the state after `k` iterations succeeds, and its entry `start + t` is what iteration `t` wrote. |
| DecodeProperties.StateAt | njunmt/decoders/decoder.py:337-342 | The loop state at the start of iteration `t` satisfies the invariant and has time `t`. |
| DecodeProperties.DecodedHistoryInTimeOrder | njunmt/decoders/decoder.py:337-348 | On success, entry `t` of every stacked field, and of the beam status in inference, is what iteration `t` wrote. The mask was not all-true before any iteration that ran, and it is all-true after the last one. |
| DecodeProperties.AllFinishedAtStart | njunmt/decoders/decoder.py:337-338 | An all-true initial mask means zero iterations and success. Every stacked field is empty, and so is the beam status in inference. |
| DecodeProperties.EmptyBatch | njunmt/decoders/decoder.py:337-338 | A batch with no lanes finishes before the first iteration and yields empty buffers. |
| DecodeProperties.BodyKeepsQuiet | njunmt/decoders/decoder.py:317-322 | If the helper reports no finished lane before time `K - 1`, then one iteration keeps the mask all-false up to time `K - 1`. |
| DecodeProperties.NoneFinishedBefore | njunmt/decoders/decoder.py:317-322 | Under the same helper, the mask stays all-false for the first `K` loop states. |
| DecodeProperties.ForcedFinishRunsKSteps | njunmt/decoders/decoder.py:317-338 | A helper that finishes nothing before time `K - 1` and everything at time `K - 1` makes a non-empty batch run exactly `K` iterations. Every stacked field then has `K` entries, and so does the beam status. |
| DecodeProperties.PassThroughHooksFeedEmbeddedSymbols | njunmt/decoders/decoder.py:262-320 | With pass-through hooks, `step` receives the current input unchanged, and the next input is exactly the embedding of the next symbols at `time + 1`. The first input is the embedding of the start symbols. In TRAIN/EVAL the symbols come from `next_symbols(time, None)` alone. |

## Left out

- TensorFlow mechanics have no semantic effect and are not modelled: variable scopes, the caching-device setup (lines 246-249), and the `parallel_iterations` and `swap_memory` knobs (lines 222-223, 339-342).
- The neural architecture is opaque. `prepare`, `step`, `merge_top_features`, `targets_bottom` and `top` are uninterpreted function fields, constrained only by the contracts the loop relies on.
- `merge_top_features` accepts both a single step's record and the stacked record. It is modelled as two function fields, one per shape.
- Log-probabilities are carried as `real` values and never computed. The top-k scoring inside `sample_symbols` is part of the opaque helper.
- Termination of the real loop depends on the feedback policy. The model bounds it with fuel instead.
- Loop: running out of fuel is an outcome of the model (`OutOfFuel`, surfaced by `DynamicDecodeFn` as `FuelExhausted`). `tf.while_loop` itself keeps running until the mask is all-true.
- WhileLoops.While: bounded by fuel, for the same reason.
- The loop counter `time` is a `tf.int32` (line 260), and so are the `lengths` (line 333). The model keeps both unbounded and does not model 32-bit wrap-around; `time` never exceeds the fuel, and the lengths are produced by the opaque `sample_symbols`.
- `prepare` returning states whose count does not match the lane count (after `stack_beam_size` in inference) is a shape error in TensorFlow. The model excludes it by the `WellFormed` requirement and does not model that failure.
- `stack_beam_size`, `gather_states`, `BeamSearchStateSpec` and `DecoderOutputRemover` live in `njunmt/utils`, which is not part of this model.
- Lanes.StackBeam: the tiling is assumed batch-major, that is each batch entry is repeated over `beam` consecutive lanes.
- Lanes.Gather: the parent ids are taken as flat lane indices.
- OutputRemover.MakeRemover: the filter follows the documented behaviour of `output_ignore_fields` (decoder.py lines 120-126), which drops the ignored fields in inference only. Its code is not part of this model.
- TensorArrays.Write: writing a slot a second time is an error in TensorFlow but overwrites here. The invariant shows such a write never happens (`WriteNext`).
- TensorArrays.Stack: a gap below the size is reported as `None`, and then as the `UnwrittenSlot` error. `DynamicDecodeFn` shows this error is unreachable.
- Nested output structures (`nest.map_structure`) are flattened to one buffer per named field, and `BeamSearchStateSpec` to one status buffer of records.
