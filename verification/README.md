# Verified model of tLLM's capture, training and sampling bookkeeping

tLLM patches vLLM so that consumers can capture hidden rows, train on them on a side stream and steer
sampling. Most of its tensor code is bookkeeping: index arrays, row maps, buffers updated in place, and fast
paths that must agree with slow ones. This project models that bookkeeping in Dafny and proves what it keeps,
over unbounded inputs, runs and device schedules.

`dafny verify dfyconfig.toml` checks everything. Tensors are sequences or arrays of reals, with an explicit
minus infinity for logits. Neural forwards, the host sampler's top-k/top-p filter and its draw are abstract
row-local functions. Every lemma carries `{:induction false}`: proofs are explicit, and Dafny's automatic
induction hypotheses are kept out of them.

## What is modelled

1. **Training pipeline** (`DeviceQueue`, `TrainPipeline`, `TrainPipelineProofs`, `TrainRuns`, `AbandonedStep`,
   `RaisedTraining`, `AnyRun`, `TrainEngine`). Streams are FIFOs of copies, records, waits and trainings; a wait is
   bound, when it is enqueued, to the latest record of its event; the device may run any enabled stream head. Stream
   safety holds over every interleaving of host calls and device operations, in every stream mode, with an exact
   exception (dropped steps, below).
2. **Model-bank slots and lookups** (`Rows`, `SlotTable`, `SlotLookup`, `SlotEngine`): the prompt-to-slot
   allocator, the dense and the sorted lookup, and the paths from prompts to predictions.
3. **Training** (`Sums`, `Losses`, `GraphReplay`, `BankTraining`, `TrainStep`): captured losses over stale padded
   buffers equal eager losses, also when a graph's inputs alias the current pipeline slot; the three training modes.
4. **Kernels** (`Blocks`, `ModelBankKernel`, `Logits`, `MinP`): masked tiles and flat row-major offsets against
   the reference formulas.
5. **Row delivery** (`RowViews`, `CapturePlan`, `RowDelivery`, `BundleAssembler`, `StepBundles`,
   `StepRefinement`, `RowBundles`, `Prefill`): localization, capture taps, compaction, views, step bundles against
   frames and assembler, and chunked prefill.
6. **Sampler bridge** (`Candidates`, `Dedup`, `SamplerRows`, `SamplerBridge`): row partitioning, select-then-modify,
   flat candidate lists, and deduplicated predictions.
7. **Whole runs of the consumer** (`ConsumerRuns`, `ExactlyOnce`, `ToggledSteps`): the consumer owns the pipeline, the
   slot table, the buffers and the graphs. Every launched step trains once, a run raises exactly when a test that its
   caller could make says so, and what the loss counter says.

State that the program updates in place is a class (`Pipeline`, `ModelBankSlots`, `Precompute`, `Graph`,
`PipelineSlot`, `SlotBuffers`, `PipelineBuffers`, `StepTrainer`, `Localization`, `Tap`, `Assembler`, `Producer`,
`Consumer`) whose methods are proved against functions; the properties are lemmas about those functions.

## Where the code does less than one might expect

- **Dropped steps.** `configure` forgets a step that `launch_forward` copied on the forward stream, and a training
  that raises drops it without a done event. If the pipeline buffers survive, nothing orders that copy before later
  main-stream copies of its slot, and a later training can read the dropped rows. This happens exactly when a
  forward-launched step is in flight and `configure` keeps slot count and layout, or its training raises
  (`AbandonedStep.ReconfigureExact`, `RaisingExact`, for every call `CarefulExact`, over whole call lists
  `CarefulExactly`; concrete logs and schedules in `AbandonedRowIsTrained` and
  `RaisedTraining.DroppedRowsAreTrained`). Even then a run is safe as long as its log has no race
  (`AnyRun.RaceFreeRunIsSafe`). The serving path uses `launch_step`, whose steps can be forgotten and can raise safely.
- **Stale step record.** When input preparation has no logits indices, the last step's record stays, and the taps
  gather this step's tensor at the last step's indices, under the last step's request names. Rows are their
  requests' own exactly when no such record names anybody and no unwritten row is delivered
  (`RowDelivery.OwnRowsExactly`, `StaleRecordExample`).
- **Stale scratch indices.** `decode_row_idx` behind the active rows is left from earlier steps, and the full
  gather reads it: a step fails exactly when its own indices or that tail leave its tensor
  (`RowDelivery.StaleTailExactly`, `StaleTailExample`).
- **Compact-only capture.** A first-per-prompt flow whose decode rows all lack a prompt gets no step bundle and
  falls back to frames; with the full gather off these carry rows the step never wrote (`RowDelivery.RunSteps`,
  `UnwrittenExample`). The ESamp consumer cannot train on frames and raises (`ConsumerRuns.WantsExactly`).
- **Deduplicated predictions** serve a row its own prediction, whatever the model, exactly when all rows have
  prompts and rows of one prompt share their hidden state (`Dedup.DedupExact`). A subset of a deduplicated state
  applies its positions twice: a row with a prompt reads its own prediction exactly when the subset starts with every
  row up to the one it maps to (`SamplerRows.SubsetExactly`; for the tokens, `SamplerBridge.DedupReadsWholeExactly`).
  Otherwise a row can read another prompt's prediction, or sampling raises (`SamplerRows.DedupBreaksSubsets`,
  `SamplerBridge.DedupServedExactly`, `PartialBatchRaises`).
- **Rows without a prompt** map to -1. A projection raises for them; the dense cache indexes from the end and silently
  blends in the last prompt's prediction (`Dedup.NoPromptServed`, `DedupGatherIsProjection`,
  `SamplerBridge.DedupReadsOwnExactly`, `BorrowedExample`).
- **Captured dense logits.** For the post-filter dense cache a buffer is allocated and returned, but capture does
  not write it (`SlotLookup.CaptureStep`).
- **Assume-all predictions** agree with the filtered ones exactly when every prompt has a filled dense cell
  (`SlotLookup.AssumeAllExact`, for captured rows `CaptureAllExactly`).
- **Triton and torch min-p masks** differ exactly on rows with tied maxima and `min_p` above one
  (`MinP.KernelIsTorchExactly`, `MinP.TieAboveOne`).
- **Shared paths.** When two locators resolve to one path, one of them is unbound
  (`StepBundles.AllBoundExactly`).
- **Exhausted banks.** Slots are never freed one by one. A bank step raises inside the drain, after it was taken off
  the queue, exactly when the prompts since the slots were last forgotten are more than the bank has; the step is lost
  and not counted (`ConsumerRuns.RaisesExactly`, `ExactlyOnce.FailedStep`).
- **Forgotten pre-assignments.** A launch that remakes the pipeline or the bank forgets the slots that the sampler
  assigned before it (`ConsumerRuns.KnownExactly`).
- **Loss counter.** A batch larger than the scratch rows, or the next smaller one, reallocates the pipeline and
  clears the counters; the counter is the sum since the last read exactly when no launch did so while it was not
  zero (`ConsumerRuns.CounterExactly`).
- **Toggles inside a step.** A step launched with training on and ended with it off stays in flight. A later launch is
  refused exactly when such a step is left over and the batch needs the same pipeline layout; another layout drops the
  left-over step silently (`ToggledSteps.RefusedExactly`, `ReshapedExample`). The step end that finds training on trains
  it with the row count and prompts of the latest launch, even of a refused one, or on no rows if an end has found
  training off since (`EndTrainsExactly`, `RefusedRowsExample`).
- **Step ends without a pipeline.** An end with training on raises before the first launch, and after serial mode was
  left without a launch (`ToggledSteps.EndRaisesExactly`, `ConsumerRuns.NextExactly`).

## Model

| member | source | states |
|---|---|---|
| DeviceQueue.CopyRows | tllm/consumers/esamp/engine.py:59-65 | a copy overwrites the common prefix of the destination and leaves the older rows behind it; the buffer keeps its size |
| DeviceQueue.BeforeStable | tllm/consumers/esamp/engine.py:1500-1530 | enqueueing more work never removes an ordering between two operations already enqueued |
| DeviceQueue.BeforeWait | tllm/consumers/esamp/engine.py:1389-1393 | what is ordered before an event's latest record is ordered before a wait that was bound to that record when it was enqueued |
| DeviceQueue.CopyIsLatest | tllm/consumers/esamp/engine.py:1395-1411 | in a race-free log, no later copy of a slot has finished while an earlier one is still to run |
| DeviceQueue.TrainStep | tllm/consumers/esamp/engine.py:1512-1530 | in a race-free log, a training that a schedule may run now finds in its slot exactly what plain enqueue order would have put there |
| DeviceQueue.ExecuteCoherent | tllm/consumers/esamp/engine.py:1500-1530 | in a race-free log, running any enabled operation keeps memory equal to the enqueue-order effect of the finished copies and every training read equal to the enqueue-order contents |
| DeviceQueue.EnqueueCoherent | tllm/consumers/esamp/engine.py:1480-1498 | a host call that only appends work keeps that device invariant |
| DeviceQueue.SomeOpEnabled | tllm/consumers/esamp/engine.py:1500-1530 | when an operation is unfinished, some operation no later than it can run: waits only name earlier records, so the device never deadlocks |
| TrainPipeline.Wrap | tllm/consumers/esamp/engine.py:1489-1490 | slot numbers stay below the slot count and wrap to zero at it |
| TrainPipeline.EnsureStreams | tllm/consumers/esamp/engine.py:700-716 | serial mode has neither side stream, every other mode has both, and single mode uses one stream for both |
| TrainPipeline.StreamsExactly | tllm/consumers/esamp/engine.py:700-716 | single mode keeps the forward stream, else the train stream, for both, and makes one if there is none; dual mode keeps two different ones, and otherwise a new forward stream beside the shared one or the missing one; streams a mode keeps are the ones there were |
| TrainPipeline.ResourcesExactly | tllm/consumers/esamp/engine.py:718-748 | buffers, slot position and step in flight survive exactly when slot count, taken as at least one, and layout stay; otherwise the buffers are new and nothing is in flight; on another device every side stream is a new one; nothing is enqueued |
| TrainPipelineProofs.FreshInv | tllm/consumers/esamp/engine.py:718-741 | a new pipeline, enabled, of at least one slot, satisfies the host invariant: race-free log, idle slots, and every training preceded on its slot by its own batch's copies |
| TrainPipelineProofs.StepCovered | tllm/consumers/esamp/engine.py:1395-1411 | after launch_step everything enqueued on the slot, including all earlier copies and trainings, precedes the slot's target-done event |
| TrainPipelineProofs.LaunchStepInv | tllm/consumers/esamp/engine.py:1480-1498 | launch_step keeps the host invariant, errors included |
| TrainPipelineProofs.ForwardStaged | tllm/consumers/esamp/engine.py:1370-1393 | after launch_forward the slot's latest source copy is this batch's, and everything on the slot precedes its staged event, on a side stream or on the main one |
| TrainPipelineProofs.LaunchForwardInv | tllm/consumers/esamp/engine.py:1413-1433 | launch_forward keeps the host invariant |
| TrainPipelineProofs.TargetStaged | tllm/consumers/esamp/engine.py:1435-1459 | after launch_target both latest copies of the slot belong to the batch in flight, and everything on the slot precedes one of its two events |
| TrainPipelineProofs.LaunchTargetInv | tllm/consumers/esamp/engine.py:1461-1478 | launch_target keeps the host invariant |
| TrainPipelineProofs.BackwardEffect | tllm/consumers/esamp/engine.py:1509-1530 | with a step ready, launch_delayed_backward enqueues exactly two waits, the training of the batch in flight with the call's own active_rows and prompt_idxs, and the done record, on the mode's stream, and leaves the queue empty |
| TrainPipelineProofs.BackwardIdle | tllm/consumers/esamp/engine.py:1523-1530 | once a slot's training is queued, everything on the slot precedes the slot's new done event |
| TrainPipelineProofs.LaunchDelayedBackwardInv | tllm/consumers/esamp/engine.py:1500-1530 | launch_delayed_backward keeps the host invariant |
| TrainPipelineProofs.RaisingBackwardInv | tllm/consumers/esamp/engine.py:1509-1530 | a training that raises keeps the host invariant, unless its step was copied off the main stream by launch_forward |
| TrainPipelineProofs.MisfitStepInv | tllm/consumers/esamp/engine.py:1395-1411 | a launch_step that raises for the width of its rows keeps the host invariant |
| TrainPipelineProofs.ReconfigureInv | tllm/consumers/esamp/engine.py:364-403 | configure followed by ensure_resources keeps the host invariant, unless it abandons a forward-launched step in buffers of the same slot count and layout; AbandonedStep.ReconfigureExact shows that exception to be exact |
| TrainRuns.ApplyInv | tllm/consumers/esamp/engine.py:370-403 | every engine call, raising ones included, in any order and with any arguments, keeps the host invariant, except for one that drops a forward-launched step from surviving buffers: a reconfiguration, or a training that raises; AnyRun.ApplyPlain holds after these too |
| TrainRuns.NextGood | tllm/consumers/esamp/engine.py:1480-1530 | one move of the whole system, a host call other than such a one or a device operation, keeps the host and device invariants together |
| TrainRuns.RunGood | tllm/consumers/esamp/engine.py:1480-1530 | so does any interleaving of such moves, of any length |
| TrainRuns.ReadIsLaunched | tllm/consumers/esamp/engine.py:1346-1355 | a training read, up to its own active_rows, the source and target rows of the batch that queued it |
| TrainRuns.StreamSafety | tllm/consumers/esamp/engine.py:1413-1530 | for any slot count, stream mode, device schedule and sequence of calls, trainings that raise included, none of which drops a forward-launched step from surviving buffers: every training read its own batch, no copy into a slot finished before an earlier training of the slot, and no training before an earlier copy; AnyRun.RaceFreeRunIsSafe has the runs that drop one |
| TrainRuns.NeverStuck | tllm/consumers/esamp/engine.py:1500-1530 | in every reachable state with unfinished work, the device has a legal move |
| AnyRun.ApplyPlain | tllm/consumers/esamp/engine.py:364-403 | every engine call, raising ones and those that drop a step included, only appends to the log and keeps every training preceded on its slot by its own batch's copies |
| TrainPipelineProofs.RaceFreePrefix | tllm/consumers/esamp/engine.py:1370-1459 | a race-free log was race-free at every earlier point |
| AnyRun.AfterRight | tllm/consumers/esamp/engine.py:1370-1530 | over any interleaving of host calls and device operations, with no call left out: while the log is race-free, memory is what plain enqueue order would have made it |
| AnyRun.RaceFreeRunIsSafe | tllm/consumers/esamp/engine.py:364-403 | for every run, dropped steps and raising trainings included: if its log is race-free, every training read its own batch and no conflicting operations overtook each other |
| AbandonedStep.ApplyTail | tllm/consumers/esamp/engine.py:1370-1393 | every call keeps the fact that the main stream waits for nothing newer than the copy launch_forward has in flight |
| AbandonedStep.LooseRace | tllm/consumers/esamp/engine.py:1389-1411 | a later main-stream copy into that copy's slot makes the log racy |
| AbandonedStep.AbandonRaces | tllm/consumers/esamp/engine.py:370-403 | from every state in which configure abandons a forward-launched step inside surviving buffers, some list of further calls, none of which drops anything, leads to a racy log |
| AbandonedStep.RaisingRaces | tllm/consumers/esamp/engine.py:1512-1530 | so it does from every state in which the training of a forward-launched step raises |
| AbandonedStep.ReconfigureExact | tllm/consumers/esamp/engine.py:364-403 | for every state that keeps the invariants: some calls after a reconfiguration, none of which drops a forward-launched step, lead to a racy log if and only if a forward-launched step was in flight and slot count, rows, hidden size, dtype and device stayed the same |
| AbandonedStep.RaisingExact | tllm/consumers/esamp/engine.py:1512-1530 | likewise after a training that raises, if and only if its step was forward-launched: a step of launch_step can always raise safely |
| AbandonedStep.CarefulExact | tllm/consumers/esamp/engine.py:364-403 | for every call in such a state, whichever it is: a racy log can follow without a further drop if and only if the call drops a forward-launched step from surviving buffers |
| AbandonedStep.CarefulExactly | tllm/consumers/esamp/engine.py:364-403 | over every list of calls on a new pipeline: no call drops a forward-launched step from surviving buffers, by a reconfiguration or by a training that raises, if and only if no prefix of the list can be continued to a race |
| AbandonedStep.BadLog | tllm/consumers/esamp/engine.py:1413-1530 | the log of launch_forward, launch_target, configure, launch_step, launch_delayed_backward on one slot with two streams, operation by operation |
| AbandonedStep.AbandonedRowIsTrained | tllm/consumers/esamp/engine.py:1413-1530 | on that log, some legal device schedule makes the new step's training read the forgotten step's source row |
| RaisedTraining.RaisedLog | tllm/consumers/esamp/engine.py:1413-1530 | the log of launch_forward, launch_target, a backward that raises for a missing prompt, launch_step, launch_delayed_backward on one slot with two streams, operation by operation |
| RaisedTraining.DroppedRowsAreTrained | tllm/consumers/esamp/engine.py:1413-1530 | on that log, some legal device schedule makes the new step's training read the dropped step's source and target rows |
| TrainEngine.Pipeline.constructor | tllm/consumers/esamp/engine.py:269-309 | a new pipeline object is the fresh specification state |
| TrainEngine.Pipeline.RecordEvent | tllm/consumers/esamp/engine.py:1410-1411 | recording an event appends a record to the stream and rebinds the event to it |
| TrainEngine.Pipeline.WaitEvent | tllm/consumers/esamp/engine.py:1407 | waiting appends a wait bound to the latest record made so far, or to none |
| TrainEngine.Pipeline.LaunchStepKernel | tllm/consumers/esamp/engine.py:1395-1411 | one wait, two copies, two records, in that order, on the main stream |
| TrainEngine.Pipeline.LaunchStep | tllm/consumers/esamp/engine.py:1480-1498 | the method's whole new state and status are the specification's, in all four outcomes |
| TrainEngine.Pipeline.FailLaunch | tllm/consumers/esamp/engine.py:1395-1411 | a launch whose rows do not fit the pipeline's width uses up its slot: the wait is enqueued, and the source copy if it is the target rows that do not fit |
| TrainEngine.Pipeline.LaunchForwardKernel | tllm/consumers/esamp/engine.py:1370-1393 | the operations and event bindings of the forward launch, with and without a forward stream |
| TrainEngine.Pipeline.LaunchForward | tllm/consumers/esamp/engine.py:1413-1433 | whole new state and status are the specification's |
| TrainEngine.Pipeline.LaunchTargetKernel | tllm/consumers/esamp/engine.py:1435-1459 | the operations and event bindings of the target launch, with and without a forward stream |
| TrainEngine.Pipeline.LaunchTarget | tllm/consumers/esamp/engine.py:1461-1478 | whole new state and status are the specification's |
| TrainEngine.Pipeline.TrainKernel | tllm/consumers/esamp/engine.py:1524-1530 | the four operations of one queued training, and the new done event |
| TrainEngine.Pipeline.LaunchDelayedBackward | tllm/consumers/esamp/engine.py:1500-1530 | the drain loop reaches the specification's state, whatever is queued |
| TrainEngine.Pipeline.EnsurePipeline | tllm/consumers/esamp/engine.py:718-748 | another slot count, row count, hidden size, dtype or device gives new buffers, slot 0 next and no step in flight; the same shape changes nothing |
| TrainEngine.Pipeline.EnsureResources | tllm/consumers/esamp/engine.py:750-782 | pipeline buffers and streams for the wanted mode and layout; streams of another device are dropped first |
| TrainEngine.Pipeline.FailBackward | tllm/consumers/esamp/engine.py:1509-1518 | when the training raises, the step is already off the queue: its waits are enqueued, its training and done record are not |
| TrainEngine.Pipeline.Reconfigure | tllm/consumers/esamp/engine.py:364-403 | enabled flag, forgotten step, streams, buffers and next slot: the whole new state is the specification's |
| Common.IncreasingCoverIsIdentity | tllm/runtime/sampler_bridge/bridge.py:296-296 | n strictly increasing ids below n are the identity, so comparing the number of affected rows with the number of rows is enough |
| Rows.FirstRowsMeaning | tllm/consumers/esamp/consumer.py:248-257 | the scan selects, in increasing order, exactly the rows whose prompt is known and appears in no earlier row |
| Rows.FirstRowExists | tllm/consumers/esamp/consumer.py:248-257 | every row with a known prompt has a first row with the same prompt |
| Rows.ScanFirstRows | tllm/runtime/ports/residual_bundle_dispatch.py:164-175 | the loop with a growing set of seen prompts returns those rows |
| Rows.FirstRowsCount | tllm/consumers/esamp/consumer.py:248-257 | there are as many first rows as distinct prompts |
| Rows.NonzeroMeaning | tllm/consumers/esamp/engine.py:1717-1717 | nonzero lists exactly the true positions, in increasing order |
| Rows.NonzeroCount | tllm/runtime/sampler_bridge/bridge.py:275-275 | as many true positions as positions means all are true; no true position means none is |
| Rows.SearchSortedFinds | tllm/consumers/esamp/engine.py:1723-1727 | on strictly increasing keys, the searchsorted position holds the key if and only if the key is present |
| SlotTable.WriteDenseSound | tllm/consumers/esamp/engine.py:1031-1055 | writing pairs of the table keeps every cell -1 or right, and covers every written prompt that fits |
| SlotTable.ResetCoherent | tllm/consumers/esamp/engine.py:437-454 | a cache reset leaves an empty, coherent table |
| SlotTable.ConfigureCoherent | tllm/consumers/esamp/engine.py:370-403 | configure keeps the table coherent, whichever of its three reset levels applies |
| SlotTable.StorageCoherent | tllm/consumers/esamp/engine.py:663-681 | lookup storage is always available once the pipeline exists, and refilling or reallocating it keeps the table coherent |
| SlotTable.EnsureResourcesCoherent | tllm/consumers/esamp/engine.py:750-782 | ensure_resources keeps the table coherent, and in bank mode the bank then has the configured slot count |
| SlotTable.AssignCoherent | tllm/consumers/esamp/engine.py:1008-1029 | assignment keeps the table coherent, succeeds exactly for known prompts or while slots are left, and changes no other assignment |
| SlotTable.NextIsCount | tllm/consumers/esamp/engine.py:1008-1029 | the next slot number is the number of prompts that have slots |
| SlotTable.AssignAllCoherent | tllm/consumers/esamp/engine.py:1082-1088 | assigning a batch keeps the table coherent, even when it stops early; every returned pair is the table's |
| SlotTable.AssignAllExactly | tllm/consumers/esamp/engine.py:1082-1088 | assigning a batch succeeds if and only if the known prompts and the batch's prompts together are at most as many as the slots; it then adds exactly the batch's prompts |
| SlotTable.AssignForSamplingCoherent | tllm/consumers/esamp/engine.py:1066-1092 | the per-step assignment keeps the table coherent; when it returns true, the refilled dense lookup covers every non-negative prompt of the batch with its slot. SlotTable.AssignForSamplingExactly says when it does |
| SlotTable.AssignForSamplingExactly | tllm/consumers/esamp/engine.py:1066-1092 | it raises if and only if the prompts do not fit the slots, and returns true if and only if they fit and every one of them lies below the dense lookup's capacity; before resources exist it returns false and changes nothing |
| SlotTable.SamplingReadyExactly | tllm/consumers/esamp/engine.py:1066-1092 | the pre-assignment returns true if and only if training is shared, or there is a bank with resources, the prompts and the known ones fit its slots, and every prompt is below 4096, the slots, eight times the pipeline's rows, or the size of a lookup that this device already has; it raises if and only if there is such a bank and they do not fit |
| SlotTable.TrainSelectCoherent | tllm/consumers/esamp/engine.py:1280-1305 | training keeps the table coherent and selects the first row of every prompt with that prompt's slot; slot to prompt and prompt to statistics are then total |
| SlotTable.TrainSelectExactly | tllm/consumers/esamp/engine.py:1280-1305 | the selection raises if and only if an active row has no prompt or the prompts do not fit the slots, with that reason; otherwise it adds exactly the batch's prompts |
| SlotTable.SortedPairsImage | tllm/consumers/esamp/engine.py:1108-1114 | sorting the insertion-ordered dictionary gives exactly the sorted prompt-to-slot map |
| SlotTable.LookupCoherent | tllm/consumers/esamp/engine.py:1094-1115 | whether the cached lookup is reused or rebuilt, its keys and values are the sorted prompt-to-slot map, and the dense part is sound |
| SlotLookup.RunCoherent | tllm/consumers/esamp/engine.py:1008-1115 | over every run of assign, train, reset, configure, ensure_resources and lookup calls the table stays coherent |
| SlotLookup.FreshRunCoherent | tllm/consumers/esamp/engine.py:1008-1115 | from a new engine: prompt_to_slot and slot_to_prompt are inverse bijections onto [0, next_slot), next_slot is within capacity, every assigned prompt has its statistics entry, every dense cell is -1 or right, and a stored sorted cache is the sorted map |
| SlotLookup.AssignmentsStable | tllm/consumers/esamp/engine.py:1008-1029 | no call changes an assignment, except by forgetting all of them |
| SlotLookup.SearchPathMeaning | tllm/consumers/esamp/engine.py:1721-1735 | the searchsorted path predicts exactly the rows whose prompt has a slot, through that slot |
| SlotLookup.DensePathMeaning | tllm/consumers/esamp/engine.py:1707-1720 | the dense path predicts exactly the rows whose prompt the dense lookup currently covers, through that prompt's slot |
| SlotLookup.AssumeAllExact | tllm/consumers/esamp/engine.py:1711-1714 | the shortcut that assumes every slot is ready selects the same rows as the filtered path if and only if every prompt has a filled dense cell, and then predicts the same |
| SlotLookup.AssumeAllMeaning | tllm/consumers/esamp/engine.py:1700-1714 | what that shortcut predicts for every row, ready or not: a missing prompt is looked up as prompt 0, one behind the table as its last, and an empty cell stands for slot 0 |
| SlotLookup.Precompute.ResetDecodeStep | tllm/runtime/residual_runtime.py:183-193 | a step reset invalidates the capture and clears the whole mask |
| SlotLookup.Precompute.Capture | tllm/consumers/esamp/engine.py:1659-1672 | every row is predicted, the mask says which predictions count, and the buffers behind the rows are untouched |
| SlotLookup.Precompute.EnsureDense | tllm/consumers/esamp/sampler_provider.py:140-154 | a dense buffer is allocated for both dense backends, with contents nobody wrote |
| SlotLookup.Precompute.CaptureDense | tllm/consumers/esamp/sampler_provider.py:192-217 | capture writes the dense buffer for the pre-filter backend and leaves it alone for the post-filter one |
| SlotLookup.Precompute.CapturedRowsForStep | tllm/runtime/residual_runtime.py:244-280 | the rows and the dense logits a step gets back from the buffers, in all four outcomes; dense logits come back whenever there is a dense buffer, for the same rows |
| SlotLookup.CaptureIsDensePath | tllm/runtime/residual_runtime.py:244-280 | selecting from the captured buffers by mask equals the filtered dense path on the active rows, although stale rows behind them were captured too |
| SlotLookup.CapturedExactly | tllm/runtime/residual_runtime.py:244-280 | captured predictions are served exactly to the step that captured them, for no more rows than there are, and when some row is selected: every active row with the all-rows flag, otherwise those with the mask set, in order, each with its own prediction |
| SlotLookup.CaptureStep | tllm/consumers/esamp/sampler_provider.py:140-217 | from buffers to captured rows: the dense logits a step gets are the projections of its captured predictions if and only if the backend is not the post-filter dense cache |
| SlotLookup.CaptureAllExactly | tllm/consumers/esamp/sampler_provider.py:156-174 | captured rows with the all-rows flag are the rows selected by the mask if and only if every active row has a filled dense cell |
| SlotLookup.PreassignedReady | tllm/consumers/esamp/sampler_provider.py:156-174 | after a successful per-step assignment every row has a filled dense cell if and only if every row has a prompt |
| SlotLookup.PathsAgree | tllm/consumers/esamp/engine.py:1681-1735 | after assigning a batch of non-negative prompts that fit, the dense path, the assume-all path, the captured rows with and without the all-rows flag, and searchsorted on a device without a dense lookup all return every row through its own prompt's slot |
| SlotEngine.ModelBankSlots.ResetRuntimeCache | tllm/consumers/esamp/engine.py:437-454 | the in-place reset is the specification's |
| SlotEngine.ModelBankSlots.Configure | tllm/consumers/esamp/engine.py:370-403 | the in-place configure is the specification's, at each of its three reset levels |
| SlotEngine.ModelBankSlots.EnsurePipeline | tllm/consumers/esamp/engine.py:718-748 | the pipeline shape and the reset that a new one brings are the specification's |
| SlotEngine.ModelBankSlots.EnsureBank | tllm/consumers/esamp/engine.py:620-661 | the bank, its slot count and the reset that a new one brings are the specification's |
| SlotEngine.ModelBankSlots.EnsureResources | tllm/consumers/esamp/engine.py:750-782 | the new state is the specification's |
| SlotEngine.ModelBankSlots.EnsureStorage | tllm/consumers/esamp/engine.py:663-681 | reuse and refill, or allocate; the new state is the specification's |
| SlotEngine.ModelBankSlots.AssignModelBankSlot | tllm/consumers/esamp/engine.py:1008-1029 | the dictionaries, the cache and the result are the specification's |
| SlotEngine.ModelBankSlots.WriteDenseEntries | tllm/consumers/esamp/engine.py:1031-1055 | the index writes into the dense buffer are the specification's |
| SlotEngine.ModelBankSlots.AssignForSampling | tllm/consumers/esamp/engine.py:1066-1092 | the loop, its early error and its final write give the specification's state and result |
| SlotEngine.ModelBankSlots.TrainSelect | tllm/consumers/esamp/engine.py:1280-1305 | the selection loop by seen slots gives the specification's first rows per prompt, slots and table |
| Losses.SharedGraphIsEager | tllm/consumers/esamp/engine.py:927-929 | the masked, padded shared graph loss over stale rows equals the mean squared error over the active rows |
| Losses.RowSqMeaning | tllm/consumers/esamp/engine.py:1126-1127 | over rows as wide as the model, a row's squared error is the sum over its cells of the squared difference of the model's output and the target |
| Losses.SharedEagerMeaning | tllm/consumers/esamp/engine.py:1117-1134 | the shared loss is the sum of all active rows' squared errors under the one model, over the number of their elements |
| Losses.UniqueBelowMeaning | tllm/consumers/esamp/engine.py:1306-1306 | the distinct slot ids, in increasing order |
| Losses.SumOverUnique | tllm/consumers/esamp/engine.py:942-944 | summing a per-slot value over all bank slots, masked by presence, equals summing it over the distinct slots |
| Losses.BankGraphIsEager | tllm/consumers/esamp/engine.py:935-944 | the bank graph loss, over all slots and stale padded rows, equals the sum of per-slot means on the active rows |
| Losses.BankEagerMeaning | tllm/consumers/esamp/engine.py:1207-1246 | every distinct slot adds the sum over exactly its own rows of the squared error under its own model, over the number of their elements |
| Losses.OneRowEachLoss | tllm/consumers/esamp/engine.py:1207-1246 | when every row has a slot of its own, the bank's loss is the sum over the rows of the mean squared error under the row's slot |
| GraphReplay.Graph.Reset | tllm/consumers/esamp/engine.py:457-473 | a reset graph has no buffers and is uncaptured |
| GraphReplay.Graph.EnsureOwnStorage | tllm/consumers/esamp/engine.py:814-866 | buffers that fit are kept with their mask; otherwise all are new, zeroed and uncaptured |
| GraphReplay.Graph.EnsureAliasStorage | tllm/consumers/esamp/engine.py:829-861 | the same for a graph whose inputs are the pipeline slot's own buffers; what a kept graph aliases is not compared |
| GraphReplay.Graph.Stage | tllm/consumers/esamp/engine.py:958-986 | staging succeeds exactly when there are buffers, the row count is positive and fits, and a bank batch has slot ids; then the mask is 1 exactly on the active rows and the inputs hold the batch |
| GraphReplay.StageWithoutIds | tllm/consumers/esamp/engine.py:958-986 | staging a bank batch without slot ids, which no caller does, fails after rewriting the mask: the graph stays valid if and only if the row count is the one staged before |
| BankTraining.SlotTotals | tllm/consumers/esamp/engine.py:1221-1226 | scattering through searchsorted positions gives each distinct slot its own loss sum and row count |
| BankTraining.BankKernel | tllm/consumers/esamp/engine.py:1207-1246 | the eager kernel computes the sum of per-slot means and counts the distinct slots |
| BankTraining.TryReplay | tllm/consumers/esamp/engine.py:1757-1788 | a replay hit adds the eager loss of the batch; a stage miss or a failed replay reports a miss, and the buffers of the step are unchanged |
| BankTraining.TrainOn | tllm/consumers/esamp/engine.py:1135-1157 | one training has the eager loss and count whether it ran by replay or by the kernel, and it is a replay only when graphs are enabled and this one was captured |
| BankTraining.PipelineSlot.constructor | tllm/consumers/esamp/engine.py:718-741 | a slot of new pipeline buffers has no graph buffers, so a slot graph that has buffers always aliases the current ones |
| BankTraining.PipelineSlot.DropGraph | tllm/consumers/esamp/engine.py:437-454 | a cache reset drops the slot graph's buffers and keeps the slot's own |
| BankTraining.PipelineSlot.CopyIn | tllm/consumers/esamp/engine.py:1408-1409 | the two launch copies, with stale rows behind them |
| BankTraining.PipelineSlot.TrainPrefix | tllm/consumers/esamp/engine.py:1308-1344 | a prefix selection trains on the slot's own buffers, by the slot graph or eagerly, with the eager loss |
| BankTraining.TrainGathered | tllm/consumers/esamp/engine.py:1311-1344 | any other selection trains on gathered rows, by the bank-wide graph or eagerly, with the eager loss |
| BankTraining.TrainBank | tllm/consumers/esamp/engine.py:1268-1344 | whichever buffers and graph a selection calls for, the loss is the eager loss of the selected rows and the count is the number of distinct slots |
| BankTraining.TrainShared | tllm/consumers/esamp/engine.py:1135-1157 | shared training adds the mean squared error of the active rows and counts one, by replay or eagerly |
| TrainStep.GroupByPrompt | tllm/consumers/esamp/engine.py:1192-1196 | grouping fails exactly when a row has no prompt; otherwise every prompt's group is its rows in order, and groups come in first-row order |
| TrainStep.TrainPerRequest | tllm/consumers/esamp/engine.py:1185-1205 | per-request training raises if and only if a row has no prompt; otherwise it counts the distinct prompts, and every distinct prompt p adds, once, the sum over exactly p's rows of the squared error under p's own model, over the number of those rows times the width |
| TrainStep.GroupMeaning | tllm/consumers/esamp/engine.py:1196-1205 | the group of prompt p, cut out by index_select and trained as one batch, has the mean squared error of exactly the rows with prompt p under model p |
| TrainStep.PerRequestMeaning | tllm/consumers/esamp/engine.py:1196-1205 | the groups together: one such error for every distinct prompt |
| TrainStep.BankCountsPrompts | tllm/consumers/esamp/engine.py:1306-1306 | the number of distinct slots the bank kernel counts is the number of distinct prompts |
| TrainStep.TrainExactly | tllm/consumers/esamp/engine.py:1346-1355 | a training raises if and only if a row lacks the prompt its mode needs or the prompts do not fit the bank; otherwise it counts one, or the distinct prompts, and bank training alone touches the slot table, adding exactly the batch's prompts |
| TrainStep.TrainLossExactly | tllm/consumers/esamp/engine.py:1117-1205 | the loss of a training from the batch alone, in all three modes: every distinct prompt's first row under the model of the slot the prompt then has, every prompt's rows under the prompt's own model, or all rows under the one model, each time the mean of the squared errors; nothing for no rows |
| TrainStep.StepTrainer.Configure | tllm/consumers/esamp/engine.py:370-403 | the slot table is the specification's, and buffers and graphs stay fit for it |
| TrainStep.StepTrainer.EnsureResources | tllm/consumers/esamp/engine.py:750-782 | slot table, pipeline buffers and bank fit each other, whatever had to be remade |
| TrainStep.StepTrainer.CopyIn | tllm/consumers/esamp/engine.py:1408-1409 | the batch is the prefix of its pipeline slot, and nothing else of the trainer changes |
| TrainStep.StepTrainer.TrainModelBank | tllm/consumers/esamp/engine.py:1268-1344 | select, then the slot's graph, the bank graph or the kernel: loss, count, error and slot table are those of training the batch eagerly |
| TrainStep.StepTrainer.TrainSharedModel | tllm/consumers/esamp/engine.py:1147-1157 | the shared graph or the kernel on the slot's active rows gives the batch's mean squared error; no rows train nothing |
| TrainStep.StepTrainer.TrainSlot | tllm/consumers/esamp/engine.py:1346-1355 | whichever of the three modes is configured, the training in the pipeline slot is the training of the batch that was copied into it |
| Blocks.NextPowerOf2Bounds | tllm/consumers/esamp/model_bank_backend.py:94-95 | the block size is at least the value and less than twice the value |
| Blocks.Offset3RowMajor | tllm/consumers/esamp/model_bank_backend.py:141-141 | slot * hidden * rank + h * rank + r is the row-major offset of [slot, h, r], and in bounds |
| Blocks.CdivCovers | tllm/consumers/esamp/model_bank_backend.py:207-207 | cdiv blocks cover the range, and every block starts inside it |
| Blocks.StoreMasked | tllm/consumers/esamp/model_bank_backend.py:150-150 | a masked block store extends the written part of a row to the end of the block or of the row |
| ModelBankKernel.RankBlockCovers | tllm/consumers/esamp/model_bank_backend.py:202-202 | min(64, next_power_of_2(rank)) is at least rank if and only if rank is at most 64 |
| ModelBankKernel.UpLane | tllm/consumers/esamp/model_bank_backend.py:138-144 | a lane's masked loads read in bounds and give the bmm term, or zero outside hidden size or rank |
| ModelBankKernel.UpTileIsTile | tllm/consumers/esamp/model_bank_backend.py:137-146 | one tile of the loop is one masked tile of the bmm sum |
| ModelBankKernel.Accumulate | tllm/consumers/esamp/model_bank_backend.py:135-146 | the loop over hidden tiles accumulates the full bmm sum, for every hidden size and block size |
| ModelBankKernel.GateIsSilu | tllm/consumers/esamp/model_bank_backend.py:148-149 | x / (1 + exp(-x)) is silu |
| ModelBankKernel.OutLane | tllm/consumers/esamp/model_bank_backend.py:171-173 | a lane of the out tile reads in bounds and is zero outside rank or hidden size |
| ModelBankKernel.OutValueIsCell | tllm/consumers/esamp/model_bank_backend.py:170-176 | a rank block at least as wide as the rank computes the whole output cell, residual included |
| ModelBankKernel.LaunchUpGate | tllm/consumers/esamp/model_bank_backend.py:207-218 | the first grid writes every up/gate value of the torch formula, row-major |
| ModelBankKernel.LaunchOut | tllm/consumers/esamp/model_bank_backend.py:219-229 | the second grid writes every output value of the torch formula, row-major |
| ModelBankKernel.Forward | tllm/consumers/esamp/model_bank_backend.py:183-235 | for every hidden size and rank, inside and outside the supported ranks, the grouped forward equals the torch forward before layer norm |
| ModelBankKernel.CellMeaning | tllm/consumers/esamp/model_bank_backend.py:100-165 | every output cell, element by element in flat memory: the sum over the ranks of the row's up projection, times silu of its gate projection plus bias, times the down projection, all of the row's own slot, plus the source cell |
| Logits.Top | tllm/runtime/sampler_bridge/kernels/minp_candidate_triton.py:55-56 | the maximum of a block of lanes bounds every lane and is one of them; an empty block has minus infinity |
| Logits.ArgMax | tllm/runtime/sampler_bridge/min_p.py:20-20 | argmax is the first position of the maximum |
| MinP.KernelIsTorchExactly | tllm/runtime/sampler_bridge/kernels/minp_candidate_triton.py:59-60 | the Triton mask equals the torch mask if and only if min_p is at most one, or the row has a single maximum, or is all minus infinity |
| MinP.TieAboveOne | tllm/runtime/sampler_bridge/kernels/minp_candidate_triton.py:59-60 | two tied maxima and min_p 2: the kernel keeps both, torch keeps the first |
| MinP.KeepMeansMinP | tllm/runtime/sampler_bridge/min_p.py:9-37 | in probabilities, for any normaliser: for min_p at least the smallest normal float32, 1.1754943508222875e-38 written out, a finite token is kept if and only if it has at least min_p times the probability of the likeliest token, or is that token; below it, the same with that number |
| MinP.ApplyMinP | tllm/runtime/sampler_bridge/min_p.py:9-23 | in place: every row becomes its masked self by its own min_p; a missing min_p or a shape error leaves the logits alone |
| MinP.FlatKernel | tllm/runtime/sampler_bridge/kernels/minp_candidate_triton.py:44-61 | the one-block kernel writes the mask of every row, with rows any stride apart in memory |
| MinP.TileOf | tllm/runtime/sampler_bridge/kernels/minp_candidate_triton.py:103-104 | every position of a row lies in a launched tile, at a lane inside it |
| MinP.TiledTop | tllm/runtime/sampler_bridge/kernels/minp_candidate_triton.py:96-99 | the maximum of the tile maxima, padding included, is the row's maximum |
| MinP.PartialMaxKernel | tllm/runtime/sampler_bridge/kernels/minp_candidate_triton.py:65-79 | the first pass writes every tile's maximum, row-major |
| MinP.TiledKernel | tllm/runtime/sampler_bridge/kernels/minp_candidate_triton.py:83-107 | the second pass writes the same mask as the one-block kernel |
| MinP.TritonKeepMask | tllm/runtime/sampler_bridge/kernels/minp_candidate_triton.py:110-152 | keep_mask succeeds exactly on a cuda device with Triton, one min_p a row and at most 524288 tokens, and otherwise fails with the first of the four reasons that applies; it gives the same mask for every vocabulary size, flat or tiled |
| MinP.KeepMaskWithFallback | tllm/runtime/sampler_bridge/minp_kernel.py:82-97 | kernel or torch fallback, the mask is the torch mask whenever every row meets the exact condition |
| Candidates.FlatMeaning | tllm/runtime/sampler_bridge/minp_kernel.py:32-32 | the flat list holds exactly the kept cells |
| Candidates.FiniteRowKeeps | tllm/runtime/sampler_bridge/min_p.py:26-37 | a row with a finite maximum keeps its first maximum, and keeps only finite logits |
| Candidates.FilteredSameCandidates | tllm/runtime/sampler_bridge/backends/minp_exact_torch.py:40-45 | filtering in place and selecting finite logits gives the mask's candidates if and only if the row has a finite logit |
| Candidates.RowScores | tllm/runtime/sampler_bridge/minp_kernel.py:67-68 | scatter amax gives every row an upper bound of its candidates' scores that one of them attains, or minus infinity |
| Candidates.ScatterWinners | tllm/runtime/sampler_bridge/minp_kernel.py:69-71 | whatever order the winners are written in, every cell ends up with one of its own row's best candidates |
| Candidates.Sample | tllm/runtime/sampler_bridge/minp_kernel.py:30-79 | every row gets one of its own candidates with the best score of the row |
| Candidates.SampleMinP | tllm/runtime/sampler_bridge/minp_kernel.py:30-79 | with finite row maxima, the drawn token is kept by the row's own min-p filter, and (1 + beta) times its logit, less beta times its distiller logit, less its random number, is at least that of every kept token of the row |
| Candidates.GreedyIsArgMax | tllm/runtime/sampler_bridge/minp_kernel.py:60-61 | without noise, the drawn token is in the argmax set of the row's full modified logits |
| Candidates.FixedTopKExactly | tllm/runtime/sampler_bridge/backends/fixed_topk_minp.py:25-30 | for min_p at most one, the fixed top-k candidates are the exact ones if and only if the exact filter keeps at most k tokens |
| Candidates.FixedTopKAboveOne | tllm/runtime/sampler_bridge/backends/fixed_topk_minp.py:25-30 | above one, top-k keeps its first position only and the exact filter keeps the first maximum only |
| Candidates.FixedPickIsBest | tllm/runtime/sampler_bridge/backends/fixed_topk_minp.py:59-66 | when the filter keeps at most k tokens, the picked token is an exact candidate with the best score of all of them |
| Dedup.GatherIsProjection | tllm/runtime/sampler_bridge/backends/dense_cache.py:10-29 | gathering dense logits through a row map equals projecting the candidates, errors included, unless every entry can be indexed and one counts from the end: there the gather takes a logit and the projection raises |
| Dedup.HeadLogitMeaning | tllm/runtime/sampler_bridge/truth.py:35-39 | a projected logit is the inner product of the prediction and the token's row, plus the token's bias if there is one |
| Dedup.FirstPromptRows | tllm/consumers/esamp/sampler_provider.py:78-92 | the scan returns the first row of every prompt, the prompts, and a map that sends each row to its prompt's position or to -1 |
| Dedup.DedupMeaning | tllm/consumers/esamp/sampler_provider.py:78-92 | the prompts are distinct, the map is onto, and it sends a row to a position if and only if that position holds the row's prompt |
| Dedup.Schedule | tllm/consumers/esamp/sampler_provider.py:284-311 | predictions are made once per prompt exactly when that saves rows and some row has a prompt; otherwise once per row |
| Dedup.ServedIsFirstRows | tllm/consumers/esamp/sampler_provider.py:301-311 | a row with a prompt is served its prompt's first-row prediction, by projection and from the dense cache |
| Dedup.NoPromptServed | tllm/consumers/esamp/sampler_provider.py:91-91 | a row without a prompt maps to -1: out of range for the projection, the last prompt's prediction in the dense cache |
| Dedup.DedupExact | tllm/consumers/esamp/sampler_provider.py:284-311 | one prediction per prompt serves every row its own prediction, whatever the model, by projection or from the dense cache, if and only if every row has a prompt and rows of one prompt share their hidden state |
| Dedup.DenseCacheIsProjection | tllm/runtime/sampler_bridge/backends/dense_cache.py:10-29 | for rows with prompts, dense gather and projection agree through the map, and both are the projection of the first row's prediction |
| Dedup.DedupGatherIsProjection | tllm/runtime/sampler_bridge/backends/dense_cache.py:10-29 | for rows of a deduplicated step, gather and projection agree, errors included, if and only if no candidate's row lacks a prompt |
| SamplerRows.ModifiedMeaning | tllm/runtime/sampler_bridge/truth.py:43-67 | the intervention keeps the minus-infinity mask and turns each surviving logit into llm + beta * (llm - distiller) |
| SamplerRows.ModifiedFromCandidates | tllm/runtime/sampler_bridge/minp_kernel.py:57-59 | the candidate sampler's scores and the exact path's in-place intervention build the same modified row |
| SamplerRows.GreedyDrawIsExactArgMax | tllm/runtime/sampler_bridge/minp_kernel.py:60-61 | without noise, the token drawn from the flat candidates is in the argmax set of the row the exact path builds, min-p filtered and intervened |
| SamplerRows.SelectGenerators | tllm/runtime/sampler_bridge/exact_backend.py:62-70 | position j of a selection gets the generator of row ids[j], or none |
| SamplerRows.SubsetReadsOwn | tllm/runtime/sampler_bridge/exact_backend.py:73-95 | without a row map, a subset's local row reads the prediction of its own row |
| SamplerRows.SubsetRowMeaning | tllm/runtime/sampler_bridge/exact_backend.py:73-95 | with and without dense logits, what a subset blends in is the whole state's logit of the prediction it reads |
| SamplerRows.OwnReadsMap | tllm/runtime/sampler_bridge/exact_backend.py:73-95 | the whole state of a deduplicated step serves a row with a prompt its own prediction; for a row without one the projection is out of range and the dense cache serves the last prompt's |
| SamplerRows.DedupSubsetExists | tllm/runtime/sampler_bridge/exact_backend.py:73-95 | rows of a deduplicated state can be selected if and only if they are all below the number of predictions |
| SamplerRows.DedupSubsetReads | tllm/runtime/sampler_bridge/exact_backend.py:73-95 | a subset of a deduplicated state applies the chosen positions twice: row j reads the prediction of the chosen row at its mapped position, counted from the end for a row without a prompt in the dense cache, or is out of range |
| SamplerRows.SubsetExactly | tllm/runtime/sampler_bridge/exact_backend.py:73-95 | over every deduplication, with and without prompts, by projection and from the dense cache: a row of a subset reads what the whole state reads for it if and only if it has a prompt, the chosen rows are below the number of predictions and start with every row up to the one its map names, or it has none and nothing is read for it or the last chosen row is the last prediction; and when it reads its own prediction, or none without a prompt, by a like condition |
| SamplerRows.DedupBreaksSubsets | tllm/runtime/sampler_bridge/exact_backend.py:73-95 | a concrete deduplicated state where selecting one row reads another prompt's prediction and selecting another row is out of range |
| SamplerBridge.ClassifyRespectsRows | tllm/runtime/sampler_bridge/bridge.py:209-227 | a batch that is classified as uniform treats every row by its own temperature; so does a mixed one with given greedy tokens |
| SamplerBridge.GreedyExactly | tllm/runtime/sampler_bridge/bridge.py:209-227 | from the metadata alone: all_greedy makes every row greedy, all_random without it and an absent temperature none; a scalar makes rows greedy if and only if it is below 0.00001; host and device temperatures by the row's own one, where greedy tokens were given or all are below |
| SamplerBridge.SampleRowsVanilla | tllm/runtime/sampler_bridge/bridge.py:31-54 | unaffected random rows get their own token, with their own top-k, top-p and generator |
| SamplerBridge.CopyRows | tllm/runtime/sampler_bridge/exact_backend.py:117-119 | selected rows are copied into a new tensor |
| SamplerBridge.FilterRows | tllm/runtime/sampler_bridge/exact_backend.py:201-201 | top-k and top-p filter every row of the copy by the row's own parameters |
| SamplerBridge.InterveneRows | tllm/runtime/sampler_bridge/truth.py:43-67 | it raises if and only if a row with surviving logits has no prediction to look up, which in the dense cache means an entry that cannot be counted from the end either; otherwise every row of the copy becomes its intervened self |
| SamplerBridge.SelectThenModify | tllm/runtime/sampler_bridge/exact_backend.py:73-125 | modifying a selected row with the selected state equals modifying the original row with the whole state's prediction that the selection reads, row maps included |
| SamplerBridge.WholeBatch | tllm/runtime/sampler_bridge/bridge.py:296-296 | as many affected rows as rows are all rows, in order |
| SamplerBridge.BuildModified | tllm/runtime/sampler_bridge/exact_backend.py:184-269 | it raises if and only if a lookup is out of range; otherwise, cell by cell: row ids[k] of the batch through the host's top-k/top-p filter, minus infinity where that filter or the row's own min-p test on the filtered row drops the token, elsewhere (1 + beta) times the logit less beta times the distiller's logit of the prediction read for the row; generators follow their rows, and the caller's logits are only read |
| SamplerBridge.ModifiedCell | tllm/runtime/sampler_bridge/exact_backend.py:201-236 | the modified row of the whole-batch laws has these cells |
| SamplerBridge.SampleRowsExact | tllm/runtime/sampler_bridge/bridge.py:115-143 | affected rows of one way of decoding get their own token, unless a lookup is out of range |
| SamplerBridge.Scatter | tllm/runtime/sampler_bridge/bridge.py:335-335 | masked assignment writes exactly the selected cells |
| SamplerBridge.GreedyCount | tllm/runtime/sampler_bridge/bridge.py:298-308 | the whole-batch tests on mode and greedy count hold if and only if all rows, or no rows, are greedy |
| SamplerBridge.SettleAffected | tllm/runtime/sampler_bridge/bridge.py:406-428 | the affected rows of one temperature group are settled, or one of their lookups is out of range; the other groups are left alone |
| SamplerBridge.SettleVanilla | tllm/runtime/sampler_bridge/bridge.py:430-441 | the unaffected random rows are settled and the other groups left alone |
| SamplerBridge.SettleGiven | tllm/runtime/sampler_bridge/bridge.py:394-400 | the unaffected greedy rows get the given token, or the argmax of their own logits, and the other groups are left alone |
| SamplerBridge.WholeBatchSampled | tllm/runtime/sampler_bridge/bridge.py:296-327 | the whole-batch shortcut gives every row its token, or fails exactly when a lookup is out of range |
| SamplerBridge.SampleWithOptionalModifier | tllm/runtime/sampler_bridge/bridge.py:252-470 | for any row map and either post-filter backend: no result exactly when the provider is inactive or no row is affected; an error exactly when a lookup of an affected row is out of range, as the backend looks up; otherwise, in every temperature mode, every output row is its one token: modified greedy, modified random, given greedy or vanilla random, with its own generator |
| SamplerBridge.AllGreedyToken | tllm/runtime/sampler_bridge/bridge.py:252-470 | in an all-greedy batch the token of every affected row is the first maximum of its modified row, of every other row the given token or the first maximum of its logits |
| SamplerBridge.AllRandomToken | tllm/runtime/sampler_bridge/bridge.py:252-470 | in an all-random batch it is the host sampler's draw from the modified row without top-k and top-p, and from the row's logits with its own, each with the row's own generator |
| SamplerBridge.GroupServedExactly | tllm/runtime/sampler_bridge/exact_backend.py:73-95 | the lookups of one temperature group are all in range if and only if they are for each of its rows |
| SamplerBridge.OwnTokens | tllm/runtime/sampler_bridge/bridge.py:252-470 | when rows read what they would read without a selection, every row's token is the one of that prediction |
| SamplerBridge.NoMapReadsOwn | tllm/runtime/sampler_bridge/exact_backend.py:73-95 | without a row map, every affected row reads its own prediction and no lookup is out of range |
| SamplerBridge.DedupReadsWholeExactly | tllm/runtime/sampler_bridge/exact_backend.py:73-95 | with deduplicated predictions, rows with and without prompts: every row reads what it would read without a selection if and only if the batch is modified whole, or the affected rows of each way of decoding satisfy the condition of SamplerRows.SubsetExactly |
| SamplerBridge.DedupReadsOwnExactly | tllm/runtime/sampler_bridge/exact_backend.py:73-95 | every row is modified by its own prediction, and one without a prompt by none, if and only if the batch is modified whole and every row has a prompt or the logits are projected, or the rows of each way of decoding satisfy the second condition of SamplerRows.SubsetExactly |
| SamplerBridge.DedupServedExactly | tllm/runtime/sampler_bridge/exact_backend.py:73-95 | with deduplicated predictions: sampling does not raise if and only if every affected row with candidates can be looked up: in a whole batch it has a prompt or the backend is the dense cache; in a group, the group lies below the number of predictions and the row's entry below the group's size, or it has no prompt and the backend is the dense cache |
| SamplerBridge.PartialBatchRaises | tllm/runtime/sampler_bridge/exact_backend.py:73-95 | a deduplicated state whose affected rows decode one way but are not the whole batch: with fewer predictions than affected rows, sampling raises |
| SamplerBridge.BorrowedExample | tllm/runtime/sampler_bridge/backends/dense_cache.py:28-28 | two rows, of prompt 7 and of none, with one prediction: from the dense cache the second is modified by prompt 7's prediction and nothing raises; projected, its lookup is out of range |
| RowViews.StridedSelects | tllm/runtime/ports/residual_bundle_dispatch.py:94-110 | the strided view of evenly spaced rows selects those rows |
| RowViews.RegularView | tllm/runtime/ports/residual_bundle_dispatch.py:86-110 | a view exists if and only if the rows are evenly spaced, increasing and inside; its row k is row ids[k] |
| RowViews.ViewIsGather | tllm/runtime/ports/residual_bundle_dispatch.py:106-110 | such a view stays inside the storage and reads exactly what the gather reads |
| CapturePlan.RequiresFullCapture | tllm/runtime/dispatch_plan.py:82-93 | full capture is not required if and only if there are no event targets, some flow reads residuals, and all that do are first-per-prompt |
| CapturePlan.HasCompaction | tllm/runtime/dispatch_plan.py:107-115 | true if and only if some residual flow is compacted |
| CapturePlan.MaxCompactRows | tllm/runtime/dispatch_plan.py:117-138 | zero if and only if no residual flow is compacted or one of them is uncapped; otherwise the widest cap |
| CapturePlan.Resolve | tllm/runtime/ports/residual_runtime_setup.py:119-178 | the taps skip the full gather if and only if the compact lane is on, no sampler intervention is configured and full capture is not required; then there is a compact lane, and it fits every cap |
| RowDelivery.SelectRowIdx | tllm/producer/decode.py:52-57 | the narrowed slice of contiguous positions is the gather |
| RowDelivery.OutOfRange | tllm/producer/decode.py:61-64 | the minimum/maximum test fails if and only if some index is outside the packed rows |
| RowDelivery.ComputeDecodeLocalization | tllm/producer/decode.py:22-78 | the loops and shortcuts compute the localization function, range errors included |
| RowDelivery.Localization.Prepare | tllm/runtime/vllm_patch/port_runtime_hooks.py:162-296 | the whole new step record is the specification's: without logits indices it stays the last step's, with no decode rows it names nobody, otherwise it describes this step and keeps old indices behind it; it raises exactly when localization fails or a buffer is too small |
| RowDelivery.Localization.PrepareInputs | tllm/runtime/vllm_patch/port_runtime_hooks.py:511-564 | input preparation that gives no tuple clears the record |
| RowDelivery.PickRows | tllm/runtime/vllm_patch/port_runtime_hooks.py:289-292 | view or index_select, the picked rows are the gather |
| RowDelivery.Tap.Forward | tllm/runtime/ports/residual_capture_hooks.py:56-82 | the full buffer is the gather over all scratch indices and the compact buffer the gather over its active ones; it fails exactly when one of those indices is outside this step's tensor, and a skipped full gather leaves the full buffer alone |
| RowDelivery.EntryRows | tllm/runtime/ports/residual_bundle_dispatch.py:201-236 | compact lane, prefix, view or gather: the entry is the compact prefix when the lane holds these rows, and the gathered full rows otherwise |
| RowDelivery.IdentifiedBy | tllm/runtime/ports/residual_bundle_dispatch.py:201-236 | rows and metadata gathered by the same ids belong to the same requests |
| RowDelivery.NoFirstRows | tllm/runtime/ports/residual_bundle_dispatch.py:307-311 | no row is selected if and only if no row has a prompt |
| RowDelivery.DeliverFlow | tllm/runtime/ports/residual_bundle_dispatch.py:297-379 | silence, cap error, frames or direct bundle, with its rows and metadata, whatever the record and the buffers hold |
| RowDelivery.DeliverStep | tllm/runtime/ports/residual_bundle_dispatch.py:297-379 | prepare, capture and deliver, from whatever earlier steps left: the new record is the one preparation makes, the step fails if and only if preparation, a gather or the cap fails, and otherwise delivers what record and tensor say; DeliversExactly, OwnRowsExactly, UnpreparedExactly, LaneReadExactly, StaleTailExactly and CapExactly say from the step's inputs what that is |
| RowDelivery.LocalizedRecord | tllm/runtime/vllm_patch/port_runtime_hooks.py:182-296 | a localized step's record names this step's requests and rows |
| RowDelivery.OwnRowsExactly | tllm/runtime/vllm_patch/port_runtime_hooks.py:162-296 | the rows a flow gets are this step's rows of the requests its metadata names if and only if the step does not fall back on a record that names requests, and does not deliver rows that no tap wrote |
| RowDelivery.DeliversExactly | tllm/runtime/ports/residual_bundle_dispatch.py:297-379 | unless the step fails or falls back on the last record: delivered are, each once and in increasing order, under their requests' names, exactly the decode requests with a logits index; a compacted flow gets exactly the first such request of every known prompt, or the frames of all when no prompt is known; each with this step's own row, or, where the full gather is off and no prompt is known, a row no tap wrote |
| RowDelivery.UnpreparedExactly | tllm/runtime/vllm_patch/port_runtime_hooks.py:162-296 | preparation raises if and only if a decode request's index is on the host and not a token of the step, or there are more such requests than scratch rows, or more known prompts than an existing compact lane has rows |
| RowDelivery.RaisedRecord | tllm/runtime/vllm_patch/port_runtime_hooks.py:219-296 | a raising preparation leaves the last step's record, unless only the compact lane is too small; then the new rows and names stand beside the last step's compact lane |
| RowDelivery.CapExactly | tllm/runtime/ports/residual_bundle_dispatch.py:318-323 | where the gathers succeed, a prepared step fails if and only if the cap is positive and less than the number of decode requests, or of their distinct known prompts in a compacted flow |
| RowDelivery.LaneReadExactly | tllm/runtime/ports/residual_capture_hooks.py:63-77 | the compact gather fails if and only if the tensor lacks the index of the first request of a known prompt |
| RowDelivery.StaleTailExactly | tllm/runtime/vllm_patch/port_runtime_hooks.py:254-254 | the full gather of a prepared step fails if and only if an index of its own rows, or one that earlier, longer steps left behind them, is outside this step's tensor |
| RowDelivery.RunSteps | tllm/runtime/ports/residual_capture_hooks.py:56-82 | over setup and any number of steps, full gather on or off: every step fails exactly when the record that the steps before it left, or its own inputs, make it fail; its rows are its own under the condition of OwnRowsExactly; and unless it fails or falls back on a stale record it delivers exactly the rows the flow asks for, as in DeliversExactly |
| RowDelivery.UnwrittenExample | tllm/runtime/ports/residual_bundle_dispatch.py:307-311 | one decode request without a prompt and a compact-only plan: the flow gets one row the step never wrote |
| RowDelivery.StaleRecordExample | tllm/runtime/vllm_patch/port_runtime_hooks.py:178-179 | a decode step of request a, then a step without logits indices for request b: the flow gets the second step's row under the name of request a |
| RowDelivery.StaleTailExample | tllm/runtime/vllm_patch/port_runtime_hooks.py:254-254 | two decode requests, then one in a shorter tensor: the second step fails |
| BundleAssembler.Match | tllm/runtime/ports/assembler.py:37-45 | the first read with the frame's kind and locator |
| BundleAssembler.GroupsExactly | tllm/runtime/ports/assembler.py:47-50 | two frames belong to one group if and only if their keys agree on every field of the flow's bundle key, or, without one, are equal |
| BundleAssembler.PushedValid | tllm/runtime/ports/assembler.py:93-110 | pushing keeps both dictionaries on the same keys, listed once in insertion order |
| BundleAssembler.NothingCompletePends | tllm/runtime/ports/assembler.py:93-110 | without aggregation, no pending group is complete after any history of pushes |
| BundleAssembler.Assembler.FindRead | tllm/runtime/ports/assembler.py:37-45 | the loop finds that read |
| BundleAssembler.Assembler.Push | tllm/runtime/ports/assembler.py:93-110 | the dictionaries and the released bundles are the specification's |
| BundleAssembler.Assembler.FinalizePending | tllm/runtime/ports/assembler.py:115-123 | complete groups leave in insertion order, the others stay |
| StepBundles.WithBindingMembers | tllm/runtime/ports/residual_bindings.py:100-105 | writing a binding replaces the one with its path and keeps all others |
| StepBundles.LastWins | tllm/runtime/ports/residual_bindings.py:88-106 | every path is bound once, to the last locator that resolves to it |
| StepBundles.PathOf | tllm/runtime/ports/residual_bindings.py:113-120 | a path is found if and only if some binding has the locator |
| StepBundles.AllBoundExactly | tllm/runtime/ports/residual_bindings.py:88-120 | every locator finds a path if and only if no two locators resolve to the same path |
| StepBundles.DistinctPathsBindAll | tllm/runtime/ports/residual_bindings.py:88-106 | with distinct paths, every locator keeps its own binding in order, and only the first carries metadata |
| StepBundles.BuildDecodePortFrames | tllm/runtime/ports/residual_bundle_dispatch.py:239-294 | one residual frame per row, followed by its metadata frame on the first tap |
| StepBundles.PushAll | tllm/runtime/ports/residual_bundle_dispatch.py:437-441 | pushing frames one by one runs the assembler over all of them |
| StepBundles.DispatchFrames | tllm/runtime/ports/residual_bundle_dispatch.py:426-444 | the frame path emits the bundles released by the pushes, then the flushed ones |
| StepBundles.BuildStepScopePortBundle | tllm/runtime/ports/residual_bundle_dispatch.py:353-379 | the loop computes the direct entries, and fails exactly when one is missing |
| StepRefinement.Aggregate | tllm/runtime/ports/assembler.py:93-110 | frames of one group pile up by read, whatever their order, under the first frame's key; nothing leaves before the flush |
| StepRefinement.CompleteWhenAllRead | tllm/runtime/ports/assembler.py:118-119 | a group is complete if and only if every read has a payload |
| StepRefinement.StepGoesTo | tllm/runtime/ports/residual_bundle_dispatch.py:239-294 | what the frames of a whole step contribute to one read: the rows of its own tap, or the metadata of the first |
| StepRefinement.FinishedIsDirect | tllm/runtime/ports/residual_bundle_dispatch.py:201-236 | the flushed entries are the direct entries |
| StepRefinement.DirectRefinesFrames | tllm/runtime/ports/residual_bundle_dispatch.py:297-379 | for an uncompacted step-scope flow with distinct reads, the direct bundle, key and entries, is exactly what pushing every frame of every tap and flushing gives; it fails exactly when that gives nothing |
| StepRefinement.DirectExactly | tllm/runtime/ports/residual_bundle_dispatch.py:232-379 | the direct bundle exists if and only if every read is metadata or a layer that is bound; then it has the first active row's key, and under every read's own name the first active rows of that layer's buffer, or every active request's id, prompt, sample, phase and step, in row order |
| RowBundles.PushOne | tllm/runtime/ports/assembler.py:93-110 | one more payload of a row grows its group, or completes and releases exactly that row's bundle; other rows' groups are untouched |
| RowBundles.TapRow | tllm/runtime/ports/residual_bundle_dispatch.py:257-294 | a row's frames of one tap serve exactly that tap's reads |
| RowBundles.StepProgress | tllm/runtime/ports/residual_bundle_dispatch.py:426-444 | after any number of taps, which rows' bundles are out and what is pending |
| RowBundles.OneBundlePerRow | tllm/runtime/ports/residual_bundle_dispatch.py:426-444 | without a bundle key, the frames of a step emit exactly one bundle per active row, in row order, with only that row's payloads, and nothing stays pending |
| RowBundles.RowBundlesExactly | tllm/runtime/ports/residual_bundle_dispatch.py:426-444 | bundle r has row r's key, and under every read's name row r of that layer's buffer, or request r's id, prompt, sample, phase and step |
| Prefill.PackedAt | tllm/producer/prefill.py:47-73 | row base + t of a request in the packed output is its token computed + t |
| Prefill.ItemSelected | tllm/producer/prefill.py:63-71 | the planned rows of one request are its prompt tokens in this step |
| Prefill.ExportIsCapture | tllm/producer/prefill.py:147-155 | exporting the planned rows appends every request's prompt tokens, in order, to its own prompt's list |
| Prefill.PlanNames | tllm/producer/prefill.py:16-75 | every planned slot names a prompt token, not yet computed, of a known request of that prompt, and its row holds that token in the packed output |
| Prefill.Producer.Prepare | tllm/producer/prefill.py:32-75 | the three lists describe the plan; unknown and decode requests still advance the row base |
| Prefill.Producer.Stash | tllm/producer/prefill.py:78-113 | the stashed rows are the planned rows of this step's output, or none |
| Prefill.Producer.Export | tllm/producer/prefill.py:116-157 | the captured lists are extended by the stashed rows, skipping rows without a prompt |
| Prefill.Producer.CaptureStep | tllm/producer/prefill.py:47-157 | one step adds exactly the step's prompt tokens |
| Prefill.StepExplained | tllm/producer/prefill.py:47-73 | one step appends every request's prompt tokens of the step to its own prompt's list, and skips requests the batch index does not know |
| Prefill.CaptureRun | tllm/producer/prefill.py:47-157 | over any run with distinct prompts in which computed counts follow the schedule: every prompt's list is prompt tokens of its request, in token order, each at most once, and all of them if and only if the batch index knew the request whenever it had prompt tokens |
| ConsumerRuns.CompactedPrompts | tllm/consumers/esamp/consumer.py:308-318 | compaction keeps every prompt of the batch and leaves no row without one |
| ConsumerRuns.WantsExactly | tllm/consumers/esamp/consumer.py:201-296 | a batch cannot be trained on, whatever the slots, if and only if row counts differ, metadata is no RowBatchMeta or does not match a lease, there is no hidden size, of model or rows, or no row to size the pipeline by; the error is the first of these |
| ConsumerRuns.TrainedRowsExactly | tllm/consumers/esamp/consumer.py:201-323 | a trainable batch is trained on exactly its rows, or, in bank mode on a batch that delivery did not compact, on the first row of every known prompt, in order, each with its own target and its prompt, -1 behind the last given one; they fit the pipeline if and only if source and target are equally wide and no narrower than the model |
| ConsumerRuns.StepExactly | tllm/consumers/esamp/consumer.py:298-331 | a delivered step with training on raises if and only if it is malformed, its rows are not as wide as the pipeline, a row that reaches a per-prompt training has no prompt, or the prompts with slots and its own together are more than the bank; otherwise exactly its prompts are added to those its launch kept |
| ConsumerRuns.NextExactly | tllm/consumers/esamp/consumer.py:298-344 | any event, step, empty step end, pre-assignment, toggle, reconfiguration or read, raises if and only if that test, which a caller can make before it, says so; an empty step end with training on raises before the first launch, and after serial mode was left without a launch |
| ConsumerRuns.KnownExactly | tllm/consumers/esamp/engine.py:1008-1029 | over every run: the prompts with slots are exactly those of the bank steps and pre-assignments since the slots were last forgotten, by a reconfiguration or by a launch that remakes pipeline or bank |
| ConsumerRuns.RaisesExactly | tllm/consumers/esamp/consumer.py:298-331 | for every list of events: the run raises if and only if some event is refused by that test |
| ConsumerRuns.AddsExactly | tllm/consumers/esamp/engine.py:1117-1205 | a step adds one to the counter in shared mode, and its number of distinct prompts otherwise |
| ConsumerRuns.AddsLossExactly | tllm/consumers/esamp/engine.py:1117-1205 | the loss a step adds is the one TrainStep.TrainLossExactly gives for its trained rows, in the bank under the slots that the prompts have after the step |
| ConsumerRuns.NextCounters | tllm/consumers/esamp/consumer.py:298-331 | one event adds its loss and count to the counters, cleared first if its launch reallocated the pipeline, and its trained rows to the launches |
| ConsumerRuns.ConfigureExactly | tllm/consumers/esamp/engine.py:370-403 | a configuration is stored with slot counts and flush intervals of zero as one; it keeps the slots if and only if no setting changed |
| ConsumerRuns.CounterExactly | tllm/consumers/esamp/consumer.py:214-215 | for every run that does not raise, with toggles, reconfigurations and reads anywhere: the counter is the sum of what the steps since the last read added if and only if none of them reallocated the pipeline while the counter was not zero; the loss sum is then the sum as well |
| ConsumerRuns.RunMeaning | tllm/consumers/esamp/consumer.py:298-344 | for a new consumer and every list of events: the event at which a run stops is one that the test refuses, and there is one if and only if any is; after a whole run the prompts with slots and the counters are the caller's own account |
| ExactlyOnce.StepSettles | tllm/consumers/esamp/engine.py:1480-1530 | launching a step and ending it raises nothing, leaves nothing in flight, and adds one batch with exactly one training |
| ExactlyOnce.FailedStep | tllm/consumers/esamp/engine.py:1509-1530 | when its training raises, the step is launched and off the queue, and has no training in the log |
| ExactlyOnce.IdleEnd | tllm/consumers/esamp/consumer.py:325-331 | ending a step in which nothing was launched changes nothing |
| ExactlyOnce.Consumer.constructor | tllm/consumers/esamp/consumer.py:62-80 | a new consumer is the empty account |
| ExactlyOnce.Consumer.EnsureResources | tllm/consumers/esamp/consumer.py:191-245 | cached key or not, table, buffers and pipeline fit the batch; the counters survive exactly when the pipeline keeps its shape |
| ExactlyOnce.Consumer.LaunchRows | tllm/consumers/esamp/consumer.py:320-323 | the compacted rows are the prefix of the pipeline slot that is now ready, and the step is in flight |
| ExactlyOnce.Consumer.TrainLaunched | tllm/consumers/esamp/engine.py:1519-1527 | the training of the slot that was launched is the training of the rows that were launched |
| ExactlyOnce.Consumer.EndStep | tllm/consumers/esamp/consumer.py:325-331 | the drain trains the step once and counts it, or, when the training raises, drops it uncounted |
| ExactlyOnce.Consumer.EndStepIdle | tllm/consumers/esamp/consumer.py:325-331 | a step end without a launch changes nothing, and raises exactly when training is on and there is no pipeline yet, or no train stream in a mode that needs one |
| ExactlyOnce.Consumer.LaunchMisfit | tllm/consumers/esamp/engine.py:59-61 | a launch that raises for the width of its rows adds no batch and no training |
| ExactlyOnce.Consumer.WantedRows | tllm/consumers/esamp/consumer.py:259-318 | which rows are trained on, and why none can be |
| ExactlyOnce.Consumer.Step | tllm/consumers/esamp/consumer.py:298-331 | delivery and step end move the account by the specification's step, or raise with its reason; every batch launched before still has exactly one training |
| ExactlyOnce.Consumer.SetEnabled | tllm/consumers/esamp/consumer.py:333-335 | consumer and engine switch together |
| ExactlyOnce.Consumer.UpdateConfig | tllm/consumers/esamp/consumer.py:103-111 | the configuration changes at once, the resources at the next launch, the counter not at all |
| ExactlyOnce.Consumer.AssignForSampling | tllm/consumers/esamp/sampler_provider.py:156-174 | slots assigned ahead of sampling, or the reason it raises |
| ExactlyOnce.Consumer.ReadAndResetStats | tllm/consumers/esamp/engine.py:1580-1595 | a read returns both counters and clears them |
| ExactlyOnce.RunEvents | tllm/consumers/esamp/consumer.py:298-344 | over any list of events, up to the first that raises: the consumer, its slot table, buffers and counters are the account's; no launch is refused; every batch of the account has exactly one training in the log and no other has any. The run raises if and only if some event is refused by the caller's test, at that event; otherwise exactly the known prompts have slots, and the counter is the tally since the last read if and only if nothing was lost |
| ToggledSteps.LaunchMeaning | tllm/consumers/esamp/consumer.py:298-323 | a delivery with training on ensures its resources and stores its rows first; it is refused if and only if a step of the same layout is in flight, raises for the width of its rows, or puts its rows in flight |
| ToggledSteps.MisfitLeaves | tllm/consumers/esamp/engine.py:1395-1411 | a launch that raises for the width of its rows leaves its wait on the main stream, and a copy of the source rows into a pipeline buffer exactly when these are as wide as the pipeline |
| ToggledSteps.EndDrains | tllm/consumers/esamp/engine.py:1500-1530 | a step end with training on takes the step in flight off, with two waits and, unless training raises, one training and its record; with training off it leaves it |
| ToggledSteps.UninterruptedStep | tllm/consumers/esamp/consumer.py:298-331 | a step that ends right after its launch is the step of ExactlyOnce |
| ToggledSteps.FlightFirst | tllm/consumers/esamp/engine.py:475-492 | which launch's step is in flight: the first of those that no reconfiguration, step end with training on or launch of another layout has cleared since |
| ToggledSteps.Tracks | tllm/consumers/esamp/consumer.py:298-344 | over every list of calls, in any order and going on after raises: a step is in flight exactly when such a launch exists, with that launch's rows and layout |
| ToggledSteps.RefusedExactly | tllm/consumers/esamp/engine.py:1484-1485 | for every list of calls and every delivery in it: the launch is an order violation if and only if training is on, the batch can be trained on, and an earlier step of the same layout is left over; it raises for its rows' width if and only if they do not fit and it is not refused |
| ToggledSteps.NextLaunchRefusedExactly | tllm/consumers/esamp/engine.py:1484-1485 | two launches with one step end and any switches between them: the second is refused if and only if it gets as far as the launch, training was off at the end, and both batches need the same layout |
| ToggledSteps.EndRaisesExactly | tllm/consumers/esamp/engine.py:1500-1508 | for every list of calls: a step end raises if and only if training is on and nothing was launched before, or the latest launch was in serial mode and the mode is another one now, or the step in flight raises in training |
| ToggledSteps.PassedExactly | tllm/consumers/esamp/consumer.py:320-331 | the rows and prompts stored for a step end are the latest launch's, refused or not, or none if a step end has returned since |
| ToggledSteps.EndTrainsExactly | tllm/consumers/esamp/consumer.py:320-331 | for every list of calls: a step end with training on trains the step in flight on the row count and prompts of the latest launch, even if that one was refused, and on no rows if a step end has found training off since that launch |
| ToggledSteps.ReshapedExample | tllm/consumers/esamp/engine.py:718-741 | eight scratch rows, a step of n rows left over, then eight rows: refused if and only if n is at most eight |
| ToggledSteps.RefusedRowsExample | tllm/consumers/esamp/consumer.py:320-323 | a left-over step of one row and prompt 7, a refused launch of two rows of prompt 8, training off and on: the end trains the one row as two rows of prompt 8 |

## Left out

- Autograd, optimizers, parameter updates, layer norm and the SVD initializer: a training is its loss and its reads.
- Floating-point rounding, NaN, dtype casts and device transfers: reals and an explicit minus infinity.
- Random numbers: noise and draws are functions of a row and its generator, so the order in which rows share one generator is not captured.
- `_train_external` and `launch_external_backward`, which key graphs by data pointers; and how long the tensor borrowed by `launch_forward` must live.
- Calling `launch_*` between `configure` and `ensure_resources`: a reconfiguration of the pipeline is both calls in one. The slot table and the counters after the first consumer event that raises; what is launched and trained after it is in ToggledSteps.
- The consumer's calls in any order (ToggledSteps) are functions of its fields; as methods, ExactlyOnce.Consumer has them for steps whose end follows their launch.
- `launch_forward` and `launch_target` of rows that are not as wide as the pipeline; `launch_step` of such rows is in every run. A training that raises has enqueued no reads: the program's own checks come before its kernels.
- Default streams of several devices are one main stream; side streams are dropped when the device changes.
- Events are kept per buffer generation, since the program makes new events with new buffers.
- Device checks, the inference-tensor copy of the dense lookup, and the cache of slot-id tensors.
- Per-request loss statistics and traces; graph replay does not update them in the program either.
- GPU grids run in row-major order; programs of one grid write disjoint cells.
- Per-request predictions without the bank, whose row ids come grouped by prompt.
- The in-place `pre_filter_dense` backend, and the environment switch that makes the bridge draw from candidate lists.
- Scheduling on CUDA streams in the sampler provider.
- The device-lease wrapper of a step bundle: its entries are the same rows.
- Flows that are due only every n-th step, and other consumers' own errors on a delivered bundle.
- Missing request ids, the batch's request index in decode localization, and sample indices in prefill: a request is known or not, decoding or not.
- TrainPipelineProofs.RaisingBackwardInv: excludes a forward-launched step, where the invariant fails (AbandonedStep.RaisingExact).
- TrainPipelineProofs.ReconfigureInv: excludes a reconfiguration that abandons a forward-launched step in surviving buffers, where the invariant fails (AbandonedStep.ReconfigureExact).
- TrainRuns.StreamSafety: excludes these two calls, after which it fails (AbandonedStep.AbandonedRowIsTrained, RaisedTraining.DroppedRowsAreTrained); AnyRun.RaceFreeRunIsSafe covers every run.
- StepBundles.BuildStepScopePortBundle: models bundle delivery without compaction or row cap; RowDelivery.DeliverFlow has both.
- vLLM patching, adapters, path resolution, locators' own validation, timing counters, the dummy consumer, benchmarks and scripts.
