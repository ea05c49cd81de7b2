# Training runner, TIDL subgraph bookkeeping and the classifier's frame layout

This project is a Dafny model of three pieces of ONNX Runtime:

- `TrainingRunner`, the training driver of the ORT training tools
  (`orttraining/orttraining/models/runner/training_runner.cc`). The model covers:
  - the constructor's guards and the pipeline context the constructor sets up;
  - the feed and fetch lists of one training step;
  - `RunWithUpdate` and `RunWithoutUpdate`. A pipeline worker slot is modelled by its state and
    by a ghost flag that says whether its thread may still be running;
  - the counters `step_`, `round_`, `weight_update_step_count_` and `training_data_set_index_`;
  - the metric-callback condition, with the C++ operator precedence;
  - the training loop and its checkpoint trigger;
  - the checkpoint property map: saving it, and loading it back through `FromString`;
  - `UpdateParams`.
- The TIDL execution provider (`onnxruntime/core/providers/tidl/tidl_execution_provider.cc`).
  The model covers:
  - the decision whether to build subgraphs at all (`UseSubgraph`). The value of
    `ORT_TIDL_SUBGRAPH` is passed in as a parameter;
  - the Conv / BatchNormalization / Relu fusion rule of `GetCapability`;
  - the per-node update of the subgraph under construction (`CreateOrUpdateTidlNode`);
  - the closing of a subgraph into a meta definition (`CreateMetaDef`). This covers its end nodes,
    its initializer inputs, its attributes and the subgraph counter behind its name and id.
- `CollectFrames` of the C/C++ classification sample (`samples/c_cxx/classy/main.cc`). It copies
  an interleaved image into a planar buffer with the channel order reversed. It is modelled over
  arrays, both as written and corrected (see "## Findings").

Layout:

- `common.dfy` (module `Common`) holds `Option`, `Status` and two order-preserving filters, `KeepIn`
  and `DropIn`.
- `decimal.dfy` (module `Decimal`) holds `std::to_string` and `FromString` for `size_t`.
- `runner_spec.dfy` (module `RunnerSpec`) holds the values and pure rules of the runner.
- `runner.dfy` (module `Runner`) holds the `TrainingRunner` and `DataLoader` classes and their
  methods, each proved against the `RunnerSpec` functions.
- `tidl.dfy` (module `Tidl`) holds the `SubgraphBuilder` class and the `Provider` class.
- `classy.dfy` (module `Classy`) holds the frame copy.

Collaborators are not modelled. The engine, the loss scaler, the checkpoint registry, the file
system and the test-set evaluation appear only as the answers they give. These are method
parameters or the function-valued fields of `Runner.Env`.

## Model

| member | source | states |
|---|---|---|
| Common.KeepIn | orttraining/orttraining/models/runner/training_runner.cc:406-418 | the allow-list filter keeps exactly the configured names that are allowed, in their original order (a subsequence), never more of them |
| Common.DropIn | onnxruntime/core/providers/tidl/tidl_execution_provider.cc:150-153 | the inputs that no earlier output produces, exactly those, in order |
| Common.KeepDropPartition | onnxruntime/core/providers/tidl/tidl_execution_provider.cc:149-160 | every input name lands in exactly one of the two lists: their lengths add up and their multisets add up to the input list |
| Decimal.FromString | orttraining/orttraining/models/runner/training_runner.cc:899-904 | an empty or blank text leaves the target as it was and fails; any other text stores a value that fits in a `size_t` |
| Decimal.ToDecimalValue | orttraining/orttraining/models/runner/training_runner.cc:909-911 | the digits `std::to_string` writes denote the value written |
| Decimal.ToDecimal | orttraining/orttraining/models/runner/training_runner.cc:909-911 | `std::to_string` of an unsigned value is a non-empty string of decimal digits |
| Decimal.DecimalDigitsRead | orttraining/orttraining/models/runner/training_runner.cc:909-912 | the text `to_string` writes has no leading white space, is one run of digits, and its digits give the value back |
| Decimal.DecimalRoundTrip | orttraining/orttraining/models/runner/training_runner.cc:899-911 | reading back the text `to_string` writes succeeds and yields the value, for every `size_t` |
| Decimal.TrailingTextRejected | orttraining/orttraining/models/runner/training_runner.cc:899-904 | any non-digit (white space included) after the digits makes `FromString` fail because the stream is not at its end, yet the value is stored |
| Decimal.NoDigitsStoresZero | orttraining/orttraining/models/runner/training_runner.cc:899-904 | a text with some non-blank character but no digits fails and stores 0 |
| Decimal.BlankKeepsTarget | orttraining/orttraining/models/runner/training_runner.cc:899-904 | an empty or all-white-space text fails before any conversion, so the target keeps its value |
| Decimal.NegativeWraps | orttraining/orttraining/models/runner/training_runner.cc:899-904 | a `-` before a value `n` in range stores `2^64 - n` and succeeds, the conversion negating modulo 2^64 |
| Decimal.MinusOneIsLargest | orttraining/orttraining/models/runner/training_runner.cc:899-904 | "-1" reads as the largest `size_t` and succeeds |
| RunnerSpec.ConstructorCheck | orttraining/orttraining/models/runner/training_runner.cc:58-63 | construction is refused exactly when the model path is empty, both weight lists are given, the optimizer name is empty, or partitioning is asked for without NCCL |
| RunnerSpec.PipelineBatches | orttraining/orttraining/models/runner/training_runner.cc:68 | the number of pipeline batches is `window - 1` computed in `size_t`: one less than a positive window, and `2^64 - 1` for a window of 0 |
| RunnerSpec.InitialPipelineContext | orttraining/orttraining/models/runner/training_runner.cc:65-72 | a pipelined run takes its stage id from the world rank and its stage count, window and stage paths from the parameters, with no event names yet; otherwise the context is stage 0 of 1 |
| RunnerSpec.UpdatedParams | orttraining/orttraining/models/runner/training_runner.cc:950-957 | exactly the learning-rate settings, the step count, the batch size and the accumulation window are taken over; every other parameter stays as it was |
| RunnerSpec.DataFeeds | orttraining/orttraining/models/runner/training_runner.cc:297-308 | each data feed is the batch's tensor at the position of its own name, with positions strictly increasing |
| RunnerSpec.ExpectedFeeds | orttraining/orttraining/models/runner/training_runner.cc:294-392 | every feed other than an event id is admitted by the stage's allow-list; the learning-rate feed is evaluated at `step + 1`; the loss-scale feed is the scaler's input; there are no event ids without event names |
| RunnerSpec.DataFeedNamesFiltered | orttraining/orttraining/models/runner/training_runner.cc:297-308 | the data feed names are the loader's tensor names kept by the stage's allow-list when pipelined, all of them otherwise |
| RunnerSpec.EventFeedsFacts | orttraining/orttraining/models/runner/training_runner.cc:335-389 | every event feed is an event id under a non-empty name, carrying this stage's id and the given slot, and there is one per non-empty event name |
| RunnerSpec.FeedDataFirst | orttraining/orttraining/models/runner/training_runner.cc:297-308 | the feed list starts with the data feeds |
| RunnerSpec.FeedLossScale | orttraining/orttraining/models/runner/training_runner.cc:311-321 | the loss-scale feed follows the data feeds exactly when there is a loss scaler whose input is admitted |
| RunnerSpec.FeedLearningRate | orttraining/orttraining/models/runner/training_runner.cc:323-333 | the learning-rate feed, evaluated at `step + 1`, is present exactly when its name is admitted |
| RunnerSpec.FeedEvents | orttraining/orttraining/models/runner/training_runner.cc:335-389 | the feed list ends with the event-id feeds |
| RunnerSpec.NoEventsNoFeeds | orttraining/orttraining/models/runner/training_runner.cc:335-389 | there are event-id feeds exactly when some event name is set |
| RunnerSpec.EventFeedsOrdered | orttraining/orttraining/models/runner/training_runner.cc:335-389 | event feeds come forward-waited, forward-recorded, backward-waited, backward-recorded |
| RunnerSpec.EventOutputs | orttraining/orttraining/models/runner/training_runner.cc:440-456 | the event outputs fetched are non-empty names, and there are none exactly when no event output is set |
| RunnerSpec.FetchErrorCases | orttraining/orttraining/models/runner/training_runner.cc:421-437 | fetch preparation fails exactly when mixed precision lacks the all-finite output, Adasum lacks the delta all-finite output, or a window above 1 lacks the accumulation output |
| RunnerSpec.UpdateStepFetches | orttraining/orttraining/models/runner/training_runner.cc:403-431 | an update step fetches the configured names (allow-listed when pipelined), then the all-finite output and after it the Adasum output; on a missing output the list so far comes back with the error |
| RunnerSpec.AccumulationStepFetches | orttraining/orttraining/models/runner/training_runner.cc:432-458 | an accumulation step fetches the accumulation output first exactly when the window exceeds 1, then the event outputs, falling back to the allow-list when empty |
| RunnerSpec.PlanFetches | orttraining/orttraining/models/runner/training_runner.cc:394-466 | a successful fetch list is never empty unless the stage's allow-list is; an update step can fail only for a missing all-finite output or, with Adasum, a missing delta all-finite output, and then keeps the names gathered so far; an accumulation step can fail only for a missing accumulation output, and then has no fetches |
| RunnerSpec.IsUpdateStep | orttraining/orttraining/models/runner/training_runner.cc:587 | a window of one step updates on every step, and no step before the end of the first window updates |
| RunnerSpec.UpdatesStep | orttraining/orttraining/models/runner/training_runner.cc:587 | one more step adds one update exactly when it closes an accumulation window |
| RunnerSpec.UpdatesAppend | orttraining/orttraining/models/runner/training_runner.cc:587 | the updates of two consecutive step ranges add up |
| RunnerSpec.UpdatesFromStart | orttraining/orttraining/models/runner/training_runner.cc:587 | from step 0, `n` steps apply the optimizer `n / window` times |
| RunnerSpec.UpdatesBounded | orttraining/orttraining/models/runner/training_runner.cc:587 | a range of steps applies the optimizer at most once per step, and exactly once per step with a window of one |
| RunnerSpec.SixStepsThreeWindow | orttraining/orttraining/models/runner/training_runner.cc:587 | with a window of 3, six steps update twice, at steps 2 and 5 |
| RunnerSpec.MetricCallbackDue | orttraining/orttraining/models/runner/training_runner.cc:492-495 | the callbacks are due only on a single-stage run, or on the last stage of a pipeline outside perf tests |
| RunnerSpec.MetricCallbackCases | orttraining/orttraining/models/runner/training_runner.cc:492-495 | as C++ groups `a \|\| b && c && d`, a single-stage run always reports whatever its perf flag and period; a pipelined run reports only on its last stage, off perf tests, on the period |
| RunnerSpec.CheckpointDue | orttraining/orttraining/models/runner/training_runner.cc:636-637 | a checkpoint is due only on rank 0 with a registry, after an update step, and never before the first period's worth of updates |
| RunnerSpec.CheckpointSavingGate | orttraining/orttraining/models/runner/training_runner.cc:544-546 | checkpoint saving is enabled exactly when the update that completes the first period is due; when it is disabled no step is ever due |
| RunnerSpec.CheckpointsBetweenFacts | orttraining/orttraining/models/runner/training_runner.cc:636-637 | the checkpoints over an update range are exactly the multiples of the period in it, in increasing order |
| RunnerSpec.CheckpointsAppend | orttraining/orttraining/models/runner/training_runner.cc:636-637 | the checkpoints of two consecutive update ranges make up those of the whole range |
| RunnerSpec.CheckpointsBounded | orttraining/orttraining/models/runner/training_runner.cc:636-637 | a range of updates writes at most one checkpoint per update, and one after every update with a period of 1 |
| RunnerSpec.ThreeUpdatesPeriodTwo | orttraining/orttraining/models/runner/training_runner.cc:636-637 | with a period of 2, three updates write one checkpoint, at update 2 |
| RunnerSpec.SaveProperties | orttraining/orttraining/models/runner/training_runner.cc:907-923 | the property map has exactly the four counter keys, plus the loss-scaler key holding its text when there is a loss scaler |
| RunnerSpec.LoadProperty | orttraining/orttraining/models/runner/training_runner.cc:927-932 | a successful load had the key and stores a value that fits in a `size_t`; a missing key or a blank value leaves the field as it was and fails |
| RunnerSpec.LoadCounters | orttraining/orttraining/models/runner/training_runner.cc:925-939 | a successful load had all four counter keys and stores values that fit in a `size_t`; without the step key nothing changes and the load fails |
| RunnerSpec.PropertiesRoundTrip | orttraining/orttraining/models/runner/training_runner.cc:907-939 | loading saved properties restores all four counters and succeeds, whatever the counters held before |
| RunnerSpec.MissingCounterKeyFails | orttraining/orttraining/models/runner/training_runner.cc:927-939 | a missing counter key makes the load fail |
| RunnerSpec.TrailingTextFailsLoad | orttraining/orttraining/models/runner/training_runner.cc:927-934 | a step value with trailing text fails the load although the step read has already been stored |
| RunnerSpec.BlankStepKeepsCounters | orttraining/orttraining/models/runner/training_runner.cc:927-934 | a blank step value fails the load and leaves every counter as it was |
| RunnerSpec.MinusOneStepLoads | orttraining/orttraining/models/runner/training_runner.cc:927-934 | a step value of "-1" loads as the largest `size_t`; the load then stops at the missing round key |
| RunnerSpec.LoadIsNotAtomic | orttraining/orttraining/models/runner/training_runner.cc:934-937 | when the update-count key is missing, the step and round already loaded stay overwritten and the rest keep their old values |
| Runner.DataLoader.InitializeDataSetIndex | orttraining/orttraining/models/runner/training_runner.cc:548-551 | an index below the shard count is taken and succeeds; any other is refused and the cursor stays |
| Runner.DataLoader.CurrentDataSet | orttraining/orttraining/models/runner/training_runner.cc:569-570 | the shard under the cursor, one of the ring's shards |
| Runner.DataLoader.MoveToNextDataSet | orttraining/orttraining/models/runner/training_runner.cc:574 | the cursor moves to the next shard, wrapping around after the last |
| Runner.CallbackCalls | orttraining/orttraining/models/runner/training_runner.cc:496-501 | one call per callback that is set: the error function, then the post-evaluation callback |
| Runner.CoverAll | orttraining/orttraining/models/runner/training_runner.cc:568-576 | a pass over `n` shards from any cursor position visits every shard |
| Runner.AllIdle | orttraining/orttraining/models/runner/training_runner.cc:568-576 | if a whole pass over the shards trains nothing, every shard failed to load or is empty |
| Runner.CollectDataFeeds | orttraining/orttraining/models/runner/training_runner.cc:297-308 | the loop's feed names and values are those of `DataFeeds` |
| Runner.EventIdFeeds | orttraining/orttraining/models/runner/training_runner.cc:335-389 | the event-id feed names and values are those of `EventFeeds` |
| Runner.FilterAllowed | orttraining/orttraining/models/runner/training_runner.cc:406-418 | the loop computes `KeepIn` of the configured names |
| Runner.UpdateStepFetchNames | orttraining/orttraining/models/runner/training_runner.cc:403-431 | the update-step fetch list and status are those of `PlanFetches` |
| Runner.PushEventOutputs | orttraining/orttraining/models/runner/training_runner.cc:440-456 | the non-empty event outputs are appended in channel order |
| Runner.AccumulationStepFetchNames | orttraining/orttraining/models/runner/training_runner.cc:432-458 | the accumulation-step fetch list and status are those of `PlanFetches` |
| Runner.TrainingRunner.constructor | orttraining/orttraining/models/runner/training_runner.cc:47-73 | the counters start at 0, one idle worker slot per stage, the pipeline context as `InitialPipelineContext` says |
| Runner.TrainingRunner.ApplyConfigurationResult | orttraining/orttraining/models/runner/training_runner.cc:166-252 | the loss scaler and optimizer outputs are taken from the configuration result, the event names and the stage's allow-lists only when pipelined, and a checkpoint registry exists exactly when a checkpoint directory is configured |
| Runner.TrainingRunner.UpdateParams | orttraining/orttraining/models/runner/training_runner.cc:950-957 | the parameters become `UpdatedParams` of the old ones |
| Runner.TrainingRunner.SaveCheckpointProperties | orttraining/orttraining/models/runner/training_runner.cc:907-923 | the map written is `SaveProperties` of the four counters and the scaler's text |
| Runner.TrainingRunner.LoadCheckpointProperties | orttraining/orttraining/models/runner/training_runner.cc:925-948 | the counters become what `LoadCounters` says, partial on failure; success needs the scaler's text when there is a scaler, and the scaler's load is reached only after the counters loaded |
| Runner.TrainingRunner.LoadCounterProperties | orttraining/orttraining/models/runner/training_runner.cc:934-939 | the four counters become what `LoadCounters` says, and the result is its success flag |
| Runner.TrainingRunner.LoadScalerState | orttraining/orttraining/models/runner/training_runner.cc:941-945 | with a loss scaler, success needs its key and the scaler's own load, whose text is recorded as passed to it; without one the step succeeds |
| Runner.TrainingRunner.PrepareFeedNamesAndFeeds | orttraining/orttraining/models/runner/training_runner.cc:285-392 | the feed names and values are those of `ExpectedFeeds` for the current step |
| Runner.TrainingRunner.PrepareFetchNamesAndFetches | orttraining/orttraining/models/runner/training_runner.cc:394-466 | the fetch names and status are those of `PlanFetches`, and the fetch values start empty |
| Runner.TrainingRunner.Join | orttraining/orttraining/models/runner/training_runner.cc:517 | after joining, the slot's thread is no longer running |
| Runner.TrainingRunner.JoinAll | orttraining/orttraining/models/runner/training_runner.cc:472 | after `join_all`, no slot's thread is running |
| Runner.TrainingRunner.SetWorkerState | orttraining/orttraining/models/runner/training_runner.cc:518-521 | only a joined slot's state is overwritten, and only that slot's |
| Runner.TrainingRunner.Launch | orttraining/orttraining/models/runner/training_runner.cc:523-533 | the slot's thread is started and may now be running |
| Runner.TrainingRunner.UpdateLossScale | orttraining/orttraining/models/runner/training_runner.cc:480-488 | with a loss scaler, the all-finite flag reaches it exactly when its output name is fetched; `operator[]` adds an empty name when the key is missing |
| Runner.TrainingRunner.ReportMetrics | orttraining/orttraining/models/runner/training_runner.cc:492-502 | the callbacks are called exactly when `MetricCallbackDue` holds, with the update count before the increment |
| Runner.TrainingRunner.RunWithUpdate | orttraining/orttraining/models/runner/training_runner.cc:468-510 | all slots are joined; on engine failure nothing else changes; otherwise the loss scale is updated, the callbacks are due as the C++ condition says, and both the step and the update count go up by one |
| Runner.TrainingRunner.RunWithoutUpdate | orttraining/orttraining/models/runner/training_runner.cc:512-541 | slot `step % stages` is joined, gets this step's feeds and fetch names with empty fetches, and is started; the step and the accumulation count go up by one |
| Runner.TrainingRunner.SaveCheckpointStep | orttraining/orttraining/models/runner/training_runner.cc:639-657 | registry failure or a folder that can neither be found nor created fails without touching the file system; otherwise the old checkpoint is deleted when asked (its failure ignored) and the properties are saved; the saved counts grow by the update count exactly on success |
| Runner.TrainingRunner.WriteCheckpoint | orttraining/orttraining/models/runner/training_runner.cc:650-657 | once the folder exists: the old checkpoint is deleted when the registry asks (its failure only logged), then the checkpoint with the current properties is saved; the step fails exactly when the save fails, and the saved counts grow by the update count exactly when it succeeds |
| Runner.TrainingRunner.RunStep | orttraining/orttraining/models/runner/training_runner.cc:587-603 | a step runs with update exactly when it closes an accumulation window: then the update count goes up, otherwise the accumulation count |
| Runner.TrainingRunner.AfterStep | orttraining/orttraining/models/runner/training_runner.cc:631-658 | the test set is evaluated when due; a checkpoint is written exactly when saving is enabled, the step updated and the new update count is a multiple of the period; a failed evaluation or checkpoint is the status |
| Runner.TrainingRunner.TrainBatch | orttraining/orttraining/models/runner/training_runner.cc:585-658 | one batch moves the step by one, the update count as `IsUpdateStep` says, and the saved checkpoints by `CheckpointsBetween` |
| Runner.TrainingRunner.TrainBatches | orttraining/orttraining/models/runner/training_runner.cc:585-659 | the batch loop stops at the shard's end or at the step limit, never past it; updates and checkpoints are those of the steps taken |
| Runner.TrainingRunner.VisitShard | orttraining/orttraining/models/runner/training_runner.cc:568-665 | the index recorded is the cursor's; a shard trains nothing exactly when it failed to load or is empty, and the cursor then moves on; after a loaded shard every worker slot has been joined |
| Runner.TrainingRunner.TrainShard | orttraining/orttraining/models/runner/training_runner.cc:584-665 | a loaded shard trains a step exactly when it has batches and the limit is not reached; every worker slot is joined afterwards, and the cursor moves on unless the limit was reached |
| Runner.TrainingRunner.ShardPass | orttraining/orttraining/models/runner/training_runner.cc:568-665 | a pass over all shards advances the step whenever some shard has batches and the limit is not reached; once a step has run, every worker slot is joined at the end of the pass |
| Runner.TrainingRunner.PassVisit | orttraining/orttraining/models/runner/training_runner.cc:568-665 | one shard of a pass keeps the step bound, the update count of the steps taken and, on success, the checkpoints, the idle shards seen and the joined slots |
| Runner.TrainingRunner.TrainingLoop | orttraining/orttraining/models/runner/training_runner.cc:543-688 | a refused loader index fails before any step; on success the step ends at `num_train_steps`, the update count grows by the updates of the steps taken, and one checkpoint is saved per multiple of the period passed; once a step has run, every worker slot is joined |
| Runner.TrainingRunner.TrainPasses | orttraining/orttraining/models/runner/training_runner.cc:567-669 | the passes end with the step at `num_train_steps`, the update count and checkpoints of the steps taken, and the slots joined once a step has run |
| Runner.TrainingRunner.LoopPass | orttraining/orttraining/models/runner/training_runner.cc:568-668 | one pass of the loop moves the step forward when some shard has batches, and keeps the update count, the checkpoints and the joined slots |
| Runner.TrainingRunner.Run | orttraining/orttraining/models/runner/training_runner.cc:264-283 | without a training loader nothing changes; a successful loop is followed by one more round and the step reset to 0; a failed one leaves the round alone; after a successful loop that ran a step, every worker slot is joined |
| Tidl.Atoi | onnxruntime/core/providers/tidl/tidl_execution_provider.cc:104-109 | `atoi` is 0 exactly when no non-zero digit run follows the white space and the sign |
| Tidl.AtoiOfWord | onnxruntime/core/providers/tidl/tidl_execution_provider.cc:104-109 | a value starting with a letter reads as 0, so it turns subgraphs off |
| Tidl.AtoiOfDecimal | onnxruntime/core/providers/tidl/tidl_execution_provider.cc:104-109 | a decimal number reads as itself: "0" turns subgraphs off, any other number keeps them on |
| Tidl.FusedName | onnxruntime/core/providers/tidl/tidl_execution_provider.cc:232-245 | a node fuses only when it is not the subgraph's first and is BatchNormalization or Relu, and fusing only appends to the last TIDL node's name |
| Tidl.BatchNormalizationFusion | onnxruntime/core/providers/tidl/tidl_execution_provider.cc:234-239 | BatchNormalization fuses exactly after a lone "Conv", giving "Conv-BatchNormalization" |
| Tidl.ReluFusion | onnxruntime/core/providers/tidl/tidl_execution_provider.cc:240-245 | Relu fuses exactly after "Conv", "BatchNormalization" or "Conv-BatchNormalization", appending "-Relu", and never twice |
| Tidl.ConvBatchNormalizationRelu | onnxruntime/core/providers/tidl/tidl_execution_provider.cc:232-245 | Conv, BatchNormalization, Relu in a row fuse into one node "Conv-BatchNormalization-Relu" |
| Tidl.ParentNodes | onnxruntime/core/providers/tidl/tidl_execution_provider.cc:134-138 | the parents are TIDL node indices taken from the output map, at most one per input, and every input found in the map contributes its node |
| Tidl.ParentNodesFront | onnxruntime/core/providers/tidl/tidl_execution_provider.cc:134-138 | the first input's node, if known, comes ahead of the parents of the remaining inputs, so the parents follow input order |
| Tidl.ParentNodesAllKnown | onnxruntime/core/providers/tidl/tidl_execution_provider.cc:134-138 | when every input is a known output, there is one parent per input, in input order |
| Tidl.NodeStep | onnxruntime/core/providers/tidl/tidl_execution_provider.cc:123-147 | an unfused node adds one TIDL node and a fused one none; the earlier nodes are untouched; the last node produces the new output, which is mapped; the map gains no other key |
| Tidl.NodeStepFacts | onnxruntime/core/providers/tidl/tidl_execution_provider.cc:123-147 | an unfused node appends one TIDL node (numbered one past the count, with its parents among the earlier nodes); a fused one changes only the last node; the new output is mapped and the map names only existing nodes; a fused node's old output leaves the map, and every other entry keeps its value |
| Tidl.Renamed | onnxruntime/core/providers/tidl/tidl_execution_provider.cc:235-242 | only the last TIDL node changes, and only its name |
| Tidl.Insert | onnxruntime/core/providers/tidl/tidl_execution_provider.cc:140 | `std::map::insert` adds the key when absent and never overwrites a present one |
| Tidl.AttributeOpName | onnxruntime/core/providers/tidl/tidl_execution_provider.cc:165-171 | an unfused node keys its attributes by its own op type; a fused one by the op type of an input node, or by "" when it has none |
| Tidl.WithAttributes | onnxruntime/core/providers/tidl/tidl_execution_provider.cc:174-178 | no existing attribute key is lost, and every attribute of the node ends up under its prefixed name |
| Tidl.AttributeKeys | onnxruntime/core/providers/tidl/tidl_execution_provider.cc:174-178 | every attribute is stored under `op-index-name`, later ones overwriting earlier ones, and the other keys are kept |
| Tidl.AttributePrefix | onnxruntime/core/providers/tidl/tidl_execution_provider.cc:175 | an attribute key starts with the op name, a `-`, the decimal node index and another `-` |
| Tidl.AttributePrefixDistinct | onnxruntime/core/providers/tidl/tidl_execution_provider.cc:175 | two different node indexes give two different prefixes, so one node's attributes never overwrite another's |
| Tidl.SubgraphBuilder.constructor | onnxruntime/core/providers/tidl/tidl_execution_provider.cc:193-207 | the subgraph under construction starts with no nodes, inputs, outputs, attributes or map entries |
| Tidl.SubgraphBuilder.NewSubgraph | onnxruntime/core/providers/tidl/tidl_execution_provider.cc:219-223 | a fresh subgraph, cleared attributes and a cleared output map |
| Tidl.SubgraphBuilder.Reset | onnxruntime/core/providers/tidl/tidl_execution_provider.cc:403 | the node indices, inputs, outputs and consumed outputs are emptied |
| Tidl.SubgraphBuilder.CollectParents | onnxruntime/core/providers/tidl/tidl_execution_provider.cc:134-138 | the loop computes `ParentNodes` |
| Tidl.SubgraphBuilder.ClassifyInputs | onnxruntime/core/providers/tidl/tidl_execution_provider.cc:149-160 | inputs not produced in the subgraph are appended to its inputs; the others are appended to the consumed outputs, both in order |
| Tidl.SubgraphBuilder.RecordAttributes | onnxruntime/core/providers/tidl/tidl_execution_provider.cc:174-178 | the attributes become `WithAttributes` of the old ones |
| Tidl.SubgraphBuilder.UpdateTidlNodes | onnxruntime/core/providers/tidl/tidl_execution_provider.cc:123-147 | the node list and map become `NodeStep` of the old ones |
| Tidl.SubgraphBuilder.CopyAttributes | onnxruntime/core/providers/tidl/tidl_execution_provider.cc:162-179 | a node without attributes changes nothing; otherwise its attributes are keyed by its op name (for a fused node, the op of its last input node) and the TIDL node count |
| Tidl.SubgraphBuilder.CreateOrUpdateTidlNode | onnxruntime/core/providers/tidl/tidl_execution_provider.cc:114-180 | the first output joins `outputs` before the inputs are classified against it; the node list and map follow `NodeStep`; the attributes are copied as above |
| Tidl.SubgraphBuilder.AddNode | onnxruntime/core/providers/tidl/tidl_execution_provider.cc:229-250 | the node's index joins the subgraph; it fuses exactly when `FusedName` says, renaming the last TIDL node and leaving the others, otherwise one TIDL node named by its op type is appended; the whole new state: node list and output map are `NodeStep` of the old list (its last node renamed when fused), the node's inputs are split into graph inputs and inputs consumed from other nodes, and its attributes are copied under their prefix |
| Tidl.SubgraphBuilder.FuseWithLast | onnxruntime/core/providers/tidl/tidl_execution_provider.cc:229-243 | the node's index joins the subgraph; the last TIDL node takes the fused name exactly when `FusedName` gives one, and otherwise the node list is unchanged |
| Tidl.InputClassification | onnxruntime/core/providers/tidl/tidl_execution_provider.cc:149-160 | each input goes to exactly one of the subgraph inputs and the consumed outputs |
| Tidl.EndOutputs | onnxruntime/core/providers/tidl/tidl_execution_provider.cc:383-390 | there are at most as many end outputs as TIDL nodes |
| Tidl.EndOutputsMembers | onnxruntime/core/providers/tidl/tidl_execution_provider.cc:383-390 | the meta definition's outputs are exactly the TIDL nodes' outputs that no subgraph node consumes |
| Tidl.Numbered | onnxruntime/core/providers/tidl/tidl_execution_provider.cc:383-390 | numbering keeps the node count and treats each node on its own |
| Tidl.EndNodeIndex | onnxruntime/core/providers/tidl/tidl_execution_provider.cc:386-388 | an end node's `output_index` is the position of its own output among the meta definition's outputs |
| Tidl.NumberedFacts | onnxruntime/core/providers/tidl/tidl_execution_provider.cc:383-390 | numbering changes only `output_index`, sets it exactly on end nodes, and the index points at the node's own output |
| Tidl.Provider.constructor | onnxruntime/core/providers/tidl/tidl_execution_provider.cc:20-41 | the provider starts with its set of TIDL ops, the subgraph counter at 0 and no recorded subgraphs |
| Tidl.Provider.NextId | onnxruntime/core/providers/tidl/tidl_execution_provider.cc:354-355 | the id is the counter's value before the increment, and the `size_t` counter wraps |
| Tidl.Provider.Record | onnxruntime/core/providers/tidl/tidl_execution_provider.cc:400 | an id already recorded keeps its subgraph |
| Tidl.Provider.UseSubgraph | onnxruntime/core/providers/tidl/tidl_execution_provider.cc:69-112 | subgraphs are used exactly when the first typed node's input type has no "16", some node is a TIDL op, and the variable is unset or reads as non-zero |
| Tidl.Provider.FindEndNodes | onnxruntime/core/providers/tidl/tidl_execution_provider.cc:383-390 | the loop finds `EndOutputs` and numbers the nodes as `Numbered` |
| Tidl.Provider.CreateMetaDef | onnxruntime/core/providers/tidl/tidl_execution_provider.cc:347-404 | the meta definition is named after the incremented counter but its `subgraph_id` is the old value; it holds the inputs, the end outputs, the initializer inputs, the subgraph's attributes and the node indices; the subgraph is recorded under that id and the variables are reset |
| Tidl.Initializers | onnxruntime/core/providers/tidl/tidl_execution_provider.cc:366-374 | the initializers are exactly the subgraph inputs that are initialized tensors |
| Tidl.CollectInitializers | onnxruntime/core/providers/tidl/tidl_execution_provider.cc:366-374 | the loop computes `Initializers` |
| Tidl.FreshId | onnxruntime/core/providers/tidl/tidl_execution_provider.cc:354-400 | until the counter wraps, every new subgraph id is unused, so `insert` always records it |
| Tidl.DistinctIds | onnxruntime/core/providers/tidl/tidl_execution_provider.cc:354-375 | different counter values give different ids and different meta definition names |
| Classy.BeforeBelow | samples/c_cxx/classy/main.cc:45-57 | the write index grows in loop order |
| Classy.PosInjective | samples/c_cxx/classy/main.cc:44-57 | distinct iterations write distinct cells, all inside the resized output |
| Classy.PosOnto | samples/c_cxx/classy/main.cc:44-57 | every cell below `channels * n * m` is written by one iteration, whose channel, outer and inner indexes are in range |
| Classy.ReadBounds | samples/c_cxx/classy/main.cc:49-54 | every read is inside the image exactly when the image is not wider than it is high (or degenerate); otherwise the last read of channel 0 lies past the end |
| Classy.WideImageReadsPastEnd | samples/c_cxx/classy/main.cc:49-54 | a 2 x 1 one-channel image reads byte 2 of 2 |
| Classy.CopyAsWrittenRun | samples/c_cxx/classy/main.cc:51-55 | the innermost loop copies the `height` bytes of channel `c` at `x`, every earlier copy stays, and the write index ends at the start of the next `x` |
| Classy.AsWrittenEveryCell | samples/c_cxx/classy/main.cc:44-57 | once every channel is copied, each cell of the output holds the byte read by the iteration that writes it |
| Classy.CollectFrames | samples/c_cxx/classy/main.cc:34-58 | the output has `height * width * channels` bytes; the cell written at loop position `(c, x, y)` holds the byte the code reads there, and every cell of the output is written by the iteration `PosOnto` names |
| Classy.PixelInBounds | samples/c_cxx/classy/main.cc:53-54 | every pixel's channel byte lies inside the image |
| Classy.CopyNchwRow | samples/c_cxx/classy/main.cc:51-55 | the corrected innermost loop copies the `width` bytes of row `row` of channel `c`, every earlier copy stays, and the write index ends at the start of the next row |
| Classy.NchwEveryCell | samples/c_cxx/classy/main.cc:44-57 | once every channel is copied, each cell of the NCHW output holds its pixel byte |
| Classy.CollectFramesNchw | samples/c_cxx/classy/main.cc:34-58 | for every size, cell `(c*height + row)*width + col` holds channel `channels-1-c` of pixel `(row, col)`: planar NCHW with the channels reversed, and every cell of the output is such a cell |
| Classy.SquareAgrees | samples/c_cxx/classy/main.cc:82 | on the square 224 x 224 image of the sample, the code as written reads in bounds and copies the same bytes as the NCHW version |

## Left out

- Engine calls (`session_.Run`, `Evaluate`, `SaveCheckpoint`) are left out. Their statuses or results come in as parameters or as `Runner.Env` fields.
- Tensors are not modelled. A feed value is a tag that says which tensor it is (loader position, loss scale, learning rate at a step, event id). Fetched values are not modelled apart from the all-finite flag.
- Threads are reduced to a slot's state plus a ghost `busy` flag. Concurrency, and what a worker thread does while it runs, are not modelled.
- The data loader's classes (`IDataLoader`) are not part of this model. The loader is modelled as a ring of shards whose cursor wraps around. `CurrentDataSet` is the shard under the cursor. A shard is either failed (`None`) or holds a number of batches.
- Runner.DataLoader.InitializeDataSetIndex: the rule that an index below the shard count is taken and any other is refused, leaving the cursor, is assumed. The loader's implementation is not part of this model; the runner only propagates the status.
- Runner.TrainingRunner.TrainingLoop: requires some shard to hold batches while steps remain. Without one the C++ loop never ends.
- Runner.TrainingRunner.TrainingLoop: assumes the engine runs inside the loop succeed. The loop ignores the statuses of `RunWithUpdate`, `PrepareFeedNamesAndFeeds` and `PrepareFetchNamesAndFetches`, and after a failed update run it would step again without moving `step_`. `RunWithUpdate` on its own models the failure.
- Random shuffling, the learning-rate schedule's values, floating-point loss scale values, timing and the console output are left out.
- The runner's `size_t` counters are unbounded `nat`s, with no 64-bit wrap. The checkpoint round trip is stated for values that fit.
- `Initialize` is modelled only through the configuration results it stores (`ApplyConfigurationResult`). Building the graph, the session and the providers is left out, since it is engine code.
- `EndTraining`, `Evaluate`, `SaveCheckpoint`, `LoadCheckpoint` and `ResetLossScaler` are left out. They are file and engine I/O.
- The `PipelineContext` header is not part of this model. Its defaults for a non-pipelined run are taken as stage 0 of 1 with a window of 1.
- Runner.TrainingRunner.constructor: requires at least one pipeline stage. A count of 0 builds an empty worker pool, and the first step would then index it.
- The iteration order of `unordered_map` and `NodeAttributes` is taken as the order of the given sequence.
- Tidl.Atoi: models no `int` overflow. `atoi` is undefined for values out of range, so the model reads the unbounded value.
- The GetCapability graph walk is left out. Dimension checks, the decision when to close a subgraph and the graph viewer are not modelled. The model covers the operations it calls (`AddNode`, `NewSubgraph`, `CreateMetaDef`) and the fusion rule.
- The declarations of `tidl_ops_`, `subgraph_index_` and `mkl_subgraphs_` are not part of this model. The op set is a constructor parameter. The counter is assumed to be a `size_t` that starts at 0, so its increment wraps modulo 2^64 (`Tidl.Provider.Valid`, `Tidl.Provider.NextId`).
- Tidl.SubgraphBuilder.Reset: `SubgraphVariables::Reset` is not part of this model. The fields it clears are assumed to be the node indices, the inputs, the outputs and the consumed outputs.
- TIDL node fields that the constructor of `TidlNode` defaults are modelled with the values the provider assigns. The header that defines them is not part of this model.
- `cv::resize` and `cv::split` in `CollectFrames` are left out. The image arrives already resized to `width * height * channels` bytes, and the unused split planes are not modelled.
- Classy.CollectFrames: requires `ReadsInBounds`. For wider-than-high images the code reads past the buffer, which C++ leaves undefined (see "## Findings").
- Classy.CollectFrames: its sizes are `nat`. Negative sizes and `int` overflow of `height * width * channels` are not modelled.

## Findings

| source | as written | input that shows it | evidently intended | confidence | as-written member | corrected member |
|---|---|---|---|---|---|---|
| samples/c_cxx/classy/main.cc:49-54 | the loops run `x < width` then `y < height` and read pixel `y + x*width`, so `x` acts as the row index although it runs to `width` | width 2, height 1, channels 1: the read at `x = 1, y = 0` is byte 2 of a 2-byte image; any image wider than it is high reads past the end, and a high one is not laid out as NCHW | rows run to `height`, columns to `width`, and cell `(c*height + row)*width + col` takes channel `channels-1-c` of pixel `(row, col)` | not executed | Classy.ReadBounds, Classy.WideImageReadsPastEnd, Classy.CollectFrames | Classy.CollectFramesNchw |
