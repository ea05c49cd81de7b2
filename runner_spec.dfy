/** Values and pure rules of the training runner: the parameters it reads, the
    pipeline context, the feed and fetch lists it assembles, the counter
    rules of the training loop, the checkpoint trigger and the checkpoint
    property map. The class that owns the state is in module Runner. */
module RunnerSpec {
  import opened Common
  import opened Decimal

  // ---------------------------------------------------------------------
  // Configuration
  // ---------------------------------------------------------------------

  /** The fields of `TrainingRunner::Parameters` the core reads. Floating-point
      fields are carried as `real` and never computed with. */
  datatype Params = Params(
    modelPath: string,
    weightsToTrain: seq<string>,
    weightsNotToTrain: seq<string>,
    trainingOptimizerName: string,
    partitionOptimizer: bool,
    useNccl: bool,
    numPipelineStages: nat,
    worldRank: nat,
    gradientAccumulationSteps: nat,
    pipelineStagePaths: seq<string>,
    batchSize: nat,
    lrFeedName: string,
    initialLr: real,
    warmupRatio: real,
    numTrainSteps: nat,
    fetchNames: seq<string>,
    useMixedPrecision: bool,
    useAdasum: bool,
    isPerfTest: bool,
    displayLossSteps: nat,
    hasErrorFunction: bool,
    hasPostEvaluationCallback: bool,
    checkpointsDir: string,
    checkpointPeriod: nat,
    doEval: bool,
    evaluationPeriod: nat)

  /** The four pipeline event channels, used both for the event-id input
      names and for the event output names; an empty name means "absent". */
  datatype EventNames = EventNames(
    forwardWaited: string, forwardRecorded: string,
    backwardWaited: string, backwardRecorded: string)

  const NoEvents := EventNames("", "", "", "")

  /** `PipelineContext`: stage, stage count, accumulation window, the event
      names and the allow-lists of feeds and fetches of this stage. */
  datatype PipelineContext = PipelineContext(
    pipelineStageId: nat,
    numPipelineStages: nat,
    numPipelineBatches: nat,
    numGradientAccumulationSteps: nat,
    pipelineStagePaths: seq<string>,
    eventNames: EventNames,
    outputNames: EventNames,
    feedNames: seq<string>,
    fetchNames: seq<string>)

  /** The context of a run without pipeline parallelism: stage 0 of 1. */
  const DefaultPipelineContext :=
    PipelineContext(0, 1, 0, 1, [], NoEvents, NoEvents, [], [])

  /** The constructor's `ORT_ENFORCE` guards, in the order they are checked;
      an error stands for the exception the constructor throws. */
  function ConstructorCheck(p: Params): (s: Status)
    ensures s == Ok <==>
      p.modelPath != [] &&
      (p.weightsToTrain != [] ==> p.weightsNotToTrain == []) &&
      p.trainingOptimizerName != [] &&
      (p.partitionOptimizer ==> p.useNccl)
  {
    if p.modelPath == [] then Error("model_path is empty")
    else if p.weightsToTrain != [] && p.weightsNotToTrain != [] then Error("weights_not_to_train must be empty")
    else if p.trainingOptimizerName == [] then Error("training_optimizer_name is empty")
    else if p.partitionOptimizer && !p.useNccl then
      Error("Optimizer partitioning is only supported with NCCL distributed training.")
    else Ok
  }

  /** `gradient_accumulation_steps - 1` computed in `size_t`: 0 wraps around. */
  function PipelineBatches(gas: nat): (b: nat)
    ensures b < SizeLimit || gas > SizeLimit
    ensures gas > 0 ==> b + 1 == gas
    ensures gas == 0 ==> b == SizeLimit - 1
    ensures gas < SizeLimit ==> b == (gas + SizeLimit - 1) % SizeLimit
  {
    if gas == 0 then SizeLimit - 1 else gas - 1
  }

  /** The pipeline context the constructor sets up. */
  function InitialPipelineContext(p: Params): (c: PipelineContext)
    ensures p.numPipelineStages <= 1 ==> c == DefaultPipelineContext
    ensures p.numPipelineStages > 1 ==>
      c.pipelineStageId == p.worldRank &&
      c.numPipelineStages == p.numPipelineStages &&
      c.numGradientAccumulationSteps == p.gradientAccumulationSteps &&
      c.pipelineStagePaths == p.pipelineStagePaths &&
      c.eventNames == NoEvents && c.outputNames == NoEvents
    ensures p.numPipelineStages > 1 && p.gradientAccumulationSteps > 0 ==>
      c.numPipelineBatches == p.gradientAccumulationSteps - 1
  {
    if p.numPipelineStages > 1 then
      DefaultPipelineContext.(
        pipelineStageId := p.worldRank,
        numPipelineStages := p.numPipelineStages,
        numPipelineBatches := PipelineBatches(p.gradientAccumulationSteps),
        numGradientAccumulationSteps := p.gradientAccumulationSteps,
        pipelineStagePaths := p.pipelineStagePaths)
    else DefaultPipelineContext
  }

  /** `UpdateParams`: exactly the learning-rate settings, the step count, the
      batch size and the accumulation window are taken from `q`. */
  function UpdatedParams(p: Params, q: Params): (r: Params)
    ensures r.initialLr == q.initialLr && r.warmupRatio == q.warmupRatio
    ensures r.numTrainSteps == q.numTrainSteps && r.batchSize == q.batchSize
    ensures r.gradientAccumulationSteps == q.gradientAccumulationSteps
    ensures r.(initialLr := p.initialLr, warmupRatio := p.warmupRatio,
               numTrainSteps := p.numTrainSteps, batchSize := p.batchSize,
               gradientAccumulationSteps := p.gradientAccumulationSteps) == p
  {
    p.(initialLr := q.initialLr, warmupRatio := q.warmupRatio,
       numTrainSteps := q.numTrainSteps, batchSize := q.batchSize,
       gradientAccumulationSteps := q.gradientAccumulationSteps)
  }

  // ---------------------------------------------------------------------
  // Feeds
  // ---------------------------------------------------------------------

  datatype EventKind = ForwardWaited | ForwardRecorded | BackwardWaited | BackwardRecorded

  /** A feed value, abstractly: which batch tensor, or which collaborator
      query produced it. Tensors and event-id formulas are not modelled. */
  datatype Value =
    | DataTensor(batch: nat, position: nat)
    | LossScale
    | LearningRate(atStep: nat)
    | EventId(kind: EventKind, stage: nat, slot: nat)

  datatype Feed = Feed(name: string, value: Value)

  function Names(fs: seq<Feed>): (r: seq<string>)
    ensures |r| == |fs| && forall i :: 0 <= i < |fs| ==> r[i] == fs[i].name
  {
    seq(|fs|, i requires 0 <= i < |fs| => fs[i].name)
  }

  function Values(fs: seq<Feed>): (r: seq<Value>)
    ensures |r| == |fs| && forall i :: 0 <= i < |fs| ==> r[i] == fs[i].value
  {
    seq(|fs|, i requires 0 <= i < |fs| => fs[i].value)
  }

  /** A feed is kept when there is one stage or its name is on the stage's
      allow-list. */
  predicate Admitted(stages: nat, allowed: seq<string>, name: string)
  {
    stages == 1 || name in allowed
  }

  /** The data feeds taken from the loader: the `i`-th tensor name paired
      with the `i`-th tensor of the batch, kept or dropped by `Admitted`. */
  function DataFeeds(names: seq<string>, batch: nat, stages: nat, allowed: seq<string>): (r: seq<Feed>)
    ensures forall k :: 0 <= k < |r| ==>
      r[k].value.DataTensor? && r[k].value.batch == batch &&
      r[k].value.position < |names| && names[r[k].value.position] == r[k].name
    ensures forall k :: 0 <= k < |r| ==> Admitted(stages, allowed, r[k].name)
    ensures forall k, l :: 0 <= k < l < |r| ==> r[k].value.position < r[l].value.position
    decreases |names|
  {
    if names == [] then []
    else
      var n := |names| - 1;
      DataFeeds(names[..n], batch, stages, allowed) +
      (if Admitted(stages, allowed, names[n]) then [Feed(names[n], DataTensor(batch, n))] else [])
  }

  predicate HasEvents(e: EventNames)
  {
    e.forwardWaited != [] || e.forwardRecorded != [] ||
    e.backwardWaited != [] || e.backwardRecorded != []
  }

  function EventFeed(name: string, kind: EventKind, stage: nat, slot: nat): seq<Feed>
  {
    if name != [] then [Feed(name, EventId(kind, stage, slot))] else []
  }

  /** The event-id feeds, in the order forward-waited, forward-recorded,
      backward-waited, backward-recorded. */
  function EventFeeds(e: EventNames, stage: nat, slot: nat): seq<Feed>
  {
    EventFeed(e.forwardWaited, ForwardWaited, stage, slot) +
    EventFeed(e.forwardRecorded, ForwardRecorded, stage, slot) +
    EventFeed(e.backwardWaited, BackwardWaited, stage, slot) +
    EventFeed(e.backwardRecorded, BackwardRecorded, stage, slot)
  }

  /** What every feed of a step satisfies: a feed other than an event id
      is admitted by the stage's allow-list, the learning-rate feed is
      `lrName` evaluated at `step + 1`, the loss-scale feed is the loss
      scaler's input, and event ids appear only when event names are set. */
  predicate FeedSound(f: Feed, stages: nat, allowed: seq<string>, lossScaleName: Option<string>,
                      lrName: string, step: nat, events: bool)
  {
    (!f.value.EventId? ==> Admitted(stages, allowed, f.name)) &&
    (f.value.LearningRate? ==> f == Feed(lrName, LearningRate(step + 1))) &&
    (f.value.LossScale? ==> lossScaleName == Some(f.name)) &&
    (!events ==> !f.value.EventId?)
  }

  predicate AllSound(fs: seq<Feed>, stages: nat, allowed: seq<string>, lossScaleName: Option<string>,
                     lrName: string, step: nat, events: bool)
  {
    forall i :: 0 <= i < |fs| ==> FeedSound(fs[i], stages, allowed, lossScaleName, lrName, step, events)
  }

  lemma AllSoundAppend(a: seq<Feed>, b: seq<Feed>, stages: nat, allowed: seq<string>,
                       lossScaleName: Option<string>, lrName: string, step: nat, events: bool)
    requires AllSound(a, stages, allowed, lossScaleName, lrName, step, events)
    requires AllSound(b, stages, allowed, lossScaleName, lrName, step, events)
    ensures AllSound(a + b, stages, allowed, lossScaleName, lrName, step, events)
  {
    forall i | 0 <= i < |a + b|
      ensures FeedSound((a + b)[i], stages, allowed, lossScaleName, lrName, step, events)
    {
      if i >= |a| {
        assert (a + b)[i] == b[i - |a|];
      }
    }
  }

  /** The whole feed list of one step (`PrepareFeedNamesAndFeeds`). */
  function ExpectedFeeds(dataNames: seq<string>, batch: nat, lossScaleName: Option<string>,
                         lrName: string, step: nat, stages: nat, ctx: PipelineContext): (r: seq<Feed>)
    requires HasEvents(ctx.eventNames) ==> ctx.numGradientAccumulationSteps > 0
    ensures AllSound(r, stages, ctx.feedNames, lossScaleName, lrName, step, HasEvents(ctx.eventNames))
  {
    var slot := if HasEvents(ctx.eventNames) then step % ctx.numGradientAccumulationSteps else 0;
    var d := DataFeeds(dataNames, batch, stages, ctx.feedNames);
    var sc := if lossScaleName.Some? && Admitted(stages, ctx.feedNames, lossScaleName.value)
              then [Feed(lossScaleName.value, LossScale)] else [];
    var lr := if Admitted(stages, ctx.feedNames, lrName) then [Feed(lrName, LearningRate(step + 1))] else [];
    var ev := EventFeeds(ctx.eventNames, ctx.pipelineStageId, slot);
    var events := HasEvents(ctx.eventNames);
    EventFeedsFacts(ctx.eventNames, ctx.pipelineStageId, slot);
    AllSoundAppend(d, sc, stages, ctx.feedNames, lossScaleName, lrName, step, events);
    AllSoundAppend(d + sc, lr, stages, ctx.feedNames, lossScaleName, lrName, step, events);
    AllSoundAppend(d + sc + lr, ev, stages, ctx.feedNames, lossScaleName, lrName, step, events);
    d + sc + lr + ev
  }

  lemma NamesAppend(a: seq<Feed>, b: seq<Feed>)
    ensures Names(a + b) == Names(a) + Names(b)
  {
  }

  /** The data feed names are the loader's names, in loader order, filtered
      by the stage allow-list only when there is more than one stage. */
  lemma {:induction false} DataFeedNamesFiltered(names: seq<string>, batch: nat, stages: nat, allowed: seq<string>)
    ensures Names(DataFeeds(names, batch, stages, allowed)) ==
      (if stages == 1 then names else KeepIn(names, allowed))
    decreases |names|
  {
    if names != [] {
      var n := |names| - 1;
      var pre := names[..n];
      DataFeedNamesStep(names, batch, stages, allowed);
      DataFeedNamesFiltered(pre, batch, stages, allowed);
      SplitLast(names);
      if stages != 1 {
        KeepInSnoc(pre, names[n], allowed);
      }
    }
  }

  /** The last loader name adds its name to the data feed names when admitted. */
  lemma DataFeedNamesStep(names: seq<string>, batch: nat, stages: nat, allowed: seq<string>)
    requires names != []
    ensures var n := |names| - 1;
      Names(DataFeeds(names, batch, stages, allowed)) ==
      Names(DataFeeds(names[..n], batch, stages, allowed)) +
      (if Admitted(stages, allowed, names[n]) then [names[n]] else [])
  {
    var n := |names| - 1;
    var d := DataFeeds(names[..n], batch, stages, allowed);
    var tail := if Admitted(stages, allowed, names[n]) then [Feed(names[n], DataTensor(batch, n))] else [];
    assert DataFeeds(names, batch, stages, allowed) == d + tail;
    NamesAppend(d, tail);
    assert Names(tail) == if Admitted(stages, allowed, names[n]) then [names[n]] else [];
  }

  lemma EventFeedsFacts(e: EventNames, stage: nat, slot: nat)
    ensures forall k :: 0 <= k < |EventFeeds(e, stage, slot)| ==>
      EventFeeds(e, stage, slot)[k].value.EventId? &&
      EventFeeds(e, stage, slot)[k].value.stage == stage &&
      EventFeeds(e, stage, slot)[k].value.slot == slot &&
      EventFeeds(e, stage, slot)[k].name != []
    ensures |EventFeeds(e, stage, slot)| ==
      (if e.forwardWaited != [] then 1 else 0) + (if e.forwardRecorded != [] then 1 else 0) +
      (if e.backwardWaited != [] then 1 else 0) + (if e.backwardRecorded != [] then 1 else 0)
  {
  }

  function KindRank(k: EventKind): nat
  {
    match k
    case ForwardWaited => 0
    case ForwardRecorded => 1
    case BackwardWaited => 2
    case BackwardRecorded => 3
  }

  /** The four parts of one step's feed list. */
  lemma FeedParts(dataNames: seq<string>, batch: nat, lossScaleName: Option<string>,
                  lrName: string, step: nat, stages: nat, ctx: PipelineContext)
    returns (d: seq<Feed>, sc: seq<Feed>, lr: seq<Feed>, ev: seq<Feed>)
    requires HasEvents(ctx.eventNames) ==> ctx.numGradientAccumulationSteps > 0
    ensures ExpectedFeeds(dataNames, batch, lossScaleName, lrName, step, stages, ctx) == d + sc + lr + ev
    ensures d == DataFeeds(dataNames, batch, stages, ctx.feedNames)
    ensures sc == if lossScaleName.Some? && Admitted(stages, ctx.feedNames, lossScaleName.value)
                  then [Feed(lossScaleName.value, LossScale)] else []
    ensures lr == if Admitted(stages, ctx.feedNames, lrName) then [Feed(lrName, LearningRate(step + 1))] else []
    ensures ev == EventFeeds(ctx.eventNames, ctx.pipelineStageId,
                             if HasEvents(ctx.eventNames) then step % ctx.numGradientAccumulationSteps else 0)
  {
    d := DataFeeds(dataNames, batch, stages, ctx.feedNames);
    sc := if lossScaleName.Some? && Admitted(stages, ctx.feedNames, lossScaleName.value)
          then [Feed(lossScaleName.value, LossScale)] else [];
    lr := if Admitted(stages, ctx.feedNames, lrName) then [Feed(lrName, LearningRate(step + 1))] else [];
    ev := EventFeeds(ctx.eventNames, ctx.pipelineStageId,
                     if HasEvents(ctx.eventNames) then step % ctx.numGradientAccumulationSteps else 0);
  }

  /** Where each feed of `d + sc + lr + ev` comes from. */
  lemma FourParts(d: seq<Feed>, sc: seq<Feed>, lr: seq<Feed>, ev: seq<Feed>)
    ensures var r := d + sc + lr + ev;
      |r| == |d| + |sc| + |lr| + |ev| &&
      forall k :: 0 <= k < |r| ==>
        r[k] == if k < |d| then d[k] else if k < |d| + |sc| then sc[k - |d|]
                else if k < |d| + |sc| + |lr| then lr[k - |d| - |sc|]
                else ev[k - |d| - |sc| - |lr|]
  {
  }

  /** The kind of each part: data tensors, then the loss scale, then the
      learning rate, then event ids. */
  predicate PartsShaped(d: seq<Feed>, sc: seq<Feed>, lr: seq<Feed>, ev: seq<Feed>)
  {
    (forall k :: 0 <= k < |d| ==> d[k].value.DataTensor?) &&
    (forall k :: 0 <= k < |sc| ==> sc[k].value == LossScale) &&
    (forall k :: 0 <= k < |lr| ==> lr[k].value.LearningRate?) &&
    (forall k :: 0 <= k < |ev| ==> ev[k].value.EventId?)
  }

  /** The parts of one step's feed list have the kinds `PartsShaped` says. */
  lemma ExpectedFeedsShaped(dataNames: seq<string>, batch: nat, lossScaleName: Option<string>,
                            lrName: string, step: nat, stages: nat, ctx: PipelineContext)
    returns (d: seq<Feed>, sc: seq<Feed>, lr: seq<Feed>, ev: seq<Feed>)
    requires HasEvents(ctx.eventNames) ==> ctx.numGradientAccumulationSteps > 0
    ensures ExpectedFeeds(dataNames, batch, lossScaleName, lrName, step, stages, ctx) == d + sc + lr + ev
    ensures d == DataFeeds(dataNames, batch, stages, ctx.feedNames)
    ensures sc == if lossScaleName.Some? && Admitted(stages, ctx.feedNames, lossScaleName.value)
                  then [Feed(lossScaleName.value, LossScale)] else []
    ensures lr == if Admitted(stages, ctx.feedNames, lrName) then [Feed(lrName, LearningRate(step + 1))] else []
    ensures ev == EventFeeds(ctx.eventNames, ctx.pipelineStageId,
                             if HasEvents(ctx.eventNames) then step % ctx.numGradientAccumulationSteps else 0)
    ensures PartsShaped(d, sc, lr, ev)
  {
    d, sc, lr, ev := FeedParts(dataNames, batch, lossScaleName, lrName, step, stages, ctx);
    var slot := if HasEvents(ctx.eventNames) then step % ctx.numGradientAccumulationSteps else 0;
    assert PartsShaped(d, sc, lr, ev) by {
      EventFeedsFacts(ctx.eventNames, ctx.pipelineStageId, slot);
    }
  }

  lemma DataPart(d: seq<Feed>, sc: seq<Feed>, lr: seq<Feed>, ev: seq<Feed>)
    requires PartsShaped(d, sc, lr, ev)
    ensures var r := d + sc + lr + ev;
      |d| <= |r| && r[..|d|] == d && forall k :: |d| <= k < |r| ==> !r[k].value.DataTensor?
  {
    FourParts(d, sc, lr, ev);
    var r := d + sc + lr + ev;
    assert r[..|d|] == d;
  }

  /** The data feeds come first, exactly as `DataFeeds` lists them, and no
      later feed is a data tensor. */
  lemma FeedDataFirst(dataNames: seq<string>, batch: nat, lossScaleName: Option<string>,
                      lrName: string, step: nat, stages: nat, ctx: PipelineContext)
    requires HasEvents(ctx.eventNames) ==> ctx.numGradientAccumulationSteps > 0
    ensures var r := ExpectedFeeds(dataNames, batch, lossScaleName, lrName, step, stages, ctx);
      var d := DataFeeds(dataNames, batch, stages, ctx.feedNames);
      |d| <= |r| && r[..|d|] == d &&
      forall k :: |d| <= k < |r| ==> !r[k].value.DataTensor?
  {
    var d, sc, lr, ev := ExpectedFeedsShaped(dataNames, batch, lossScaleName, lrName, step, stages, ctx);
    DataPart(d, sc, lr, ev);
  }

  lemma LearningRatePart(d: seq<Feed>, sc: seq<Feed>, lr: seq<Feed>, ev: seq<Feed>,
                         lrName: string, at: nat, admitted: bool)
    requires PartsShaped(d, sc, lr, ev)
    requires lr == if admitted then [Feed(lrName, LearningRate(at))] else []
    ensures var r := d + sc + lr + ev;
      (forall k :: 0 <= k < |r| && r[k].value.LearningRate? ==>
         r[k].value.atStep == at && r[k].name == lrName) &&
      ((exists k :: 0 <= k < |r| && r[k].value.LearningRate?) <==> admitted)
  {
    FourParts(d, sc, lr, ev);
    if admitted {
      assert (d + sc + lr + ev)[|d| + |sc|].value.LearningRate?;
    }
  }

  /** The learning rate is read for `step + 1`, under the learning-rate feed
      name, and is present exactly when that name is admitted. */
  lemma FeedLearningRate(dataNames: seq<string>, batch: nat, lossScaleName: Option<string>,
                         lrName: string, step: nat, stages: nat, ctx: PipelineContext)
    requires HasEvents(ctx.eventNames) ==> ctx.numGradientAccumulationSteps > 0
    ensures var r := ExpectedFeeds(dataNames, batch, lossScaleName, lrName, step, stages, ctx);
      (forall k :: 0 <= k < |r| && r[k].value.LearningRate? ==>
         r[k].value.atStep == step + 1 && r[k].name == lrName) &&
      ((exists k :: 0 <= k < |r| && r[k].value.LearningRate?) <==> Admitted(stages, ctx.feedNames, lrName))
  {
    var d, sc, lr, ev := ExpectedFeedsShaped(dataNames, batch, lossScaleName, lrName, step, stages, ctx);
    LearningRatePart(d, sc, lr, ev, lrName, step + 1, Admitted(stages, ctx.feedNames, lrName));
  }

  lemma LossScalePart(d: seq<Feed>, sc: seq<Feed>, lr: seq<Feed>, ev: seq<Feed>)
    requires PartsShaped(d, sc, lr, ev)
    ensures var r := d + sc + lr + ev;
      (exists k :: 0 <= k < |r| && r[k].value == LossScale) <==> sc != []
  {
    FourParts(d, sc, lr, ev);
    if sc != [] {
      assert (d + sc + lr + ev)[|d|].value == LossScale;
    }
  }

  /** The loss scale is fed exactly when there is a loss scaler and its input
      name is admitted. */
  lemma FeedLossScale(dataNames: seq<string>, batch: nat, lossScaleName: Option<string>,
                      lrName: string, step: nat, stages: nat, ctx: PipelineContext)
    requires HasEvents(ctx.eventNames) ==> ctx.numGradientAccumulationSteps > 0
    ensures var r := ExpectedFeeds(dataNames, batch, lossScaleName, lrName, step, stages, ctx);
      (exists k :: 0 <= k < |r| && r[k].value == LossScale) <==>
      lossScaleName.Some? && Admitted(stages, ctx.feedNames, lossScaleName.value)
  {
    var d, sc, lr, ev := ExpectedFeedsShaped(dataNames, batch, lossScaleName, lrName, step, stages, ctx);
    LossScalePart(d, sc, lr, ev);
  }

  lemma EventPart(d: seq<Feed>, sc: seq<Feed>, lr: seq<Feed>, ev: seq<Feed>)
    requires PartsShaped(d, sc, lr, ev)
    ensures var r := d + sc + lr + ev; var m := |d| + |sc| + |lr|;
      m <= |r| && r[m..] == ev && forall k :: 0 <= k < m ==> !r[k].value.EventId?
  {
    FourParts(d, sc, lr, ev);
    var r := d + sc + lr + ev;
    assert r[|d| + |sc| + |lr|..] == ev;
  }

  /** The event ids come last and are `EventFeeds` for this stage and the
      slot `step % num_gradient_accumulation_steps`; `EventFeedsFacts` and
      `EventFeedsOrdered` say what that list holds. */
  lemma FeedEvents(dataNames: seq<string>, batch: nat, lossScaleName: Option<string>,
                   lrName: string, step: nat, stages: nat, ctx: PipelineContext)
    requires HasEvents(ctx.eventNames) ==> ctx.numGradientAccumulationSteps > 0
    ensures var r := ExpectedFeeds(dataNames, batch, lossScaleName, lrName, step, stages, ctx);
      var ev := EventFeeds(ctx.eventNames, ctx.pipelineStageId,
                           if HasEvents(ctx.eventNames) then step % ctx.numGradientAccumulationSteps else 0);
      |ev| <= |r| && r[|r| - |ev|..] == ev &&
      (forall k :: 0 <= k < |r| - |ev| ==> !r[k].value.EventId?)
  {
    var d, sc, lr, ev := ExpectedFeedsShaped(dataNames, batch, lossScaleName, lrName, step, stages, ctx);
    EventPart(d, sc, lr, ev);
  }

  /** Without event names there are no event feeds. */
  lemma NoEventsNoFeeds(e: EventNames, stage: nat, slot: nat)
    ensures EventFeeds(e, stage, slot) == [] <==> !HasEvents(e)
  {
  }

  lemma EventFeedsOrdered(e: EventNames, stage: nat, slot: nat)
    ensures var ev := EventFeeds(e, stage, slot);
      forall k, l :: 0 <= k < l < |ev| ==> KindRank(ev[k].value.kind) < KindRank(ev[l].value.kind)
  {
    var a := EventFeed(e.forwardWaited, ForwardWaited, stage, slot);
    var b := EventFeed(e.forwardRecorded, ForwardRecorded, stage, slot);
    var c := EventFeed(e.backwardWaited, BackwardWaited, stage, slot);
    var f := EventFeed(e.backwardRecorded, BackwardRecorded, stage, slot);
    var ev := a + b + c + f;
    assert EventFeeds(e, stage, slot) == ev;
    assert forall k :: 0 <= k < |ev| ==>
      (ev[k].value.EventId? &&
       KindRank(ev[k].value.kind) ==
         (if k < |a| then 0 else if k < |a| + |b| then 1 else if k < |a| + |b| + |c| then 2 else 3));
  }

  // ---------------------------------------------------------------------
  // Fetches
  // ---------------------------------------------------------------------

  /** `OptimizerOutputKey`: the optimizer outputs the runner fetches. */
  datatype OptimizerOutputKey = GradientAllIsFinite | DeltaAllIsFinite | GradientAccumulation

  /** A fetch list and the status `PrepareFetchNamesAndFetches` returns with it. */
  datatype FetchPlan = FetchPlan(names: seq<string>, status: Status)

  /** The non-empty event output names, in channel order. */
  function EventOutputs(e: EventNames): (r: seq<string>)
    ensures forall i :: 0 <= i < |r| ==> r[i] != []
    ensures r == [] <==> !HasEvents(e)
  {
    (if e.forwardWaited != [] then [e.forwardWaited] else []) +
    (if e.forwardRecorded != [] then [e.forwardRecorded] else []) +
    (if e.backwardWaited != [] then [e.backwardWaited] else []) +
    (if e.backwardRecorded != [] then [e.backwardRecorded] else [])
  }

  /** The configured fetches of an update step: filtered by the stage's
      allow-list when pipelined, all of them otherwise. */
  function UpdateFetchBase(stages: nat, configured: seq<string>, allowed: seq<string>): seq<string>
  {
    if stages > 1 then KeepIn(configured, allowed) else configured
  }

  /** The final "fetch at least one variable" rule. */
  function WithFallback(names: seq<string>, allowed: seq<string>): FetchPlan
  {
    FetchPlan(if names == [] then allowed else names, Ok)
  }

  const MissingIsFinite := "Gradient norm's IsFinite output is missing in the optimizer output"
  const MissingDeltaIsFinite := "Adasum delta's IsFinite output is missing in the optimizer output"
  const MissingAccumulation := "Gradient accumulation output is missing in the optimizer output"

  /** `PrepareFetchNamesAndFetches`. An error returns the list built so far,
      without the fallback. */
  function PlanFetches(doUpdate: bool, p: Params, allowed: seq<string>,
                       opt: map<OptimizerOutputKey, string>, outs: EventNames): (r: FetchPlan)
    ensures r.status == Ok ==> r.names != [] || allowed == []
    ensures r.status.Error? ==>
      if doUpdate then r.status == Error(MissingIsFinite) || r.status == Error(MissingDeltaIsFinite)
      else r.status == Error(MissingAccumulation) && r.names == []
    ensures doUpdate && r.status.Error? ==> UpdateFetchBase(p.numPipelineStages, p.fetchNames, allowed) <= r.names
  {
    if doUpdate then
      var base := UpdateFetchBase(p.numPipelineStages, p.fetchNames, allowed);
      if !p.useMixedPrecision then WithFallback(base, allowed)
      else if GradientAllIsFinite !in opt then FetchPlan(base, Error(MissingIsFinite))
      else
        var withFinite := base + [opt[GradientAllIsFinite]];
        if !p.useAdasum then WithFallback(withFinite, allowed)
        else if DeltaAllIsFinite !in opt then FetchPlan(withFinite, Error(MissingDeltaIsFinite))
        else WithFallback(withFinite + [opt[DeltaAllIsFinite]], allowed)
    else if p.gradientAccumulationSteps > 1 && GradientAccumulation !in opt then
      FetchPlan([], Error(MissingAccumulation))
    else
      var acc := if p.gradientAccumulationSteps > 1 then [opt[GradientAccumulation]] else [];
      WithFallback(acc + (if p.numPipelineStages != 0 then EventOutputs(outs) else []), allowed)
  }

  /** The three error cases, and no other. */
  lemma FetchErrorCases(doUpdate: bool, p: Params, allowed: seq<string>,
                        opt: map<OptimizerOutputKey, string>, outs: EventNames)
    ensures PlanFetches(doUpdate, p, allowed, opt, outs).status.Error? <==>
      if doUpdate then
        p.useMixedPrecision &&
        (GradientAllIsFinite !in opt || (p.useAdasum && DeltaAllIsFinite !in opt))
      else p.gradientAccumulationSteps > 1 && GradientAccumulation !in opt
  {
  }

  /** On an update step the configured fetches come first, in their order,
      filtered by the allow-list when pipelined; mixed precision appends
      the all-finite output, and Adasum the delta all-finite output after it.
      When the all-finite output is missing the list built so far is
      returned with the error. */
  lemma UpdateStepFetches(p: Params, allowed: seq<string>,
                          opt: map<OptimizerOutputKey, string>, outs: EventNames)
    ensures var plan := PlanFetches(true, p, allowed, opt, outs);
      var base := UpdateFetchBase(p.numPipelineStages, p.fetchNames, allowed);
      Subsequence(base, p.fetchNames) &&
      (p.numPipelineStages > 1 ==> forall x :: x in base ==> x in allowed && x in p.fetchNames) &&
      (p.numPipelineStages <= 1 ==> base == p.fetchNames) &&
      (plan.names != allowed ==> plan.names[..|base|] == base) &&
      (plan.status == Ok && p.useMixedPrecision ==>
         plan.names == base + [opt[GradientAllIsFinite]] +
                       (if p.useAdasum then [opt[DeltaAllIsFinite]] else [])) &&
      (plan.status == Ok && !p.useMixedPrecision ==>
         plan.names == if base == [] then allowed else base) &&
      (p.useMixedPrecision && GradientAllIsFinite !in opt ==> plan.names == base)
  {
    var base := UpdateFetchBase(p.numPipelineStages, p.fetchNames, allowed);
    if p.numPipelineStages <= 1 {
      SubsequenceRefl(p.fetchNames);
    }
  }

  lemma {:induction false} SubsequenceRefl(s: seq<string>)
    ensures Subsequence(s, s)
  {
    if s != [] {
      SubsequenceRefl(s[1..]);
    }
  }

  /** On an accumulation step the accumulation output is fetched first
      exactly when the window is larger than one, the non-empty event
      outputs follow, and an empty result falls back to the allow-list. */
  lemma AccumulationStepFetches(p: Params, allowed: seq<string>,
                                opt: map<OptimizerOutputKey, string>, outs: EventNames)
    requires p.numPipelineStages >= 1
    ensures var plan := PlanFetches(false, p, allowed, opt, outs);
      (plan.status == Ok && p.gradientAccumulationSteps > 1 ==>
         plan.names == [opt[GradientAccumulation]] + EventOutputs(outs)) &&
      (p.gradientAccumulationSteps <= 1 ==>
         plan.status == Ok &&
         plan.names == if HasEvents(outs) then EventOutputs(outs) else allowed)
  {
  }

  // ---------------------------------------------------------------------
  // Counters, callback and checkpoint trigger
  // ---------------------------------------------------------------------

  /** Step `step` applies the optimizer when it closes an accumulation window. */
  predicate IsUpdateStep(step: nat, gas: nat)
    requires gas > 0
    ensures gas == 1 ==> IsUpdateStep(step, gas)
    ensures IsUpdateStep(step, gas) ==> step + 1 >= gas
  {
    (step + 1) % gas == 0
  }

  /** The number of update steps among the steps `a .. b-1`. */
  function UpdatesBetween(a: nat, b: nat, gas: nat): nat
    requires gas > 0
    decreases b
  {
    if b <= a then 0
    else UpdatesBetween(a, b - 1, gas) + (if IsUpdateStep(b - 1, gas) then 1 else 0)
  }

  /** At most one update per step, and exactly one per step when the window
      is a single step. */
  lemma {:induction false} UpdatesBounded(a: nat, b: nat, gas: nat)
    requires gas > 0 && a <= b
    ensures UpdatesBetween(a, b, gas) <= b - a
    ensures gas == 1 ==> UpdatesBetween(a, b, gas) == b - a
    decreases b
  {
    if b > a {
      UpdatesBounded(a, b - 1, gas);
    }
  }

  /** One more step adds one update exactly when it is an update step. */
  lemma UpdatesStep(a: nat, b: nat, gas: nat)
    requires gas > 0 && a <= b
    ensures UpdatesBetween(a, b + 1, gas) == UpdatesBetween(a, b, gas) + (if IsUpdateStep(b, gas) then 1 else 0)
  {
  }

  /** The updates of two consecutive step ranges add up to the updates of
      the whole range. */
  lemma {:induction false} UpdatesAppend(a: nat, b: nat, c: nat, gas: nat)
    requires gas > 0 && a <= b <= c
    ensures UpdatesBetween(a, c, gas) == UpdatesBetween(a, b, gas) + UpdatesBetween(b, c, gas)
    decreases c
  {
    if c > b {
      UpdatesAppend(a, b, c - 1, gas);
    }
  }

  lemma {:induction false} MulAtLeast(k: nat, d: nat)
    requires k >= 1
    ensures k * d >= d
  {
    if k > 1 {
      MulAtLeast(k - 1, d);
      assert k * d == (k - 1) * d + d;
    }
  }

  /** Division by a positive number is determined by quotient and remainder. */
  lemma DivModUnique(x: nat, d: nat, q: nat, r: nat)
    requires d > 0 && r < d && x == q * d + r
    ensures x / d == q && x % d == r
  {
    var q', r' := x / d, x % d;
    assert x == q' * d + r';
    if q' > q {
      MulGap(q, q', d);
      assert false;
    } else if q' < q {
      MulGap(q', q, d);
      assert false;
    }
  }

  /** A larger multiplier gives a product at least one `d` larger. */
  lemma MulGap(lo: nat, hi: nat, d: nat)
    requires lo < hi
    ensures hi * d >= lo * d + d
  {
    var k: nat := hi - lo;
    assert hi * d == lo * d + k * d;
    MulAtLeast(k, d);
  }

  /** One more step adds one to the quotient exactly when it closes a window. */
  lemma DivStep(m: nat, gas: nat)
    requires gas > 0
    ensures (m + 1) / gas == m / gas + (if (m + 1) % gas == 0 then 1 else 0)
  {
    var q, r := m / gas, m % gas;
    assert m == q * gas + r;
    if r + 1 == gas {
      DivModUnique(m + 1, gas, q + 1, 0);
    } else {
      DivModUnique(m + 1, gas, q, r + 1);
    }
  }

  /** From step 0, every `gas` steps make exactly one update. */
  lemma {:induction false} UpdatesFromStart(n: nat, gas: nat)
    requires gas > 0
    ensures UpdatesBetween(0, n, gas) == n / gas
  {
    if n > 0 {
      UpdatesFromStart(n - 1, gas);
      DivStep(n - 1, gas);
    }
  }

  /** With an accumulation window of 3 and 6 steps, exactly two updates happen,
      at the third and the sixth step; the other four fetch the
      accumulation buffer. */
  lemma SixStepsThreeWindow()
    ensures UpdatesBetween(0, 6, 3) == 2
    ensures forall s :: 0 <= s < 6 ==> (IsUpdateStep(s, 3) <==> s == 2 || s == 5)
  {
    UpdatesFromStart(6, 3);
  }

  /** The metric-callback condition exactly as C++ parses it:
      `stages == 1 || (last && !perf && count % display == 0)`. */
  predicate MetricCallbackDue(stages: nat, stageId: nat, ctxStages: nat, isPerfTest: bool,
                              weightUpdateStep: nat, displayLossSteps: nat)
    requires stages == 1 || stageId != ctxStages - 1 || isPerfTest || displayLossSteps > 0
    ensures MetricCallbackDue(stages, stageId, ctxStages, isPerfTest, weightUpdateStep, displayLossSteps) ==>
      stages == 1 || (stageId + 1 == ctxStages && !isPerfTest)
  {
    stages == 1 ||
    (stageId == ctxStages - 1 && !isPerfTest && weightUpdateStep % displayLossSteps == 0)
  }

  /** A single-stage run always reports, whatever the perf-test flag and the
      reporting period; a pipelined run reports only on its last stage, off
      perf tests and on the period. */
  lemma MetricCallbackCases(stages: nat, stageId: nat, ctxStages: nat, isPerfTest: bool,
                            weightUpdateStep: nat, displayLossSteps: nat)
    requires stages == 1 || stageId != ctxStages - 1 || isPerfTest || displayLossSteps > 0
    ensures stages == 1 ==>
      MetricCallbackDue(stages, stageId, ctxStages, isPerfTest, weightUpdateStep, displayLossSteps)
    ensures stages != 1 ==>
      (MetricCallbackDue(stages, stageId, ctxStages, isPerfTest, weightUpdateStep, displayLossSteps) <==>
       stageId + 1 == ctxStages && !isPerfTest && weightUpdateStep % displayLossSteps == 0)
  {
  }

  /** `enable_checkpoint_saving`. */
  predicate CheckpointSavingEnabled(worldRank: nat, hasRegistry: bool, period: nat)
  {
    worldRank == 0 && hasRegistry && period > 0
  }

  /** A checkpoint follows an update step whose already-incremented update
      count is a multiple of the period. */
  predicate CheckpointDue(worldRank: nat, hasRegistry: bool, period: nat,
                          isUpdate: bool, updateCountAfter: nat)
    ensures CheckpointDue(worldRank, hasRegistry, period, isUpdate, updateCountAfter) ==>
      worldRank == 0 && hasRegistry && isUpdate && (updateCountAfter == 0 || updateCountAfter >= period)
  {
    CheckpointSavingEnabled(worldRank, hasRegistry, period) && isUpdate &&
    updateCountAfter % period == 0
  }

  /** Checkpoint saving is enabled exactly when the update that completes
      the first period is due for a checkpoint; when it is disabled no
      step is ever due. */
  lemma CheckpointSavingGate(worldRank: nat, hasRegistry: bool, period: nat)
    ensures CheckpointSavingEnabled(worldRank, hasRegistry, period) <==>
      CheckpointDue(worldRank, hasRegistry, period, true, period)
    ensures !CheckpointSavingEnabled(worldRank, hasRegistry, period) ==>
      forall isUpdate: bool, count: nat :: !CheckpointDue(worldRank, hasRegistry, period, isUpdate, count)
  {
  }

  /** The update counts in `a+1 .. b` at which a checkpoint is written. */
  function CheckpointsBetween(a: nat, b: nat, period: nat): seq<nat>
    requires period > 0
    decreases b
  {
    if b <= a then []
    else CheckpointsBetween(a, b - 1, period) + (if b % period == 0 then [b] else [])
  }

  /** At most one checkpoint per update, and one after every update when
      the period is 1. */
  lemma {:induction false} CheckpointsBounded(a: nat, b: nat, period: nat)
    requires period > 0 && a <= b
    ensures |CheckpointsBetween(a, b, period)| <= b - a
    ensures period == 1 ==> |CheckpointsBetween(a, b, period)| == b - a
    decreases b
  {
    if b > a {
      CheckpointsBounded(a, b - 1, period);
    }
  }

  lemma {:induction false} CheckpointsBetweenFacts(a: nat, b: nat, period: nat)
    requires period > 0
    ensures forall i :: 0 <= i < |CheckpointsBetween(a, b, period)| ==>
      a < CheckpointsBetween(a, b, period)[i] <= b &&
      CheckpointsBetween(a, b, period)[i] % period == 0
    ensures forall i, j :: 0 <= i < j < |CheckpointsBetween(a, b, period)| ==>
      CheckpointsBetween(a, b, period)[i] < CheckpointsBetween(a, b, period)[j]
    ensures forall k :: a < k <= b && k % period == 0 ==> k in CheckpointsBetween(a, b, period)
    decreases b
  {
    if b > a {
      CheckpointsBetweenFacts(a, b - 1, period);
    }
  }

  /** The checkpoints of two consecutive update ranges make up the
      checkpoints of the whole range. */
  lemma {:induction false} CheckpointsAppend(a: nat, b: nat, c: nat, period: nat)
    requires period > 0 && a <= b <= c
    ensures CheckpointsBetween(a, c, period) ==
      CheckpointsBetween(a, b, period) + CheckpointsBetween(b, c, period)
    decreases c
  {
    if c > b {
      CheckpointsAppend(a, b, c - 1, period);
    }
  }

  /** With a period of 2, three updates write one checkpoint, at update 2. */
  lemma ThreeUpdatesPeriodTwo()
    ensures CheckpointsBetween(0, 3, 2) == [2]
  {
    assert CheckpointsBetween(0, 1, 2) == [];
    assert CheckpointsBetween(0, 2, 2) == [2];
  }

  // ---------------------------------------------------------------------
  // Checkpoint properties
  // ---------------------------------------------------------------------

  const StepKey := "step"
  const RoundKey := "round"
  const WeightUpdateStepKey := "weight_update_step"
  const TrainingDataSetIndexKey := "training_data_set_index"
  const LossScalerStateKey := "loss_scaler_state"

  /** The four counters of the runner. */
  datatype Counters = Counters(step: nat, round: nat, weightUpdateStep: nat, trainingDataSetIndex: nat)

  predicate Fits(c: Counters)
  {
    c.step < SizeLimit && c.round < SizeLimit &&
    c.weightUpdateStep < SizeLimit && c.trainingDataSetIndex < SizeLimit
  }

  /** `SaveCheckpointProperties`: the counters as decimal text, and the loss
      scaler's own text when there is a loss scaler. */
  function SaveProperties(c: Counters, scalerState: Option<string>): (m: map<string, string>)
    ensures m.Keys == {StepKey, RoundKey, WeightUpdateStepKey, TrainingDataSetIndexKey} +
                      (if scalerState.Some? then {LossScalerStateKey} else {})
    ensures scalerState.Some? ==> m[LossScalerStateKey] == scalerState.value
  {
    var m := map[StepKey := ToDecimal(c.step), RoundKey := ToDecimal(c.round),
                 WeightUpdateStepKey := ToDecimal(c.weightUpdateStep),
                 TrainingDataSetIndexKey := ToDecimal(c.trainingDataSetIndex)];
    if scalerState.Some? then m[LossScalerStateKey := scalerState.value] else m
  }

  /** One `load_property`: a missing key fails and leaves the field alone;
      otherwise `FromString` stores into the field and may still fail. */
  function LoadProperty(props: map<string, string>, key: string, current: nat): (r: Read)
    ensures r.ok ==> key in props && r.stored < SizeLimit
    ensures key !in props || SkipSpace(props[key]) == [] ==> r == Read(current, false)
  {
    if key in props then FromString(props[key], current) else Read(current, false)
  }

  datatype CountersLoad = CountersLoad(counters: Counters, ok: bool)

  /** The counter part of `LoadCheckpointProperties`: the four fields are
      loaded in order and the first failure stops, keeping what was already
      written (including the failing field's stored value). */
  function LoadCounters(props: map<string, string>, c: Counters): (r: CountersLoad)
    ensures r.ok ==> Fits(r.counters)
    ensures r.ok ==>
      StepKey in props && RoundKey in props && WeightUpdateStepKey in props && TrainingDataSetIndexKey in props
    ensures StepKey !in props ==> r == CountersLoad(c, false)
  {
    var s := LoadProperty(props, StepKey, c.step);
    var c1 := c.(step := s.stored);
    if !s.ok then CountersLoad(c1, false) else
    var r := LoadProperty(props, RoundKey, c.round);
    var c2 := c1.(round := r.stored);
    if !r.ok then CountersLoad(c2, false) else
    var w := LoadProperty(props, WeightUpdateStepKey, c.weightUpdateStep);
    var c3 := c2.(weightUpdateStep := w.stored);
    if !w.ok then CountersLoad(c3, false) else
    var i := LoadProperty(props, TrainingDataSetIndexKey, c.trainingDataSetIndex);
    CountersLoad(c3.(trainingDataSetIndex := i.stored), i.ok)
  }

  /** Saving and loading the properties restores the four counters. */
  lemma PropertiesRoundTrip(c: Counters, scalerState: Option<string>, before: Counters)
    requires Fits(c)
    ensures LoadCounters(SaveProperties(c, scalerState), before) == CountersLoad(c, true)
  {
    var props := SaveProperties(c, scalerState);
    assert props[StepKey] == ToDecimal(c.step);
    assert props[RoundKey] == ToDecimal(c.round);
    assert props[WeightUpdateStepKey] == ToDecimal(c.weightUpdateStep);
    assert props[TrainingDataSetIndexKey] == ToDecimal(c.trainingDataSetIndex);
    DecimalRoundTrip(c.step);
    DecimalRoundTrip(c.round);
    DecimalRoundTrip(c.weightUpdateStep);
    DecimalRoundTrip(c.trainingDataSetIndex);
    var l1 := LoadProperty(props, StepKey, before.step);
    assert l1 == Read(c.step, true);
    var l2 := LoadProperty(props, RoundKey, before.round);
    assert l2 == Read(c.round, true);
    var l3 := LoadProperty(props, WeightUpdateStepKey, before.weightUpdateStep);
    assert l3 == Read(c.weightUpdateStep, true);
    var l4 := LoadProperty(props, TrainingDataSetIndexKey, before.trainingDataSetIndex);
    assert l4 == Read(c.trainingDataSetIndex, true);
  }

  /** Any of the four keys missing makes the load fail. */
  lemma MissingCounterKeyFails(props: map<string, string>, c: Counters, key: string)
    requires key in {StepKey, RoundKey, WeightUpdateStepKey, TrainingDataSetIndexKey}
    requires key !in props
    ensures !LoadCounters(props, c).ok
  {
  }

  /** A value with text after its digits fails the load, although the value
      read has been stored in the counter. */
  lemma TrailingTextFailsLoad(props: map<string, string>, c: Counters, n: nat, rest: string)
    requires n < SizeLimit && rest != [] && !IsDigit(rest[0])
    requires StepKey in props && props[StepKey] == ToDecimal(n) + rest
    ensures LoadCounters(props, c) == CountersLoad(c.(step := n), false)
  {
    TrailingTextRejected(n, rest, c.step);
  }

  /** A blank step value fails the load before anything is stored, so every
      counter keeps its value. */
  lemma BlankStepKeepsCounters(props: map<string, string>, c: Counters)
    requires StepKey in props && forall i :: 0 <= i < |props[StepKey]| ==> IsSpace(props[StepKey][i])
    ensures LoadCounters(props, c) == CountersLoad(c, false)
  {
    BlankKeepsTarget(props[StepKey], c.step);
  }

  /** A step saved as "-1" loads as the largest `size_t`, and the load goes
      on to the round. */
  lemma MinusOneStepLoads(props: map<string, string>, c: Counters)
    requires StepKey in props && props[StepKey] == "-1" && RoundKey !in props
    ensures LoadCounters(props, c) == CountersLoad(c.(step := SizeLimit - 1), false)
  {
    MinusOneIsLargest(c.step);
  }

  /** Loading is not atomic: when the update-count key is missing, the step
      and round already read stay overwritten. */
  lemma LoadIsNotAtomic(c: Counters, saved: Counters)
    requires Fits(saved)
    ensures var props := SaveProperties(saved, None) - {WeightUpdateStepKey};
      LoadCounters(props, c) ==
        CountersLoad(Counters(saved.step, saved.round, c.weightUpdateStep, c.trainingDataSetIndex), false)
  {
    DecimalRoundTrip(saved.step);
    DecimalRoundTrip(saved.round);
    var props := SaveProperties(saved, None) - {WeightUpdateStepKey};
    assert StepKey in props && props[StepKey] == ToDecimal(saved.step);
    assert RoundKey in props && props[RoundKey] == ToDecimal(saved.round);
    assert WeightUpdateStepKey !in props;
  }
}
