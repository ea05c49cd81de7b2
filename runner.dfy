/** The state of `TrainingRunner` and the methods of the training loop that
    change it. The engine, the data loader's shards, the loss scaler, the
    checkpoint registry and the file system are reached only through the
    values they hand back, which come in as parameters or as fields of an
    `Env`. */
module Runner {
  import opened Common
  import opened Decimal
  import opened RunnerSpec

  // ---------------------------------------------------------------------
  // The data loader
  // ---------------------------------------------------------------------

  /** The training data loader as the loop sees it: a ring of shards, each
      either failed to load (`None`) or holding a number of batches of the
      configured batch size, and a cursor on the current shard. */
  class DataLoader {
    const tensorNames: seq<string>
    const shards: seq<Option<nat>>
    var index: nat

    predicate Valid()
      reads this`index
    {
      |shards| == 0 || index < |shards|
    }

    constructor (tensorNames: seq<string>, shards: seq<Option<nat>>)
      ensures this.tensorNames == tensorNames && this.shards == shards && index == 0
      ensures Valid()
    {
      this.tensorNames := tensorNames;
      this.shards := shards;
      index := 0;
    }

    /** `InitializeDataSetIndex`: an index past the last shard is refused. */
    method InitializeDataSetIndex(i: nat) returns (s: Status)
      requires Valid()
      modifies this`index
      ensures Valid()
      ensures i < |shards| ==> s == Ok && index == i
      ensures i >= |shards| ==> s.Error? && index == old(index)
    {
      if i < |shards| {
        index := i;
        s := Ok;
      } else {
        s := Error("data set index out of range");
      }
    }

    /** `CurrentDataSet`: the shard under the cursor, one of the ring's. */
    function CurrentDataSet(): (r: Option<nat>)
      reads this`index
      requires Valid() && |shards| > 0
      ensures r in shards && r == shards[index]
    {
      shards[index]
    }

    /** `MoveToNextDataSet`: the cursor moves to the next shard, wrapping
        around after the last one. */
    method MoveToNextDataSet()
      requires Valid() && |shards| > 0
      modifies this`index
      ensures Valid()
      ensures index == (old(index) + 1) % |shards|
    {
      index := (index + 1) % |shards|;
    }
  }

  /** A shard that gives the loop nothing to train on. */
  predicate Idle(shard: Option<nat>)
  {
    shard.None? || shard.value == 0
  }

  // ---------------------------------------------------------------------
  // Runner state
  // ---------------------------------------------------------------------

  /** What a pipeline worker slot runs: `worker_states[worker_id]`. */
  datatype WorkerState = WorkerState(feedNames: seq<string>, feeds: seq<Value>,
                                     fetchNames: seq<string>, fetches: seq<Value>)

  const EmptyWorker := WorkerState([], [], [], [])

  /** One call of the error function or of the post-evaluation callback. */
  datatype Callback =
    | ErrorFunction(weightUpdateStep: nat)
    | PostEvaluation(batchSize: nat, weightUpdateStep: nat, tag: string)

  /** What the checkpoint step did to the file system: an old checkpoint
      folder deleted (with the status of the delete), a checkpoint saved. */
  datatype CheckpointEvent =
    | Deleted(path: string, ok: bool)
    | Saved(path: string, weightUpdateStep: nat, properties: map<string, string>)

  /** The update counts of the saved checkpoints, in order. */
  function SavedCounts(log: seq<CheckpointEvent>): (r: seq<nat>)
    ensures |r| <= |log|
  {
    if log == [] then []
    else
      var last := log[|log| - 1];
      SavedCounts(log[..|log| - 1]) + (if last.Saved? then [last.weightUpdateStep] else [])
  }

  lemma SavedCountsPush(log: seq<CheckpointEvent>, e: CheckpointEvent)
    ensures SavedCounts(log + [e]) == SavedCounts(log) + (if e.Saved? then [e.weightUpdateStep] else [])
  {
    assert (log + [e])[..|log|] == log;
  }

  lemma SavedCountsAppend(log: seq<CheckpointEvent>, more: seq<CheckpointEvent>)
    ensures SavedCounts(log + more) == SavedCounts(log) + SavedCounts(more)
    decreases |more|
  {
    if more == [] {
      assert log + more == log;
    } else {
      var n := |more| - 1;
      assert (log + more)[..|log + more| - 1] == log + more[..n];
      SavedCountsAppend(log, more[..n]);
    }
  }

  /** The checkpoints saved over two consecutive update ranges chain into
      those of the whole range. */
  lemma ChainCheckpoints(s0: seq<nat>, sB: seq<nat>, s1: seq<nat>, a: nat, b: nat, c: nat, period: nat)
    requires period > 0 && a <= b <= c
    requires sB == s0 + CheckpointsBetween(a, b, period)
    requires s1 == sB + CheckpointsBetween(b, c, period)
    ensures s1 == s0 + CheckpointsBetween(a, c, period)
  {
    CheckpointsAppend(a, b, c, period);
  }

  /** The calls made when the metric callback is due, for update count `w`. */
  function CallbackCalls(p: Params, w: nat): (r: seq<Callback>)
    ensures |r| == (if p.hasErrorFunction then 1 else 0) + (if p.hasPostEvaluationCallback then 1 else 0)
  {
    (if p.hasErrorFunction then [ErrorFunction(w)] else []) +
    (if p.hasPostEvaluationCallback then [PostEvaluation(p.batchSize, w, "train")] else [])
  }

  /** The registry's answer to `AddCheckpoint`. */
  datatype Registration = Registration(ok: bool, newPath: string, removeOld: bool, oldPath: string)

  /** Moving on from a wrapped index is moving on from the unwrapped one. */
  lemma ModNext(a: nat, n: nat)
    requires n > 0
    ensures (a % n + 1) % n == (a + 1) % n
  {
    var q := a / n;
    var r := a % n;
    assert a == q * n + r;
    if r + 1 < n {
      DivModUnique(a + 1, n, q, r + 1);
      DivModUnique(r + 1, n, 0, r + 1);
    } else {
      assert a + 1 == (q + 1) * n;
      DivModUnique(a + 1, n, q + 1, 0);
      DivModUnique(r + 1, n, 1, 0);
    }
  }

  /** `n` consecutive positions from `start`, wrapped, reach every index:
      `j` is the offset that reaches `i`. */
  lemma CoverAll(start: nat, n: nat, i: nat) returns (j: nat)
    requires n > 0 && i < n
    ensures j < n && (start + j) % n == i
  {
    var q := start / n;
    var r := start % n;
    assert start == q * n + r;
    if r <= i {
      j := i - r;
      DivModUnique(start + j, n, q, i);
    } else {
      j := n - r + i;
      assert (q + 1) * n + i == start + j;
      DivModUnique(start + j, n, q + 1, i);
    }
  }

  /** The shard visited `j` moves after shard `start` among `n`. */
  function Wrapped(start: nat, j: nat, n: nat): (r: nat)
    requires n > 0
    ensures r < n
  {
    (start + j) % n
  }

  /** After `it` moves of a pass that began at `start` and has not trained
      yet, the cursor is `it` places on and every shard passed was idle. */
  ghost predicate IdlePass(shards: seq<Option<nat>>, start: nat, it: nat, index: nat)
  {
    |shards| > 0 && index == Wrapped(start, it, |shards|) &&
    forall j :: 0 <= j < it ==> Idle(shards[Wrapped(start, j, |shards|)])
  }

  lemma IdlePassStep(shards: seq<Option<nat>>, start: nat, it: nat, index: nat)
    requires IdlePass(shards, start, it, index) && Idle(shards[index])
    ensures IdlePass(shards, start, it + 1, (index + 1) % |shards|)
  {
    var n := |shards|;
    ModNext(start + it, n);
    IdleExtend(shards, start, it);
  }

  lemma IdleExtend(shards: seq<Option<nat>>, start: nat, it: nat)
    requires |shards| > 0
    requires forall j :: 0 <= j < it ==> Idle(shards[Wrapped(start, j, |shards|)])
    requires Idle(shards[Wrapped(start, it, |shards|)])
    ensures forall j :: 0 <= j < it + 1 ==> Idle(shards[Wrapped(start, j, |shards|)])
  {
  }

  /** A pass of `|shards|` moves that saw only idle shards saw that every
      shard is idle. */
  lemma AllIdle(shards: seq<Option<nat>>, start: nat, index: nat)
    requires IdlePass(shards, start, |shards|, index)
    ensures forall i :: 0 <= i < |shards| ==> Idle(shards[i])
  {
    forall i | 0 <= i < |shards|
      ensures Idle(shards[i])
    {
      var j := CoverAll(start, |shards|, i);
      assert Wrapped(start, j, |shards|) == i;
    }
  }

  /** The collaborators of the training loop, by what they answer. Each
      answer is indexed by the step or update count at which it is asked. */
  datatype Env = Env(
    allFinite: nat -> bool,          // the fetched all-finite flag of an update run, by step
    hasTestLoader: bool,
    testLoaderInitOk: bool,          // `test_data_loader->InitializeDataSetIndex(0)`
    evaluateOk: nat -> bool,         // the status of `Evaluate`, by step
    register: nat -> Registration,   // `checkpoint_registry_->AddCheckpoint`, by update count
    folderExists: nat -> bool,       // `FolderExists(checkpoints_dir)`, by update count
    createFolderOk: nat -> bool,     // `CreateFolder(checkpoints_dir)`, by update count
    deleteOk: string -> bool,        // `DeleteFolder(old_checkpoint_path)`
    saveOk: nat -> bool,             // state tensors read and model checkpoint written, by update count
    scalerText: nat -> string)       // `loss_scaler_->SaveToString()`, by update count

  /** The pipeline context the configuration result installs: the event
      input and output names and the allow-lists of this stage. */
  datatype StageConfiguration = StageConfiguration(
    eventNames: EventNames, outputNames: EventNames,
    feedNames: seq<string>, fetchNames: seq<string>)

  /** Pushing one feed pushes its name and its value. */
  lemma PushFeed(acc: seq<Feed>, f: Feed)
    ensures Names(acc + [f]) == Names(acc) + [f.name]
    ensures Values(acc + [f]) == Values(acc) + [f.value]
  {
    NamesAppend(acc, [f]);
    ValuesAppend(acc, [f]);
  }

  lemma ValuesAppend(a: seq<Feed>, b: seq<Feed>)
    ensures Values(a + b) == Values(a) + Values(b)
  {
  }

  /** The data-feed loop of `PrepareFeedNamesAndFeeds`: the `i`-th loader
      tensor name goes with the `i`-th tensor of the batch, when admitted. */
  method CollectDataFeeds(tensorNames: seq<string>, batch: nat, stages: nat, allowed: seq<string>)
    returns (feedNames: seq<string>, feeds: seq<Value>)
    ensures feedNames == Names(DataFeeds(tensorNames, batch, stages, allowed))
    ensures feeds == Values(DataFeeds(tensorNames, batch, stages, allowed))
  {
    feedNames, feeds := [], [];
    var i := 0;
    while i < |tensorNames|
      invariant 0 <= i <= |tensorNames|
      invariant feedNames == Names(DataFeeds(tensorNames[..i], batch, stages, allowed))
      invariant feeds == Values(DataFeeds(tensorNames[..i], batch, stages, allowed))
    {
      var name := tensorNames[i];
      ghost var before := DataFeeds(tensorNames[..i], batch, stages, allowed);
      assert tensorNames[..i + 1][..i] == tensorNames[..i];
      if stages == 1 || name in allowed {
        PushFeed(before, Feed(name, DataTensor(batch, i)));
        feedNames := feedNames + [name];
        feeds := feeds + [DataTensor(batch, i)];
      } else {
        assert DataFeeds(tensorNames[..i + 1], batch, stages, allowed) == before + [];
      }
      i := i + 1;
    }
    assert tensorNames[..i] == tensorNames;
  }

  /** One optional push of `PrepareFeedNamesAndFeeds`: the name and the
      value of `f` go in together, when `keep` holds. */
  method PushFeedIf(names0: seq<string>, feeds0: seq<Value>, ghost acc: seq<Feed>, keep: bool, f: Feed,
                    ghost added: seq<Feed>)
    returns (feedNames: seq<string>, feeds: seq<Value>)
    requires names0 == Names(acc) && feeds0 == Values(acc)
    requires added == if keep then [f] else []
    ensures feedNames == Names(acc + added)
    ensures feeds == Values(acc + added)
  {
    feedNames, feeds := names0, feeds0;
    if keep {
      PushFeed(acc, f);
      feedNames := feedNames + [f.name];
      feeds := feeds + [f.value];
    } else {
      assert acc + [] == acc;
    }
  }

  /** The four event-id pushes of `PrepareFeedNamesAndFeeds`, each done only
      when its name is non-empty. */
  method EventIdFeeds(e: EventNames, stage: nat, slot: nat)
    returns (feedNames: seq<string>, feeds: seq<Value>)
    ensures feedNames == Names(EventFeeds(e, stage, slot))
    ensures feeds == Values(EventFeeds(e, stage, slot))
  {
    var f1 := EventFeed(e.forwardWaited, ForwardWaited, stage, slot);
    var f2 := EventFeed(e.forwardRecorded, ForwardRecorded, stage, slot);
    var f3 := EventFeed(e.backwardWaited, BackwardWaited, stage, slot);
    assert [] + f1 == f1;
    feedNames, feeds := PushFeedIf([], [], [], e.forwardWaited != [],
                                   Feed(e.forwardWaited, EventId(ForwardWaited, stage, slot)), f1);
    feedNames, feeds := PushFeedIf(feedNames, feeds, f1, e.forwardRecorded != [],
                                   Feed(e.forwardRecorded, EventId(ForwardRecorded, stage, slot)), f2);
    feedNames, feeds := PushFeedIf(feedNames, feeds, f1 + f2, e.backwardWaited != [],
                                   Feed(e.backwardWaited, EventId(BackwardWaited, stage, slot)), f3);
    feedNames, feeds := PushFeedIf(feedNames, feeds, f1 + f2 + f3, e.backwardRecorded != [],
                                   Feed(e.backwardRecorded, EventId(BackwardRecorded, stage, slot)),
                                   EventFeed(e.backwardRecorded, BackwardRecorded, stage, slot));
  }

  /** The allow-list filter of the update-step fetches. */
  method FilterAllowed(configured: seq<string>, allowed: seq<string>) returns (r: seq<string>)
    ensures r == KeepIn(configured, allowed)
  {
    r := [];
    var i := 0;
    while i < |configured|
      invariant 0 <= i <= |configured|
      invariant r == KeepIn(configured[..i], allowed)
    {
      PrefixStep(configured, i, allowed);
      if configured[i] in allowed {
        r := r + [configured[i]];
      }
      i := i + 1;
    }
    assert configured[..i] == configured;
  }

  /** The update-step branch of `PrepareFetchNamesAndFetches`. */
  method UpdateStepFetchNames(p: Params, allowed: seq<string>, opt: map<OptimizerOutputKey, string>)
    returns (plan: FetchPlan)
    ensures plan == PlanFetches(true, p, allowed, opt, NoEvents)
  {
    var fetchNames;
    if p.numPipelineStages > 1 {
      fetchNames := FilterAllowed(p.fetchNames, allowed);
    } else {
      fetchNames := p.fetchNames;
    }
    if p.useMixedPrecision {
      if GradientAllIsFinite !in opt {
        return FetchPlan(fetchNames, Error(MissingIsFinite));
      }
      fetchNames := fetchNames + [opt[GradientAllIsFinite]];
      if p.useAdasum {
        if DeltaAllIsFinite !in opt {
          return FetchPlan(fetchNames, Error(MissingDeltaIsFinite));
        }
        fetchNames := fetchNames + [opt[DeltaAllIsFinite]];
      }
    }
    if fetchNames == [] {
      fetchNames := allowed;
    }
    plan := FetchPlan(fetchNames, Ok);
  }

  /** One push of an event output name, done only when it is non-empty. */
  method PushIfNamed(r0: seq<string>, ghost pre: seq<string>, ghost pushed: seq<string>, name: string)
    returns (r: seq<string>)
    requires r0 == pre + pushed
    ensures r == pre + (pushed + (if name != [] then [name] else []))
  {
    r := r0;
    if name != [] {
      r := r + [name];
      assert r == pre + (pushed + [name]);
    } else {
      assert pushed + [] == pushed;
    }
  }

  /** The pushes of the non-empty event output names. */
  method PushEventOutputs(names: seq<string>, outs: EventNames) returns (r: seq<string>)
    ensures r == names + EventOutputs(outs)
  {
    var o1 := if outs.forwardWaited != [] then [outs.forwardWaited] else [];
    var o2 := if outs.forwardRecorded != [] then [outs.forwardRecorded] else [];
    var o3 := if outs.backwardWaited != [] then [outs.backwardWaited] else [];
    assert names == names + [];
    r := PushIfNamed(names, names, [], outs.forwardWaited);
    assert [] + o1 == o1;
    r := PushIfNamed(r, names, o1, outs.forwardRecorded);
    r := PushIfNamed(r, names, o1 + o2, outs.backwardWaited);
    r := PushIfNamed(r, names, o1 + o2 + o3, outs.backwardRecorded);
  }

  /** The accumulation-step branch of `PrepareFetchNamesAndFetches`. */
  method AccumulationStepFetchNames(p: Params, allowed: seq<string>, opt: map<OptimizerOutputKey, string>,
                                    outs: EventNames)
    returns (plan: FetchPlan)
    ensures plan == PlanFetches(false, p, allowed, opt, outs)
  {
    var fetchNames := [];
    if p.gradientAccumulationSteps > 1 {
      if GradientAccumulation !in opt {
        return FetchPlan(fetchNames, Error(MissingAccumulation));
      }
      fetchNames := fetchNames + [opt[GradientAccumulation]];
    }
    if p.numPipelineStages != 0 {
      fetchNames := PushEventOutputs(fetchNames, outs);
    }
    if fetchNames == [] {
      fetchNames := allowed;
    }
    plan := FetchPlan(fetchNames, Ok);
  }

  class TrainingRunner {
    var step: nat
    var round: nat
    var weightUpdateStepCount: nat
    var trainingDataSetIndex: nat
    var params: Params
    var pipeline: PipelineContext
    /** The loss scaler, by the name of its input; `None` without mixed precision. */
    var lossScaler: Option<string>
    /** The flags passed to `UpdateLossScale`, in order. */
    var lossScaleUpdates: seq<bool>
    /** The texts passed to `LoadFromString`, in order. */
    var lossScalerLoads: seq<string>
    var optGraphOutputs: map<OptimizerOutputKey, string>
    var hasRegistry: bool
    var workers: seq<WorkerState>
    /** Whether a worker thread may still be running in each slot. */
    ghost var busy: seq<bool>
    var callbacks: seq<Callback>
    var checkpointLog: seq<CheckpointEvent>
    /** The steps after which the test set was evaluated. */
    var evaluations: seq<nat>

    /** The worker pool has one slot per pipeline stage, the context counts
        the same stages, and event names exist only when pipelined. */
    ghost predicate Valid()
      reads this`params, this`pipeline, this`workers, this`busy
    {
      params.numPipelineStages >= 1 &&
      pipeline.numPipelineStages == params.numPipelineStages &&
      |workers| == params.numPipelineStages && |busy| == |workers| &&
      (HasEvents(pipeline.eventNames) ==> params.numPipelineStages > 1)
    }

    /** No worker thread is running: every slot has been joined. */
    ghost predicate AllJoined()
      reads this`busy
    {
      forall i :: 0 <= i < |busy| ==> !busy[i]
    }

    /** What is saved for the loss scaler, given the text it writes. */
    function ScalerState(scalerText: string): Option<string>
      reads this`lossScaler
    {
      if lossScaler.Some? then Some(scalerText) else None
    }

    function Counts(): Counters
      reads this`step, this`round, this`weightUpdateStepCount, this`trainingDataSetIndex
    {
      Counters(step, round, weightUpdateStepCount, trainingDataSetIndex)
    }

    /** The constructor: the guards of `ConstructorCheck` must hold (otherwise
        it throws), and the pipeline context is set up from the parameters. */
    constructor (p: Params)
      requires ConstructorCheck(p) == Ok
      requires p.numPipelineStages >= 1
      ensures Valid()
      ensures step == 0 && round == 0 && weightUpdateStepCount == 0 && trainingDataSetIndex == 0
      ensures params == p && pipeline == InitialPipelineContext(p)
      ensures lossScaler == None && optGraphOutputs == map[] && !hasRegistry
      ensures workers == seq(p.numPipelineStages, _ => EmptyWorker)
      ensures busy == seq(p.numPipelineStages, _ => false)
      ensures lossScaleUpdates == [] && lossScalerLoads == [] && callbacks == [] &&
              checkpointLog == [] && evaluations == []
    {
      step := 0;
      round := 0;
      weightUpdateStepCount := 0;
      trainingDataSetIndex := 0;
      params := p;
      pipeline := InitialPipelineContext(p);
      lossScaler := None;
      lossScaleUpdates := [];
      lossScalerLoads := [];
      optGraphOutputs := map[];
      hasRegistry := false;
      workers := seq(p.numPipelineStages, _ => EmptyWorker);
      busy := seq(p.numPipelineStages, _ => false);
      callbacks := [];
      checkpointLog := [];
      evaluations := [];
    }

    /** What `Initialize` takes from the configuration result: the loss
        scaler's input name, the optimizer outputs, and, when pipelined, the
        event names and the stage's allow-lists; and whether a checkpoint
        directory was configured. */
    method ApplyConfigurationResult(lossScaleInputName: Option<string>,
                                    opt: map<OptimizerOutputKey, string>,
                                    stage: StageConfiguration)
      requires Valid()
      modifies this`lossScaler, this`optGraphOutputs, this`pipeline, this`hasRegistry
      ensures Valid()
      ensures lossScaler == lossScaleInputName && optGraphOutputs == opt
      ensures hasRegistry == (params.checkpointsDir != [])
      ensures params.numPipelineStages > 1 ==>
        pipeline == old(pipeline).(eventNames := stage.eventNames, outputNames := stage.outputNames,
                                   feedNames := stage.feedNames, fetchNames := stage.fetchNames)
      ensures params.numPipelineStages <= 1 ==> pipeline == old(pipeline)
{
      lossScaler := lossScaleInputName;
      optGraphOutputs := opt;
      if params.numPipelineStages > 1 {
        pipeline := pipeline.(eventNames := stage.eventNames, outputNames := stage.outputNames,
                              feedNames := stage.feedNames, fetchNames := stage.fetchNames);
      }
      hasRegistry := params.checkpointsDir != [];
    }

    /** `UpdateParams`. */
    method UpdateParams(q: Params)
      requires Valid()
      modifies this`params
      ensures Valid()
      ensures params == UpdatedParams(old(params), q)
{
      params := params.(initialLr := q.initialLr, warmupRatio := q.warmupRatio,
                        numTrainSteps := q.numTrainSteps, batchSize := q.batchSize,
                        gradientAccumulationSteps := q.gradientAccumulationSteps);
    }

    // -------------------------------------------------------------------
    // Checkpoint properties
    // -------------------------------------------------------------------

    /** `SaveCheckpointProperties`; `scalerText` is what the loss scaler's
        `SaveToString` returns. */
    method SaveCheckpointProperties(scalerText: string) returns (props: map<string, string>)
      ensures props == SaveProperties(Counts(), ScalerState(scalerText))
    {
      props := map[];
      props := props[StepKey := ToDecimal(step)];
      props := props[RoundKey := ToDecimal(round)];
      props := props[WeightUpdateStepKey := ToDecimal(weightUpdateStepCount)];
      props := props[TrainingDataSetIndexKey := ToDecimal(trainingDataSetIndex)];
      if lossScaler.Some? {
        props := props[LossScalerStateKey := scalerText];
      }
    }

    /** The four `load_property` calls of `LoadCheckpointProperties` on the
        counters, in order, the first failure ending them: the counters and
        the outcome are those of `LoadCounters`. */
    method LoadCounterProperties(props: map<string, string>) returns (ok: bool)
      modifies this`step, this`round, this`weightUpdateStepCount, this`trainingDataSetIndex
      ensures LoadCounters(props, old(Counts())) == CountersLoad(Counts(), ok)
    {
      ghost var c0 := Counts();
      var r := LoadProperty(props, StepKey, step);
      step := r.stored;
      if !r.ok {
        return false;
      }
      r := LoadProperty(props, RoundKey, round);
      round := r.stored;
      if !r.ok {
        return false;
      }
      r := LoadProperty(props, WeightUpdateStepKey, weightUpdateStepCount);
      weightUpdateStepCount := r.stored;
      if !r.ok {
        return false;
      }
      r := LoadProperty(props, TrainingDataSetIndexKey, trainingDataSetIndex);
      trainingDataSetIndex := r.stored;
      ok := r.ok;
    }

    /** `LoadCheckpointProperties`: the four counters are loaded in turn as
        `LoadCounters` says, then the loss scaler's text, which must be
        present; `scalerLoadOk` is the status of `LoadFromString`. */
    method LoadCheckpointProperties(props: map<string, string>, scalerLoadOk: bool) returns (s: Status)
      modifies this`step, this`round, this`weightUpdateStepCount, this`trainingDataSetIndex,
               this`lossScalerLoads
      ensures var l := LoadCounters(props, old(Counts()));
        Counts() == l.counters &&
        (s == Ok <==> l.ok && (lossScaler.Some? ==> LossScalerStateKey in props && scalerLoadOk)) &&
        lossScalerLoads == old(lossScalerLoads) +
          (if l.ok && lossScaler.Some? && LossScalerStateKey in props then [props[LossScalerStateKey]] else [])
    {
      ghost var l := LoadCounters(props, Counts());
      var ok := LoadCounterProperties(props);
      assert Counts() == l.counters && ok == l.ok;
      if !ok {
        return Error("counter property not loaded");
      }
      s := LoadScalerState(props, scalerLoadOk);
    }

    /** The loss-scaler part of `LoadCheckpointProperties`: with a scaler,
        its text must be present and is passed to `LoadFromString`, whose
        status `scalerLoadOk` is. */
    method LoadScalerState(props: map<string, string>, scalerLoadOk: bool) returns (s: Status)
      modifies this`lossScalerLoads
      ensures s == Ok <==> (lossScaler.Some? ==> LossScalerStateKey in props && scalerLoadOk)
      ensures lossScalerLoads == old(lossScalerLoads) +
        (if lossScaler.Some? && LossScalerStateKey in props then [props[LossScalerStateKey]] else [])
    {
      if lossScaler.Some? {
        if LossScalerStateKey !in props { return Error("loss_scaler_state"); }
        lossScalerLoads := lossScalerLoads + [props[LossScalerStateKey]];
        if !scalerLoadOk { return Error("loss scaler state not loaded"); }
      }
      s := Ok;
    }

    // -------------------------------------------------------------------
    // Feeds and fetches of one step
    // -------------------------------------------------------------------

    /** `PrepareFeedNamesAndFeeds` for batch `batch` of the current shard,
        whose tensors are named `tensorNames`: the names and values are those
        of `ExpectedFeeds`, pushed in pairs so the two lists stay aligned. */
    method PrepareFeedNamesAndFeeds(tensorNames: seq<string>, batch: nat)
      returns (feedNames: seq<string>, feeds: seq<Value>)
      requires Valid()
      requires HasEvents(pipeline.eventNames) ==> pipeline.numGradientAccumulationSteps > 0
      ensures var r := ExpectedFeeds(tensorNames, batch, lossScaler, params.lrFeedName, step,
                                     params.numPipelineStages, pipeline);
        feedNames == Names(r) && feeds == Values(r)
    {
      var stages := params.numPipelineStages;
      var allowed := pipeline.feedNames;
      ghost var d, sc, lr, ev := FeedParts(tensorNames, batch, lossScaler, params.lrFeedName, step,
                                           stages, pipeline);
      feedNames, feeds := CollectDataFeeds(tensorNames, batch, stages, allowed);
      if lossScaler.Some? {
        feedNames, feeds := PushFeedIf(feedNames, feeds, d, stages == 1 || lossScaler.value in allowed,
                                       Feed(lossScaler.value, LossScale), sc);
      } else {
        assert d + sc == d;
      }
      var lrName := params.lrFeedName;
      feedNames, feeds := PushFeedIf(feedNames, feeds, d + sc, stages == 1 || lrName in allowed,
                                     Feed(lrName, LearningRate(step + 1)), lr);
      var evNames, evValues := EventIdFeeds(pipeline.eventNames, pipeline.pipelineStageId,
                                            if HasEvents(pipeline.eventNames)
                                            then step % pipeline.numGradientAccumulationSteps else 0);
      NamesAppend(d + sc + lr, ev);
      ValuesAppend(d + sc + lr, ev);
      feedNames := feedNames + evNames;
      feeds := feeds + evValues;
    }

    /** `PrepareFetchNamesAndFetches`: the names and status are those of
        `PlanFetches`, and the fetch values start empty. */
    method PrepareFetchNamesAndFetches(doUpdate: bool)
      returns (fetchNames: seq<string>, fetches: seq<Value>, s: Status)
      ensures FetchPlan(fetchNames, s) ==
        PlanFetches(doUpdate, params, pipeline.fetchNames, optGraphOutputs, pipeline.outputNames)
      ensures fetches == []
    {
      fetches := [];
      var plan;
      if doUpdate {
        plan := UpdateStepFetchNames(params, pipeline.fetchNames, optGraphOutputs);
      } else {
        plan := AccumulationStepFetchNames(params, pipeline.fetchNames, optGraphOutputs, pipeline.outputNames);
      }
      fetchNames, s := plan.names, plan.status;
    }

    // -------------------------------------------------------------------
    // Worker slots and the two kinds of step
    // -------------------------------------------------------------------

    /** `pipeline_worker_pool_.join(id)`: the slot's thread has finished. */
    method Join(id: nat)
      requires id < |busy|
      modifies this`busy
      ensures busy == old(busy)[id := false]
    {
      busy := busy[id := false];
    }

    /** `pipeline_worker_pool_.join_all()`: no slot's thread is running. */
    method JoinAll()
      modifies this`busy
      ensures |busy| == |old(busy)| && AllJoined()
    {
      busy := seq(|busy|, _ => false);
    }

    /** Overwriting a slot's state is allowed only once its thread has been
        joined. */
    method SetWorkerState(id: nat, w: WorkerState)
      requires id < |workers| && id < |busy| && !busy[id]
      modifies this`workers
      ensures workers == old(workers)[id := w]
    {
      workers := workers[id := w];
    }

    /** Starting the slot's thread, which runs the engine on the slot's state. */
    method Launch(id: nat)
      requires id < |busy|
      modifies this`busy
      ensures busy == old(busy)[id := true]
    {
      busy := busy[id := true];
    }

    /** The loss-scale update of `RunWithUpdate`. */
    method UpdateLossScale(fetchNames: seq<string>, allFinite: bool)
      modifies this`optGraphOutputs, this`lossScaleUpdates
      ensures var key := if GradientAllIsFinite in old(optGraphOutputs) then old(optGraphOutputs)[GradientAllIsFinite] else "";
        optGraphOutputs == (if lossScaler.Some? then old(optGraphOutputs)[GradientAllIsFinite := key]
                            else old(optGraphOutputs)) &&
        lossScaleUpdates == old(lossScaleUpdates) +
          (if lossScaler.Some? && key in fetchNames then [allFinite] else [])
    {
      if lossScaler.Some? {
        if GradientAllIsFinite !in optGraphOutputs {
          optGraphOutputs := optGraphOutputs[GradientAllIsFinite := ""];
        }
        var key := optGraphOutputs[GradientAllIsFinite];
        if key in fetchNames {
          lossScaleUpdates := lossScaleUpdates + [allFinite];
        }
      }
    }

    /** The metric callbacks of `RunWithUpdate`, for the count before the update. */
    method ReportMetrics()
      requires params.numPipelineStages == 1 || pipeline.pipelineStageId != pipeline.numPipelineStages - 1 ||
               params.isPerfTest || params.displayLossSteps > 0
      modifies this`callbacks
      ensures callbacks == old(callbacks) +
        (if MetricCallbackDue(params.numPipelineStages, pipeline.pipelineStageId, pipeline.numPipelineStages,
                              params.isPerfTest, weightUpdateStepCount, params.displayLossSteps)
         then CallbackCalls(params, weightUpdateStepCount) else [])
    {
      if params.numPipelineStages == 1 ||
         (pipeline.pipelineStageId == pipeline.numPipelineStages - 1 &&
          !params.isPerfTest &&
          weightUpdateStepCount % params.displayLossSteps == 0) {
        if params.hasErrorFunction {
          callbacks := callbacks + [ErrorFunction(weightUpdateStepCount)];
        }
        if params.hasPostEvaluationCallback {
          callbacks := callbacks + [PostEvaluation(params.batchSize, weightUpdateStepCount, "train")];
        }
      }
    }

    /** `RunWithUpdate`. All slots are joined first; `runOk` is the status of
        the engine's run and `allFinite` the flag it fetched. The loss scaler
        is told that flag when the all-finite output name (looked up with
        `operator[]`, which inserts an empty name when the key is missing) is
        among the fetches; the callbacks run when `MetricCallbackDue` holds for
        the count before the update; then both counters go up by one. */
    method RunWithUpdate(feedNames: seq<string>, fetchNames: seq<string>, feeds: seq<Value>,
                         runOk: bool, allFinite: bool) returns (s: Status)
      requires Valid()
      requires params.numPipelineStages == 1 || pipeline.pipelineStageId != pipeline.numPipelineStages - 1 ||
               params.isPerfTest || params.displayLossSteps > 0
      modifies this`busy, this`optGraphOutputs, this`lossScaleUpdates, this`callbacks,
               this`step, this`weightUpdateStepCount
      ensures Valid()
      ensures |busy| == |old(busy)| && AllJoined()
      ensures !runOk ==>
        s.Error? && step == old(step) && weightUpdateStepCount == old(weightUpdateStepCount) &&
        optGraphOutputs == old(optGraphOutputs) && lossScaleUpdates == old(lossScaleUpdates) &&
        callbacks == old(callbacks)
      ensures runOk ==>
        var key := if GradientAllIsFinite in old(optGraphOutputs) then old(optGraphOutputs)[GradientAllIsFinite] else "";
        s == Ok && step == old(step) + 1 && weightUpdateStepCount == old(weightUpdateStepCount) + 1 &&
        optGraphOutputs == (if lossScaler.Some? then old(optGraphOutputs)[GradientAllIsFinite := key]
                            else old(optGraphOutputs)) &&
        lossScaleUpdates == old(lossScaleUpdates) +
          (if lossScaler.Some? && key in fetchNames then [allFinite] else []) &&
        callbacks == old(callbacks) +
          (if MetricCallbackDue(params.numPipelineStages, pipeline.pipelineStageId, pipeline.numPipelineStages,
                                params.isPerfTest, old(weightUpdateStepCount), params.displayLossSteps)
           then CallbackCalls(params, old(weightUpdateStepCount)) else [])
    {
      JoinAll();
      if !runOk {
        return Error("engine run failed");
      }
      UpdateLossScale(fetchNames, allFinite);
      ReportMetrics();
      step := step + 1;
      weightUpdateStepCount := weightUpdateStepCount + 1;
      s := Ok;
    }

    /** `RunWithoutUpdate`: slot `step % num_pipeline_stages` is joined, its
        state overwritten with this step's lists and empty fetches, and its
        thread started; the step and the accumulation count go up by one. */
    method RunWithoutUpdate(feedNames: seq<string>, fetchNames: seq<string>, feeds: seq<Value>,
                            gradientAccumulationStepCount: nat)
      returns (count: nat)
      requires Valid()
      modifies this`busy, this`workers, this`step
      ensures Valid()
      ensures var id := old(step) % pipeline.numPipelineStages;
        workers == old(workers)[id := WorkerState(feedNames, feeds, fetchNames, [])] &&
        busy == old(busy)[id := true]
      ensures step == old(step) + 1 && count == gradientAccumulationStepCount + 1
    {
      var id := step % pipeline.numPipelineStages;
      Join(id);
      SetWorkerState(id, WorkerState(feedNames, feeds, fetchNames, []));
      Launch(id);
      step := step + 1;
      count := gradientAccumulationStepCount + 1;
    }

    // -------------------------------------------------------------------
    // Checkpoints and the training loop
    // -------------------------------------------------------------------

    /** The checkpoint step of `TrainingLoop`, for the current update count:
        the registry is asked for a path, the checkpoint folder is created when
        missing, an old checkpoint is deleted when the registry says so (a
        failed delete is only reported), and the checkpoint is saved. */
    method SaveCheckpointStep(env: Env) returns (s: Status)
      modifies this`checkpointLog
      ensures var a := env.register(weightUpdateStepCount);
        !a.ok || (!env.folderExists(weightUpdateStepCount) && !env.createFolderOk(weightUpdateStepCount)) ==>
        s.Error? && checkpointLog == old(checkpointLog)
      ensures var w := weightUpdateStepCount; var a := env.register(w);
        a.ok && (env.folderExists(w) || env.createFolderOk(w)) ==>
          (s == Ok <==> env.saveOk(w)) &&
          checkpointLog == old(checkpointLog) +
            WrittenCheckpoint(env, a, w, SaveProperties(Counts(), ScalerState(env.scalerText(w))))
      ensures s.Error? <==> CheckpointFails(env, weightUpdateStepCount)
      ensures s == Ok ==> SavedCounts(checkpointLog) == SavedCounts(old(checkpointLog)) + [weightUpdateStepCount]
      ensures s != Ok ==> SavedCounts(checkpointLog) == SavedCounts(old(checkpointLog))
    {
      var w := weightUpdateStepCount;
      var a := env.register(w);
      if !a.ok {
        return Error("AddCheckpoint failed");
      }
      if !env.folderExists(w) && !env.createFolderOk(w) {
        return Error("CreateFolder failed");
      }
      s := WriteCheckpoint(env, a, w);
    }

    /** What the file system sees once the folder is there: the old
        checkpoint deleted when the registry says so, then the new one, with
        the property map `props`, when saving succeeds. */
    static function WrittenCheckpoint(env: Env, a: Registration, w: nat, props: map<string, string>)
      : seq<CheckpointEvent>
    {
      (if a.removeOld then [Deleted(a.oldPath, env.deleteOk(a.oldPath))] else []) +
      (if env.saveOk(w) then [Saved(a.newPath, w, props)] else [])
    }

    /** The delete and save part of the checkpoint step. */
    method WriteCheckpoint(env: Env, a: Registration, w: nat) returns (s: Status)
      modifies this`checkpointLog
      ensures s == Ok <==> env.saveOk(w)
      ensures checkpointLog == old(checkpointLog) +
        WrittenCheckpoint(env, a, w, SaveProperties(Counts(), ScalerState(env.scalerText(w))))
      ensures SavedCounts(checkpointLog) == SavedCounts(old(checkpointLog)) + (if env.saveOk(w) then [w] else [])
    {
      var deleted: seq<CheckpointEvent> := [];
      if a.removeOld {
        deleted := [Deleted(a.oldPath, env.deleteOk(a.oldPath))];
      }
      var props := SaveCheckpointProperties(env.scalerText(w));
      var saved: seq<CheckpointEvent> := [];
      s := Error("SaveCheckpoint failed");
      if env.saveOk(w) {
        saved := [Saved(a.newPath, w, props)];
        s := Ok;
      }
      ghost var log0 := checkpointLog;
      checkpointLog := checkpointLog + (deleted + saved);
      SavedCountsAppend(log0, deleted + saved);
      SavedCountsAppend(deleted, saved);
      assert SavedCounts(deleted) == [] by {
        if deleted != [] {
          assert deleted[..0] == [];
        }
      }
      assert SavedCounts(saved) == (if env.saveOk(w) then [w] else []) by {
        if saved != [] {
          assert saved[..0] == [];
        }
      }
    }

    /** The training loop's demands on the configuration: each divisor it
        uses is non-zero, so every `%` is defined. These are the accumulation
        window in the update-step test (training_runner.cc:587), the
        evaluation period when there is evaluation (line 632), the reporting
        period when `MetricCallbackDue` reaches it (line 495), and the
        pipeline window when event names are set (lines 341-383). A valid
        runner also has at least one stage, which makes the worker index at
        line 516 defined. */
    ghost predicate LoopReady(env: Env)
      reads this`params, this`pipeline, this`workers, this`busy
    {
      Valid() &&
      params.gradientAccumulationSteps > 0 &&
      (env.hasTestLoader && params.doEval ==> params.evaluationPeriod > 0) &&
      (params.numPipelineStages == 1 || pipeline.pipelineStageId != pipeline.numPipelineStages - 1 ||
       params.isPerfTest || params.displayLossSteps > 0) &&
      (HasEvents(pipeline.eventNames) ==> pipeline.numGradientAccumulationSteps > 0)
    }

    /** `enable_checkpoint_saving` for this runner. */
    predicate SavingEnabled()
      reads this`params, this`hasRegistry
    {
      CheckpointSavingEnabled(params.worldRank, hasRegistry, params.checkpointPeriod)
    }

    /** Whether the checkpoint step, once due, fails for update count `w`. */
    static predicate CheckpointFails(env: Env, w: nat)
    {
      var a := env.register(w);
      !a.ok || (!env.folderExists(w) && !env.createFolderOk(w)) || !env.saveOk(w)
    }

    /** The run of one batch of `TrainingLoop`: feeds and fetches are
        prepared (their statuses are dropped) and the update or the
        accumulation run is made, the engine's run being taken to succeed. */
    method RunStep(tensorNames: seq<string>, batch: nat, env: Env, gradientAccumulationStepCount: nat)
      returns (count: nat)
      requires LoopReady(env)
      modifies this`busy, this`workers, this`step, this`weightUpdateStepCount, this`optGraphOutputs,
               this`lossScaleUpdates, this`callbacks
      ensures LoopReady(env)
      ensures step == old(step) + 1
      ensures var update := IsUpdateStep(old(step), params.gradientAccumulationSteps);
        weightUpdateStepCount == old(weightUpdateStepCount) + (if update then 1 else 0) &&
        count == gradientAccumulationStepCount + (if update then 0 else 1)
    {
      var isUpdate := (step + 1) % params.gradientAccumulationSteps == 0;
      var feedNames, feeds := PrepareFeedNamesAndFeeds(tensorNames, batch);
      var fetchNames, fetches, _ := PrepareFetchNamesAndFetches(isUpdate);
      if isUpdate {
        var _ := RunWithUpdate(feedNames, fetchNames, feeds, true, env.allFinite(step));
        count := gradientAccumulationStepCount;
      } else {
        count := RunWithoutUpdate(feedNames, fetchNames, feeds, gradientAccumulationStepCount);
      }
    }

    /** What follows the run of a batch: the test set is evaluated on the
        evaluation period, and a checkpoint is saved when `CheckpointDue`
        holds for the incremented update count. */
    method AfterStep(env: Env, isUpdate: bool) returns (s: Status)
      requires LoopReady(env)
      modifies this`checkpointLog, this`evaluations
      ensures var evalDue := env.hasTestLoader && params.doEval && step % params.evaluationPeriod == 0;
        evaluations == old(evaluations) + (if evalDue then [step] else []) &&
        var due := CheckpointDue(params.worldRank, hasRegistry, params.checkpointPeriod, isUpdate,
                                 weightUpdateStepCount);
        (!due || (evalDue && !env.evaluateOk(step)) ==> checkpointLog == old(checkpointLog)) &&
        (s.Error? <==> (evalDue && !env.evaluateOk(step)) || (due && CheckpointFails(env, weightUpdateStepCount))) &&
        (s == Ok ==>
           SavedCounts(checkpointLog) == SavedCounts(old(checkpointLog)) + (if due then [weightUpdateStepCount] else []))
    {
      if env.hasTestLoader && params.doEval && step % params.evaluationPeriod == 0 {
        evaluations := evaluations + [step];
        if !env.evaluateOk(step) {
          return Error("Evaluate failed");
        }
      }
      if SavingEnabled() && isUpdate && weightUpdateStepCount % params.checkpointPeriod == 0 {
        s := SaveCheckpointStep(env);
        if s.Error? {
          return;
        }
      } else {
        assert checkpointLog == old(checkpointLog);
      }
      s := Ok;
    }

    /** One batch of `TrainingLoop`: its run, then evaluation and the
        checkpoint step. */
    method TrainBatch(tensorNames: seq<string>, batch: nat, env: Env, gradientAccumulationStepCount: nat)
      returns (s: Status, count: nat)
      requires LoopReady(env)
      modifies this`busy, this`workers, this`step, this`weightUpdateStepCount,
               this`optGraphOutputs, this`lossScaleUpdates, this`callbacks, this`checkpointLog,
               this`evaluations
      ensures LoopReady(env)
      ensures step == old(step) + 1
      ensures weightUpdateStepCount ==
        old(weightUpdateStepCount) + (if IsUpdateStep(old(step), params.gradientAccumulationSteps) then 1 else 0)
      ensures count == gradientAccumulationStepCount + 1 - (weightUpdateStepCount - old(weightUpdateStepCount))
      ensures !SavingEnabled() ==> checkpointLog == old(checkpointLog)
      ensures s == Ok && SavingEnabled() ==>
        SavedCounts(checkpointLog) == SavedCounts(old(checkpointLog)) +
          CheckpointsBetween(old(weightUpdateStepCount), weightUpdateStepCount, params.checkpointPeriod)
    {
      var isUpdate := (step + 1) % params.gradientAccumulationSteps == 0;
      ghost var w := weightUpdateStepCount;
      count := RunStep(tensorNames, batch, env, gradientAccumulationStepCount);
      s := AfterStep(env, isUpdate);
      if SavingEnabled() {
        assert CheckpointsBetween(w, w, params.checkpointPeriod) == [];
      }
    }

    /** The batch loop of one shard: batches `0 .. batches-1` are trained
        on while the step stays below `num_train_steps`. */
    method TrainBatches(tensorNames: seq<string>, batches: nat, env: Env, gradientAccumulationStepCount: nat)
      returns (s: Status, count: nat)
      requires LoopReady(env)
      modifies this`busy, this`workers, this`step, this`weightUpdateStepCount,
               this`optGraphOutputs, this`lossScaleUpdates, this`callbacks, this`checkpointLog,
               this`evaluations
      ensures LoopReady(env)
      ensures old(step) <= step <= old(step) + batches
      ensures old(step) <= params.numTrainSteps ==> step <= params.numTrainSteps
      ensures s == Ok ==> step == old(step) + batches || step >= params.numTrainSteps
      ensures batches > 0 && old(step) < params.numTrainSteps ==> step > old(step)
      ensures weightUpdateStepCount ==
        old(weightUpdateStepCount) + UpdatesBetween(old(step), step, params.gradientAccumulationSteps)
      ensures count == gradientAccumulationStepCount + (step - old(step)) -
                       (weightUpdateStepCount - old(weightUpdateStepCount))
      ensures !SavingEnabled() ==> checkpointLog == old(checkpointLog)
      ensures s == Ok && SavingEnabled() ==>
        SavedCounts(checkpointLog) == SavedCounts(old(checkpointLog)) +
          CheckpointsBetween(old(weightUpdateStepCount), weightUpdateStepCount, params.checkpointPeriod)
    {
      count := gradientAccumulationStepCount;
      ghost var step0 := step;
      ghost var w0 := weightUpdateStepCount;
      ghost var log0 := checkpointLog;
      var batch := 0;
      while batch < batches && step < params.numTrainSteps
        invariant LoopReady(env)
        invariant batch <= batches && step == step0 + batch
        invariant step0 <= params.numTrainSteps ==> step <= params.numTrainSteps
        invariant w0 <= weightUpdateStepCount
        invariant weightUpdateStepCount == w0 + UpdatesBetween(step0, step, params.gradientAccumulationSteps)
        invariant count == gradientAccumulationStepCount + (step - step0) - (weightUpdateStepCount - w0)
        invariant !SavingEnabled() ==> checkpointLog == log0
        invariant SavingEnabled() ==>
          SavedCounts(checkpointLog) == SavedCounts(log0) +
            CheckpointsBetween(w0, weightUpdateStepCount, params.checkpointPeriod)
        decreases batches - batch
      {
        ghost var w := weightUpdateStepCount;
        ghost var log := checkpointLog;
        UpdatesStep(step0, step, params.gradientAccumulationSteps);
        s, count := TrainBatch(tensorNames, batch, env, count);
        if s.Error? {
          return;
        }
        if SavingEnabled() {
          ChainCheckpoints(SavedCounts(log0), SavedCounts(log), SavedCounts(checkpointLog),
                           w0, w, weightUpdateStepCount, params.checkpointPeriod);
        }
        batch := batch + 1;
      }
      s := Ok;
    }

    /** One shard of `TrainingLoop`: a shard that failed to load is skipped;
        otherwise its batches are trained on while the step stays below
        `num_train_steps`, all slots are joined, and the cursor moves on unless
        the step count was reached. */
    method VisitShard(loader: DataLoader, env: Env, gradientAccumulationStepCount: nat)
      returns (s: Status, count: nat)
      requires LoopReady(env) && loader.Valid() && |loader.shards| > 0
      modifies loader`index, this`busy, this`workers, this`step, this`weightUpdateStepCount,
               this`optGraphOutputs, this`lossScaleUpdates, this`callbacks, this`checkpointLog,
               this`evaluations, this`trainingDataSetIndex
      ensures LoopReady(env) && loader.Valid()
      ensures trainingDataSetIndex == old(loader.index)
      ensures old(step) <= step
      ensures old(step) <= params.numTrainSteps ==> step <= params.numTrainSteps
      ensures weightUpdateStepCount ==
        old(weightUpdateStepCount) + UpdatesBetween(old(step), step, params.gradientAccumulationSteps)
      ensures count == gradientAccumulationStepCount + (step - old(step)) -
                       (weightUpdateStepCount - old(weightUpdateStepCount))
      ensures !SavingEnabled() ==> checkpointLog == old(checkpointLog)
      ensures s == Ok && SavingEnabled() ==>
        SavedCounts(checkpointLog) == SavedCounts(old(checkpointLog)) +
          CheckpointsBetween(old(weightUpdateStepCount), weightUpdateStepCount, params.checkpointPeriod)
      ensures s == Ok && old(step) < params.numTrainSteps ==>
        (step == old(step) <==> Idle(loader.shards[old(loader.index)])) &&
        (step == old(step) ==> loader.index == (old(loader.index) + 1) % |loader.shards|)
      ensures loader.shards[old(loader.index)].None? ==> step == old(step) && busy == old(busy)
      ensures s == Ok && loader.shards[old(loader.index)].Some? ==> AllJoined()
    {
      var shard := loader.CurrentDataSet();
      trainingDataSetIndex := loader.index;
      count := gradientAccumulationStepCount;
      if shard.None? {
        loader.MoveToNextDataSet();
        return Ok, count;
      }
      s, count := TrainShard(loader, shard.value, env, count);
    }

    /** A loaded shard of `VisitShard`: its batches are trained, the worker
        pool is joined, and the cursor moves on unless the step limit was
        reached. */
    method TrainShard(loader: DataLoader, batches: nat, env: Env, gradientAccumulationStepCount: nat)
      returns (s: Status, count: nat)
      requires LoopReady(env) && loader.Valid() && |loader.shards| > 0
      modifies loader`index, this`busy, this`workers, this`step, this`weightUpdateStepCount,
               this`optGraphOutputs, this`lossScaleUpdates, this`callbacks, this`checkpointLog,
               this`evaluations
      ensures LoopReady(env) && loader.Valid()
      ensures old(step) <= step
      ensures old(step) <= params.numTrainSteps ==> step <= params.numTrainSteps
      ensures weightUpdateStepCount ==
        old(weightUpdateStepCount) + UpdatesBetween(old(step), step, params.gradientAccumulationSteps)
      ensures count == gradientAccumulationStepCount + (step - old(step)) -
                       (weightUpdateStepCount - old(weightUpdateStepCount))
      ensures !SavingEnabled() ==> checkpointLog == old(checkpointLog)
      ensures s == Ok && SavingEnabled() ==>
        SavedCounts(checkpointLog) == SavedCounts(old(checkpointLog)) +
          CheckpointsBetween(old(weightUpdateStepCount), weightUpdateStepCount, params.checkpointPeriod)
      ensures s == Ok && old(step) < params.numTrainSteps ==>
        (step == old(step) <==> batches == 0) &&
        (step == old(step) ==> loader.index == (old(loader.index) + 1) % |loader.shards|)
      ensures s == Ok ==> AllJoined()
    {
      s, count := TrainBatches(loader.tensorNames, batches, env, gradientAccumulationStepCount);
      if s.Error? {
        return;
      }
      JoinAll();
      if step < params.numTrainSteps {
        loader.MoveToNextDataSet();
      }
      s := Ok;
    }

    /** One pass of `TrainingLoop` over all shards. A pass that starts
        below `num_train_steps` makes progress as soon as some shard has a
        batch: a pass without progress visits every shard, each idle. */
    method ShardPass(loader: DataLoader, env: Env, gradientAccumulationStepCount: nat)
      returns (s: Status, count: nat)
      requires LoopReady(env) && loader.Valid() && |loader.shards| > 0
      modifies loader`index, this`busy, this`workers, this`step, this`weightUpdateStepCount,
               this`optGraphOutputs, this`lossScaleUpdates, this`callbacks, this`checkpointLog,
               this`evaluations, this`trainingDataSetIndex
      ensures LoopReady(env) && loader.Valid()
      ensures old(step) <= step
      ensures old(step) <= params.numTrainSteps ==> step <= params.numTrainSteps
      ensures weightUpdateStepCount ==
        old(weightUpdateStepCount) + UpdatesBetween(old(step), step, params.gradientAccumulationSteps)
      ensures count == gradientAccumulationStepCount + (step - old(step)) -
                       (weightUpdateStepCount - old(weightUpdateStepCount))
      ensures !SavingEnabled() ==> checkpointLog == old(checkpointLog)
      ensures s == Ok && SavingEnabled() ==>
        SavedCounts(checkpointLog) == SavedCounts(old(checkpointLog)) +
          CheckpointsBetween(old(weightUpdateStepCount), weightUpdateStepCount, params.checkpointPeriod)
      ensures s == Ok && old(step) < params.numTrainSteps &&
              (exists i :: 0 <= i < |loader.shards| && !Idle(loader.shards[i])) ==>
        step > old(step)
      ensures s == Ok && (old(AllJoined()) || step > old(step)) ==> AllJoined()
    {
      var n := |loader.shards|;
      ghost var start := loader.index;
      ghost var step0 := step;
      ghost var w0 := weightUpdateStepCount;
      ghost var log0 := checkpointLog;
      ghost var joined0 := AllJoined();
      count := gradientAccumulationStepCount;
      s := Ok;
      DivModUnique(start, n, 0, start);
      assert IdlePass(loader.shards, start, 0, loader.index);
      for it := 0 to n
        invariant PassKept(loader, env, gradientAccumulationStepCount, step0, w0, log0, count)
        invariant PassOk(loader, start, it, step0, w0, log0, joined0)
      {
        s, count := PassVisit(loader, env, count, gradientAccumulationStepCount,
                              step0, w0, log0, start, it, joined0);
        if s.Error? {
          return;
        }
      }
      if step0 < params.numTrainSteps && step == step0 {
        AllIdle(loader.shards, start, loader.index);
      }
    }

    /** What a pass of `ShardPass` keeps on every visit, error or not, from
        the counters `step0`, `w0`, the log `log0` and the count `c0` it
        started with. */
    ghost predicate PassKept(loader: DataLoader, env: Env, c0: nat, step0: nat, w0: nat,
                             log0: seq<CheckpointEvent>, count: nat)
      reads this`params, this`pipeline, this`workers, this`busy, this`hasRegistry,
            this`step, this`weightUpdateStepCount, this`checkpointLog, loader
    {
      LoopReady(env) && loader.Valid() && |loader.shards| > 0 &&
      step0 <= step && (step0 <= params.numTrainSteps ==> step <= params.numTrainSteps) &&
      weightUpdateStepCount == w0 + UpdatesBetween(step0, step, params.gradientAccumulationSteps) &&
      count == c0 + (step - step0) - (weightUpdateStepCount - w0) &&
      (!SavingEnabled() ==> checkpointLog == log0)
    }

    /** What a pass of `ShardPass` keeps after `it` visits that all succeeded,
        starting at shard `start`: the checkpoints written, the shards found
        idle while no step ran, and the slots joined since the first step. */
    ghost predicate PassOk(loader: DataLoader, start: nat, it: nat, step0: nat, w0: nat,
                           log0: seq<CheckpointEvent>, joined0: bool)
      reads this`params, this`busy, this`hasRegistry, this`step,
            this`weightUpdateStepCount, this`checkpointLog, loader
    {
      (SavingEnabled() ==>
        params.checkpointPeriod > 0 &&
        SavedCounts(checkpointLog) == SavedCounts(log0) +
          CheckpointsBetween(w0, weightUpdateStepCount, params.checkpointPeriod)) &&
      (step0 < params.numTrainSteps && step == step0 ==>
        IdlePass(loader.shards, start, it, loader.index)) &&
      ((joined0 || step > step0) ==> AllJoined())
    }

    /** One visit of `ShardPass`'s loop: `VisitShard` on the current shard,
        keeping `PassKept` always and `PassOk` for one more visit when the
        visit succeeds. */
    method PassVisit(loader: DataLoader, env: Env, count0: nat, ghost c0: nat,
                     ghost step0: nat, ghost w0: nat, ghost log0: seq<CheckpointEvent>,
                     ghost start: nat, ghost it: nat, ghost joined0: bool)
      returns (s: Status, count: nat)
      requires PassKept(loader, env, c0, step0, w0, log0, count0)
      requires PassOk(loader, start, it, step0, w0, log0, joined0)
      modifies loader`index, this`busy, this`workers, this`step, this`weightUpdateStepCount,
               this`optGraphOutputs, this`lossScaleUpdates, this`callbacks, this`checkpointLog,
               this`evaluations, this`trainingDataSetIndex
      ensures PassKept(loader, env, c0, step0, w0, log0, count)
      ensures s == Ok ==> PassOk(loader, start, it + 1, step0, w0, log0, joined0)
    {
      ghost var stepB := step;
      ghost var wB := weightUpdateStepCount;
      ghost var logB := checkpointLog;
      ghost var indexB := loader.index;
      s, count := VisitShard(loader, env, count0);
      UpdatesAppend(step0, stepB, step, params.gradientAccumulationSteps);
      if s.Error? {
        return;
      }
      if SavingEnabled() {
        ChainCheckpoints(SavedCounts(log0), SavedCounts(logB), SavedCounts(checkpointLog),
                         w0, wB, weightUpdateStepCount, params.checkpointPeriod);
      }
      if step0 < params.numTrainSteps && step == step0 {
        IdlePassStep(loader.shards, start, it, indexB);
      }
    }

    /** `TrainingLoop`: the test loader is reset to its first shard, the
        training loader to `training_data_set_index_`, and passes over the
        shards are made until the step reaches `num_train_steps`. The loop
        ends only because some shard has a batch to train on. */
    method TrainingLoop(loader: DataLoader, env: Env) returns (s: Status)
      requires LoopReady(env) && loader.Valid()
      requires step < params.numTrainSteps ==>
        exists i :: 0 <= i < |loader.shards| && !Idle(loader.shards[i])
      modifies loader`index, this`busy, this`workers, this`step, this`weightUpdateStepCount,
               this`optGraphOutputs, this`lossScaleUpdates, this`callbacks, this`checkpointLog,
               this`evaluations, this`trainingDataSetIndex
      ensures LoopReady(env) && loader.Valid()
      ensures (env.hasTestLoader && !env.testLoaderInitOk) ||
              old(trainingDataSetIndex) >= |loader.shards| ==>
        s.Error? && step == old(step) && weightUpdateStepCount == old(weightUpdateStepCount) &&
        checkpointLog == old(checkpointLog)
      ensures s == Ok ==>
        step == (if old(step) < params.numTrainSteps then params.numTrainSteps else old(step))
      ensures old(step) <= step
      ensures weightUpdateStepCount ==
        old(weightUpdateStepCount) + UpdatesBetween(old(step), step, params.gradientAccumulationSteps)
      ensures !SavingEnabled() ==> checkpointLog == old(checkpointLog)
      ensures s == Ok && SavingEnabled() ==>
        SavedCounts(checkpointLog) == SavedCounts(old(checkpointLog)) +
          CheckpointsBetween(old(weightUpdateStepCount), weightUpdateStepCount, params.checkpointPeriod)
      ensures s == Ok && (old(AllJoined()) || step > old(step)) ==> AllJoined()
    {
      if env.hasTestLoader && !env.testLoaderInitOk {
        return Error("test data loader InitializeDataSetIndex failed");
      }
      s := loader.InitializeDataSetIndex(trainingDataSetIndex);
      if s.Error? {
        return;
      }
      s := TrainPasses(loader, env);
    }

    /** The `while` loop of `TrainingLoop`: passes over the shards until the
        step reaches `num_train_steps`, stopping at the first failure. */
    method TrainPasses(loader: DataLoader, env: Env) returns (s: Status)
      requires LoopReady(env) && loader.Valid()
      requires step < params.numTrainSteps ==>
        exists i :: 0 <= i < |loader.shards| && !Idle(loader.shards[i])
      modifies loader`index, this`busy, this`workers, this`step, this`weightUpdateStepCount,
               this`optGraphOutputs, this`lossScaleUpdates, this`callbacks, this`checkpointLog,
               this`evaluations, this`trainingDataSetIndex
      ensures LoopReady(env) && loader.Valid() && old(step) <= step
      ensures weightUpdateStepCount ==
        old(weightUpdateStepCount) + UpdatesBetween(old(step), step, params.gradientAccumulationSteps)
      ensures !SavingEnabled() ==> checkpointLog == old(checkpointLog)
      ensures s == Ok ==>
        LoopKept(loader, env, old(step), old(weightUpdateStepCount), old(checkpointLog), old(AllJoined())) &&
        step == (if old(step) < params.numTrainSteps then params.numTrainSteps else old(step))
    {
      var count := 0;
      ghost var step0 := step;
      ghost var w0 := weightUpdateStepCount;
      ghost var log0 := checkpointLog;
      ghost var joined0 := AllJoined();
      while step < params.numTrainSteps
        invariant LoopKept(loader, env, step0, w0, log0, joined0)
        invariant step0 >= params.numTrainSteps ==> step == step0
        decreases params.numTrainSteps - step
      {
        s, count := LoopPass(loader, env, count, step0, w0, log0, joined0);
        if s.Error? {
          return;
        }
      }
      s := Ok;
    }

    /** What `TrainingLoop` keeps over its passes from the counters `step0`,
        `w0`, the log `log0` and the joined state `joined0` it started with. */
    ghost predicate LoopKept(loader: DataLoader, env: Env, step0: nat, w0: nat,
                             log0: seq<CheckpointEvent>, joined0: bool)
      reads this`params, this`pipeline, this`workers, this`busy, this`hasRegistry,
            this`step, this`weightUpdateStepCount, this`checkpointLog, loader
    {
      LoopReady(env) && loader.Valid() &&
      step0 <= step && (step0 <= params.numTrainSteps ==> step <= params.numTrainSteps) &&
      weightUpdateStepCount == w0 + UpdatesBetween(step0, step, params.gradientAccumulationSteps) &&
      (!SavingEnabled() ==> checkpointLog == log0) &&
      (SavingEnabled() ==>
        params.checkpointPeriod > 0 &&
        SavedCounts(checkpointLog) == SavedCounts(log0) +
          CheckpointsBetween(w0, weightUpdateStepCount, params.checkpointPeriod)) &&
      ((joined0 || step > step0) ==> AllJoined())
    }

    /** One pass of `TrainingLoop`'s loop: `ShardPass` over the shards, which
        keeps `LoopKept` when it succeeds and moves the step forward when
        some shard is not idle. */
    method LoopPass(loader: DataLoader, env: Env, count0: nat, ghost step0: nat, ghost w0: nat,
                    ghost log0: seq<CheckpointEvent>, ghost joined0: bool)
      returns (s: Status, count: nat)
      requires LoopKept(loader, env, step0, w0, log0, joined0) && step < params.numTrainSteps
      requires exists i :: 0 <= i < |loader.shards| && !Idle(loader.shards[i])
      modifies loader`index, this`busy, this`workers, this`step, this`weightUpdateStepCount,
               this`optGraphOutputs, this`lossScaleUpdates, this`callbacks, this`checkpointLog,
               this`evaluations, this`trainingDataSetIndex
      ensures LoopReady(env) && loader.Valid()
      ensures step0 <= step && weightUpdateStepCount == w0 + UpdatesBetween(step0, step, params.gradientAccumulationSteps)
      ensures !SavingEnabled() ==> checkpointLog == log0
      ensures s == Ok ==> LoopKept(loader, env, step0, w0, log0, joined0) && step > old(step)
    {
      ghost var stepB := step;
      ghost var wB := weightUpdateStepCount;
      ghost var logB := checkpointLog;
      s, count := ShardPass(loader, env, count0);
      UpdatesAppend(step0, stepB, step, params.gradientAccumulationSteps);
      if s.Error? {
        return;
      }
      if SavingEnabled() {
        ChainCheckpoints(SavedCounts(log0), SavedCounts(logB), SavedCounts(checkpointLog),
                         w0, wB, weightUpdateStepCount, params.checkpointPeriod);
      }
    }

    /** `Run`: without a training loader there is nothing to do; otherwise
        the training loop runs and, when it succeeds, the round count goes
        up and the step count starts again at 0. */
    method Run(loader: DataLoader?, env: Env) returns (s: Status)
      requires LoopReady(env)
      requires loader != null ==>
        (loader.Valid() &&
         (step < params.numTrainSteps ==> exists i :: 0 <= i < |loader.shards| && !Idle(loader.shards[i])))
      modifies this`busy, this`workers, this`step, this`weightUpdateStepCount,
               this`optGraphOutputs, this`lossScaleUpdates, this`callbacks, this`checkpointLog,
               this`evaluations, this`trainingDataSetIndex, this`round,
               if loader == null then {} else {loader}
      ensures LoopReady(env)
      ensures loader == null ==>
        s == Ok && step == old(step) && round == old(round) &&
        weightUpdateStepCount == old(weightUpdateStepCount) && checkpointLog == old(checkpointLog)
      ensures loader != null && s == Ok ==>
        round == old(round) + 1 && step == 0 &&
        weightUpdateStepCount == old(weightUpdateStepCount) +
          UpdatesBetween(old(step), if old(step) < params.numTrainSteps then params.numTrainSteps else old(step),
                         params.gradientAccumulationSteps)
      ensures s.Error? ==> round == old(round)
      ensures loader != null && s == Ok && (old(AllJoined()) || old(step) < params.numTrainSteps) ==>
        AllJoined()
    {
      if loader == null {
        return Ok;
      }
      s := TrainingLoop(loader, env);
      if s.Error? {
        return;
      }
      round := round + 1;
      step := 0;
    }
  }
}
