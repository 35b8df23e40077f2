/** Queries/Tr1ppy.Queries/ProccesableQueue.cs: the queue engine, as a
    sequential state machine. The channel is the `buffer`; a provider task is
    one `Provide` call; one iteration of the consumer loop is one `Step`, and
    the whole loop is `RunProcessor`. The stages (pre-actions, pre-processors,
    the processor, post-actions, post-processors) are given as functions in a
    `World` and report whether they returned or threw; a ghost `trace`
    records which stage ran on which item. */
module ProccesableQueues {
  import opened Wrappers
  import opened TypeUniverse
  import opened InheritedTypes
  import opened QueryConfigurations
  import opened QueueCounters

  /** An item on the channel: a null reference, or an object of some runtime type. */
  datatype Payload = Null | Instance(runtimeType: TypeId, identity: nat)

  /** What the stages see of the queue: the `QueueContext` built for each item
      from the name, the capacity and the counter value read at that moment. */
  datatype QueueContext = QueueContext(queueName: string, queueCapacity: Option<int>, count: int)

  /** The stage collections the engine copied from its configuration. */
  datatype Pipeline = Pipeline(
    preActions: seq<Handle>,
    preProcessors: seq<Handle>,
    processor: Option<Handle>,
    processingFunction: Option<Handle>,
    postActions: seq<Handle>,
    postProcessors: seq<Handle>)

  /** How every stage instance behaves: `pre` for pre-actions and pre-processors,
      `process` for the processor object and the processing function, `post`
      for post-actions and post-processors. */
  datatype World<!R> = World(
    pre: (Handle, QueueContext, Payload) -> Outcome<()>,
    process: (Handle, QueueContext, Payload) -> Outcome<R>,
    post: (Handle, QueueContext, Payload, R) -> Outcome<()>)

  datatype Stage = PreAction | PreProcessor | Processor | ProcessingFunction | PostAction | PostProcessor

  datatype Event =
    | Ran(stage: Stage, handle: Handle, item: Payload)  // a stage was invoked on the item
    | Decremented(item: Payload)                        // the shared counter went down by one
    | Caught(item: Payload)                             // the item's exception was caught and logged
    | Skipped(item: Payload)                            // the type filter rejected the item
    | ConsumerStopped                                   // a null item ended the consumer loop

  function PreCall<R>(w: World<R>, ctx: QueueContext, p: Payload): Handle -> Outcome<()> {
    h => w.pre(h, ctx, p)
  }

  function PostCall<R>(w: World<R>, ctx: QueueContext, p: Payload, result: R): Handle -> Outcome<()> {
    h => w.post(h, ctx, p, result)
  }

  /** A `foreach` over stages: each is invoked in turn until one throws. The
      result holds the events and whether every stage returned. */
  function RunStages(kind: Stage, hs: seq<Handle>, call: Handle -> Outcome<()>, p: Payload): (seq<Event>, bool)
  {
    if hs == [] then ([], true)
    else
      var (events, ok) := RunStages(kind, hs[..|hs| - 1], call, p);
      if !ok then (events, false)
      else (events + [Ran(kind, hs[|hs| - 1], p)], call(hs[|hs| - 1]).Ok?)
  }

  /** Once a stage has thrown, the stages after it are not invoked. */
  lemma {:induction false} RunStagesStopsAtThrow(kind: Stage, hs: seq<Handle>, call: Handle -> Outcome<()>, p: Payload, k: nat)
    requires k <= |hs| && !RunStages(kind, hs[..k], call, p).1
    ensures RunStages(kind, hs, call, p) == RunStages(kind, hs[..k], call, p)
    decreases |hs| - k
  {
    if k < |hs| {
      var n := |hs|;
      assert hs[..n][..n - 1] == hs[..n - 1];
      if k < n - 1 {
        assert hs[..n - 1][..k] == hs[..k];
        RunStagesStopsAtThrow(kind, hs[..n - 1], call, p, k);
      } else {
        assert hs[..k] == hs[..n - 1];
      }
    } else {
      assert hs[..k] == hs;
    }
  }

  /** The events of a stage run: one `Ran` of the given kind per invoked stage,
      in order, and all stages are invoked when none throws. */
  lemma {:induction false} RunStagesShape(kind: Stage, hs: seq<Handle>, call: Handle -> Outcome<()>, p: Payload)
    ensures var (events, ok) := RunStages(kind, hs, call, p);
      && |events| <= |hs|
      && (forall i :: 0 <= i < |events| ==> events[i] == Ran(kind, hs[i], p))
      && (ok ==> |events| == |hs| && forall i :: 0 <= i < |hs| ==> call(hs[i]).Ok?)
      && (!ok ==> 0 < |events| && call(hs[|events| - 1]).Throw?
                  && forall i :: 0 <= i < |events| - 1 ==> call(hs[i]).Ok?)
  {
    if hs != [] {
      var n := |hs|;
      RunStagesShape(kind, hs[..n - 1], call, p);
    }
  }

  /** `ProcessItemAsync`: the processor object if one is set, else the
      processing function, else an `ArgumentNullException`. */
  function Process<R>(pl: Pipeline, w: World<R>, ctx: QueueContext, p: Payload): (seq<Event>, Outcome<R>)
  {
    if pl.processor.Some? then
      ([Ran(Processor, pl.processor.value, p)], w.process(pl.processor.value, ctx, p))
    else if pl.processingFunction.Some? then
      ([Ran(ProcessingFunction, pl.processingFunction.value, p)], w.process(pl.processingFunction.value, ctx, p))
    else
      ([], Throw(ArgumentNull("Proccesing")))
  }

  /** `PreProcessItemAsync`: the pre-processing actions, then the pre-processors. */
  function PreStages<R>(pl: Pipeline, w: World<R>, ctx: QueueContext, p: Payload): (seq<Event>, bool)
  {
    var (a, okA) := RunStages(PreAction, pl.preActions, PreCall(w, ctx, p), p);
    if !okA then (a, false)
    else
      var (b, okB) := RunStages(PreProcessor, pl.preProcessors, PreCall(w, ctx, p), p);
      (a + b, okB)
  }

  /** `PostProcessItemAsync`: the post-processing actions, then the post-processors. */
  function PostStages<R>(pl: Pipeline, w: World<R>, ctx: QueueContext, p: Payload, result: R): (seq<Event>, bool)
  {
    var (d, okD) := RunStages(PostAction, pl.postActions, PostCall(w, ctx, p, result), p);
    if !okD then (d, false)
    else
      var (e, okE) := RunStages(PostProcessor, pl.postProcessors, PostCall(w, ctx, p, result), p);
      (d + e, okE)
  }

  datatype ItemRun = ItemRun(events: seq<Event>, decremented: bool, completed: bool)

  /** The body of the consumer loop's `try` block for one accepted item, with
      its `catch`: pre-processing, processing, the decrement, post-processing;
      the first exception ends the item with `Caught`. */
  function RunItem<R>(pl: Pipeline, w: World<R>, ctx: QueueContext, p: Payload): ItemRun
  {
    var (pre, okPre) := PreStages(pl, w, ctx, p);
    if !okPre then ItemRun(pre + [Caught(p)], false, false) else
    var (c, result) := Process(pl, w, ctx, p);
    if result.Throw? then ItemRun(pre + c + [Caught(p)], false, false) else
    var (post, okPost) := PostStages(pl, w, ctx, p, result.value);
    ItemRun(pre + c + [Decremented(p)] + post + (if okPost then [] else [Caught(p)]), true, okPost)
  }

  /** The position of a stage in the pipeline order. */
  function StagePhase(kind: Stage): nat {
    match kind
    case PreAction => 0
    case PreProcessor => 1
    case Processor => 2
    case ProcessingFunction => 2
    case PostAction => 4
    case PostProcessor => 5
  }

  /** The position of an event in the pipeline order; the decrement sits
      between processing and post-processing, and an item ends with its
      `Caught`. */
  function Phase(e: Event): nat {
    match e
    case Ran(kind, _, _) => StagePhase(kind)
    case Decremented(_) => 3
    case _ => 6
  }

  predicate PhasesOrdered(events: seq<Event>) {
    forall i, j :: 0 <= i < j < |events| ==> Phase(events[i]) <= Phase(events[j])
  }

  predicate PhasesAtMost(events: seq<Event>, n: nat) {
    forall i :: 0 <= i < |events| ==> Phase(events[i]) <= n
  }

  predicate PhasesEqual(events: seq<Event>, n: nat) {
    forall i :: 0 <= i < |events| ==> Phase(events[i]) == n
  }

  lemma StageEventsPhase(kind: Stage, hs: seq<Handle>, call: Handle -> Outcome<()>, p: Payload)
    ensures PhasesEqual(RunStages(kind, hs, call, p).0, StagePhase(kind))
  {
    RunStagesShape(kind, hs, call, p);
  }

  lemma AppendBlock(a: seq<Event>, b: seq<Event>, n: nat)
    requires PhasesOrdered(a) && PhasesAtMost(a, n) && PhasesEqual(b, n)
    ensures PhasesOrdered(a + b) && PhasesAtMost(a + b, n)
  {
  }

  lemma ProcessEventsPhase<R>(pl: Pipeline, w: World<R>, ctx: QueueContext, p: Payload)
    ensures PhasesEqual(Process(pl, w, ctx, p).0, 2)
  {
  }

  predicate PhasesAtLeast(events: seq<Event>, n: nat) {
    forall i :: 0 <= i < |events| ==> Phase(events[i]) >= n
  }

  lemma AppendOrdered(a: seq<Event>, b: seq<Event>, n: nat)
    requires PhasesOrdered(a) && PhasesAtMost(a, n) && PhasesOrdered(b) && PhasesAtLeast(b, n)
    ensures PhasesOrdered(a + b)
  {
  }

  lemma PreStagesPhases<R>(pl: Pipeline, w: World<R>, ctx: QueueContext, p: Payload)
    ensures PhasesOrdered(PreStages(pl, w, ctx, p).0) && PhasesAtMost(PreStages(pl, w, ctx, p).0, 1)
  {
    var (a, okA) := RunStages(PreAction, pl.preActions, PreCall(w, ctx, p), p);
    var (b, okB) := RunStages(PreProcessor, pl.preProcessors, PreCall(w, ctx, p), p);
    StageEventsPhase(PreAction, pl.preActions, PreCall(w, ctx, p), p);
    StageEventsPhase(PreProcessor, pl.preProcessors, PreCall(w, ctx, p), p);
    AppendBlock(a, b, 1);
  }

  lemma PostStagesPhases<R>(pl: Pipeline, w: World<R>, ctx: QueueContext, p: Payload, result: R)
    ensures var post := PostStages(pl, w, ctx, p, result).0;
      PhasesOrdered(post) && PhasesAtLeast(post, 4) && PhasesAtMost(post, 5)
  {
    var (d, okD) := RunStages(PostAction, pl.postActions, PostCall(w, ctx, p, result), p);
    var (e, okE) := RunStages(PostProcessor, pl.postProcessors, PostCall(w, ctx, p, result), p);
    StageEventsPhase(PostAction, pl.postActions, PostCall(w, ctx, p, result), p);
    StageEventsPhase(PostProcessor, pl.postProcessors, PostCall(w, ctx, p, result), p);
    AppendBlock(d, e, 5);
  }

  /** The events of one item follow the pipeline order: every pre-action
      before every pre-processor, before the processor, before the decrement,
      before every post-action, before every post-processor, before the catch. */
  lemma ItemPhasesOrdered<R>(pl: Pipeline, w: World<R>, ctx: QueueContext, p: Payload)
    ensures PhasesOrdered(RunItem(pl, w, ctx, p).events)
  {
    var (pre, okPre) := PreStages(pl, w, ctx, p);
    PreStagesPhases(pl, w, ctx, p);
    if !okPre {
      AppendBlock(pre, [Caught(p)], 6);
      return;
    }
    var (c, result) := Process(pl, w, ctx, p);
    ProcessEventsPhase(pl, w, ctx, p);
    AppendBlock(pre, c, 2);
    if result.Throw? {
      AppendBlock(pre + c, [Caught(p)], 6);
      return;
    }
    AppendBlock(pre + c, [Decremented(p)], 3);
    var (post, okPost) := PostStages(pl, w, ctx, p, result.value);
    PostStagesPhases(pl, w, ctx, p, result.value);
    AppendOrdered(pre + c + [Decremented(p)], post, 4);
    var tail: seq<Event> := if okPost then [] else [Caught(p)];
    AppendOrdered(pre + c + [Decremented(p)] + post, tail, 6);
  }

  /** The stage `ProcessItemAsync` invokes: the processor object wins over the
      processing function. */
  function ChosenProcessor(pl: Pipeline): Option<Handle> {
    if pl.processor.Some? then pl.processor else pl.processingFunction
  }

  predicate PreStagesReturn<R>(pl: Pipeline, w: World<R>, ctx: QueueContext, p: Payload) {
    && (forall i :: 0 <= i < |pl.preActions| ==> w.pre(pl.preActions[i], ctx, p).Ok?)
    && (forall i :: 0 <= i < |pl.preProcessors| ==> w.pre(pl.preProcessors[i], ctx, p).Ok?)
  }

  predicate ProcessingReturns<R>(pl: Pipeline, w: World<R>, ctx: QueueContext, p: Payload) {
    ChosenProcessor(pl).Some? && w.process(ChosenProcessor(pl).value, ctx, p).Ok?
  }

  predicate PostStagesReturn<R>(pl: Pipeline, w: World<R>, ctx: QueueContext, p: Payload, result: R) {
    && (forall i :: 0 <= i < |pl.postActions| ==> w.post(pl.postActions[i], ctx, p, result).Ok?)
    && (forall i :: 0 <= i < |pl.postProcessors| ==> w.post(pl.postProcessors[i], ctx, p, result).Ok?)
  }

  lemma StagesOkIff(kind: Stage, hs: seq<Handle>, call: Handle -> Outcome<()>, p: Payload)
    ensures RunStages(kind, hs, call, p).1 <==> forall i :: 0 <= i < |hs| ==> call(hs[i]).Ok?
  {
    RunStagesShape(kind, hs, call, p);
  }

  /** The counter is decremented for an item exactly when every pre-stage and
      the processor returned normally, and the trace shows it. */
  lemma ItemDecrementedIff<R>(pl: Pipeline, w: World<R>, ctx: QueueContext, p: Payload)
    ensures var r := RunItem(pl, w, ctx, p);
      && (r.decremented <==> PreStagesReturn(pl, w, ctx, p) && ProcessingReturns(pl, w, ctx, p))
      && (Decremented(p) in r.events <==> r.decremented)
  {
    StagesOkIff(PreAction, pl.preActions, PreCall(w, ctx, p), p);
    StagesOkIff(PreProcessor, pl.preProcessors, PreCall(w, ctx, p), p);
    var body := ItemEventsSplit(pl, w, ctx, p);
  }

  /** An item completes, with no exception caught, exactly when every stage
      returned normally. */
  lemma ItemCompletedIff<R>(pl: Pipeline, w: World<R>, ctx: QueueContext, p: Payload)
    ensures var r := RunItem(pl, w, ctx, p);
      r.completed <==>
        && PreStagesReturn(pl, w, ctx, p)
        && ProcessingReturns(pl, w, ctx, p)
        && PostStagesReturn(pl, w, ctx, p, w.process(ChosenProcessor(pl).value, ctx, p).value)
  {
    StagesOkIff(PreAction, pl.preActions, PreCall(w, ctx, p), p);
    StagesOkIff(PreProcessor, pl.preProcessors, PreCall(w, ctx, p), p);
    if PreStagesReturn(pl, w, ctx, p) && ProcessingReturns(pl, w, ctx, p) {
      var result := w.process(ChosenProcessor(pl).value, ctx, p).value;
      StagesOkIff(PostAction, pl.postActions, PostCall(w, ctx, p, result), p);
      StagesOkIff(PostProcessor, pl.postProcessors, PostCall(w, ctx, p, result), p);
    }
  }

  /** Events a stage or the decrement produces: no catch, no skip, no stop. */
  predicate StageOnly(events: seq<Event>, p: Payload) {
    forall i :: 0 <= i < |events| ==> events[i].Ran? || events[i] == Decremented(p)
  }

  predicate AtMostOnePhase(events: seq<Event>, n: nat) {
    forall i, j :: 0 <= i < j < |events| && Phase(events[i]) == n ==> Phase(events[j]) != n
  }

  lemma StageOnlyOfStages(kind: Stage, hs: seq<Handle>, call: Handle -> Outcome<()>, p: Payload)
    ensures StageOnly(RunStages(kind, hs, call, p).0, p)
    ensures Decremented(p) !in RunStages(kind, hs, call, p).0
  {
    RunStagesShape(kind, hs, call, p);
  }

  lemma StageOnlyOfPreStages<R>(pl: Pipeline, w: World<R>, ctx: QueueContext, p: Payload)
    ensures StageOnly(PreStages(pl, w, ctx, p).0, p) && Decremented(p) !in PreStages(pl, w, ctx, p).0
  {
    StageOnlyOfStages(PreAction, pl.preActions, PreCall(w, ctx, p), p);
    StageOnlyOfStages(PreProcessor, pl.preProcessors, PreCall(w, ctx, p), p);
  }

  lemma StageOnlyOfPostStages<R>(pl: Pipeline, w: World<R>, ctx: QueueContext, p: Payload, result: R)
    ensures StageOnly(PostStages(pl, w, ctx, p, result).0, p) && Decremented(p) !in PostStages(pl, w, ctx, p, result).0
  {
    StageOnlyOfStages(PostAction, pl.postActions, PostCall(w, ctx, p, result), p);
    StageOnlyOfStages(PostProcessor, pl.postProcessors, PostCall(w, ctx, p, result), p);
  }

  /** An item's events are stage events, followed by `Caught` exactly when it
      did not complete; the decrement appears exactly when it happened. */
  lemma ItemEventsSplit<R>(pl: Pipeline, w: World<R>, ctx: QueueContext, p: Payload) returns (body: seq<Event>)
    ensures var r := RunItem(pl, w, ctx, p);
      && StageOnly(body, p)
      && r.events == body + (if r.completed then [] else [Caught(p)])
      && (Decremented(p) in body <==> r.decremented)
  {
    var (pre, okPre) := PreStages(pl, w, ctx, p);
    StageOnlyOfPreStages(pl, w, ctx, p);
    if !okPre {
      return pre;
    }
    var (c, result) := Process(pl, w, ctx, p);
    if result.Throw? {
      return pre + c;
    }
    var (post, okPost) := PostStages(pl, w, ctx, p, result.value);
    StageOnlyOfPostStages(pl, w, ctx, p, result.value);
    body := pre + c + [Decremented(p)] + post;
  }

  /** A caught exception ends the item: `Caught` appears exactly when the item
      did not complete, and then only as its final event. */
  lemma ItemEndsWithCatch<R>(pl: Pipeline, w: World<R>, ctx: QueueContext, p: Payload)
    ensures var r := RunItem(pl, w, ctx, p);
      && (r.completed <==> Caught(p) !in r.events)
      && (!r.completed ==> r.events[|r.events| - 1] == Caught(p) && Caught(p) !in r.events[..|r.events| - 1])
  {
    var r := RunItem(pl, w, ctx, p);
    var body := ItemEventsSplit(pl, w, ctx, p);
    assert Caught(p) !in body;
    if !r.completed {
      assert r.events[..|r.events| - 1] == body;
    }
  }

  predicate PhasesBelow(events: seq<Event>, n: nat) {
    forall i :: 0 <= i < |events| ==> Phase(events[i]) < n
  }

  predicate PhasesAbove(events: seq<Event>, n: nat) {
    forall i :: 0 <= i < |events| ==> Phase(events[i]) > n
  }

  lemma UniqueBlock(x: seq<Event>, m: seq<Event>, y: seq<Event>, n: nat)
    requires PhasesBelow(x, n) && |m| <= 1 && PhasesAbove(y, n)
    ensures AtMostOnePhase(x + m + y, n)
  {
    var events := x + m + y;
    forall i, j | 0 <= i < j < |events| && Phase(events[i]) == n
      ensures Phase(events[j]) != n
    {
      assert i == |x| && |m| == 1;
    }
  }

  lemma BelowConcat(x: seq<Event>, y: seq<Event>, n: nat)
    requires PhasesBelow(x, n) && PhasesBelow(y, n)
    ensures PhasesBelow(x + y, n)
  {
  }

  lemma AboveConcat(x: seq<Event>, y: seq<Event>, n: nat)
    requires PhasesAbove(x, n) && PhasesAbove(y, n)
    ensures PhasesAbove(x + y, n)
  {
  }

  /** The stages before the processor, the processor's events, and whatever
      follows processing in the item's run. */
  lemma ItemAroundProcessing<R>(pl: Pipeline, w: World<R>, ctx: QueueContext, p: Payload)
    returns (before: seq<Event>, processing: seq<Event>, after: seq<Event>)
    ensures RunItem(pl, w, ctx, p).events == before + processing + after
    ensures PhasesBelow(before, 2) && |processing| <= 1 && PhasesEqual(processing, 2) && PhasesAbove(after, 2)
  {
    var (pre, okPre) := PreStages(pl, w, ctx, p);
    PreStagesPhases(pl, w, ctx, p);
    if !okPre {
      return pre, [], [Caught(p)];
    }
    var (c, result) := Process(pl, w, ctx, p);
    if result.Throw? {
      return pre, c, [Caught(p)];
    }
    var (post, okPost) := PostStages(pl, w, ctx, p, result.value);
    PostStagesPhases(pl, w, ctx, p, result.value);
    var tail: seq<Event> := if okPost then [] else [Caught(p)];
    AboveConcat([Decremented(p)], post, 2);
    AboveConcat([Decremented(p)] + post, tail, 2);
    assert pre + c + [Decremented(p)] + post + tail == pre + c + ([Decremented(p)] + post + tail);
    return pre, c, [Decremented(p)] + post + tail;
  }

  /** The events before the decrement, the decrement if it happened, and the
      post-processing and catch after it. */
  lemma ItemAroundDecrement<R>(pl: Pipeline, w: World<R>, ctx: QueueContext, p: Payload)
    returns (before: seq<Event>, decrement: seq<Event>, after: seq<Event>)
    ensures RunItem(pl, w, ctx, p).events == before + decrement + after
    ensures PhasesBelow(before, 3) && |decrement| <= 1 && PhasesAbove(after, 3)
  {
    var (pre, okPre) := PreStages(pl, w, ctx, p);
    PreStagesPhases(pl, w, ctx, p);
    if !okPre {
      return pre, [], [Caught(p)];
    }
    var (c, result) := Process(pl, w, ctx, p);
    ProcessEventsPhase(pl, w, ctx, p);
    BelowConcat(pre, c, 3);
    if result.Throw? {
      return pre + c, [], [Caught(p)];
    }
    var (post, okPost) := PostStages(pl, w, ctx, p, result.value);
    PostStagesPhases(pl, w, ctx, p, result.value);
    var tail: seq<Event> := if okPost then [] else [Caught(p)];
    AboveConcat(post, tail, 3);
    assert pre + c + [Decremented(p)] + post + tail == (pre + c) + [Decremented(p)] + (post + tail);
    return pre + c, [Decremented(p)], post + tail;
  }

  /** The processor and the decrement each happen at most once per item. */
  lemma ItemProcessedAtMostOnce<R>(pl: Pipeline, w: World<R>, ctx: QueueContext, p: Payload)
    ensures AtMostOnePhase(RunItem(pl, w, ctx, p).events, 2)
    ensures AtMostOnePhase(RunItem(pl, w, ctx, p).events, 3)
  {
    var x, m, y := ItemAroundProcessing(pl, w, ctx, p);
    UniqueBlock(x, m, y, 2);
    x, m, y := ItemAroundDecrement(pl, w, ctx, p);
    UniqueBlock(x, m, y, 3);
  }

  /** When every pre-stage returns, the chosen processor is the one invoked:
      the processor object when both are set, the function otherwise. */
  lemma ItemRunsChosenProcessor<R>(pl: Pipeline, w: World<R>, ctx: QueueContext, p: Payload)
    requires PreStagesReturn(pl, w, ctx, p)
    ensures pl.processor.Some? ==>
      Ran(Processor, pl.processor.value, p) in RunItem(pl, w, ctx, p).events
    ensures pl.processor.None? && pl.processingFunction.Some? ==>
      Ran(ProcessingFunction, pl.processingFunction.value, p) in RunItem(pl, w, ctx, p).events
  {
    var (a, okA) := RunStages(PreAction, pl.preActions, PreCall(w, ctx, p), p);
    var (b, okB) := RunStages(PreProcessor, pl.preProcessors, PreCall(w, ctx, p), p);
    StagesOkIff(PreAction, pl.preActions, PreCall(w, ctx, p), p);
    StagesOkIff(PreProcessor, pl.preProcessors, PreCall(w, ctx, p), p);
    var (c, result) := Process(pl, w, ctx, p);
    var events := RunItem(pl, w, ctx, p).events;
    assert events[..|a + b + c|] == a + b + c;
    assert c == [] || events[|a + b|] == c[0];
  }

  /** `ShouldProcessPayload`: the queue's own payload type always passes; any
      other type must be in the included set when that set is non-empty, and
      must not be in the excluded set. */
  predicate ShouldProcessPayload(payloadType: TypeId, included: set<TypeId>, excluded: set<TypeId>, t: TypeId)
  {
    if t == payloadType then true
    else if |included| > 0 && t !in included then false
    else t !in excluded
  }

  /** The filter's three rules, each from the caller's point of view. */
  lemma ShouldProcessPayloadRules(payloadType: TypeId, included: set<TypeId>, excluded: set<TypeId>, t: TypeId)
    ensures ShouldProcessPayload(payloadType, included, excluded, payloadType)
    ensures t != payloadType && t in excluded ==> !ShouldProcessPayload(payloadType, included, excluded, t)
    ensures t != payloadType && included != {} && t !in included ==> !ShouldProcessPayload(payloadType, included, excluded, t)
    ensures included == {} && excluded == {} ==> ShouldProcessPayload(payloadType, included, excluded, t)
  {
  }

  /** The two filter sets the constructor leaves in the engine as written:
      the included set is assigned twice, the second time from the excluded
      types, and the excluded set keeps its empty initial value. */
  function SubTypeFiltersAsWritten(configured: (set<TypeId>, set<TypeId>)): (r: (set<TypeId>, set<TypeId>))
    ensures r.0 == configured.1 && r.1 == {}
  {
    var included := configured.0;
    var included := configured.1;
    (included, {})
  }

  /** As written, a configured exclusion acts as an inclusion: the excluded
      subtype is processed and every other subtype is dropped. */
  lemma AsWrittenExclusionAdmitsOnlyExcluded(payloadType: TypeId, excludedSub: TypeId, otherSub: TypeId)
    requires excludedSub != payloadType && otherSub != payloadType && otherSub != excludedSub
    ensures var (inc, exc) := SubTypeFiltersAsWritten(({}, {excludedSub}));
      && ShouldProcessPayload(payloadType, inc, exc, excludedSub)
      && !ShouldProcessPayload(payloadType, inc, exc, otherSub)
  {
  }

  /** The intended assignment: included types to the inclusion filter, excluded
      types to the exclusion filter. */
  function SubTypeFilters(configured: (set<TypeId>, set<TypeId>)): (set<TypeId>, set<TypeId>)
  {
    configured
  }

  /** With the intended assignment the engine honours the configuration: an
      excluded subtype is dropped, a subtype outside a non-empty inclusion set
      is dropped, and an included subtype that is not excluded passes. */
  lemma SubTypeFiltersHonourConfiguration(payloadType: TypeId, included: set<TypeId>, excluded: set<TypeId>, t: TypeId)
    requires t != payloadType
    ensures var (inc, exc) := SubTypeFilters((included, excluded));
      && (t in excluded ==> !ShouldProcessPayload(payloadType, inc, exc, t))
      && (included != {} && t !in included ==> !ShouldProcessPayload(payloadType, inc, exc, t))
      && (t in included && t !in excluded ==> ShouldProcessPayload(payloadType, inc, exc, t))
      && (included == {} && t !in excluded ==> ShouldProcessPayload(payloadType, inc, exc, t))
  {
  }

  /** What a successful construction leaves: a fresh engine with a zero
      counter and an empty channel, carrying the validated configuration's
      name, capacity and stages. Its inclusion filter is the configuration's
      own excluded-types set object, shared rather than copied, and its
      exclusion filter is its own empty set. */
  ghost predicate Created(q: ProccesableQueue, payloadType: TypeId, c: QueryConfiguration)
    reads q, q.counter, q.includedSubTypes, q.excludedSubTypes, c, c.typesConfiguration
    reads if c.typesConfiguration != null then {c.typesConfiguration.includedTypes, c.typesConfiguration.excludedTypes} else {}
  {
    && c.typesConfiguration != null
    && q.Valid()
    && q.payloadType == payloadType && q.name == c.name && q.capacity == c.capacity
    && q.includedSubTypes == c.typesConfiguration.excludedTypes
    && (q.includedSubTypes.elems, q.excludedSubTypes.elems)
         == SubTypeFiltersAsWritten((c.typesConfiguration.includedTypes.elems, c.typesConfiguration.excludedTypes.elems))
    && q.itemsProviders == c.itemsProviders
    && q.pipeline == Pipeline(c.itemsPreProcessingActions, c.itemsPreProcessors,
                              c.itemsProcessor, c.itemsProcessingFunction,
                              c.itemsPostProcessingActions, c.itemsPostProcessors)
    && q.counter.value == 0 && q.buffer == [] && !q.consumerStopped && q.trace == []
  }

  datatype StepStatus = Idle | Stopped | Filtered | Faulted | Completed

  class ProccesableQueue {
    const payloadType: TypeId
    const name: string
    const capacity: Option<int>
    const counter: QueueCounter
    /** `_includedSubTypes`: a set object taken from the configuration. */
    const includedSubTypes: TypeSet
    /** `_excludedSubTypes`: the engine's own set, created empty. */
    const excludedSubTypes: TypeSet
    const itemsProviders: seq<Handle>
    const pipeline: Pipeline
    /** The channel's contents, oldest first. */
    var buffer: seq<Payload>
    /** The consumer loop has ended on an exception outside its `try`. */
    var consumerStopped: bool
    ghost var trace: seq<Event>

    ghost predicate Valid()
      reads this, counter
    {
      && counter.Valid()
      && (capacity.Some? ==> 1 <= capacity.value && |buffer| <= capacity.value)
    }

    /** The channel is bounded and holds as many items as it may. */
    predicate Full()
      reads this
    {
      capacity.Some? && |buffer| >= capacity.value
    }

    constructor (payloadType: TypeId, name: string, capacity: Option<int>,
                 includedSubTypes: TypeSet,
                 itemsProviders: seq<Handle>, pipeline: Pipeline)
      requires capacity.Some? ==> capacity.value >= 1
      ensures Valid() && fresh(counter) && fresh(excludedSubTypes)
      ensures this.payloadType == payloadType && this.name == name && this.capacity == capacity
      ensures this.includedSubTypes == includedSubTypes && excludedSubTypes.elems == {}
      ensures this.itemsProviders == itemsProviders && this.pipeline == pipeline
      ensures counter.value == 0 && buffer == [] && !consumerStopped && trace == []
    {
      this.payloadType := payloadType;
      this.name := name;
      this.capacity := capacity;
      this.counter := new QueueCounter();
      this.includedSubTypes := includedSubTypes;
      this.excludedSubTypes := new TypeSet();
      this.itemsProviders := itemsProviders;
      this.pipeline := pipeline;
      buffer := [];
      consumerStopped := false;
      trace := [];
    }

    /** The public constructor: validate the configuration, dereference its
        types configuration, copy the stages, and create a bounded channel
        (capacity at least 1) or an unbounded one. */
    static method Create(payloadType: TypeId, configuration: QueryConfiguration, typeOf: Handle -> TypeId)
      returns (r: Outcome<ProccesableQueue>)
      modifies configuration
      ensures old(configuration.itemsProcessingFunction.Some? == configuration.itemsProcessor.Some?) ==>
        r.Throw? && r.exception.InvalidOperation?
      ensures old(configuration.itemsProcessingFunction.Some? != configuration.itemsProcessor.Some?) ==>
        && configuration.name == old(configuration.name)
        && configuration.capacity == old(configuration.capacity)
        && configuration.typesConfiguration == old(configuration.typesConfiguration)
        && (configuration.typesConfiguration == null ==> r == Throw(NullReference))
        && (configuration.typesConfiguration != null && configuration.capacity.Some? && configuration.capacity.value < 1 ==>
              r == Throw(ArgumentOutOfRange))
        && (configuration.typesConfiguration != null && (configuration.capacity.None? || configuration.capacity.value >= 1) ==>
              && r.Ok? && fresh(r.value) && fresh(r.value.counter) && fresh(r.value.excludedSubTypes)
              && Created(r.value, payloadType, configuration))
      ensures r.Ok? ==> Validated(configuration, typeOf)
    {
      var validation := configuration.Validate(typeOf);
      if validation.Throw? {
        return Throw(validation.exception);
      }
      var types := configuration.typesConfiguration;
      if types == null {
        return Throw(NullReference);
      }
      var included := types.includedTypes;
      included := types.excludedTypes;
      if configuration.capacity.Some? && configuration.capacity.value < 1 {
        return Throw(ArgumentOutOfRange);
      }
      var pipeline := Pipeline(
        configuration.itemsPreProcessingActions, configuration.itemsPreProcessors,
        configuration.itemsProcessor, configuration.itemsProcessingFunction,
        configuration.itemsPostProcessingActions, configuration.itemsPostProcessors);
      var q := new ProccesableQueue(payloadType, configuration.name, configuration.capacity,
                                    included, configuration.itemsProviders, pipeline);
      r := Ok(q);
    }

    /** `ItemsCount`. */
    function ItemsCount(): (n: int)
      reads this, counter
      requires Valid()
      ensures n == counter.increments - counter.decrements
    {
      counter.value
    }

    /** `EnqueueAsync` in the default full mode of a bounded channel: a write
        to a full channel does not complete, and the item is not added. No
        null or type check is made on the way in. */
    method Enqueue(item: Payload) returns (written: bool)
      requires Valid()
      modifies this`buffer
      ensures Valid()
      ensures written <==> !old(Full())
      ensures written ==> buffer == old(buffer) + [item]
      ensures !written ==> buffer == old(buffer)
    {
      if Full() {
        return false;
      }
      buffer := buffer + [item];
      written := true;
    }

    /** `RunProviderAsync` over a provider producing `source`: each item is
        counted, then written; the pass halts at the first write that cannot
        complete, whose item has already been counted. */
    method RunProvider(source: seq<Payload>) returns (delivered: nat)
      requires Valid()
      modifies this`buffer, counter
      ensures Valid()
      ensures delivered == if capacity.None? then |source| else Min(|source|, capacity.value - |old(buffer)|)
      ensures buffer == old(buffer) + source[..delivered]
      ensures counter.value == old(counter.value) + (if delivered < |source| then delivered + 1 else delivered)
      ensures counter.decrements == old(counter.decrements)
    {
      delivered := 0;
      while delivered < |source|
        invariant delivered <= |source|
        invariant Valid()
        invariant buffer == old(buffer) + source[..delivered]
        invariant counter.value == old(counter.value) + delivered
        invariant counter.decrements == old(counter.decrements)
        invariant capacity.Some? ==> delivered <= capacity.value - |old(buffer)|
      {
        counter.Increment();
        var written := Enqueue(source[delivered]);
        if !written {
          return;
        }
        assert source[..delivered + 1] == source[..delivered] + [source[delivered]];
        delivered := delivered + 1;
      }
    }

    /** The item is an object whose type passes the filter. */
    predicate Accepts(p: Payload)
      reads includedSubTypes, excludedSubTypes
    {
      !p.Null? && ShouldProcessPayload(payloadType, includedSubTypes.elems, excludedSubTypes.elems, p.runtimeType)
    }

    /** One pass of the consumer loop's body over `p`, read from the channel
        while the counter stood at `count`. */
    function StepRun<R>(w: World<R>, count: int, p: Payload): ItemRun
      reads includedSubTypes, excludedSubTypes
    {
      if p.Null? then ItemRun([ConsumerStopped], false, false)
      else if !ShouldProcessPayload(payloadType, includedSubTypes.elems, excludedSubTypes.elems, p.runtimeType) then
        ItemRun([Skipped(p)], false, true)
      else RunItem(pipeline, w, QueueContext(name, capacity, count), p)
    }

    /** The `foreach` over one stage collection. */
    method InvokeStages(kind: Stage, hs: seq<Handle>, call: Handle -> Outcome<()>, p: Payload) returns (ok: bool)
      modifies this`trace
      ensures trace == old(trace) + RunStages(kind, hs, call, p).0
      ensures ok == RunStages(kind, hs, call, p).1
    {
      var i := 0;
      while i < |hs|
        invariant i <= |hs|
        invariant trace == old(trace) + RunStages(kind, hs[..i], call, p).0
        invariant RunStages(kind, hs[..i], call, p).1
      {
        assert hs[..i + 1][..i] == hs[..i];
        trace := trace + [Ran(kind, hs[i], p)];
        if call(hs[i]).Throw? {
          RunStagesStopsAtThrow(kind, hs, call, p, i + 1);
          return false;
        }
        i := i + 1;
      }
      assert hs[..i] == hs;
      ok := true;
    }

    /** `PreProcessItemAsync`. */
    method PreProcessItem<R>(w: World<R>, ctx: QueueContext, p: Payload) returns (ok: bool)
      modifies this`trace
      ensures trace == old(trace) + PreStages(pipeline, w, ctx, p).0
      ensures ok == PreStages(pipeline, w, ctx, p).1
    {
      ok := InvokeStages(PreAction, pipeline.preActions, PreCall(w, ctx, p), p);
      if ok {
        ok := InvokeStages(PreProcessor, pipeline.preProcessors, PreCall(w, ctx, p), p);
      }
    }

    /** `ProcessItemAsync`. */
    method ProcessItem<R>(w: World<R>, ctx: QueueContext, p: Payload) returns (result: Outcome<R>)
      modifies this`trace
      ensures trace == old(trace) + Process(pipeline, w, ctx, p).0
      ensures result == Process(pipeline, w, ctx, p).1
    {
      if pipeline.processor.Some? {
        trace := trace + [Ran(Processor, pipeline.processor.value, p)];
        return w.process(pipeline.processor.value, ctx, p);
      }
      if pipeline.processingFunction.Some? {
        trace := trace + [Ran(ProcessingFunction, pipeline.processingFunction.value, p)];
        return w.process(pipeline.processingFunction.value, ctx, p);
      }
      result := Throw(ArgumentNull("Proccesing"));
    }

    /** `PostProcessItemAsync`. */
    method PostProcessItem<R>(w: World<R>, ctx: QueueContext, p: Payload, result: R) returns (ok: bool)
      modifies this`trace
      ensures trace == old(trace) + PostStages(pipeline, w, ctx, p, result).0
      ensures ok == PostStages(pipeline, w, ctx, p, result).1
    {
      ok := InvokeStages(PostAction, pipeline.postActions, PostCall(w, ctx, p, result), p);
      if ok {
        ok := InvokeStages(PostProcessor, pipeline.postProcessors, PostCall(w, ctx, p, result), p);
      }
    }

    /** One iteration of `RunProcessorAsync`: read the oldest item; a null one
        ends the loop (its `GetType` call is outside the `try`); a filtered one
        is skipped; otherwise pre-process, process, decrement, post-process,
        and catch whatever is thrown so that the loop goes on. */
    method Step<R>(w: World<R>) returns (status: StepStatus)
      requires Valid()
      modifies this, counter
      ensures Valid()
      ensures old(consumerStopped || buffer == []) ==>
        status == Idle && buffer == old(buffer) && trace == old(trace) && counter.value == old(counter.value)
        && consumerStopped == old(consumerStopped)
      ensures !old(consumerStopped || buffer == []) ==>
        var run := StepRun(w, old(counter.value), old(buffer[0]));
        && buffer == old(buffer[1..])
        && trace == old(trace) + run.events
        && counter.value == old(counter.value) - (if run.decremented then 1 else 0)
        && consumerStopped == old(buffer[0]).Null?
        && (status == Completed <==> Accepts(old(buffer[0])) && run.completed)
    {
      if consumerStopped || buffer == [] {
        return Idle;
      }
      var payload := buffer[0];
      buffer := buffer[1..];
      if payload.Null? {
        consumerStopped := true;
        trace := trace + [ConsumerStopped];
        return Stopped;
      }
      if !ShouldProcessPayload(payloadType, includedSubTypes.elems, excludedSubTypes.elems, payload.runtimeType) {
        trace := trace + [Skipped(payload)];
        return Filtered;
      }
      var completed := HandleItem(w, QueueContext(name, capacity, counter.value), payload);
      status := if completed then Completed else Faulted;
    }

    /** The consumer loop's `try` block for an accepted item, with its `catch`. */
    method HandleItem<R>(w: World<R>, ctx: QueueContext, p: Payload) returns (completed: bool)
      requires counter.Valid()
      modifies this`trace, counter
      ensures counter.Valid()
      ensures var run := RunItem(pipeline, w, ctx, p);
        && trace == old(trace) + run.events
        && counter.value == old(counter.value) - (if run.decremented then 1 else 0)
        && completed == run.completed
    {
      ghost var pre := PreStages(pipeline, w, ctx, p);
      ghost var processed := Process(pipeline, w, ctx, p);
      var ok := PreProcessItem(w, ctx, p);
      if !ok {
        trace := trace + [Caught(p)];
        return false;
      }
      var result := ProcessItem(w, ctx, p);
      if result.Throw? {
        trace := trace + [Caught(p)];
        return false;
      }
      assert pre.1 && processed.1 == result;
      completed := FinishItem(w, ctx, p, result.value);
    }

    /** The part of an item's handling after a successful processing step:
        the decrement, then the post-stages. */
    method FinishItem<R>(w: World<R>, ctx: QueueContext, p: Payload, value: R) returns (completed: bool)
      requires counter.Valid()
      modifies this`trace, counter
      ensures counter.Valid()
      ensures var post := PostStages(pipeline, w, ctx, p, value);
        && trace == old(trace) + [Decremented(p)] + post.0 + (if post.1 then [] else [Caught(p)])
        && counter.value == old(counter.value) - 1
        && completed == post.1
    {
      counter.Decrement();
      trace := trace + [Decremented(p)];
      completed := PostProcessItem(w, ctx, p, value);
      if !completed {
        trace := trace + [Caught(p)];
      }
    }

    /** The consumer loop over the items read so far, oldest first, starting
        from counter value `count0`; a null item ends it. */
    function Drain<R>(w: World<R>, count0: int, items: seq<Payload>): DrainRun
      reads includedSubTypes, excludedSubTypes
    {
      if items == [] then DrainRun([], count0, false)
      else
        var d := Drain(w, count0, items[..|items| - 1]);
        if d.stopped then d
        else
          var last := items[|items| - 1];
          var run := StepRun(w, d.count, last);
          DrainRun(d.events + run.events, d.count - (if run.decremented then 1 else 0), last.Null?)
    }

    /** The consumer loop over one more item. */
    lemma DrainSnoc<R>(w: World<R>, count0: int, items: seq<Payload>, k: nat)
      requires k < |items|
      ensures var d := Drain(w, count0, items[..k]);
        Drain(w, count0, items[..k + 1]) ==
          if d.stopped then d
          else
            var run := StepRun(w, d.count, items[k]);
            DrainRun(d.events + run.events, d.count - (if run.decremented then 1 else 0), items[k].Null?)
    {
      assert items[..k + 1][..k] == items[..k];
    }

    /** Items after a null one are never read. */
    lemma {:induction false} DrainStopsAtNull<R>(w: World<R>, count0: int, items: seq<Payload>, k: nat)
      requires k <= |items| && Drain(w, count0, items[..k]).stopped
      ensures Drain(w, count0, items) == Drain(w, count0, items[..k])
      decreases |items| - k
    {
      var n := |items|;
      if k < n {
        assert items[..n][..n - 1] == items[..n - 1];
        if k < n - 1 {
          assert items[..n - 1][..k] == items[..k];
          DrainStopsAtNull(w, count0, items[..n - 1], k);
        } else {
          assert items[..k] == items[..n - 1];
        }
      } else {
        assert items[..k] == items;
      }
    }

    /** An exception in any stage does not end the loop: without a null item
        every item is read, and it stops exactly when one is null. */
    lemma {:induction false} DrainStopsOnlyAtNull<R>(w: World<R>, count0: int, items: seq<Payload>)
      ensures Drain(w, count0, items).stopped <==> Null in items
    {
      if items != [] {
        var n := |items|;
        DrainStopsOnlyAtNull(w, count0, items[..n - 1]);
        assert items == items[..n - 1] + [items[n - 1]];
      }
    }

    /** Each read item lowers the counter by at most one, so the counter never
        drops by more than the number of items read. */
    lemma {:induction false} DrainCountBounds<R>(w: World<R>, count0: int, items: seq<Payload>)
      ensures count0 - |items| <= Drain(w, count0, items).count <= count0
    {
      if items != [] {
        DrainCountBounds(w, count0, items[..|items| - 1]);
      }
    }

    /** `RunProcessorAsync`: read and handle items until the channel is empty
        or a null item ends the loop. */
    method RunProcessor<R>(w: World<R>)
      requires Valid()
      modifies this, counter
      ensures Valid()
      ensures old(consumerStopped) ==>
        buffer == old(buffer) && trace == old(trace) && counter.value == old(counter.value) && consumerStopped
      ensures !old(consumerStopped) ==>
        var d := Drain(w, old(counter.value), old(buffer));
        && trace == old(trace) + d.events
        && counter.value == d.count
        && consumerStopped == d.stopped
        && (buffer == [] || consumerStopped)
        && |buffer| <= |old(buffer)| && buffer == old(buffer)[|old(buffer)| - |buffer|..]
    {
      if consumerStopped {
        return;
      }
      ghost var items := buffer;
      ghost var count0 := counter.value;
      var k := 0;
      while !consumerStopped && buffer != []
        invariant Valid()
        invariant k <= |items| && buffer == items[k..]
        invariant trace == old(trace) + Drain(w, count0, items[..k]).events
        invariant counter.value == Drain(w, count0, items[..k]).count
        invariant consumerStopped == Drain(w, count0, items[..k]).stopped
        decreases |buffer|
      {
        DrainSnoc(w, count0, items, k);
        assert items[k] == buffer[0];
        var _ := Step(w);
        k := k + 1;
      }
      if consumerStopped {
        DrainStopsAtNull(w, count0, items, k);
      } else {
        assert items[..k] == items;
      }
    }
  }

  function Min(a: int, b: int): int {
    if a < b then a else b
  }

  datatype DrainRun = DrainRun(events: seq<Event>, count: int, stopped: bool)
}
