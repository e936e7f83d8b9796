/**
 * The checkpointed stream: a generator that saves and yields in turn, for a consumer that may
 * stop polling at any yield.
 */
module PipelineStream {
  import opened Messages
  import opened Checkpoints
  import opened PipelineProtocol
  import opened PipelineRun

  datatype AgentEvent =
    | Progress(note: nat)
    | Finished(message: Msg)
    | ConfirmationRequired(checkpoint: nat)
    | AgentError(reason: string)

  /** One polled item of an agent's own stream. */
  datatype AgentItem = Emitted(event: AgentEvent) | Broken(reason: string)

  /** What asking a stage's agent for a stream yields: a failure to start, or finitely many items. */
  datatype AgentRun = StartFailed(reason: string) | Streaming(items: seq<AgentItem>)

  type StreamingAgent = (nat, Msg) -> AgentRun

  /** An interrupt seen before the fence, or once `polls` items of the stage have been polled; or a save that fails. */
  datatype StreamSignal =
    | NotSeen
    | SeenBeforeFence | SeenAfter(polls: nat)
    | LosesFence(fault: Fault) | LosesCommit(fault: Fault)

  function FenceOf(signal: StreamSignal): Fault { if signal.LosesFence? then signal.fault else Acked }

  function CommitOf(signal: StreamSignal): Fault { if signal.LosesCommit? then signal.fault else Acked }

  type StreamSignals = nat -> StreamSignal

  datatype StageOutcome = Answered(message: Msg) | Stopped(cause: Cause)

  datatype PipelineEvent =
    | StageStarted(step: nat)
    | AgentStep(step: nat, event: AgentEvent)
    | StageCompleted(stage: Step)
    | PipelineFinished(output: PipelineOutput)
    | PipelineFailed(error: PipelineError)

  /** A save, the start of a stage's agent, or a yield. */
  datatype Action = Saved(record: Record) | Asked(dispatch: Dispatch) | Yielded(event: PipelineEvent)

  // ------------------------------------------------------------ one stage

  function EndOf(event: AgentEvent): Option<StageOutcome> {
    match event
    case Finished(message) => Some(Answered(message))
    case ConfirmationRequired(_) => Some(Stopped(StageFailed("tool confirmation required")))
    case AgentError(reason) => Some(Stopped(StageFailed(reason)))
    case Progress(_) => None
  }

  /** The events forwarded from the `k`-th item on, and how the stage ends. */
  function Drain(items: seq<AgentItem>, k: nat, signal: StreamSignal): (seq<AgentEvent>, StageOutcome)
    requires k <= |items|
    decreases |items| - k
  {
    if signal.SeenAfter? && signal.polls <= k then ([], Stopped(Cause.Interrupted))
    else if k == |items| then ([], Stopped(StageFailed("agent stream ended without a terminal event")))
    else
      match items[k]
      case Broken(reason) => ([], Stopped(StageFailed(reason)))
      case Emitted(event) =>
        if EndOf(event).Some? then ([event], EndOf(event).value)
        else
          var (events, end) := Drain(items, k + 1, signal);
          ([event] + events, end)
  }

  /** What one stage's agent amounts to; nothing of it is seen when an interrupt is seen first. */
  lemma {:induction false} StageRunTells(run: AgentRun, signal: StreamSignal)
    ensures var (events, end) := StageRun(run, signal);
      if signal == SeenAfter(0) then events == [] && end == Stopped(Cause.Interrupted)
      else match run
        case StartFailed(reason) => events == [] && end == Stopped(StageFailed(reason))
        case Streaming(items) => Forwards(items, 0, signal, events, end)
  {
    if run.Streaming? { DrainForwards(run.items, 0, signal); }
  }

  function StageRun(run: AgentRun, signal: StreamSignal): (seq<AgentEvent>, StageOutcome) {
    if signal == SeenAfter(0) then ([], Stopped(Cause.Interrupted))
    else match run
      case StartFailed(reason) => ([], Stopped(StageFailed(reason)))
      case Streaming(items) => Drain(items, 0, signal)
  }

  /**
   * A stage forwards its agent's items from the `k`-th on, in order and without gaps, up to the first
   * that ends it; it ends as that item says, or for the interrupt, the error or the end met there.
   */
  ghost predicate Forwards(
    items: seq<AgentItem>, k: nat, signal: StreamSignal, events: seq<AgentEvent>, end: StageOutcome)
  {
    var stop := k + |events|;
    && stop <= |items| && (forall j | 0 <= j < |events| :: items[k + j] == Emitted(events[j]))
    && (signal.SeenAfter? && events != [] ==> stop <= signal.polls)
    && (forall j | 0 <= j < |events| - 1 :: events[j].Progress?)
    && if events != [] && !events[|events| - 1].Progress? then
         match events[|events| - 1]
         case Finished(message) => end == Answered(message)
         case ConfirmationRequired(_) => end == Stopped(StageFailed("tool confirmation required"))
         case AgentError(reason) => end == Stopped(StageFailed(reason))
       else if signal.SeenAfter? && signal.polls <= stop then end == Stopped(Cause.Interrupted)
       else if stop == |items| then end == Stopped(StageFailed("agent stream ended without a terminal event"))
       else items[stop].Broken? && end == Stopped(StageFailed(items[stop].reason))
  }

  lemma {:induction false} DrainForwards(items: seq<AgentItem>, k: nat, signal: StreamSignal)
    requires k <= |items|
    ensures var (events, end) := Drain(items, k, signal); Forwards(items, k, signal, events, end)
    decreases |items| - k
  {
    if !(signal.SeenAfter? && signal.polls <= k) && k < |items| && items[k].Emitted? && EndOf(items[k].event).None? {
      DrainForwards(items, k + 1, signal);
      var (rest, end) := Drain(items, k + 1, signal);
      var events := [items[k].event] + rest;
      forall j | 0 <= j < |events| ensures items[k + j] == Emitted(events[j]) {
        if j > 0 { assert k + j == k + 1 + (j - 1); }
      }
    }
  }

  function Steps(step: nat, events: seq<AgentEvent>): seq<Action> {
    if events == [] then [] else [Yielded(AgentStep(step, events[0]))] + Steps(step, events[1..])
  }

  /** What the non-streaming executor sees of the same agents and interrupts. */
  function ReplyOf(agent: StreamingAgent, signals: StreamSignals): Agent {
    (i: nat, input: Msg) =>
      match StageRun(agent(i, input), signals(i)).1
      case Answered(message) => Replied(message)
      case Stopped(cause) => AgentFailed(if cause.StageFailed? then cause.reason else "")
  }

  function SignalOf(agent: StreamingAgent, signals: StreamSignals): Signals {
    (i: nat, input: Msg) =>
      if signals(i) == SeenBeforeFence then BeforeFence
      else if signals(i).LosesFence? then FenceFault(signals(i).fault)
      else if signals(i) == SeenAfter(0) then BeforeInvoke
      else if StageRun(agent(i, input), signals(i)).1 == Stopped(Cause.Interrupted) then DuringStage
      else if signals(i).LosesCommit? then CommitFault(signals(i).fault)
      else Quiet
  }

  // ------------------------------------------------------------ the trace

  function Failure(record: Record, cause: Cause): seq<Action> {
    var completed := record.checkpoint.completed;
    [Yielded(PipelineFailed(PipelineError(Some(|completed| + 1), completed, cause)))]
  }

  /** How a stage in flight ends: in failure, or with its reply committed and the record to go on from. */
  function Ending(names: seq<string>, fenced: Record, end: StageOutcome, fault: Fault)
    : (r: (seq<Action>, Option<Record>))
    requires |fenced.checkpoint.completed| < |names|
    ensures r.1.Some? ==> |r.1.value.checkpoint.completed| == |fenced.checkpoint.completed| + 1
  {
    var index := |fenced.checkpoint.completed|;
    if end.Stopped? then (Failure(fenced, end.cause), None)
    else
      var handed := HandoffOf(names[index], end.message);
      if index + 1 != |names| && handed.Err? then (Failure(fenced, InvalidHandoff(handed.error)), None)
      else if fault.NotCommitted? then (Failure(fenced, StoreFailed(Unavailable)), None)
      else if fenced.revision >= MAX_REVISION then (Failure(fenced, StoreFailed(RevisionOverflow)), None)
      else
        var next := Record(fenced.revision + 1, Advanced(names, fenced.checkpoint, end.message).value);
        if fault.AckLost? then ([Saved(next)] + Failure(fenced, StoreFailed(Unavailable)), None)
        else ([Saved(next), Yielded(StageCompleted(Step(index + 1, names[index], end.message)))], Some(next))
  }

  /** The agent is asked when the consumer polls on, unless an interrupt is seen first. */
  function Invoking(record: Record, signal: StreamSignal): seq<Action> {
    if signal == SeenAfter(0) then []
    else [Asked(Dispatch(|record.checkpoint.completed|, record.checkpoint.nextInput))]
  }

  function Opened(record: Record, fenced: Record): seq<Action> {
    [Saved(fenced), Yielded(StageStarted(|record.checkpoint.completed| + 1))]
  }

  function Started(record: Record, fenced: Record, signal: StreamSignal, events: seq<AgentEvent>): seq<Action> {
    Opened(record, fenced) + Invoking(record, signal) + Steps(|record.checkpoint.completed| + 1, events)
  }

  /** The saves and yields of one stage, and the record to go on from if there is one. */
  function StageTrace(names: seq<string>, agent: StreamingAgent, signals: StreamSignals, record: Record)
    : (r: (seq<Action>, Option<Record>))
    requires |record.checkpoint.completed| < |names|
    ensures r.1.Some? ==> |r.1.value.checkpoint.completed| == |record.checkpoint.completed| + 1
  {
    var index := |record.checkpoint.completed|;
    var fenced := Record(record.revision + 1, record.checkpoint.(status := InFlight));
    if signals(index) == SeenBeforeFence then (Failure(record, Cause.Interrupted), None)
    else if FenceOf(signals(index)).NotCommitted? then (Failure(record, StoreFailed(Unavailable)), None)
    else if record.revision >= MAX_REVISION then (Failure(record, StoreFailed(RevisionOverflow)), None)
    else if FenceOf(signals(index)).AckLost? then
      ([Saved(fenced)] + Failure(record, StoreFailed(Unavailable)), None)
    else
      var run := StageRun(agent(index, record.checkpoint.nextInput), signals(index));
      FencedTrace(names, record, fenced, run, signals(index))
  }

  function FencedTrace(
    names: seq<string>, record: Record, fenced: Record, run: (seq<AgentEvent>, StageOutcome), signal: StreamSignal)
    : (r: (seq<Action>, Option<Record>))
    requires |fenced.checkpoint.completed| < |names|
    ensures r.1.Some? ==> |r.1.value.checkpoint.completed| == |fenced.checkpoint.completed| + 1
  {
    var (actions, next) := Ending(names, fenced, run.1, CommitOf(signal));
    (Started(record, fenced, signal, run.0) + actions, next)
  }

  /** Everything a fully polled stream does from a loaded `Ready` record, saves and yields in order. */
  function Trace(names: seq<string>, agent: StreamingAgent, signals: StreamSignals, record: Record): seq<Action>
    requires |record.checkpoint.completed| < |names|
    decreases |names| - |record.checkpoint.completed|, 0
  {
    var (actions, next) := StageTrace(names, agent, signals, record);
    actions + Onward(names, agent, signals, next)
  }

  /** What follows a stage: nothing, the final output, or the next stage. */
  function Onward(names: seq<string>, agent: StreamingAgent, signals: StreamSignals, next: Option<Record>): seq<Action>
    requires next.Some? ==> 0 < |next.value.checkpoint.completed| <= |names|
    decreases (match next case None => 0 case Some(r) => |names| - |r.checkpoint.completed|), 1
  {
    match next
    case None => []
    case Some(r) =>
      if |r.checkpoint.completed| == |names| then [Yielded(PipelineFinished(OutputOf(r.checkpoint.completed)))]
      else Trace(names, agent, signals, r)
  }

  // --------------------------------------------- what a consumer can rely on

  /** The record in the store after `actions`, starting from `record`. */
  function Stored(record: Record, actions: seq<Action>): Record {
    if actions == [] then record
    else if actions[|actions| - 1].Saved? then actions[|actions| - 1].record
    else Stored(record, actions[..|actions| - 1])
  }

  function Yields(actions: seq<Action>): seq<PipelineEvent> {
    if actions == [] then []
    else if actions[0].Yielded? then [actions[0].event] + Yields(actions[1..])
    else Yields(actions[1..])
  }

  function Asks(actions: seq<Action>): seq<Dispatch> {
    if actions == [] then []
    else if actions[0].Asked? then [actions[0].dispatch] + Asks(actions[1..])
    else Asks(actions[1..])
  }

  function Saves(actions: seq<Action>): seq<Record> {
    if actions == [] then []
    else if actions[0].Saved? then [actions[0].record] + Saves(actions[1..])
    else Saves(actions[1..])
  }

  predicate IsTerminal(event: PipelineEvent) { event.PipelineFinished? || event.PipelineFailed? }

  /** What the store must already hold when a consumer sees `event`. */
  predicate Backed(event: PipelineEvent, stored: Record) {
    var c := stored.checkpoint;
    match event
    case StageStarted(step) => c.status == InFlight && |c.completed| + 1 == step
    case AgentStep(step, _) => c.status == InFlight && |c.completed| + 1 == step
    case StageCompleted(stage) =>
      c.status != InFlight && c.completed != [] && |c.completed| == stage.step
      && c.completed[|c.completed| - 1] == stage
    case PipelineFinished(output) =>
      c.status == Status.Finished && c.completed != [] && output == OutputOf(c.completed)
    case PipelineFailed(error) =>
      || c.completed == error.completed
      || (error.cause == StoreFailed(Unavailable) && c.completed != []
          && c.completed[..|c.completed| - 1] == error.completed)
  }

  /** A consumer's view: the stream goes on with `record` stored, has ended, or broke its promise. */
  datatype View = Open(record: Record) | Ended | Betrayed

  function Watch(view: View, action: Action): View {
    if !view.Open? then Betrayed
    else if action.Saved? then Open(action.record)
    else if action.Asked? then view
    else if !Backed(action.event, view.record) then Betrayed
    else if IsTerminal(action.event) then Ended
    else view
  }

  function WatchAll(view: View, actions: seq<Action>): View {
    if actions == [] then view else Watch(WatchAll(view, actions[..|actions| - 1]), actions[|actions| - 1])
  }

  /** Every event is backed by the store at the moment it is yielded. */
  ghost predicate AllBacked(record: Record, actions: seq<Action>) {
    forall i | 0 <= i < |actions| && actions[i].Yielded? :: Backed(actions[i].event, Stored(record, actions[..i]))
  }

  ghost predicate NoneTerminal(actions: seq<Action>) {
    forall i | 0 <= i < |actions| && actions[i].Yielded? :: !IsTerminal(actions[i].event)
  }

  /** Exactly one terminal event, as the last action of all. */
  ghost predicate EndsOnce(actions: seq<Action>) {
    && actions != [] && NoneTerminal(actions[..|actions| - 1])
    && actions[|actions| - 1].Yielded? && IsTerminal(actions[|actions| - 1].event)
  }

  lemma {:induction false} WatchMeaning(record: Record, actions: seq<Action>)
    ensures WatchAll(Open(record), actions).Open? ==>
      && WatchAll(Open(record), actions).record == Stored(record, actions)
      && AllBacked(record, actions) && NoneTerminal(actions)
    ensures WatchAll(Open(record), actions).Ended? ==> AllBacked(record, actions) && EndsOnce(actions)
  {
    if actions != [] {
      var init := actions[..|actions| - 1];
      WatchMeaning(record, init);
      assert forall i | 0 <= i < |init| :: actions[..i] == init[..i];
    }
  }

  lemma {:induction false} WatchConcat(view: View, a: seq<Action>, b: seq<Action>)
    ensures WatchAll(view, a + b) == WatchAll(WatchAll(view, a), b)
  {
    if b == [] {
      assert a + b == a;
    } else {
      WatchConcat(view, a, b[..|b| - 1]);
      assert (a + b)[..|a + b| - 1] == a + b[..|b| - 1];
    }
  }

  lemma {:induction false} StoredConcat(record: Record, a: seq<Action>, b: seq<Action>)
    ensures Stored(record, a + b) == Stored(Stored(record, a), b)
  {
    if b == [] {
      assert a + b == a;
    } else {
      StoredConcat(record, a, b[..|b| - 1]);
      assert (a + b)[..|a + b| - 1] == a + b[..|b| - 1];
    }
  }

  lemma {:induction false} WatchSaveYield(record: Record, next: Record, event: PipelineEvent)
    requires Backed(event, next) && !IsTerminal(event)
    ensures WatchAll(Open(record), [Saved(next), Yielded(event)]) == Open(next)
  {
    WatchConcat(Open(record), [Saved(next)], [Yielded(event)]);
    assert [Saved(next)] + [Yielded(event)] == [Saved(next), Yielded(event)];
  }

  lemma {:induction false} WatchSteps(record: Record, events: seq<AgentEvent>)
    requires record.checkpoint.status == InFlight
    ensures WatchAll(Open(record), Steps(|record.checkpoint.completed| + 1, events)) == Open(record)
  {
    if events != [] {
      var step := |record.checkpoint.completed| + 1;
      WatchSteps(record, events[1..]);
      WatchConcat(Open(record), [Yielded(AgentStep(step, events[0]))], Steps(step, events[1..]));
    }
  }

  lemma {:induction false} WatchInvoking(record: Record, fenced: Record, signal: StreamSignal)
    requires fenced.checkpoint == record.checkpoint.(status := InFlight)
    ensures WatchAll(Open(record), Opened(record, fenced) + Invoking(record, signal)) == Open(fenced)
  {
    WatchSaveYield(record, fenced, StageStarted(|record.checkpoint.completed| + 1));
    WatchConcat(Open(record), Opened(record, fenced), Invoking(record, signal));
  }

  lemma {:induction false} WatchStarted(
    record: Record, fenced: Record, signal: StreamSignal, events: seq<AgentEvent>)
    requires fenced.checkpoint == record.checkpoint.(status := InFlight)
    ensures WatchAll(Open(record), Started(record, fenced, signal, events)) == Open(fenced)
  {
    var step := |record.checkpoint.completed| + 1;
    WatchInvoking(record, fenced, signal);
    WatchSteps(fenced, events);
    WatchConcat(Open(record), Opened(record, fenced) + Invoking(record, signal), Steps(step, events));
  }

  lemma {:induction false} WatchEnding(names: seq<string>, fenced: Record, end: StageOutcome, fault: Fault)
    requires |fenced.checkpoint.completed| < |names| && fenced.checkpoint.status == InFlight
    ensures Watched(fenced, Ending(names, fenced, end, fault))
  {
    var (actions, next) := Ending(names, fenced, end, fault);
    if next.Some? {
      WatchSaveYield(fenced, next.value, actions[1].event);
    } else if |actions| == 2 {
      WatchLost(fenced, actions[0].record, fenced);
    }
  }

  /** A save whose report is lost is followed by a failure that its record backs. */
  lemma {:induction false} WatchLost(record: Record, saved: Record, reported: Record)
    requires var failed := Failure(reported, StoreFailed(Unavailable))[0].event; Backed(failed, saved)
    ensures WatchAll(Open(record), [Saved(saved)] + Failure(reported, StoreFailed(Unavailable))) == Ended
  {
    WatchConcat(Open(record), [Saved(saved)], Failure(reported, StoreFailed(Unavailable)));
  }

  /** A stage's trace ends the stream, or commits the stage's reply and goes on. */
  ghost predicate Watched(record: Record, trace: (seq<Action>, Option<Record>)) {
    WatchAll(Open(record), trace.0) == match trace.1 case None => Ended case Some(r) => Open(r)
  }

  lemma {:induction false} WatchFailure(record: Record, cause: Cause)
    ensures Watched(record, (Failure(record, cause), None))
  {
  }

  lemma {:induction false} WatchFenced(
      names: seq<string>, record: Record, fenced: Record, run: (seq<AgentEvent>, StageOutcome), signal: StreamSignal)
    requires |record.checkpoint.completed| < |names| && fenced.checkpoint == record.checkpoint.(status := InFlight)
    ensures Watched(record, FencedTrace(names, record, fenced, run, signal))
  {
    var ending := Ending(names, fenced, run.1, CommitOf(signal)).0;
    WatchStarted(record, fenced, signal, run.0);
    WatchEnding(names, fenced, run.1, CommitOf(signal));
    WatchConcat(Open(record), Started(record, fenced, signal, run.0), ending);
  }

  lemma {:induction false} WatchStage(names: seq<string>, agent: StreamingAgent, signals: StreamSignals, record: Record)
    requires |record.checkpoint.completed| < |names|
    ensures Watched(record, StageTrace(names, agent, signals, record))
  {
    var index, c := |record.checkpoint.completed|, record.checkpoint;
    if signals(index) == SeenBeforeFence {
      WatchFailure(record, Cause.Interrupted);
    } else if FenceOf(signals(index)).NotCommitted? {
      WatchFailure(record, StoreFailed(Unavailable));
    } else if record.revision >= MAX_REVISION {
      WatchFailure(record, StoreFailed(RevisionOverflow));
    } else if FenceOf(signals(index)).AckLost? {
      WatchLost(record, Record(record.revision + 1, c.(status := InFlight)), record);
    } else {
      var run := StageRun(agent(index, c.nextInput), signals(index));
      WatchFenced(names, record, Record(record.revision + 1, c.(status := InFlight)), run, signals(index));
    }
  }

  lemma {:induction false} WatchTrace(
    names: seq<string>, agent: StreamingAgent, signals: StreamSignals, record: Record)
    requires |record.checkpoint.completed| < |names|
    ensures WatchAll(Open(record), Trace(names, agent, signals, record)) == Ended
    decreases |names| - |record.checkpoint.completed|
  {
    WatchStage(names, agent, signals, record);
    var (actions, next) := StageTrace(names, agent, signals, record);
    WatchConcat(Open(record), actions, Onward(names, agent, signals, next));
    if next.Some? && |next.value.checkpoint.completed| < |names| {
      WatchTrace(names, agent, signals, next.value);
    }
  }

  /**
   * Wherever the consumer stops, what it has seen is already committed; polled to the end, it
   * sees exactly one terminal event, last.
   */
  lemma {:induction false} TraceIsBacked(
      names: seq<string>, agent: StreamingAgent, signals: StreamSignals, record: Record)
    requires |record.checkpoint.completed| < |names|
    ensures AllBacked(record, Trace(names, agent, signals, record))
    ensures EndsOnce(Trace(names, agent, signals, record))
  {
    WatchTrace(names, agent, signals, record);
    WatchMeaning(record, Trace(names, agent, signals, record));
  }

  // ---------------------------------------- agreement with the plain executor

  lemma {:induction false} SavesConcat(a: seq<Action>, b: seq<Action>)
    ensures Saves(a + b) == Saves(a) + Saves(b)
    ensures Asks(a + b) == Asks(a) + Asks(b)
  {
    if a == [] {
      assert a + b == b;
    } else {
      SavesConcat(a[1..], b);
      assert (a + b)[1..] == a[1..] + b;
    }
  }

  lemma {:induction false} StepsSaveNothing(step: nat, events: seq<AgentEvent>)
    ensures Saves(Steps(step, events)) == [] && Asks(Steps(step, events)) == []
  {
    if events != [] { StepsSaveNothing(step, events[1..]); }
  }

  lemma {:induction false} SavesOfSaveYield(record: Record, event: PipelineEvent)
    ensures Saves([Saved(record), Yielded(event)]) == [record]
    ensures Asks([Saved(record), Yielded(event)]) == []
  {
    var rest := [Yielded(event)];
    assert [Saved(record), Yielded(event)][1..] == rest && Saves(rest) == Saves(rest[1..]);
    assert Asks(rest) == Asks(rest[1..]);
  }

  /** What the stage in flight has asked of its agent. */
  function AskedOf(record: Record, signal: StreamSignal): seq<Dispatch> {
    if signal == SeenAfter(0) then []
    else [Dispatch(|record.checkpoint.completed|, record.checkpoint.nextInput)]
  }

  lemma {:induction false} SavesOfStarted(
    record: Record, fenced: Record, signal: StreamSignal, events: seq<AgentEvent>, rest: seq<Action>)
    ensures Saves(Started(record, fenced, signal, events) + rest) == [fenced] + Saves(rest)
    ensures Asks(Started(record, fenced, signal, events) + rest) == AskedOf(record, signal) + Asks(rest)
  {
    var step := |record.checkpoint.completed| + 1;
    SavesOfSaveYield(fenced, StageStarted(step));
    StepsSaveNothing(step, events);
    SavesConcat(Opened(record, fenced), Invoking(record, signal));
    SavesConcat(Opened(record, fenced) + Invoking(record, signal), Steps(step, events));
    SavesConcat(Started(record, fenced, signal, events), rest);
  }

  lemma {:induction false} SavesOfEnding(names: seq<string>, fenced: Record, end: StageOutcome, fault: Fault)
    requires |fenced.checkpoint.completed| < |names|
    ensures var (actions, next) := Ending(names, fenced, end, fault);
      && Saves(actions) == (if |actions| == 2 then [actions[0].record] else []) && Asks(actions) == []
      && (next.Some? ==> |actions| == 2 && actions[0].record == next.value)
  {
    var (actions, next) := Ending(names, fenced, end, fault);
    if |actions| == 2 { SavesOfSaveYield(actions[0].record, actions[1].event); }
  }

  /** What a streamed stage does and what the plain stage ends with are the same saves and the same cause. */
  ghost predicate Agrees(trace: (seq<Action>, Option<Record>), end: StageEnd) {
    && Saves(trace.0) == end.commits && Asks(trace.0) == end.invoked
    && (trace.1 == if end.error.None? then Some(end.last) else None)
    && (end.error.Some? ==>
          trace.0 != [] && trace.0[|trace.0| - 1] == Yielded(PipelineFailed(end.error.value)))
  }

  /** What the plain stage makes of a stage in flight that ends so. */
  function EndOfStage(names: seq<string>, fenced: Record, end: StageOutcome, signal: StreamSignal): StageEnd
    requires |fenced.checkpoint.completed| < |names|
  {
    match end
    case Answered(message) => Committed(names, fenced, message, CommitOf(signal))
    case Stopped(cause) =>
      var index, c := |fenced.checkpoint.completed|, fenced.checkpoint;
      StageEnd(Some(PipelineError(Some(index + 1), c.completed, cause)), [fenced], fenced, AskedOf(fenced, signal))
  }

  lemma {:induction false} EndingAgrees(names: seq<string>, fenced: Record, end: StageOutcome, signal: StreamSignal)
    requires |fenced.checkpoint.completed| < |names| && (end.Answered? ==> signal != SeenAfter(0))
    ensures var (actions, next) := Ending(names, fenced, end, CommitOf(signal));
      var e := EndOfStage(names, fenced, end, signal);
      && Asks(actions) == [] && e.invoked == AskedOf(fenced, signal)
      && [fenced] + Saves(actions) == e.commits
      && (next == if e.error.None? then Some(e.last) else None)
      && actions != [] && (e.error.Some? ==> actions[|actions| - 1] == Yielded(PipelineFailed(e.error.value)))
  {
    SavesOfEnding(names, fenced, end, CommitOf(signal));
  }

  lemma {:induction false} FencedAgrees(
    names: seq<string>, record: Record, fenced: Record, run: (seq<AgentEvent>, StageOutcome), signal: StreamSignal)
    requires |record.checkpoint.completed| < |names| && fenced.checkpoint == record.checkpoint.(status := InFlight)
    requires run.1.Answered? ==> signal != SeenAfter(0)
    ensures Agrees(FencedTrace(names, record, fenced, run, signal), EndOfStage(names, fenced, run.1, signal))
  {
    SavesOfStarted(record, fenced, signal, run.0, Ending(names, fenced, run.1, CommitOf(signal)).0);
    EndingAgrees(names, fenced, run.1, signal);
  }

  /** A stage saves the same records and fails for the same reason, streamed or not. */
  lemma {:induction false} StageAgrees(
      names: seq<string>, agent: StreamingAgent, signals: StreamSignals, record: Record)
    requires |record.checkpoint.completed| < |names|
    ensures Agrees(StageTrace(names, agent, signals, record),
                   Stage(names, ReplyOf(agent, signals), SignalOf(agent, signals), record))
  {
    var index := |record.checkpoint.completed|;
    var fenced := Record(record.revision + 1, record.checkpoint.(status := InFlight));
    var signal := signals(index);
    if signal != SeenBeforeFence && !FenceOf(signal).NotCommitted? && record.revision < MAX_REVISION {
      if FenceOf(signal).AckLost? {
        SavesOfSaveYield(fenced, Failure(record, StoreFailed(Unavailable))[0].event);
      } else {
        var run := StageRun(agent(index, record.checkpoint.nextInput), signal);
        FencedAgrees(names, record, fenced, run, signal);
        FencedStage(names, agent, signals, record);
      }
    }
  }

  /** The plain stage of a fenced stream stage. */
  lemma {:induction false} FencedStage(
    names: seq<string>, agent: StreamingAgent, signals: StreamSignals, record: Record)
    requires |record.checkpoint.completed| < |names| && record.revision < MAX_REVISION
    requires var signal := signals(|record.checkpoint.completed|); signal != SeenBeforeFence && FenceOf(signal).Acked?
    ensures var index := |record.checkpoint.completed|;
      var fenced := Record(record.revision + 1, record.checkpoint.(status := InFlight));
      var run := StageRun(agent(index, record.checkpoint.nextInput), signals(index));
      Stage(names, ReplyOf(agent, signals), SignalOf(agent, signals), record)
      == EndOfStage(names, fenced, run.1, signals(index))
  {
    var index := |record.checkpoint.completed|;
    OutcomeCauses(agent(index, record.checkpoint.nextInput), signals(index));
  }

  lemma {:induction false} OutcomeCauses(run: AgentRun, signal: StreamSignal)
    ensures var end := StageRun(run, signal).1;
      end.Stopped? ==> end.cause.StageFailed? || (end.cause == Cause.Interrupted && signal.SeenAfter?)
  {
    if run.Streaming? { DrainCauses(run.items, 0, signal); }
  }

  lemma {:induction false} DrainCauses(items: seq<AgentItem>, k: nat, signal: StreamSignal)
    requires k <= |items|
    ensures var end := Drain(items, k, signal).1;
      end.Stopped? ==> end.cause.StageFailed? || (end.cause == Cause.Interrupted && signal.SeenAfter?)
    decreases |items| - k
  {
    if k < |items| { DrainCauses(items, k + 1, signal); }
  }

  /** Fully polled, the stream makes the store writes of the plain executor and reports its result. */
  lemma {:induction false} StreamAgrees(
      names: seq<string>, agent: StreamingAgent, signals: StreamSignals, record: Record)
    requires |record.checkpoint.completed| < |names|
    ensures var actions := Trace(names, agent, signals, record);
      var session := Execute(names, ReplyOf(agent, signals), SignalOf(agent, signals), record);
      && Saves(actions) == session.commits && Asks(actions) == session.invoked
      && ReportsLast(actions, session.result)
    decreases |names| - |record.checkpoint.completed|
  {
    StageAgrees(names, agent, signals, record);
    var (actions, next) := StageTrace(names, agent, signals, record);
    SavesConcat(actions, Onward(names, agent, signals, next));
    if next.Some? && |next.value.checkpoint.completed| < |names| {
      StreamAgrees(names, agent, signals, next.value);
    }
  }

  /** The last event is the terminal one that carries `result`. */
  ghost predicate ReportsLast(actions: seq<Action>, result: Result<PipelineOutput, PipelineError>) {
    && actions != []
    && actions[|actions| - 1] ==
         Yielded(match result case Ok(output) => PipelineFinished(output) case Err(error) => PipelineFailed(error))
  }

  // ------------------------------------------------------------ the generator

  function Forwarded(step: nat, events: seq<AgentEvent>): (r: seq<PipelineEvent>)
    ensures |r| == |events|
  {
    if events == [] then [] else [AgentStep(step, events[0])] + Forwarded(step, events[1..])
  }

  lemma {:induction false} YieldsConcat(a: seq<Action>, b: seq<Action>)
    ensures Yields(a + b) == Yields(a) + Yields(b)
  {
    if a == [] {
      assert a + b == b;
    } else {
      YieldsConcat(a[1..], b);
      assert (a + b)[1..] == a[1..] + b;
    }
  }

  lemma {:induction false} YieldsOfSteps(step: nat, events: seq<AgentEvent>)
    ensures Yields(Steps(step, events)) == Forwarded(step, events)
  {
    if events != [] {
      YieldsOfSteps(step, events[1..]);
      YieldsConcat([Yielded(AgentStep(step, events[0]))], Steps(step, events[1..]));
    }
  }

  lemma {:induction false} StepsPrefix(step: nat, events: seq<AgentEvent>, m: nat)
    requires m <= |events|
    ensures Steps(step, events[..m]) <= Steps(step, events)
  {
    if m > 0 {
      StepsPrefix(step, events[1..], m - 1);
      assert events[..m][1..] == events[1..][..m - 1];
    }
  }

  lemma {:induction false} YieldsOfSaveYield(record: Record, event: PipelineEvent)
    ensures Yields([Saved(record), Yielded(event)]) == [event]
  {
    var rest := [Yielded(event)];
    assert [Saved(record), Yielded(event)][1..] == rest && Yields(rest) == [event] + Yields(rest[1..]);
  }

  lemma {:induction false} YieldsOfStarted(
    record: Record, fenced: Record, signal: StreamSignal, events: seq<AgentEvent>)
    ensures var step := |record.checkpoint.completed| + 1;
      Yields(Started(record, fenced, signal, events)) == [StageStarted(step)] + Forwarded(step, events)
  {
    var step := |record.checkpoint.completed| + 1;
    YieldsOfSaveYield(fenced, StageStarted(step));
    YieldsOfSteps(step, events);
    assert Yields(Invoking(record, signal)) == [];
    YieldsConcat(Opened(record, fenced), Invoking(record, signal));
    YieldsConcat(Opened(record, fenced) + Invoking(record, signal), Steps(step, events));
  }

  /** What a consumer sees of a stage in flight: its start, its agent's events in order, and how it ended. */
  lemma {:induction false} StageIsSeen(
    names: seq<string>, record: Record, fenced: Record, run: (seq<AgentEvent>, StageOutcome), signal: StreamSignal)
    requires |record.checkpoint.completed| < |names| && fenced.checkpoint == record.checkpoint.(status := InFlight)
    ensures var (actions, next) := FencedTrace(names, record, fenced, run, signal);
      var seen, step := Yields(actions), |record.checkpoint.completed| + 1;
      && |seen| == |run.0| + 2 && seen[0] == StageStarted(step)
      && (forall j | 0 <= j < |run.0| :: seen[j + 1] == AgentStep(step, run.0[j]))
      && var last := seen[|run.0| + 1];
         if next.Some? then
           run.1.Answered? && last == StageCompleted(Step(step, names[step - 1], run.1.message))
         else
           && last.PipelineFailed? && last.error.step == Some(step)
           && last.error.completed == record.checkpoint.completed
           && (run.1.Stopped? ==> last.error.cause == run.1.cause)
  {
    var ending := Ending(names, fenced, run.1, CommitOf(signal)).0;
    YieldsOfStarted(record, fenced, signal, run.0);
    YieldsConcat(Started(record, fenced, signal, run.0), ending);
    ForwardedInOrder(|record.checkpoint.completed| + 1, run.0);
    if |ending| == 2 {
      YieldsOfSaveYield(ending[0].record, ending[1].event);
      assert ending == [Saved(ending[0].record), Yielded(ending[1].event)];
    } else {
      assert ending == [Yielded(ending[0].event)] && ending[1..] == [];
    }
  }

  lemma {:induction false} ForwardedInOrder(step: nat, events: seq<AgentEvent>)
    ensures forall j | 0 <= j < |events| :: Forwarded(step, events)[j] == AgentStep(step, events[j])
  {
    if events != [] { ForwardedInOrder(step, events[1..]); }
  }

  lemma {:induction false} StoredStarted(
    record: Record, fenced: Record, signal: StreamSignal, events: seq<AgentEvent>)
    requires fenced.checkpoint == record.checkpoint.(status := InFlight)
    ensures Stored(record, Started(record, fenced, signal, events)) == fenced
  {
    WatchStarted(record, fenced, signal, events);
    WatchMeaning(record, Started(record, fenced, signal, events));
  }

  lemma {:induction false} StartedPrefix(
      record: Record, fenced: Record, signal: StreamSignal, events: seq<AgentEvent>, m: nat, rest: seq<Action>)
    requires m <= |events|
    ensures Started(record, fenced, signal, events[..m]) <= Started(record, fenced, signal, events) + rest
    ensures Opened(record, fenced) <= Started(record, fenced, signal, events) + rest
  {
    StepsPrefix(|record.checkpoint.completed| + 1, events, m);
  }

  lemma {:induction false} DrainStep(items: seq<AgentItem>, k: nat, signal: StreamSignal, events: seq<AgentEvent>)
    requires k < |items| && items[k].Emitted? && !(signal.SeenAfter? && signal.polls <= k)
    ensures var (more, outcome) := Drain(items, k, signal);
      if EndOf(items[k].event).Some?
      then events + more == events + [items[k].event] && outcome == EndOf(items[k].event).value
      else
        var (rest, end) := Drain(items, k + 1, signal);
        events + more == events + [items[k].event] + rest && outcome == end
  {
  }

  /** One stage's agent stream, polled for at most `polls` events and then dropped or ended. */
  method PollAgent(run: AgentRun, signal: StreamSignal, polls: nat)
    returns (events: seq<AgentEvent>, end: Option<StageOutcome>)
    ensures var (all, outcome) := StageRun(run, signal);
      if |all| < polls then events == all && end == Some(outcome)
      else events == all[..polls] && end == None
  {
    events := [];
    if polls == 0 { return events, None; }
    if signal == SeenAfter(0) { return events, Some(Stopped(Cause.Interrupted)); }
    if run.StartFailed? { return events, Some(Stopped(StageFailed(run.reason))); }
    var k := 0;
    ghost var (all, outcome) := Drain(run.items, 0, signal);
    while true
      invariant k <= |run.items| && |events| < polls
      invariant all == events + Drain(run.items, k, signal).0
      invariant outcome == Drain(run.items, k, signal).1
      decreases |run.items| - k
    {
      if signal.SeenAfter? && signal.polls <= k { return events, Some(Stopped(Cause.Interrupted)); }
      if k == |run.items| {
        return events, Some(Stopped(StageFailed("agent stream ended without a terminal event")));
      }
      var item := run.items[k];
      if item.Broken? { return events, Some(Stopped(StageFailed(item.reason))); }
      DrainStep(run.items, k, signal, events);
      events := events + [item.event];
      if |events| == polls { return events, None; }
      if EndOf(item.event).Some? { return events, EndOf(item.event); }
      k := k + 1;
    }
  }

  predicate RestsAtYield(did: seq<Action>) {
    did == [] || did[|did| - 1].Yielded?
  }

  lemma {:induction false} StepsRest(step: nat, events: seq<AgentEvent>)
    ensures RestsAtYield(Steps(step, events))
  {
    if events != [] { StepsRest(step, events[1..]); }
  }

  lemma {:induction false} StartedRests(
    record: Record, fenced: Record, signal: StreamSignal, events: seq<AgentEvent>)
    requires events != []
    ensures RestsAtYield(Started(record, fenced, signal, events))
  {
    StepsRest(|record.checkpoint.completed| + 1, events);
  }

  /** A stage polled only to its start. */
  lemma {:induction false} OpenedOnly(record: Record, fenced: Record)
    ensures Yields(Opened(record, fenced)) == [StageStarted(|record.checkpoint.completed| + 1)]
    ensures Stored(record, Opened(record, fenced)) == fenced && RestsAtYield(Opened(record, fenced))
  {
    YieldsOfSaveYield(fenced, StageStarted(|record.checkpoint.completed| + 1));
    assert Opened(record, fenced)[..1] == [Saved(fenced)];
  }

  /**
   * A consumer that stops after `polls` events has seen `events`, and `did` is all that was done: a
   * generator rests at its last yield, and does nothing beyond it until it is polled again.
   */
  ghost predicate Consumed(all: seq<Action>, did: seq<Action>, polls: nat, events: seq<PipelineEvent>) {
    && did <= all && events == Yields(did) && RestsAtYield(did)
    && |events| <= polls && (|events| == polls || did == all)
  }

  /** The generator body for one stage, up to `polls` yields. */
  method PollStage(
    store: InMemoryPipelineStore, key: nat, names: seq<string>, agent: StreamingAgent, signals: StreamSignals,
    before: Record, polls: nat)
    returns (events: seq<PipelineEvent>, next: Option<Record>, ghost did: seq<Action>)
    requires store.Get(key) == Some(before) && |before.checkpoint.completed| < |names| && polls > 0
    modifies store
    ensures store.records == old(store.records)[key := Stored(before, did)]
    ensures Consumed(StageTrace(names, agent, signals, before).0, did, polls, events)
    ensures |events| < polls ==> next == StageTrace(names, agent, signals, before).1
    ensures |events| < polls && next.Some? ==> Stored(before, did) == next.value
  {
    var completed := before.checkpoint.completed;
    var index := |completed|;
    if signals(index) == SeenBeforeFence {
      did := Failure(before, Cause.Interrupted);
      return [PipelineFailed(PipelineError(Some(index + 1), completed, Cause.Interrupted))], None, did;
    }
    var fencing := before.checkpoint.(status := InFlight);
    var saved := TrySave(store, key, Some(before.revision), fencing, FenceOf(signals(index)));
    if saved.Err? {
      did := StageTrace(names, agent, signals, before).0;
      LostFence(names, agent, signals, before, saved.error);
      return [PipelineFailed(PipelineError(Some(index + 1), completed, StoreFailed(saved.error)))], None, did;
    }
    events, next, did := PollFenced(store, key, names, agent, signals, before, saved.value, polls);
  }

  /** A stage whose fence is not acknowledged yields its one failure, whether or not it committed. */
  lemma {:induction false} LostFence(
    names: seq<string>, agent: StreamingAgent, signals: StreamSignals, before: Record, error: StoreError)
    requires |before.checkpoint.completed| < |names|
    requires var signal := signals(|before.checkpoint.completed|);
      && signal != SeenBeforeFence
      && if FenceOf(signal).NotCommitted? then error == Unavailable
         else if before.revision >= MAX_REVISION then error == RevisionOverflow
         else FenceOf(signal).AckLost? && error == Unavailable
    ensures var (did, next) := StageTrace(names, agent, signals, before);
      && next == None && Yields(did) == [Failure(before, StoreFailed(error))[0].event] && RestsAtYield(did)
      && Stored(before, did)
         == if !FenceOf(signals(|before.checkpoint.completed|)).NotCommitted? && before.revision < MAX_REVISION
            then Record(before.revision + 1, before.checkpoint.(status := InFlight)) else before
  {
    var (did, next) := StageTrace(names, agent, signals, before);
    if |did| == 2 {
      YieldsOfSaveYield(did[0].record, did[1].event);
      assert did[..1] == [did[0]];
      assert did == [Saved(did[0].record), Yielded(did[1].event)];
    } else {
      assert did[1..] == [] && did[..0] == [];
    }
  }

  /** The generator body once a stage is fenced. */
  method PollFenced(
    store: InMemoryPipelineStore, key: nat, names: seq<string>, agent: StreamingAgent, signals: StreamSignals,
    before: Record, fenced: Record, polls: nat)
    returns (events: seq<PipelineEvent>, next: Option<Record>, ghost did: seq<Action>)
    requires store.Get(key) == Some(fenced) && |before.checkpoint.completed| < |names| && polls > 0
    requires fenced == Record(before.revision + 1, before.checkpoint.(status := InFlight))
    modifies store
    ensures var index := |before.checkpoint.completed|;
      var run := StageRun(agent(index, before.checkpoint.nextInput), signals(index));
      var trace := FencedTrace(names, before, fenced, run, signals(index));
      && store.records == old(store.records)[key := Stored(before, did)]
      && Consumed(trace.0, did, polls, events)
      && (|events| < polls ==> next == trace.1 && (next.Some? ==> Stored(before, did) == next.value))
  {
    var index := |before.checkpoint.completed|;
    next := None;
    ghost var signal := signals(index);
    ghost var (all, outcome) := StageRun(agent(index, fenced.checkpoint.nextInput), signal);
    ghost var ending := Ending(names, fenced, outcome, CommitOf(signal)).0;
    if polls == 1 {
      StartedPrefix(before, fenced, signal, all, 0, ending);
      OpenedOnly(before, fenced);
      return [StageStarted(index + 1)], None, Opened(before, fenced);
    }
    var run := agent(index, fenced.checkpoint.nextInput);
    var forwarded, end := PollAgent(run, signals(index), polls - 1);
    events := [StageStarted(index + 1)] + Forwarded(index + 1, forwarded);
    did := Started(before, fenced, signal, forwarded);
    YieldsOfStarted(before, fenced, signal, forwarded);
    StoredStarted(before, fenced, signal, forwarded);
    if end.None? {
      StartedPrefix(before, fenced, signal, all, polls - 1, ending);
      StartedRests(before, fenced, signal, forwarded);
      return;
    }
    StoredConcat(before, did, ending);
    YieldsConcat(did, ending);
    did := did + ending;
    var last;
    last, next := Settle(store, key, names, fenced, end.value, CommitOf(signals(index)));
    events := events + [last];
  }

  /** The end of a stage: its reply checked and committed, or a failure reported. */
  method Settle(
    store: InMemoryPipelineStore, key: nat, names: seq<string>, fenced: Record, end: StageOutcome, fault: Fault)
    returns (event: PipelineEvent, next: Option<Record>)
    requires store.Get(key) == Some(fenced) && |fenced.checkpoint.completed| < |names|
    modifies store
    ensures var (ending, last) := Ending(names, fenced, end, fault);
      && next == last && Yields(ending) == [event]
      && store.records == old(store.records)[key := Stored(fenced, ending)]
      && (next.Some? ==> Stored(fenced, ending) == next.value)
  {
    var record := fenced;
    var completed := record.checkpoint.completed;
    var index := |completed|;
    if end.Stopped? { return PipelineFailed(PipelineError(Some(index + 1), completed, end.cause)), None; }
    var nextInput := record.checkpoint.nextInput;
    if index + 1 != |names| {
      var handed := Handoff(names[index], end.message);
      if handed.Err? {
        return PipelineFailed(PipelineError(Some(index + 1), completed, InvalidHandoff(handed.error))), None;
      }
      nextInput := handed.value;
    }
    var stage := Step(index + 1, names[index], end.message);
    var checkpoint := record.checkpoint.(
      completed := completed + [stage],
      nextInput := nextInput,
      status := if index + 1 == |names| then Status.Finished else Ready);
    ghost var record' := Record(record.revision + 1, checkpoint);
    YieldsOfSaveYield(record', StageCompleted(stage));
    YieldsOfSaveYield(record', Failure(fenced, StoreFailed(Unavailable))[0].event);
    assert [Saved(record'), Yielded(StageCompleted(stage))][..1] == [Saved(record')];
    assert ([Saved(record')] + Failure(fenced, StoreFailed(Unavailable)))[..1] == [Saved(record')];
    var saved := TrySave(store, key, Some(record.revision), checkpoint, fault);
    if saved.Err? {
      return PipelineFailed(PipelineError(Some(index + 1), completed, StoreFailed(saved.error))), None;
    }
    return StageCompleted(stage), Some(saved.value);
  }

  /** The generator, polled `polls` times from a loaded `Ready` record and then dropped. */
  method Poll(
    store: InMemoryPipelineStore, key: nat, names: seq<string>, agent: StreamingAgent, signals: StreamSignals,
    loaded: Record, polls: nat)
    returns (events: seq<PipelineEvent>, ghost did: seq<Action>)
    requires store.Get(key) == Some(loaded) && |loaded.checkpoint.completed| < |names|
    modifies store
    ensures store.records == old(store.records)[key := Stored(loaded, did)]
    ensures Consumed(Trace(names, agent, signals, loaded), did, polls, events)
  {
    var record := loaded;
    events, did := [], [];
    if polls == 0 { return; }
    var done := false;
    ghost var all := Trace(names, agent, signals, loaded);
    ConsumeNone(loaded, all, polls);
    while !done
      invariant store.records == old(store.records)[key := record] && record == Stored(loaded, did)
      invariant if done then Consumed(all, did, polls, events) else
        && |record.checkpoint.completed| < |names|
        && Midway(loaded, all, did, record, Trace(names, agent, signals, record), events, polls)
      decreases !done, |names| - |record.checkpoint.completed|
    {
      done, record, events, did := PollNext(store, key, names, agent, signals, record, polls, events, loaded, did, all);
    }
  }

  /** One turn of the generator's loop: a stage, and the final output after the last one. */
  method PollNext(
    store: InMemoryPipelineStore, key: nat, names: seq<string>, agent: StreamingAgent, signals: StreamSignals,
    before: Record, polls: nat, seen: seq<PipelineEvent>,
    ghost loaded: Record, ghost doneBefore: seq<Action>, ghost all: seq<Action>)
    returns (done: bool, record: Record, events: seq<PipelineEvent>, ghost did: seq<Action>)
    requires store.Get(key) == Some(before) && |before.checkpoint.completed| < |names|
    requires Midway(loaded, all, doneBefore, before, Trace(names, agent, signals, before), seen, polls)
    modifies store
    ensures store.records == old(store.records)[key := record] && record == Stored(loaded, did)
    ensures done ==> Consumed(all, did, polls, events)
    ensures !done ==>
      && |before.checkpoint.completed| < |record.checkpoint.completed| < |names|
      && Midway(loaded, all, did, record, Trace(names, agent, signals, record), events, polls)
  {
    ghost var (stage, after) := StageTrace(names, agent, signals, before);
    ghost var rest := Onward(names, agent, signals, after);
    var more, next;
    ghost var part;
    more, next, part := PollStage(store, key, names, agent, signals, before, polls - |seen|);
    ConsumeStage(loaded, all, doneBefore, before, stage, rest, seen, polls, part, more);
    record, events, did := store.records[key], seen + more, doneBefore + part;
    if |events| == polls { return true, record, events, did; }
    if next.None? {
      ConsumeAll(loaded, all, did, record, events, polls);
      return true, record, events, did;
    }
    done := |record.checkpoint.completed| == |names|;
    if done {
      var finished := PipelineFinished(OutputOf(record.checkpoint.completed));
      ConsumeLast(loaded, all, did, record, finished, events, polls);
      events, did := events + [finished], did + [Yielded(finished)];
    }
  }

  /** The consumer is still polling: `did` is done, and `rest` would follow. */
  ghost predicate Midway(
    loaded: Record, all: seq<Action>, did: seq<Action>, record: Record, rest: seq<Action>,
    events: seq<PipelineEvent>, polls: nat)
  {
    && record == Stored(loaded, did) && events == Yields(did) && all == did + rest && |events| < polls
    && RestsAtYield(did)
  }

  lemma {:induction false} ConsumeNone(loaded: Record, all: seq<Action>, polls: nat)
    requires polls > 0
    ensures Midway(loaded, all, [], loaded, all, [], polls)
  {
    assert [] + all == all;
  }

  lemma {:induction false} ConsumeAll(
    loaded: Record, all: seq<Action>, did: seq<Action>, record: Record, events: seq<PipelineEvent>, polls: nat)
    requires Midway(loaded, all, did, record, [], events, polls)
    ensures Consumed(all, did, polls, events)
  {
    assert did + [] == did;
  }

  lemma {:induction false} ConsumeStage(
    loaded: Record, all: seq<Action>, did: seq<Action>, record: Record, stage: seq<Action>, rest: seq<Action>,
    events: seq<PipelineEvent>, polls: nat, part: seq<Action>, more: seq<PipelineEvent>)
    requires Midway(loaded, all, did, record, stage + rest, events, polls)
    requires Consumed(stage, part, polls - |events|, more)
    ensures Stored(loaded, did + part) == Stored(record, part)
    ensures |events + more| <= polls
    ensures |events + more| == polls ==> Consumed(all, did + part, polls, events + more)
    ensures |events + more| < polls ==>
      Midway(loaded, all, did + part, Stored(record, part), rest, events + more, polls)
  {
    StoredConcat(loaded, did, part);
    YieldsConcat(did, part);
    assert did + part <= did + stage && did + (stage + rest) == did + stage + rest;
  }

  lemma {:induction false} ConsumeLast(
    loaded: Record, all: seq<Action>, did: seq<Action>, record: Record, event: PipelineEvent,
    events: seq<PipelineEvent>, polls: nat)
    requires Midway(loaded, all, did, record, [Yielded(event)], events, polls)
    ensures Stored(loaded, did + [Yielded(event)]) == record
    ensures Consumed(all, did + [Yielded(event)], polls, events + [event])
  {
    StoredConcat(loaded, did, [Yielded(event)]);
    YieldsConcat(did, [Yielded(event)]);
  }
}
