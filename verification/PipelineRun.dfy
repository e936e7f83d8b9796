/**
 * The sequential pipeline, plain and checkpointed, for agents that are functions of their input:
 * stopping at committed boundaries and resuming must not change what a run delivers.
 */
module PipelineRun {
  import opened Messages
  import opened Checkpoints
  import opened PipelineProtocol

  datatype Reply = Replied(message: Msg) | AgentFailed(reason: string)

  /** The zero-based stage and its input determine the reply. */
  type Agent = (nat, Msg) -> Reply

  /** What disturbs a stage, if anything: when an interrupt is seen, or which of its saves fails and how. */
  datatype Signal =
    | Quiet
    | BeforeFence | BeforeInvoke | DuringStage
    | FenceFault(fault: Fault) | CommitFault(fault: Fault)

  predicate Interrupts(signal: Signal) {
    signal.BeforeFence? || signal.BeforeInvoke? || signal.DuringStage?
  }

  function FenceFaultOf(signal: Signal): Fault { if signal.FenceFault? then signal.fault else Acked }

  function CommitFaultOf(signal: Signal): Fault { if signal.CommitFault? then signal.fault else Acked }

  /** The environment's choice for a stage and its input. */
  type Signals = (nat, Msg) -> Signal

  datatype Cause =
    | Interrupted
    | StageFailed(reason: string)
    | InvalidHandoff(error: HandoffError)
    | StoreFailed(store: StoreError)
    | UnsafeResume

  datatype PipelineError = PipelineError(step: Option<nat>, completed: seq<Step>, cause: Cause)

  function NoSignal(): Signals { (i: nat, input: Msg) => Quiet }

  // ---------------------------------------------------------------- plain

  function RunFrom(names: seq<string>, agent: Agent, signals: Signals, completed: seq<Step>, incoming: Msg)
    : Result<PipelineOutput, PipelineError>
    requires |completed| < |names|
    decreases |names| - |completed|
  {
    var index := |completed|;
    if Interrupts(signals(index, incoming)) then Err(PipelineError(Some(index + 1), completed, Cause.Interrupted))
    else
      match agent(index, incoming)
      case AgentFailed(reason) => Err(PipelineError(Some(index + 1), completed, StageFailed(reason)))
      case Replied(message) =>
        var done := completed + [Step(index + 1, names[index], message)];
        if index + 1 == |names| then Ok(PipelineOutput(message, done))
        else
          match HandoffOf(names[index], message)
          case Err(error) => Err(PipelineError(Some(index + 1), done, InvalidHandoff(error)))
          case Ok(next) => RunFrom(names, agent, signals, done, next)
  }

  /** Runs every stage once, in order, forwarding visible text. */
  method Run(
      names: seq<string>, agent: Agent, signals: Signals, input: Msg) returns (r: Result<PipelineOutput, PipelineError>)
    requires names != []
    ensures r == RunFrom(names, agent, signals, [], input)
  {
    var completed: seq<Step> := [];
    var incoming := input;
    for index := 0 to |names|
      invariant |completed| == index
      invariant index < |names| ==>
        RunFrom(names, agent, signals, [], input) == RunFrom(names, agent, signals, completed, incoming)
      invariant index < |names|
    {
      if Interrupts(signals(index, incoming)) {
        return Err(PipelineError(Some(index + 1), completed, Cause.Interrupted));
      }
      var reply := agent(index, incoming);
      if reply.AgentFailed? {
        return Err(PipelineError(Some(index + 1), completed, StageFailed(reply.reason)));
      }
      completed := completed + [Step(index + 1, names[index], reply.message)];
      if index + 1 == |names| { return Ok(PipelineOutput(reply.message, completed)); }
      var handed := Handoff(names[index], reply.message);
      match handed {
        case Err(error) => return Err(PipelineError(Some(index + 1), completed, InvalidHandoff(error)));
        case Ok(next) => incoming := next;
      }
    }
    assert false;
  }

  ghost predicate RanStage(
    names: seq<string>, agent: Agent, signals: Signals, k: nat, incoming: Msg, step: Step)
  {
    && signals(k, incoming) !in {BeforeFence, BeforeInvoke, DuringStage}
    && k < |names| && step == Step(k + 1, names[k], step.message) && agent(k, incoming) == Replied(step.message)
  }

  /**
   * The stages that ran and what each was given: the first the run's input, every other the handoff
   * of the reply before it; each replied, and no interrupt was seen.
   */
  ghost predicate Ran(
    names: seq<string>, agent: Agent, signals: Signals, input: Msg, steps: seq<Step>, inputs: seq<Msg>)
  {
    && |inputs| == |steps| <= |names| && (inputs != [] ==> inputs[0] == input)
    && (forall k | 0 <= k < |steps| :: RanStage(names, agent, signals, k, inputs[k], steps[k]))
    && (forall k | 0 < k < |steps| :: HandoffOf(names[k - 1], steps[k - 1].message) == Ok(inputs[k]))
  }

  /** What the stage after these would be given. */
  ghost predicate Awaits(names: seq<string>, input: Msg, steps: seq<Step>, incoming: Msg) {
    && |steps| < |names|
    && if steps == [] then incoming == input
       else HandoffOf(names[|steps| - 1], steps[|steps| - 1].message) == Ok(incoming)
  }

  /** The answer of a plain run says exactly what its stages did. */
  ghost predicate Tells(
    names: seq<string>, agent: Agent, signals: Signals, input: Msg, inputs: seq<Msg>,
    r: Result<PipelineOutput, PipelineError>)
  {
    match r
    case Ok(output) =>
      && Ran(names, agent, signals, input, output.steps, inputs) && |output.steps| == |names| > 0
      && output.message == output.steps[|names| - 1].message
    case Err(error) =>
      var steps := error.completed;
      && Ran(names, agent, signals, input, steps, inputs)
      && match error.cause
         case InvalidHandoff(h) =>
           && error.step == Some(|steps|) && 0 < |steps| < |names|
           && HandoffOf(names[|steps| - 1], steps[|steps| - 1].message) == Err(h)
         case Interrupted => error.step == Some(|steps| + 1) && exists incoming |
           Awaits(names, input, steps, incoming) ::
             signals(|steps|, incoming) in {BeforeFence, BeforeInvoke, DuringStage}
         case StageFailed(reason) => error.step == Some(|steps| + 1) && exists incoming |
           Awaits(names, input, steps, incoming) ::
             && signals(|steps|, incoming) !in {BeforeFence, BeforeInvoke, DuringStage}
             && agent(|steps|, incoming) == AgentFailed(reason)
         case _ => false
  }

  /** A plain run answers with what its stages did, in order, each with the handoff of the one before. */
  lemma {:induction false} RunTells(names: seq<string>, agent: Agent, signals: Signals, input: Msg)
    returns (inputs: seq<Msg>)
    requires names != []
    ensures Tells(names, agent, signals, input, inputs, RunFrom(names, agent, signals, [], input))
  {
    inputs := RestTells(names, agent, signals, input, [], [], input);
  }

  lemma {:induction false} RestTells(
    names: seq<string>, agent: Agent, signals: Signals, input: Msg, steps: seq<Step>, before: seq<Msg>, incoming: Msg)
    returns (inputs: seq<Msg>)
    requires Ran(names, agent, signals, input, steps, before) && Awaits(names, input, steps, incoming)
    ensures Tells(names, agent, signals, input, inputs, RunFrom(names, agent, signals, steps, incoming))
    decreases |names| - |steps|
  {
    var index := |steps|;
    inputs := before;
    if Interrupts(signals(index, incoming)) {
      InterruptTells(names, agent, signals, input, steps, before, incoming);
    } else if agent(index, incoming).AgentFailed? {
      FailureTells(names, agent, signals, input, steps, before, incoming);
    } else {
      var message := agent(index, incoming).message;
      var done := steps + [Step(index + 1, names[index], message)];
      inputs := before + [incoming];
      OneMoreRan(names, agent, signals, input, steps, before, incoming, message);
      if index + 1 == |names| {
        assert Tells(names, agent, signals, input, inputs, Ok(PipelineOutput(message, done)));
      } else if HandoffOf(names[index], message).Err? {
        var h := HandoffOf(names[index], message).error;
        assert Tells(names, agent, signals, input, inputs, Err(PipelineError(Some(|done|), done, InvalidHandoff(h))));
      } else {
        inputs := RestTells(names, agent, signals, input, done, inputs, HandoffOf(names[index], message).value);
      }
    }
  }

  lemma {:induction false} InterruptTells(
    names: seq<string>, agent: Agent, signals: Signals, input: Msg, steps: seq<Step>, inputs: seq<Msg>, incoming: Msg)
    requires Ran(names, agent, signals, input, steps, inputs) && Awaits(names, input, steps, incoming)
    requires Interrupts(signals(|steps|, incoming))
    ensures Tells(names, agent, signals, input, inputs,
                  Err(PipelineError(Some(|steps| + 1), steps, Cause.Interrupted)))
  {
    assert signals(|steps|, incoming) in {BeforeFence, BeforeInvoke, DuringStage};
  }

  lemma {:induction false} FailureTells(
    names: seq<string>, agent: Agent, signals: Signals, input: Msg, steps: seq<Step>, inputs: seq<Msg>, incoming: Msg)
    requires Ran(names, agent, signals, input, steps, inputs) && Awaits(names, input, steps, incoming)
    requires !Interrupts(signals(|steps|, incoming)) && agent(|steps|, incoming).AgentFailed?
    ensures Tells(names, agent, signals, input, inputs,
                  Err(PipelineError(Some(|steps| + 1), steps, StageFailed(agent(|steps|, incoming).reason))))
  {
    assert signals(|steps|, incoming) !in {BeforeFence, BeforeInvoke, DuringStage};
  }

  lemma {:induction false} OneMoreRan(
    names: seq<string>, agent: Agent, signals: Signals, input: Msg, steps: seq<Step>, inputs: seq<Msg>, incoming: Msg,
    message: Msg)
    requires Ran(names, agent, signals, input, steps, inputs) && Awaits(names, input, steps, incoming)
    requires !Interrupts(signals(|steps|, incoming)) && agent(|steps|, incoming) == Replied(message)
    ensures Ran(names, agent, signals, input, steps + [Step(|steps| + 1, names[|steps|], message)], inputs + [incoming])
  {
    var last := Step(|steps| + 1, names[|steps|], message);
    var more, given := steps + [last], inputs + [incoming];
    assert RanStage(names, agent, signals, |steps|, incoming, last);
    forall k | 0 <= k < |more| ensures RanStage(names, agent, signals, k, given[k], more[k]) {
      if k < |steps| { assert RanStage(names, agent, signals, k, inputs[k], steps[k]); }
    }
  }

  // --------------------------------------------------------- checkpointed

  /** One stage of the checkpointed executor: its error if any, its commits and invocations, the record it leaves. */
  datatype StageEnd = StageEnd(error: Option<PipelineError>, commits: seq<Record>, last: Record, invoked: seq<Dispatch>)

  /** What one session returns, commits, leaves in the store, and invokes. */
  datatype Session = Session(
    result: Result<PipelineOutput, PipelineError>, commits: seq<Record>, last: Record, invoked: seq<Dispatch>)

  /** Fence, invoke, commit; the key is written by nobody else meanwhile. */
  function Stage(names: seq<string>, agent: Agent, signals: Signals, record: Record): (end: StageEnd)
    requires |record.checkpoint.completed| < |names|
    ensures end.error.None? ==> |end.last.checkpoint.completed| == |record.checkpoint.completed| + 1
  {
    var index, c := |record.checkpoint.completed|, record.checkpoint;
    var fenced := Record(record.revision + 1, c.(status := InFlight));
    var invoked := [Dispatch(index, c.nextInput)];
    var signal := signals(index, c.nextInput);
    var error := (cause: Cause) => Some(PipelineError(Some(index + 1), c.completed, cause));
    if signal == BeforeFence then StageEnd(error(Cause.Interrupted), [], record, [])
    else if FenceFaultOf(signal).NotCommitted? then StageEnd(error(StoreFailed(Unavailable)), [], record, [])
    else if record.revision >= MAX_REVISION then StageEnd(error(StoreFailed(RevisionOverflow)), [], record, [])
    else if FenceFaultOf(signal).AckLost? then StageEnd(error(StoreFailed(Unavailable)), [fenced], fenced, [])
    else if signal == BeforeInvoke then StageEnd(error(Cause.Interrupted), [fenced], fenced, [])
    else if signal == DuringStage then StageEnd(error(Cause.Interrupted), [fenced], fenced, invoked)
    else
      match agent(index, c.nextInput)
      case AgentFailed(reason) => StageEnd(error(StageFailed(reason)), [fenced], fenced, invoked)
      case Replied(message) => Committed(names, fenced, message, CommitFaultOf(signal))
  }

  /** How a stage in flight ends whose agent replied. */
  function Committed(names: seq<string>, fenced: Record, message: Msg, fault: Fault): (end: StageEnd)
    requires |fenced.checkpoint.completed| < |names|
    ensures end.error.None? ==> |end.last.checkpoint.completed| == |fenced.checkpoint.completed| + 1
  {
    var index, c := |fenced.checkpoint.completed|, fenced.checkpoint;
    var invoked := [Dispatch(index, c.nextInput)];
    var error := (cause: Cause) => Some(PipelineError(Some(index + 1), c.completed, cause));
    var handed := HandoffOf(names[index], message);
    if index + 1 != |names| && handed.Err? then
      StageEnd(error(InvalidHandoff(handed.error)), [fenced], fenced, invoked)
    else if fault.NotCommitted? then StageEnd(error(StoreFailed(Unavailable)), [fenced], fenced, invoked)
    else if fenced.revision >= MAX_REVISION then
      StageEnd(error(StoreFailed(RevisionOverflow)), [fenced], fenced, invoked)
    else
      var next := Record(fenced.revision + 1, Advanced(names, fenced.checkpoint, message).value);
      StageEnd(if fault.AckLost? then error(StoreFailed(Unavailable)) else None, [fenced, next], next, invoked)
  }

  /**
   * Why a stage of the executor stops: an interrupt that is reached, a save that fails, a revision
   * that has run out, the agent, or its reply. It names itself and what was complete before it.
   */
  lemma {:induction false} StageStopsFor(names: seq<string>, agent: Agent, signals: Signals, record: Record)
    requires |record.checkpoint.completed| < |names|
    ensures var end, c := Stage(names, agent, signals, record), record.checkpoint;
      var k, signal := |c.completed|, signals(|c.completed|, c.nextInput);
      end.error.Some? ==>
        && end.error.value.step == Some(k + 1) && end.error.value.completed == c.completed
        && match end.error.value.cause
           case Interrupted => signal in {BeforeFence, BeforeInvoke, DuringStage}
           case StoreFailed(RevisionOverflow) => record.revision + 1 >= MAX_REVISION
           case StoreFailed(e) =>
             e == Unavailable && signal in {FenceFault(AckLost), FenceFault(NotCommitted),
                                            CommitFault(AckLost), CommitFault(NotCommitted)}
           case StageFailed(reason) => agent(k, c.nextInput) == AgentFailed(reason)
           case InvalidHandoff(h) =>
             && k + 1 < |names| && agent(k, c.nextInput).Replied?
             && HandoffOf(names[k], agent(k, c.nextInput).message) == Err(h)
           case UnsafeResume => false
  {
  }

  /** The session from a loaded `Ready` record: one stage after another until an error or the end. */
  function Execute(names: seq<string>, agent: Agent, signals: Signals, record: Record): Session
    requires |record.checkpoint.completed| < |names|
    decreases |names| - |record.checkpoint.completed|
  {
    var end := Stage(names, agent, signals, record);
    if end.error.Some? then Session(Err(end.error.value), end.commits, end.last, end.invoked)
    else if |end.last.checkpoint.completed| == |names| then
      Session(Ok(OutputOf(end.last.checkpoint.completed)), end.commits, end.last, end.invoked)
    else
      var rest := Execute(names, agent, signals, end.last);
      rest.(commits := end.commits + rest.commits, invoked := end.invoked + rest.invoked)
  }

  function OutputOf(completed: seq<Step>): PipelineOutput
    requires completed != []
  {
    PipelineOutput(completed[|completed| - 1].message, completed)
  }

  method ExecuteStage(
    store: InMemoryPipelineStore, key: nat, names: seq<string>, agent: Agent, signals: Signals, before: Record)
    returns (error: Option<PipelineError>, record: Record, ghost invoked: seq<Dispatch>)
    requires store.Get(key) == Some(before) && |before.checkpoint.completed| < |names|
    modifies store
    ensures var end := Stage(names, agent, signals, before);
      && error == end.error && (error.None? ==> record == end.last) && invoked == end.invoked
      && store.records == old(store.records)[key := end.last]
  {
    record, invoked := before, [];
    var completed := record.checkpoint.completed;
    var index := |completed|;
    var signal := signals(index, record.checkpoint.nextInput);
    if signal == BeforeFence {
      return Some(PipelineError(Some(index + 1), completed, Cause.Interrupted)), record, invoked;
    }
    var fencing := record.checkpoint.(status := InFlight);
    var saved := TrySave(store, key, Some(record.revision), fencing, FenceFaultOf(signal));
    if saved.Err? {
      return Some(PipelineError(Some(index + 1), completed, StoreFailed(saved.error))), record, invoked;
    }
    record := saved.value;
    if signal == BeforeInvoke {
      return Some(PipelineError(Some(index + 1), completed, Cause.Interrupted)), record, invoked;
    }
    invoked := [Dispatch(index, record.checkpoint.nextInput)];
    if signal == DuringStage {
      return Some(PipelineError(Some(index + 1), completed, Cause.Interrupted)), record, invoked;
    }
    var reply := agent(index, record.checkpoint.nextInput);
    if reply.AgentFailed? {
      return Some(PipelineError(Some(index + 1), completed, StageFailed(reply.reason))), record, invoked;
    }
    var nextInput := record.checkpoint.nextInput;
    if index + 1 != |names| {
      var handed := Handoff(names[index], reply.message);
      if handed.Err? {
        return Some(PipelineError(Some(index + 1), completed, InvalidHandoff(handed.error))), record, invoked;
      }
      nextInput := handed.value;
    }
    var checkpoint := record.checkpoint.(
      completed := completed + [Step(index + 1, names[index], reply.message)],
      nextInput := nextInput,
      status := if index + 1 == |names| then Status.Finished else Ready);
    saved := TrySave(store, key, Some(record.revision), checkpoint, CommitFaultOf(signal));
    if saved.Err? {
      return Some(PipelineError(Some(index + 1), completed, StoreFailed(saved.error))), record, invoked;
    }
    return None, saved.value, invoked;
  }

  /** What is left of a session from `record`, after `invoked`. */
  ghost predicate Continues(
    session: Session, invoked: seq<Dispatch>, names: seq<string>, agent: Agent, signals: Signals, record: Record)
    requires |record.checkpoint.completed| < |names|
  {
    var rest := Execute(names, agent, signals, record);
    session.result == rest.result && session.last == rest.last && session.invoked == invoked + rest.invoked
  }

  /** One more stage ends the session or leaves it to continue. */
  lemma {:induction false} ContinuesAfter(
    session: Session, invoked: seq<Dispatch>, names: seq<string>, agent: Agent, signals: Signals, record: Record)
    requires |record.checkpoint.completed| < |names| && Continues(session, invoked, names, agent, signals, record)
    ensures var end := Stage(names, agent, signals, record);
      if end.error.None? && |end.last.checkpoint.completed| < |names|
      then Continues(session, invoked + end.invoked, names, agent, signals, end.last)
      else
        && session.last == end.last && session.invoked == invoked + end.invoked
        && session.result
           == if end.error.Some? then Err(end.error.value) else Ok(OutputOf(end.last.checkpoint.completed))
  {
  }

  /** Fences, invokes and commits each remaining stage in turn. */
  method ExecuteCheckpointed(
    store: InMemoryPipelineStore, key: nat, names: seq<string>, agent: Agent, signals: Signals, loaded: Record)
    returns (r: Result<PipelineOutput, PipelineError>, ghost invoked: seq<Dispatch>)
    requires store.Get(key) == Some(loaded) && |loaded.checkpoint.completed| < |names|
    modifies store
    ensures var session := Execute(names, agent, signals, loaded);
      && r == session.result && invoked == session.invoked
      && store.records == old(store.records)[key := session.last]
  {
    var record := loaded;
    invoked := [];
    ghost var session := Execute(names, agent, signals, loaded);
    for index := |record.checkpoint.completed| to |names|
      invariant index == |record.checkpoint.completed| < |names|
      invariant store.records == old(store.records)[key := record]
      invariant Continues(session, invoked, names, agent, signals, record)
    {
      ContinuesAfter(session, invoked, names, agent, signals, record);
      var error;
      ghost var more;
      error, record, more := ExecuteStage(store, key, names, agent, signals, record);
      invoked := invoked + more;
      if error.Some? { return Err(error.value), invoked; }
      if index + 1 == |names| { return Ok(OutputOf(record.checkpoint.completed)), invoked; }
    }
    assert false;
  }

  function Initial(names: seq<string>, input: Msg): Checkpoint {
    Checkpoint(VERSION, names, [], input, Ready)
  }

  /** Starts a new revisioned run; a key that already holds a record is left alone. */
  method RunCheckpointed(
    store: InMemoryPipelineStore, key: nat, names: seq<string>, agent: Agent, created: Fault, signals: Signals,
    input: Msg)
    returns (r: Result<PipelineOutput, PipelineError>, ghost invoked: seq<Dispatch>)
    requires names != []
    modifies store
    ensures key in old(store.records) ==>
      && r == Err(PipelineError(None, [], StoreFailed(if created.NotCommitted? then Unavailable else Conflict)))
      && invoked == [] && store.records == old(store.records)
    ensures key !in old(store.records) && !created.Acked? ==>
      && r == Err(PipelineError(None, [], StoreFailed(Unavailable))) && invoked == []
      && store.records == if created.AckLost? then old(store.records)[key := Record(1, Initial(names, input))]
                          else old(store.records)
    ensures key !in old(store.records) && created.Acked? ==>
      var session := Execute(names, agent, signals, Record(1, Initial(names, input)));
      && r == session.result && invoked == session.invoked
      && store.records == old(store.records)[key := session.last]
  {
    var saved := TrySave(store, key, None, Initial(names, input), created);
    if saved.Err? { return Err(PipelineError(None, [], StoreFailed(saved.error))), []; }
    r, invoked := ExecuteCheckpointed(store, key, names, agent, signals, saved.value);
  }

  /** Resumes a committed `Ready` boundary, and nothing else. */
  method ResumeCheckpointed(
    store: InMemoryPipelineStore, key: nat, names: seq<string>, agent: Agent, signals: Signals)
    returns (r: Result<PipelineOutput, PipelineError>, ghost invoked: seq<Dispatch>)
    modifies store
    ensures var found := old(store.Get(key));
      if found.Some? && found.value.revision > 0 && IsUsable(found.value.checkpoint, names, Ready) then
        var session := Execute(names, agent, signals, found.value);
        && r == session.result && invoked == session.invoked
        && store.records == old(store.records)[key := session.last]
      else r.Err? && r.error.cause == UnsafeResume && invoked == [] && store.records == old(store.records)
  {
    var loaded := store.Load(key);
    if loaded.None? { return Err(PipelineError(None, [], UnsafeResume)), []; }
    var record := loaded.value;
    if record.revision == 0 || !IsUsable(record.checkpoint, names, Ready) {
      return Err(PipelineError(None, record.checkpoint.completed, UnsafeResume)), [];
    }
    r, invoked := ExecuteCheckpointed(store, key, names, agent, signals, record);
  }

  /** Whether an operator's verified reply may complete the stage in flight at `revision`. */
  predicate MayReconcile(found: Option<Record>, names: seq<string>, revision: nat, reply: Msg) {
    && found.Some? && found.value.revision == revision != 0
    && IsUsable(found.value.checkpoint, names, InFlight)
    && reply.role == Assistant && reply.name == names[|found.value.checkpoint.completed|]
    && Advanced(names, found.value.checkpoint, reply).Some?
  }

  /** Records a verified reply for the one stage in flight; invokes no agent. */
  method ReconcileCheckpointed(
    store: InMemoryPipelineStore, key: nat, names: seq<string>, revision: nat, reply: Msg, fault: Fault)
    returns (r: Result<Record, PipelineError>)
    modifies store
    ensures var found := old(store.Get(key));
      if MayReconcile(found, names, revision, reply) && revision < MAX_REVISION && !fault.NotCommitted? then
        var record := Record(revision + 1, Advanced(names, found.value.checkpoint, reply).value);
        && (if fault.Acked? then r == Ok(record) else r.Err? && r.error.cause == StoreFailed(Unavailable))
        && store.records == old(store.records)[key := record]
      else r.Err? && store.records == old(store.records)
    ensures r.Err? ==>
      var found := old(store.Get(key));
      r.error.cause ==
        if found.None? || found.value.revision != revision || revision == 0
           || !IsUsable(found.value.checkpoint, names, InFlight)
           || reply.role != Assistant || reply.name != names[|found.value.checkpoint.completed|] then UnsafeResume
        else if |found.value.checkpoint.completed| + 1 < |names| && HandoffOf(reply.name, reply).Err? then
          InvalidHandoff(HandoffOf(reply.name, reply).error)
        else StoreFailed(if fault.Acked? || (fault.AckLost? && revision >= MAX_REVISION) then RevisionOverflow
                         else Unavailable)
  {
    var loaded := store.Load(key);
    if loaded.None? { return Err(PipelineError(None, [], UnsafeResume)); }
    var checkpoint := loaded.value.checkpoint;
    if loaded.value.revision == 0 || loaded.value.revision != revision
       || !IsUsable(checkpoint, names, InFlight) {
      return Err(PipelineError(None, checkpoint.completed, UnsafeResume));
    }
    var index := |checkpoint.completed|;
    if reply.role != Assistant || reply.name != names[index] {
      return Err(PipelineError(Some(index + 1), checkpoint.completed, UnsafeResume));
    }
    var nextInput := checkpoint.nextInput;
    if index + 1 != |names| {
      var handed := Handoff(names[index], reply);
      if handed.Err? { return Err(PipelineError(Some(index + 1), checkpoint.completed, InvalidHandoff(handed.error))); }
      nextInput := handed.value;
    }
    var next := checkpoint.(
      completed := checkpoint.completed + [Step(index + 1, names[index], reply)],
      nextInput := nextInput,
      status := if index + 1 == |names| then Status.Finished else Ready);
    assert Advanced(names, checkpoint, reply) == Some(next);
    var saved := TrySave(store, key, Some(revision), next, fault);
    match saved {
      case Err(e) => return Err(PipelineError(Some(index + 1), checkpoint.completed, StoreFailed(e)));
      case Ok(record) => return Ok(record);
    }
  }

  // ---------------------------------------------------- the two executors

  /** The plain run's answer from a boundary, were nothing to interrupt it. */
  function Delivers(names: seq<string>, agent: Agent, record: Record): Result<PipelineOutput, PipelineError>
    requires |record.checkpoint.completed| < |names|
  {
    RunFrom(names, agent, NoSignal(), record.checkpoint.completed, record.checkpoint.nextInput)
  }

  /** Errors agree too, except that an unusable reply counts as completed only in the plain run. */
  ghost predicate SameError(plain: PipelineError, checkpointed: PipelineError) {
    && plain.step == checkpointed.step && plain.cause == checkpointed.cause
    && (if plain.cause.InvalidHandoff?
        then plain.completed != [] && plain.completed[..|plain.completed| - 1] == checkpointed.completed
        else plain.completed == checkpointed.completed)
  }

  /** An error other than an interrupt or a store failure is the plain run's. */
  ghost predicate ErrorAgrees(plain: Result<PipelineOutput, PipelineError>, error: PipelineError) {
    !error.cause.Interrupted? && !error.cause.StoreFailed? ==> plain.Err? && SameError(plain.error, error)
  }

  /** Where `last` can be resumed, the plain run would still answer `plain`; where it is finished, it did. */
  ghost predicate KeepsAnswer(
    names: seq<string>, agent: Agent, last: Record, plain: Result<PipelineOutput, PipelineError>)
  {
    && (last.checkpoint.status == Ready ==>
          |last.checkpoint.completed| < |names| && Delivers(names, agent, last) == plain)
    && (last.checkpoint.status == Status.Finished ==>
          last.checkpoint.completed != [] && plain == Ok(OutputOf(last.checkpoint.completed)))
  }

  /** One stage either leaves the plain answer as it was, or settles it. */
  lemma {:induction false} StageDelivers(names: seq<string>, agent: Agent, signals: Signals, record: Record)
    requires |record.checkpoint.completed| < |names| && record.checkpoint.status == Ready
    ensures var end := Stage(names, agent, signals, record);
      var plain := Delivers(names, agent, record);
      && KeepsAnswer(names, agent, end.last, plain)
      && (match end.error
          case Some(error) => ErrorAgrees(plain, error)
          case None =>
            end.last.checkpoint.status
            == if |end.last.checkpoint.completed| == |names| then Status.Finished else Ready)
  {
  }

  /**
   * One session, from any boundary under any signals: what it delivers is what the plain run
   * delivers. Where it leaves a boundary, the plain run would deliver the same from there, and the
   * finished record it leaves, even if unacknowledged, holds the plain run's answer.
   */
  lemma {:induction false} SessionAgrees(names: seq<string>, agent: Agent, signals: Signals, record: Record)
    requires |record.checkpoint.completed| < |names| && record.checkpoint.status == Ready
    ensures var session := Execute(names, agent, signals, record);
      && (session.result.Ok? ==> Delivers(names, agent, record) == session.result)
      && KeepsAnswer(names, agent, session.last, Delivers(names, agent, record))
      && (session.result.Err? ==> ErrorAgrees(Delivers(names, agent, record), session.result.error))
    decreases |names| - |record.checkpoint.completed|
  {
    StageDelivers(names, agent, signals, record);
    var end := Stage(names, agent, signals, record);
    if end.error.None? && |end.last.checkpoint.completed| < |names| {
      SessionAgrees(names, agent, signals, end.last);
    }
  }

  /** With no interrupt and revisions to spare, the session delivers all that the plain run delivers. */
  lemma {:induction false} QuietSessionDelivers(names: seq<string>, agent: Agent, record: Record)
    requires |record.checkpoint.completed| < |names| && record.checkpoint.status == Ready
    requires record.revision + 2 * (|names| - |record.checkpoint.completed|) <= MAX_REVISION
    ensures var session := Execute(names, agent, NoSignal(), record);
      session.result.Ok? <==> Delivers(names, agent, record).Ok?
    decreases |names| - |record.checkpoint.completed|
  {
    var index, c := |record.checkpoint.completed|, record.checkpoint;
    var reply := agent(index, c.nextInput);
    if reply.Replied? && index + 1 < |names| {
      var next := Advanced(names, c.(status := InFlight), reply.message);
      if next.Some? { QuietSessionDelivers(names, agent, Record(record.revision + 2, next.value)); }
    }
  }

  /** A run and its resumes: each session continues the record the one before it left. */
  function Resumed(names: seq<string>, agent: Agent, sessions: seq<Signals>, record: Record): Session
    requires sessions != [] && |record.checkpoint.completed| < |names|
  {
    if |sessions| == 1 then Execute(names, agent, sessions[0], record)
    else
      var before := Resumed(names, agent, sessions[..|sessions| - 1], record);
      if IsUsable(before.last.checkpoint, names, Ready)
      then Execute(names, agent, sessions[|sessions| - 1], before.last)
      else before
  }

  /** Stopping any number of times never changes a successful answer, nor what a finished record holds. */
  lemma {:induction false} ResumedRunsAgree(names: seq<string>, agent: Agent, sessions: seq<Signals>, record: Record)
    requires sessions != [] && IsUsable(record.checkpoint, names, Ready)
    ensures var final := Resumed(names, agent, sessions, record);
      && (final.result.Ok? ==> Delivers(names, agent, record) == final.result)
      && KeepsAnswer(names, agent, final.last, Delivers(names, agent, record))
  {
    if |sessions| == 1 {
      SessionAgrees(names, agent, sessions[0], record);
    } else {
      var before := Resumed(names, agent, sessions[..|sessions| - 1], record);
      ResumedRunsAgree(names, agent, sessions[..|sessions| - 1], record);
      if IsUsable(before.last.checkpoint, names, Ready) {
        SessionAgrees(names, agent, sessions[|sessions| - 1], before.last);
      }
    }
  }

  /** A `Ready` record whose revision counts its stages, as every committed one does. */
  ghost predicate AtStageBoundary(names: seq<string>, record: Record) {
    IsUsable(record.checkpoint, names, Ready) && record.revision == 2 * |record.checkpoint.completed| + 1
  }

  lemma {:induction false} SessionStopsAtBoundary(names: seq<string>, agent: Agent, signals: Signals, record: Record)
    requires AtStageBoundary(names, record)
    ensures var last := Execute(names, agent, signals, record).last;
      last.checkpoint.status == Ready ==> AtStageBoundary(names, last)
    decreases |names| - |record.checkpoint.completed|
  {
    var end := Stage(names, agent, signals, record);
    if end.error.None? && |end.last.checkpoint.completed| < |names| {
      SessionStopsAtBoundary(names, agent, signals, end.last);
    }
  }

  lemma {:induction false} ResumesStopAtBoundary(
      names: seq<string>, agent: Agent, sessions: seq<Signals>, record: Record)
    requires sessions != [] && AtStageBoundary(names, record)
    ensures var last := Resumed(names, agent, sessions, record).last;
      last.checkpoint.status == Ready ==> AtStageBoundary(names, last)
  {
    if |sessions| == 1 {
      SessionStopsAtBoundary(names, agent, sessions[0], record);
    } else {
      var before := Resumed(names, agent, sessions[..|sessions| - 1], record);
      ResumesStopAtBoundary(names, agent, sessions[..|sessions| - 1], record);
      if before.last.checkpoint.status == Ready {
        SessionStopsAtBoundary(names, agent, sessions[|sessions| - 1], before.last);
      }
    }
  }

  /**
   * However often a new run is stopped at a boundary, an undisturbed last resume delivers exactly
   * what one plain run of the same agents on the same input delivers.
   */
  lemma {:induction false} StoppedRunsDeliverThePlainAnswer(
      names: seq<string>, agent: Agent, sessions: seq<Signals>, input: Msg)
    requires names != [] && sessions != [] && 2 * |names| < MAX_REVISION
    requires Resumed(names, agent, sessions, Record(1, Initial(names, input))).last.checkpoint.status == Ready
    ensures var left := Resumed(names, agent, sessions, Record(1, Initial(names, input))).last;
      && IsUsable(left.checkpoint, names, Ready)
      && var last := Execute(names, agent, NoSignal(), left).result;
         var plain := RunFrom(names, agent, NoSignal(), [], input);
         (last.Ok? <==> plain.Ok?) && (last.Ok? ==> last == plain)
  {
    var first := Record(1, Initial(names, input));
    ResumesStopAtBoundary(names, agent, sessions, first);
    ResumedRunsAgree(names, agent, sessions, first);
    var left := Resumed(names, agent, sessions, first).last;
    SessionAgrees(names, agent, NoSignal(), left);
    QuietSessionDelivers(names, agent, left);
  }
}
