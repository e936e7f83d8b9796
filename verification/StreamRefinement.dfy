/** A streamed session, dropped at any yield, is an interrupted plain session, and so a turn of the protocol. */
module StreamRefinement {
  import opened Messages
  import opened Checkpoints
  import opened PipelineProtocol
  import opened PipelineRun
  import opened PipelineStream
  import Refinement = PipelineRefinement

  /** How the plain executor would have been interrupted in a stage of which only `did` was done. */
  function CutAt(
    agent: StreamingAgent, signals: StreamSignals, record: Record, stage: seq<Action>, did: seq<Action>): Signal
  {
    if |stage| <= |did| then SignalOf(agent, signals)(|record.checkpoint.completed|, record.checkpoint.nextInput)
    else if did == [] then BeforeFence
    else if |did| == 2 then BeforeInvoke
    else DuringStage
  }

  /** The interrupts of a plain session that does what a stream did until it was dropped. */
  function CutSignals(
    names: seq<string>, agent: StreamingAgent, signals: StreamSignals, record: Record, did: seq<Action>): Signals
    requires |record.checkpoint.completed| < |names|
    decreases |names| - |record.checkpoint.completed|, 0
  {
    var (stage, next) := StageTrace(names, agent, signals, record);
    var here := CutAt(agent, signals, record, stage, did);
    var later := Later(names, agent, signals, next, if |stage| <= |did| then did[|stage|..] else []);
    (i: nat, input: Msg) => if i == |record.checkpoint.completed| then here else later(i, input)
  }

  function Later(
    names: seq<string>, agent: StreamingAgent, signals: StreamSignals, next: Option<Record>, did: seq<Action>): Signals
    decreases (match next case None => 0 case Some(r) => |names| - |r.checkpoint.completed|), 1
  {
    if next.Some? && |next.value.checkpoint.completed| < |names|
    then CutSignals(names, agent, signals, next.value, did) else NoSignal()
  }

  // ---------------------------------------------------------- within a stage

  /** Yields alone save nothing and ask for nothing. */
  lemma {:induction false} OnlyYields(record: Record, actions: seq<Action>)
    requires forall i | 0 <= i < |actions| :: actions[i].Yielded?
    ensures Saves(actions) == [] && Asks(actions) == []
  {
    if actions != [] { OnlyYields(record, actions[1..]); }
  }

  lemma {:induction false} StepsAreYields(step: nat, events: seq<AgentEvent>)
    ensures forall i | 0 <= i < |Steps(step, events)| :: Steps(step, events)[i].Yielded?
  {
    if events != [] { StepsAreYields(step, events[1..]); }
  }

  /** The record in the store is the last one saved. */
  lemma {:induction false} StoredIsLastSave(record: Record, actions: seq<Action>)
    ensures Stored(record, actions) == if Saves(actions) == [] then record else Saves(actions)[|Saves(actions)| - 1]
  {
    if actions != [] {
      var init, last := actions[..|actions| - 1], actions[|actions| - 1];
      StoredIsLastSave(record, init);
      SavesConcat(init, [last]);
      assert actions == init + [last] && [last][1..] == [];
      assert Saves([last]) == if last.Saved? then [last.record] else [];
    }
  }

  /** What was done of a stage in flight whose stream was dropped: it was fenced, and asked if polled on. */
  lemma {:induction false} DroppedInFlight(
    record: Record, fenced: Record, signal: StreamSignal, events: seq<AgentEvent>, did: seq<Action>)
    requires did <= Started(record, fenced, signal, events) && 2 <= |did| && RestsAtYield(did)
    ensures Saves(did) == [fenced]
    ensures Asks(did) == if |did| == 2 then [] else AskedOf(record, signal)
    ensures |did| > 2 ==> events != []
  {
    var head := Opened(record, fenced) + Invoking(record, signal);
    var steps := Steps(|record.checkpoint.completed| + 1, events);
    SavesOfSaveYield(fenced, StageStarted(|record.checkpoint.completed| + 1));
    if |did| == 2 {
      assert did == Opened(record, fenced);
    } else {
      assert |did| >= |head| && did == head + steps[..|did| - |head|];
      StepsAreYields(|record.checkpoint.completed| + 1, events);
      OnlyYields(record, steps[..|did| - |head|]);
      SavesConcat(Opened(record, fenced), Invoking(record, signal));
      SavesConcat(head, steps[..|did| - |head|]);
    }
  }

  /** A proper part of a stage, up to some yield, is what an interrupted plain stage does. */
  ghost predicate StopsAs(end: StageEnd, did: seq<Action>) {
    end.error.Some? && end.commits == Saves(did) && end.invoked == Asks(did)
  }

  lemma {:induction false} StageCut(
    names: seq<string>, agent: StreamingAgent, signals: StreamSignals, record: Record, did: seq<Action>, cut: Signals)
    requires |record.checkpoint.completed| < |names| && RestsAtYield(did)
    requires var stage := StageTrace(names, agent, signals, record).0;
      && did < stage
      && cut(|record.checkpoint.completed|, record.checkpoint.nextInput) == CutAt(agent, signals, record, stage, did)
    ensures StopsAs(Stage(names, ReplyOf(agent, signals), cut, record), did)
  {
    if did != [] {
      var index := |record.checkpoint.completed|;
      var fenced := Record(record.revision + 1, record.checkpoint.(status := InFlight));
      var run := StageRun(agent(index, record.checkpoint.nextInput), signals(index));
      var ending := Ending(names, fenced, run.1, CommitOf(signals(index))).0;
      assert StageTrace(names, agent, signals, record).0 == Started(record, fenced, signals(index), run.0) + ending;
      assert |did| <= |Started(record, fenced, signals(index), run.0)|;
      assert did[0] == Saved(fenced);
      DroppedInFlight(record, fenced, signals(index), run.0, did);
    }
  }

  // --------------------------------------------------------------- sessions

  ghost predicate SameFrom(a: Signals, b: Signals, start: nat) {
    forall i: nat, input: Msg | start <= i :: a(i, input) == b(i, input)
  }

  /** A session depends on the signals of its own stages only. */
  lemma {:induction false} SameSession(names: seq<string>, agent: Agent, a: Signals, b: Signals, record: Record)
    requires |record.checkpoint.completed| < |names| && SameFrom(a, b, |record.checkpoint.completed|)
    ensures Execute(names, agent, a, record) == Execute(names, agent, b, record)
    decreases |names| - |record.checkpoint.completed|
  {
    var end := Stage(names, agent, a, record);
    assert end == Stage(names, agent, b, record);
    if end.error.None? && |end.last.checkpoint.completed| < |names| { SameSession(names, agent, a, b, end.last); }
  }

  /** The session did, saved and asked exactly what the stream had until it was dropped. */
  ghost predicate DidAs(session: Session, record: Record, did: seq<Action>) {
    session.commits == Saves(did) && session.invoked == Asks(did) && session.last == Stored(record, did)
  }

  lemma {:induction false} SessionStops(
    names: seq<string>, agent: Agent, signals: Signals, record: Record, did: seq<Action>)
    requires |record.checkpoint.completed| < |names| && StopsAs(Stage(names, agent, signals, record), did)
    ensures DidAs(Execute(names, agent, signals, record), record, did)
  {
    StageLeavesLast(names, agent, signals, record);
    StoredIsLastSave(record, did);
  }

  lemma {:induction false} SessionEnds(
    names: seq<string>, agent: Agent, signals: Signals, record: Record, stage: seq<Action>, next: Option<Record>,
    did: seq<Action>)
    requires |record.checkpoint.completed| < |names| && Agrees((stage, next), Stage(names, agent, signals, record))
    requires next.None? || |next.value.checkpoint.completed| >= |names|
    requires Saves(did) == Saves(stage) && Asks(did) == Asks(stage)
    ensures DidAs(Execute(names, agent, signals, record), record, did)
  {
    StageLeavesLast(names, agent, signals, record);
    StoredIsLastSave(record, did);
  }

  lemma {:induction false} SessionGoesOn(
    names: seq<string>, agent: Agent, signals: Signals, record: Record, stage: seq<Action>, rest: seq<Action>,
    next: Record)
    requires |record.checkpoint.completed| < |names| && |next.checkpoint.completed| < |names|
    requires Agrees((stage, Some(next)), Stage(names, agent, signals, record))
    requires DidAs(Execute(names, agent, signals, next), next, rest)
    ensures DidAs(Execute(names, agent, signals, record), record, stage + rest)
  {
    StageLeavesLast(names, agent, signals, record);
    SavesConcat(stage, rest);
    StoredConcat(record, stage, rest);
    StoredIsLastSave(record, stage);
  }

  /** A stage leaves what it commits last. */
  lemma {:induction false} StageLeavesLast(names: seq<string>, agent: Agent, signals: Signals, record: Record)
    requires |record.checkpoint.completed| < |names|
    ensures var end := Stage(names, agent, signals, record);
      end.last == if end.commits == [] then record else end.commits[|end.commits| - 1]
  {
  }

  /** The interrupts of a dropped stream: in its first stage as it stopped there, then as it went on. */
  lemma {:induction false} CutSignalsMeaning(
    names: seq<string>, agent: StreamingAgent, signals: StreamSignals, record: Record, did: seq<Action>)
    requires |record.checkpoint.completed| < |names|
    ensures var (stage, next) := StageTrace(names, agent, signals, record);
      var cut := CutSignals(names, agent, signals, record, did);
      && cut(|record.checkpoint.completed|, record.checkpoint.nextInput) == CutAt(agent, signals, record, stage, did)
      && (|stage| <= |did| && next.Some? && |next.value.checkpoint.completed| < |names| ==>
            SameFrom(cut, CutSignals(names, agent, signals, next.value, did[|stage|..]),
                     |next.value.checkpoint.completed|))
  {
  }

  lemma {:induction false} DroppedLater(
    names: seq<string>, agent: StreamingAgent, signals: StreamSignals, record: Record, did: seq<Action>, cut: Signals,
    later: Signals, stage: seq<Action>, next: Record)
    requires |record.checkpoint.completed| < |names| && |next.checkpoint.completed| < |names|
    requires |stage| <= |did| && did[..|stage|] == stage
    requires Agrees((stage, Some(next)), Stage(names, ReplyOf(agent, signals), cut, record))
    requires SameFrom(cut, later, |next.checkpoint.completed|)
    requires DidAs(Execute(names, ReplyOf(agent, signals), later, next), next, did[|stage|..])
    ensures DidAs(Execute(names, ReplyOf(agent, signals), cut, record), record, did)
  {
    assert did == stage + did[|stage|..];
    SameSession(names, ReplyOf(agent, signals), cut, later, next);
    SessionGoesOn(names, ReplyOf(agent, signals), cut, record, stage, did[|stage|..], next);
  }

  /**
   * Wherever a consumer drops the stream, store and agents have seen exactly what they would have
   * seen of a plain session interrupted there.
   */
  lemma {:induction false} DroppedStreamIsASession(
    names: seq<string>, agent: StreamingAgent, signals: StreamSignals, record: Record, did: seq<Action>)
    requires |record.checkpoint.completed| < |names|
    requires did <= Trace(names, agent, signals, record) && RestsAtYield(did)
    ensures DidAs(
      Execute(names, ReplyOf(agent, signals), CutSignals(names, agent, signals, record, did), record), record, did)
    decreases |names| - |record.checkpoint.completed|
  {
    var reply, cut := ReplyOf(agent, signals), CutSignals(names, agent, signals, record, did);
    var (stage, next) := StageTrace(names, agent, signals, record);
    CutSignalsMeaning(names, agent, signals, record, did);
    if |did| < |stage| {
      assert did < stage;
      StageCut(names, agent, signals, record, did, cut);
      SessionStops(names, reply, cut, record, did);
    } else if next.Some? && |next.value.checkpoint.completed| < |names| {
      var rest := did[|stage|..];
      RestOfTrace(names, agent, signals, record, did);
      DroppedStreamIsASession(names, agent, signals, next.value, rest);
      StageDone(names, agent, signals, record, did, cut);
      DroppedLater(names, agent, signals, record, did, cut,
        CutSignals(names, agent, signals, next.value, rest), stage, next.value);
    } else {
      StageDone(names, agent, signals, record, did, cut);
      SessionEnds(names, reply, cut, record, stage, next, did);
    }
  }

  /** What was done after a whole stage is the beginning of what follows it. */
  lemma {:induction false} RestOfTrace(
    names: seq<string>, agent: StreamingAgent, signals: StreamSignals, record: Record, did: seq<Action>)
    requires |record.checkpoint.completed| < |names|
    requires did <= Trace(names, agent, signals, record) && RestsAtYield(did)
    requires var (stage, next) := StageTrace(names, agent, signals, record);
      |stage| <= |did| && next.Some? && |next.value.checkpoint.completed| < |names|
    ensures var (stage, next) := StageTrace(names, agent, signals, record);
      && did[..|stage|] == stage && did[|stage|..] <= Trace(names, agent, signals, next.value)
      && RestsAtYield(did[|stage|..])
  {
    var (stage, next) := StageTrace(names, agent, signals, record);
    assert did == stage + did[|stage|..];
  }

  /** A stage done to its end is the plain stage; if it is the last, only the final event may follow. */
  lemma {:induction false} StageDone(
    names: seq<string>, agent: StreamingAgent, signals: StreamSignals, record: Record, did: seq<Action>, cut: Signals)
    requires |record.checkpoint.completed| < |names| && did <= Trace(names, agent, signals, record)
    requires var stage := StageTrace(names, agent, signals, record).0;
      && |stage| <= |did|
      && cut(|record.checkpoint.completed|, record.checkpoint.nextInput) == CutAt(agent, signals, record, stage, did)
    ensures Agrees(StageTrace(names, agent, signals, record), Stage(names, ReplyOf(agent, signals), cut, record))
    ensures var (stage, next) := StageTrace(names, agent, signals, record);
      next.None? || |next.value.checkpoint.completed| == |names| ==>
        Saves(did) == Saves(stage) && Asks(did) == Asks(stage)
  {
    var (stage, next) := StageTrace(names, agent, signals, record);
    StageAgrees(names, agent, signals, record);
    var rest := did[|stage|..];
    assert did == stage + rest && rest <= Onward(names, agent, signals, next);
    SavesConcat(stage, rest);
    if next.None? || |next.value.checkpoint.completed| == |names| { OnlyYields(record, rest); }
  }

  /** So a stream, dropped or not, is a resume like any other. */
  lemma {:induction false} StreamIsATurn(
    names: seq<string>, agent: StreamingAgent, signals: StreamSignals, before: Refinement.Progress, did: seq<Action>)
    requires IsUsable(before.stored.checkpoint, names, Status.Ready)
    requires did <= Trace(names, agent, signals, before.stored) && RestsAtYield(did)
    ensures Refinement.Turned(names, StreamTurn(names, agent, signals, before.stored, did), before)
         == Refinement.Progress(Stored(before.stored, did), before.invoked + Asks(did))
  {
    DroppedStreamIsASession(names, agent, signals, before.stored, did);
  }

  function StreamTurn(
    names: seq<string>, agent: StreamingAgent, signals: StreamSignals, record: Record, did: seq<Action>)
    : Refinement.Turn
    requires |record.checkpoint.completed| < |names|
  {
    Refinement.Resumption(ReplyOf(agent, signals), CutSignals(names, agent, signals, record, did))
  }

  /** And however runs, resumes, reconciliations and dropped streams alternate, no stage is invoked twice. */
  lemma {:induction false} StreamsInvokeOnce(
    names: seq<string>, turns: seq<Refinement.Turn>, input: Msg,
    agent: StreamingAgent, signals: StreamSignals, did: seq<Action>, i: nat, j: nat)
    requires names != [] && IsUsable(Refinement.ProgressOf(names, turns, input).stored.checkpoint, names, Status.Ready)
    requires did <= Trace(names, agent, signals, Refinement.ProgressOf(names, turns, input).stored) && RestsAtYield(did)
    requires i < j < |Refinement.ProgressOf(names, turns, input).invoked + Asks(did)|
    ensures var invoked := Refinement.ProgressOf(names, turns, input).invoked + Asks(did);
      invoked[i].stage != invoked[j].stage
  {
    var before := Refinement.ProgressOf(names, turns, input);
    var turn := StreamTurn(names, agent, signals, before.stored, did);
    StreamIsATurn(names, agent, signals, before, did);
    assert (turns + [turn])[..|turns|] == turns;
    Refinement.ExecutorInvokesOnce(names, turns + [turn], input, i, j);
  }
}
