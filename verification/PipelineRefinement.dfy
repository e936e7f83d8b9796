/** The executor is one of the protocol's workers: each of its sessions is a run of the state machine. */
module PipelineRefinement {
  import opened Messages
  import opened Checkpoints
  import opened PipelineProtocol
  import opened PipelineRun

  /** The state after `events` from any state. */
  function Steps(config: Config, s: State, events: seq<Event>): State {
    if events == [] then s else Next(config, Steps(config, s, events[..|events| - 1]), events[|events| - 1])
  }

  lemma {:induction false} StepsOne(config: Config, s: State, events: seq<Event>, event: Event)
    ensures Steps(config, s, events + [event]) == Next(config, Steps(config, s, events), event)
  {
    assert (events + [event])[..|events|] == events;
  }

  lemma {:induction false} StepsConcat(config: Config, s: State, a: seq<Event>, b: seq<Event>)
    ensures Steps(config, s, a + b) == Steps(config, Steps(config, s, a), b)
  {
    if b == [] {
      assert a + b == a;
    } else {
      StepsConcat(config, s, a, b[..|b| - 1]);
      assert (a + b)[..|a + b| - 1] == a + b[..|b| - 1];
    }
  }

  /** A run is steps from the initial state. */
  lemma {:induction false} RunIsSteps(config: Config, run: seq<Event>)
    ensures After(config, run) == Steps(config, INITIAL, run)
  {
    if run != [] { RunIsSteps(config, run[..|run| - 1]); }
  }

  /** The events of one stage of worker `w`, up to the first that stops it. */
  function StageEvents(agent: Agent, signals: Signals, w: Worker, record: Record): seq<Event> {
    var index, input := |record.checkpoint.completed|, record.checkpoint.nextInput;
    var signal := signals(index, input);
    if signal == BeforeFence || FenceFaultOf(signal).NotCommitted? then [Crash(w)]
    else if FenceFaultOf(signal).AckLost? then [Fence(w, false)]
    else if signal == BeforeInvoke then [Fence(w, true), Crash(w)]
    else if signal == DuringStage then [Fence(w, true), Invoke(w), Crash(w)]
    else
      match agent(index, input)
      case AgentFailed(_) => [Fence(w, true), Invoke(w), Crash(w)]
      case Replied(message) => [Fence(w, true), Invoke(w), CommitEvent(w, message, CommitFaultOf(signal))]
  }

  function CommitEvent(w: Worker, reply: Msg, fault: Fault): Event {
    if fault.NotCommitted? then Crash(w) else Commit(w, reply, fault.Acked?)
  }

  /** The events of a whole session. */
  function EventsOf(names: seq<string>, agent: Agent, signals: Signals, w: Worker, record: Record): seq<Event>
    requires |record.checkpoint.completed| < |names|
    decreases |names| - |record.checkpoint.completed|
  {
    var end := Stage(names, agent, signals, record);
    StageEvents(agent, signals, w, record) +
      if end.error.None? && |end.last.checkpoint.completed| < |names|
      then EventsOf(names, agent, signals, w, end.last) else []
  }

  /** Worker `w` runs the pipeline `names`, and holds the boundary that is stored. */
  ghost predicate Ready(config: Config, s: State, names: seq<string>, w: Worker, record: Record) {
    && config(w) == names && |record.checkpoint.completed| < |names|
    && record.checkpoint.status == Status.Ready
    && Of(s, w) == AtBoundary(record) && s.store == Some(record)
  }

  /** `t` is `s` with `commits` more, the last of which is stored, and `invoked` more invocations. */
  ghost predicate Grew(s: State, t: State, commits: seq<Record>, last: Record, invoked: seq<Dispatch>) {
    t.commits == s.commits + commits && t.store == Some(last) && t.log == s.log + invoked
  }

  /** A stage goes on with the next one, or its worker is done. */
  ghost predicate StageDone(
    config: Config, s: State, t: State, names: seq<string>, w: Worker, end: StageEnd)
  {
    && Grew(s, t, end.commits, end.last, end.invoked)
    && (if end.error.None? && |end.last.checkpoint.completed| < |names| then Ready(config, t, names, w, end.last)
        else Of(t, w) == Idle)
  }

  lemma {:induction false} OneStep(config: Config, s: State, a: Event)
    ensures Steps(config, s, [a]) == Next(config, s, a)
  {
    assert [a][..0] == [];
  }

  lemma {:induction false} TwoSteps(config: Config, s: State, a: Event, b: Event)
    ensures Steps(config, s, [a, b]) == Next(config, Next(config, s, a), b)
  {
    OneStep(config, s, a);
    StepsOne(config, s, [a], b);
    assert [a] + [b] == [a, b];
  }

  lemma {:induction false} ThreeSteps(config: Config, s: State, a: Event, b: Event, c: Event)
    ensures Steps(config, s, [a, b, c]) == Next(config, Next(config, Next(config, s, a), b), c)
  {
    TwoSteps(config, s, a, b);
    StepsOne(config, s, [a, b], c);
    assert [a, b] + [c] == [a, b, c];
  }

  /** The save before the agent is invoked. */
  lemma {:induction false} FenceStep(
    config: Config, s: State, names: seq<string>, w: Worker, record: Record, acked: bool)
    requires Ready(config, s, names, w, record)
    ensures var t := Next(config, s, Fence(w, acked));
      var fenced := Record(record.revision + 1, record.checkpoint.(status := InFlight));
      if record.revision >= MAX_REVISION then Of(t, w) == Idle && Grew(s, t, [], record, [])
      else Of(t, w) == (if acked then Fenced(fenced) else Idle) && Grew(s, t, [fenced], fenced, [])
  {
  }

  lemma {:induction false} InvokeStep(config: Config, s: State, w: Worker, fenced: Record)
    requires Of(s, w) == Fenced(fenced) && s.store == Some(fenced)
    ensures var t := Next(config, s, Invoke(w));
      && Of(t, w) == Dispatched(fenced)
      && Grew(s, t, [], fenced, [Dispatch(|fenced.checkpoint.completed|, fenced.checkpoint.nextInput)])
  {
  }

  lemma {:induction false} IdleStep(config: Config, s: State, w: Worker, last: Record, event: Event)
    requires s.store == Some(last) && event.w == w
    requires event.Crash? || (Of(s, w) == Idle && (event.Invoke? || event.Commit?))
    ensures var t := Next(config, s, event); Of(t, w) == Idle && Grew(s, t, [], last, [])
  {
  }

  /** The save of a reply: what it adds is what the stage commits. */
  lemma {:induction false} CommitStep(
      config: Config, s: State, names: seq<string>, w: Worker, fenced: Record, reply: Msg, fault: Fault)
    requires config(w) == names && |fenced.checkpoint.completed| < |names|
    requires Of(s, w) == Dispatched(fenced) && s.store == Some(fenced)
    ensures var t := Next(config, s, CommitEvent(w, reply, fault));
      var end := Committed(names, fenced, reply, fault);
      && end.commits == [fenced] + end.commits[1..]
      && Grew(s, t, end.commits[1..], end.last, [])
      && Of(t, w) == if end.error.None? && end.last.checkpoint.status == Status.Ready
                     then AtBoundary(end.last) else Idle
  {
  }

  lemma {:induction false} GrewTwice(
      s: State, t: State, u: State, a: seq<Record>, b: seq<Record>, middle: Record, last: Record,
      i: seq<Dispatch>, j: seq<Dispatch>)
    requires Grew(s, t, a, middle, i) && Grew(t, u, b, last, j)
    ensures Grew(s, u, a + b, last, i + j)
  {
  }

  lemma {:induction false} StageIsSteps(
    config: Config, s: State, names: seq<string>, agent: Agent, signals: Signals, w: Worker, record: Record)
    requires Ready(config, s, names, w, record)
    ensures StageDone(config, s, Steps(config, s, StageEvents(agent, signals, w, record)), names, w,
                      Stage(names, agent, signals, record))
  {
    var events, signal := StageEvents(agent, signals, w, record), SignalAt(signals, record);
    if events[0].Crash? {
      OneStep(config, s, Crash(w));
      IdleStep(config, s, w, record, Crash(w));
    } else if record.revision >= MAX_REVISION {
      UnsavedStage(config, s, names, agent, signals, w, record);
    } else if FenceFaultOf(signal).AckLost? {
      FenceStep(config, s, names, w, record, false);
      OneStep(config, s, Fence(w, false));
    } else if signal == BeforeInvoke {
      FenceStep(config, s, names, w, record, true);
      TwoSteps(config, s, Fence(w, true), Crash(w));
      var fenced := Record(record.revision + 1, record.checkpoint.(status := InFlight));
      IdleStep(config, Next(config, s, Fence(w, true)), w, fenced, Crash(w));
    } else {
      InvokedStage(config, s, names, agent, signals, w, record);
    }
  }

  function SignalAt(signals: Signals, record: Record): Signal {
    signals(|record.checkpoint.completed|, record.checkpoint.nextInput)
  }

  /** A stage whose fence finds no revision left. */
  lemma {:induction false} UnsavedStage(
    config: Config, s: State, names: seq<string>, agent: Agent, signals: Signals, w: Worker, record: Record)
    requires Ready(config, s, names, w, record) && record.revision >= MAX_REVISION
    requires SignalAt(signals, record) != BeforeFence && !FenceFaultOf(SignalAt(signals, record)).NotCommitted?
    ensures var t := Steps(config, s, StageEvents(agent, signals, w, record));
      Of(t, w) == Idle && Grew(s, t, [], record, [])
  {
    var events := StageEvents(agent, signals, w, record);
    var t1 := Next(config, s, events[0]);
    FenceStep(config, s, names, w, record, events[0].acked);
    if |events| == 1 {
      OneStep(config, s, events[0]);
    } else {
      IdleStep(config, t1, w, record, events[1]);
      TwoSteps(config, s, events[0], events[1]);
      if |events| == 3 {
        IdleStep(config, Next(config, t1, events[1]), w, record, events[2]);
        ThreeSteps(config, s, events[0], events[1], events[2]);
        assert events == [events[0], events[1], events[2]];
      }
    }
  }

  /** A stage whose agent is invoked. */
  lemma {:induction false} InvokedStage(
    config: Config, s: State, names: seq<string>, agent: Agent, signals: Signals, w: Worker, record: Record)
    requires Ready(config, s, names, w, record) && record.revision < MAX_REVISION
    requires SignalAt(signals, record) !in {BeforeFence, BeforeInvoke}
    requires FenceFaultOf(SignalAt(signals, record)).Acked?
    ensures StageDone(config, s, Steps(config, s, StageEvents(agent, signals, w, record)), names, w,
                      Stage(names, agent, signals, record))
  {
    var index, input := |record.checkpoint.completed|, record.checkpoint.nextInput;
    var signal := SignalAt(signals, record);
    if signal != DuringStage && agent(index, input).Replied? {
      RepliedSteps(config, s, names, w, record, agent(index, input).message, CommitFaultOf(signal));
    } else {
      UnrepliedSteps(config, s, names, w, record);
    }
  }

  lemma {:induction false} UnrepliedSteps(config: Config, s: State, names: seq<string>, w: Worker, record: Record)
    requires Ready(config, s, names, w, record) && record.revision < MAX_REVISION
    ensures var t := Steps(config, s, [Fence(w, true), Invoke(w), Crash(w)]);
      var fenced := Record(record.revision + 1, record.checkpoint.(status := InFlight));
      && Of(t, w) == Idle
      && Grew(s, t, [fenced], fenced, [Dispatch(|record.checkpoint.completed|, record.checkpoint.nextInput)])
  {
    var fenced := Record(record.revision + 1, record.checkpoint.(status := InFlight));
    var t := Next(config, Next(config, s, Fence(w, true)), Invoke(w));
    InvocationSteps(config, s, names, w, record, fenced, t);
    ThreeSteps(config, s, Fence(w, true), Invoke(w), Crash(w));
    IdleStep(config, t, w, fenced, Crash(w));
  }

  lemma {:induction false} RepliedSteps(
    config: Config, s: State, names: seq<string>, w: Worker, record: Record, reply: Msg, fault: Fault)
    requires Ready(config, s, names, w, record) && record.revision < MAX_REVISION
    ensures var t := Steps(config, s, [Fence(w, true), Invoke(w), CommitEvent(w, reply, fault)]);
      var fenced := Record(record.revision + 1, record.checkpoint.(status := InFlight));
      StageDone(config, s, t, names, w, Committed(names, fenced, reply, fault))
  {
    var fenced := Record(record.revision + 1, record.checkpoint.(status := InFlight));
    var t := Next(config, Next(config, s, Fence(w, true)), Invoke(w));
    var end := Committed(names, fenced, reply, fault);
    InvocationSteps(config, s, names, w, record, fenced, t);
    ThreeSteps(config, s, Fence(w, true), Invoke(w), CommitEvent(w, reply, fault));
    CommitStep(config, t, names, w, fenced, reply, fault);
    GrewTwice(s, t, Next(config, t, CommitEvent(w, reply, fault)), [fenced], end.commits[1..], fenced, end.last,
      end.invoked, []);
  }

  lemma {:induction false} InvocationSteps(
    config: Config, s: State, names: seq<string>, w: Worker, record: Record, fenced: Record, t: State)
    requires Ready(config, s, names, w, record) && record.revision < MAX_REVISION
    requires fenced == Record(record.revision + 1, record.checkpoint.(status := InFlight))
    requires t == Next(config, Next(config, s, Fence(w, true)), Invoke(w))
    ensures Of(t, w) == Dispatched(fenced)
    ensures Grew(s, t, [fenced], fenced, [Dispatch(|record.checkpoint.completed|, record.checkpoint.nextInput)])
  {
    FenceStep(config, s, names, w, record, true);
    InvokeStep(config, Next(config, s, Fence(w, true)), w, fenced);
  }

  /** Running the session's events from `s` adds its commits and invocations, and leaves its last record. */
  ghost predicate MatchesSession(
    config: Config, s: State, names: seq<string>, agent: Agent, signals: Signals, w: Worker, record: Record)
    requires |record.checkpoint.completed| < |names|
  {
    var session := Execute(names, agent, signals, record);
    var t := Steps(config, s, EventsOf(names, agent, signals, w, record));
    Grew(s, t, session.commits, session.last, session.invoked) && Of(t, w) == Idle
  }

  /** A session commits, invokes and leaves behind the same as a run of the state machine. */
  lemma {:induction false} SessionIsSteps(
    config: Config, s: State, names: seq<string>, agent: Agent, signals: Signals, w: Worker, record: Record)
    requires Ready(config, s, names, w, record)
    ensures MatchesSession(config, s, names, agent, signals, w, record)
    decreases |names| - |record.checkpoint.completed|
  {
    var end := Stage(names, agent, signals, record);
    var t := Steps(config, s, StageEvents(agent, signals, w, record));
    StageIsSteps(config, s, names, agent, signals, w, record);
    if end.error.None? && |end.last.checkpoint.completed| < |names| {
      SessionIsSteps(config, t, names, agent, signals, w, end.last);
      MatchesNext(config, s, names, agent, signals, w, record, end, t);
    } else {
      MatchesLast(config, s, names, agent, signals, w, record, end, t);
    }
  }

  lemma {:induction false} MatchesNext(
    config: Config, s: State, names: seq<string>, agent: Agent, signals: Signals, w: Worker, record: Record,
    end: StageEnd, t: State)
    requires |record.checkpoint.completed| < |names| && end == Stage(names, agent, signals, record)
    requires end.error.None? && |end.last.checkpoint.completed| < |names|
    requires t == Steps(config, s, StageEvents(agent, signals, w, record)) && StageDone(config, s, t, names, w, end)
    requires MatchesSession(config, t, names, agent, signals, w, end.last)
    ensures MatchesSession(config, s, names, agent, signals, w, record)
  {
    var rest := Execute(names, agent, signals, end.last);
    SessionConcat(config, s, StageEvents(agent, signals, w, record), t, EventsOf(names, agent, signals, w, end.last),
      w, end, rest);
  }

  lemma {:induction false} SessionConcat(
    config: Config, s: State, first: seq<Event>, t: State, more: seq<Event>, w: Worker, end: StageEnd, rest: Session)
    requires t == Steps(config, s, first) && Grew(s, t, end.commits, end.last, end.invoked)
    requires Grew(t, Steps(config, t, more), rest.commits, rest.last, rest.invoked)
    requires Of(Steps(config, t, more), w) == Idle
    ensures var u := Steps(config, s, first + more);
      Grew(s, u, end.commits + rest.commits, rest.last, end.invoked + rest.invoked) && Of(u, w) == Idle
  {
    StepsConcat(config, s, first, more);
    GrewTwice(s, t, Steps(config, t, more), end.commits, rest.commits, end.last, rest.last, end.invoked, rest.invoked);
  }

  lemma {:induction false} MatchesLast(
    config: Config, s: State, names: seq<string>, agent: Agent, signals: Signals, w: Worker, record: Record,
    end: StageEnd, t: State)
    requires |record.checkpoint.completed| < |names| && end == Stage(names, agent, signals, record)
    requires end.error.Some? || |end.last.checkpoint.completed| == |names|
    requires t == Steps(config, s, StageEvents(agent, signals, w, record)) && StageDone(config, s, t, names, w, end)
    ensures MatchesSession(config, s, names, agent, signals, w, record)
  {
    assert StageEvents(agent, signals, w, record) + [] == StageEvents(agent, signals, w, record);
  }

  // ------------------------------------------------------- reconciliations

  function ReconcileEvents(w: Worker, revision: nat, reply: Msg, fault: Fault): seq<Event> {
    [Inspect(w, revision), if fault.NotCommitted? then Crash(w) else Reconcile(w, reply, fault.Acked?)]
  }

  /** What reconciling leaves of a stored record: its successor, or itself. */
  function Reconciled(names: seq<string>, found: Record, revision: nat, reply: Msg, fault: Fault): Record {
    if MayReconcile(Some(found), names, revision, reply) && revision < MAX_REVISION && !fault.NotCommitted?
    then Record(revision + 1, Advanced(names, found.checkpoint, reply).value) else found
  }

  /** Reconciling is a stretch of the protocol that commits what it stores, and invokes nothing. */
  lemma {:induction false} ReconcileIsSteps(
    config: Config, s: State, names: seq<string>, w: Worker, revision: nat, reply: Msg, fault: Fault)
    requires config(w) == names && Of(s, w) == Idle && s.store.Some?
    ensures var t := Steps(config, s, ReconcileEvents(w, revision, reply, fault));
      var last := Reconciled(names, s.store.value, revision, reply, fault);
      Of(t, w) == Idle && Grew(s, t, if last == s.store.value then [] else [last], last, [])
  {
    TwoSteps(config, s, Inspect(w, revision), ReconcileEvents(w, revision, reply, fault)[1]);
    if Next(config, s, Inspect(w, revision)) != s {
      InspectedStep(config, s, Next(config, s, Inspect(w, revision)), names, w, revision, reply, fault);
    }
  }

  lemma {:induction false} InspectedStep(
    config: Config, s: State, t: State, names: seq<string>, w: Worker, revision: nat, reply: Msg, fault: Fault)
    requires config(w) == names && s.store.Some? && s.store.value.revision == revision != 0
    requires t == At(s, w, Inspecting(s.store.value)) && IsUsable(s.store.value.checkpoint, names, InFlight)
    ensures var u := Next(config, t, ReconcileEvents(w, revision, reply, fault)[1]);
      var last := Reconciled(names, s.store.value, revision, reply, fault);
      Of(u, w) == Idle && Grew(s, u, if last == s.store.value then [] else [last], last, [])
  {
  }

  // ------------------------------------- runs, their resumes and reconciliations

  /** What happens to a stored run: somebody resumes it, or reconciles the stage in flight. */
  datatype Turn =
    | Resumption(agent: Agent, signals: Signals)
    | Reconciliation(revision: nat, reply: Msg, fault: Fault)

  /** The record that is stored, and what has been invoked, after a run and its turns. */
  datatype Progress = Progress(stored: Record, invoked: seq<Dispatch>)

  /** A resume of whatever usable boundary is stored, or a reconciliation of whatever is in flight. */
  function Turned(names: seq<string>, turn: Turn, before: Progress): Progress {
    match turn
    case Reconciliation(revision, reply, fault) =>
      before.(stored := Reconciled(names, before.stored, revision, reply, fault))
    case Resumption(agent, signals) =>
      if !IsUsable(before.stored.checkpoint, names, Status.Ready) then before
      else
        var session := Execute(names, agent, signals, before.stored);
        Progress(session.last, before.invoked + session.invoked)
  }

  function ProgressOf(names: seq<string>, turns: seq<Turn>, input: Msg): Progress {
    if turns == [] then Progress(Record(1, Initial(names, input)), [])
    else Turned(names, turns[|turns| - 1], ProgressOf(names, turns[..|turns| - 1], input))
  }

  /** The same as events of one worker: for a resume, the record is loaded again. */
  function TurnEvents(names: seq<string>, turn: Turn, w: Worker, before: Progress): seq<Event> {
    match turn
    case Reconciliation(revision, reply, fault) => ReconcileEvents(w, revision, reply, fault)
    case Resumption(agent, signals) =>
      if !IsUsable(before.stored.checkpoint, names, Status.Ready) then []
      else [Load(w)] + EventsOf(names, agent, signals, w, before.stored)
  }

  /** The record is created, acknowledged or not, and then taken up turn by turn. */
  function RunEvents(names: seq<string>, turns: seq<Turn>, w: Worker, input: Msg, acked: bool): seq<Event> {
    if turns == [] then [Create(w, input, acked), Crash(w)]
    else
      var init := turns[..|turns| - 1];
      RunEvents(names, init, w, input, acked)
        + TurnEvents(names, turns[|turns| - 1], w, ProgressOf(names, init, input))
  }

  ghost predicate Reaches(config: Config, events: seq<Event>, w: Worker, p: Progress) {
    var t := Steps(config, INITIAL, events);
    t.store == Some(p.stored) && t.log == p.invoked && Of(t, w) == Idle && p.stored.revision > 0
  }

  lemma {:induction false} CreateReaches(config: Config, names: seq<string>, w: Worker, input: Msg, acked: bool)
    requires config(w) == names
    ensures Reaches(config, [Create(w, input, acked), Crash(w)], w, Progress(Record(1, Initial(names, input)), []))
  {
    TwoSteps(config, INITIAL, Create(w, input, acked), Crash(w));
  }

  lemma {:induction false} LoadStep(config: Config, s: State, names: seq<string>, w: Worker, record: Record)
    requires config(w) == names && Of(s, w) == Idle && s.store == Some(record) && record.revision > 0
    requires IsUsable(record.checkpoint, names, Status.Ready)
    ensures var t := Next(config, s, Load(w));
      Ready(config, t, names, w, record) && Grew(s, t, [], record, [])
  {
  }

  lemma {:induction false} LaterRevision(names: seq<string>, agent: Agent, signals: Signals, record: Record)
    requires |record.checkpoint.completed| < |names|
    ensures Execute(names, agent, signals, record).last.revision >= record.revision
    decreases |names| - |record.checkpoint.completed|
  {
    var end := Stage(names, agent, signals, record);
    if end.error.None? && |end.last.checkpoint.completed| < |names| { LaterRevision(names, agent, signals, end.last); }
  }

  lemma {:induction false} ReachesMore(
    config: Config, names: seq<string>, agent: Agent, signals: Signals, w: Worker, events: seq<Event>, p: Progress)
    requires config(w) == names && Reaches(config, events, w, p) && IsUsable(p.stored.checkpoint, names, Status.Ready)
    ensures var session := Execute(names, agent, signals, p.stored);
      Reaches(config, events + ([Load(w)] + EventsOf(names, agent, signals, w, p.stored)), w,
              Progress(session.last, p.invoked + session.invoked))
  {
    var s := Steps(config, INITIAL, events);
    var t := Next(config, s, Load(w));
    var more := EventsOf(names, agent, signals, w, p.stored);
    LoadStep(config, s, names, w, p.stored);
    SessionIsSteps(config, t, names, agent, signals, w, p.stored);
    LaterRevision(names, agent, signals, p.stored);
    LoadThenSession(config, events, w, more, p, Execute(names, agent, signals, p.stored));
  }

  lemma {:induction false} LoadThenSession(
    config: Config, events: seq<Event>, w: Worker, more: seq<Event>, p: Progress, session: Session)
    requires Reaches(config, events, w, p) && session.last.revision > 0
    requires var t := Next(config, Steps(config, INITIAL, events), Load(w));
      && t.log == p.invoked
      && Grew(t, Steps(config, t, more), session.commits, session.last, session.invoked)
      && Of(Steps(config, t, more), w) == Idle
    ensures Reaches(config, events + ([Load(w)] + more), w, Progress(session.last, p.invoked + session.invoked))
  {
    LoadThenSteps(config, events, w, more);
  }

  lemma {:induction false} LoadThenSteps(config: Config, events: seq<Event>, w: Worker, more: seq<Event>)
    ensures Steps(config, INITIAL, events + ([Load(w)] + more))
         == Steps(config, Next(config, Steps(config, INITIAL, events), Load(w)), more)
  {
    var s := Steps(config, INITIAL, events);
    StepsConcat(config, INITIAL, events, [Load(w)] + more);
    StepsConcat(config, s, [Load(w)], more);
    OneStep(config, s, Load(w));
  }

  lemma {:induction false} ReconcileReaches(
    config: Config, names: seq<string>, w: Worker, events: seq<Event>, p: Progress,
    revision: nat, reply: Msg, fault: Fault)
    requires config(w) == names && Reaches(config, events, w, p)
    ensures Reaches(config, events + ReconcileEvents(w, revision, reply, fault), w,
                    p.(stored := Reconciled(names, p.stored, revision, reply, fault)))
  {
    ReconcileIsSteps(config, Steps(config, INITIAL, events), names, w, revision, reply, fault);
    StepsConcat(config, INITIAL, events, ReconcileEvents(w, revision, reply, fault));
  }

  lemma {:induction false} TurnReaches(
    config: Config, names: seq<string>, turn: Turn, w: Worker, events: seq<Event>, p: Progress)
    requires config(w) == names && Reaches(config, events, w, p)
    ensures Reaches(config, events + TurnEvents(names, turn, w, p), w, Turned(names, turn, p))
  {
    match turn
    case Reconciliation(revision, reply, fault) =>
      ReconcileReaches(config, names, w, events, p, revision, reply, fault);
    case Resumption(agent, signals) =>
      if IsUsable(p.stored.checkpoint, names, Status.Ready) {
        ReachesMore(config, names, agent, signals, w, events, p);
      } else {
        assert events + [] == events;
      }
  }

  /**
   * So a run with any number of resumes and reconciliations, however interrupted and whatever saves
   * fail or go unreported, is a reachable run of the protocol.
   */
  lemma {:induction false} RunIsReachable(
    config: Config, names: seq<string>, turns: seq<Turn>, w: Worker, input: Msg, acked: bool)
    requires config(w) == names
    ensures Reaches(config, RunEvents(names, turns, w, input, acked), w, ProgressOf(names, turns, input))
  {
    if turns == [] {
      CreateReaches(config, names, w, input, acked);
    } else {
      var init := turns[..|turns| - 1];
      RunIsReachable(config, names, init, w, input, acked);
      TurnReaches(config, names, turns[|turns| - 1], w, RunEvents(names, init, w, input, acked),
        ProgressOf(names, init, input));
    }
  }

  /** And the executor itself, over a run and all its resumes and reconciliations, invokes no stage twice. */
  lemma {:induction false} ExecutorInvokesOnce(names: seq<string>, turns: seq<Turn>, input: Msg, i: nat, j: nat)
    requires names != [] && i < j < |ProgressOf(names, turns, input).invoked|
    ensures var invoked := ProgressOf(names, turns, input).invoked; invoked[i].stage != invoked[j].stage
  {
    var config := (w: Worker) => names;
    var run := RunEvents(names, turns, 0, input, true);
    RunIsReachable(config, names, turns, 0, input, true);
    RunIsSteps(config, run);
    EachStageInvokedAtMostOnce(config, run, i, j);
  }

  /** Resumes that run the same agents. */
  function Resumptions(agent: Agent, sessions: seq<Signals>): (turns: seq<Turn>)
    ensures |turns| == |sessions|
    ensures forall i | 0 <= i < |sessions| :: turns[i] == Resumption(agent, sessions[i])
  {
    if sessions == [] then []
    else Resumptions(agent, sessions[..|sessions| - 1]) + [Resumption(agent, sessions[|sessions| - 1])]
  }

  /** What the resumes leave stored is what `Resumed` leaves, so their answers are those of the plain run. */
  lemma {:induction false} ProgressIsResumed(names: seq<string>, agent: Agent, sessions: seq<Signals>, input: Msg)
    requires names != [] && sessions != []
    ensures ProgressOf(names, Resumptions(agent, sessions), input).stored
         == Resumed(names, agent, sessions, Record(1, Initial(names, input))).last
  {
    var init := sessions[..|sessions| - 1];
    assert Resumptions(agent, sessions)[..|sessions| - 1] == Resumptions(agent, init);
    if init == [] {
      assert ProgressOf(names, Resumptions(agent, init), input).stored == Record(1, Initial(names, input));
    } else {
      ProgressIsResumed(names, agent, init, input);
    }
  }
}
