/** An agent instance is one of its session's workers: each of its operations is a stretch of session events. */
module AgentRefinement {
  import opened Messages
  import opened Confirmation
  import opened ReAct
  import Session = AgentSession

  // ------------------------------------------------------------ abstraction

  function CallsOf(calls: seq<CallBlock>): (r: seq<Session.Call>)
    ensures |r| == |calls|
    ensures forall i | 0 <= i < |calls| :: r[i] == Session.Call(calls[i].id, calls[i].name, calls[i].input)
  {
    if calls == [] then []
    else
      var last := calls[|calls| - 1];
      CallsOf(calls[..|calls| - 1]) + [Session.Call(last.id, last.name, last.input)]
  }

  /** Which calls were approved; of several decisions for one call, the last counts. */
  function DecisionsOf(decisions: seq<ToolConfirmation>): (m: map<string, bool>)
    ensures m.Keys == Decided(decisions)
  {
    if decisions == [] then map[]
    else
      var last := decisions[|decisions| - 1];
      DecisionsOf(decisions[..|decisions| - 1])[last.callId := last.decision.Approve?]
  }

  lemma {:induction false} DecisionsAreRead(decisions: seq<ToolConfirmation>)
    requires OneEach(decisions)
    ensures forall i | 0 <= i < |decisions| ::
      decisions[i].callId in DecisionsOf(decisions)
      && DecisionsOf(decisions)[decisions[i].callId] == decisions[i].decision.Approve?
  {
    if decisions != [] { DecisionsAreRead(decisions[..|decisions| - 1]); }
  }

  function ExecutionPhase(e: PendingToolExecution): Session.Phase {
    Session.Executing(e.confirmation.replyId, CallsOf(e.confirmation.calls), e.executionId, DecisionsOf(e.decisions))
  }

  /** What a saved or current state waits for. */
  function PhaseOf(state: AgentState): Session.Phase {
    match state.execution
    case Some(e) => ExecutionPhase(e)
    case None =>
      match state.calls
      case Some(p) => Session.Confirming(p.replyId, CallsOf(p.calls))
      case None => Session.Free
  }

  function PauseOf(pending: Option<PendingToolCalls>): Option<(string, seq<Session.Call>)> {
    match pending case None => None case Some(p) => Some((p.replyId, CallsOf(p.calls)))
  }

  /** One decision for every call stays so. */
  lemma {:induction false} DecidesAbstractly(p: PendingToolCalls, decisions: seq<ToolConfirmation>)
    requires Decides(p, decisions)
    ensures Session.Decided(CallsOf(p.calls), DecisionsOf(decisions))
  {
    var m, calls := DecisionsOf(decisions), CallsOf(p.calls);
    forall i | 0 <= i < |calls| ensures calls[i].id in m {
      assert calls[i].id == p.calls[i].id && p.calls[i].id in Ids(p.calls);
    }
    forall id | id in m ensures exists i | 0 <= i < |calls| :: calls[i].id == id {
      CallWithId(p.calls, id);
    }
  }

  lemma {:induction false} CallWithId(calls: seq<CallBlock>, id: string)
    requires id in Ids(calls)
    ensures exists i | 0 <= i < |CallsOf(calls)| :: CallsOf(calls)[i].id == id
  {
    var i :| 0 <= i < |calls| && calls[i].id == id;
    assert CallsOf(calls)[i].id == id;
  }

  /** Some call is approved in the map when one is in the list. */
  lemma {:induction false} ApprovesAbstractly(decisions: seq<ToolConfirmation>)
    requires OneEach(decisions)
    ensures Approving(decisions) <==> AnyApproved(DecisionsOf(decisions))
  {
    DecisionsAreRead(decisions);
    var m := DecisionsOf(decisions);
    if Approving(decisions) {
      var i :| 0 <= i < |decisions| && decisions[i].decision.Approve?;
      assert m[decisions[i].callId];
    }
    if AnyApproved(m) {
      var id :| id in m && m[id];
      assert id in Decided(decisions);
      var i :| 0 <= i < |decisions| && decisions[i].callId == id;
    }
  }

  predicate AnyApproved(m: map<string, bool>) {
    exists id | id in m :: m[id]
  }

  // ---------------------------------------------------------- session stretches

  /** The session after `events` from any session. */
  function Steps(s: Session.Session, events: seq<Session.Event>): Session.Session {
    if events == [] then s else Session.Next(Steps(s, events[..|events| - 1]), events[|events| - 1])
  }

  lemma {:induction false} StepsOne(s: Session.Session, events: seq<Session.Event>, e: Session.Event)
    ensures Steps(s, events + [e]) == Session.Next(Steps(s, events), e)
  {
    assert (events + [e])[..|events|] == events;
  }

  lemma {:induction false} OneStep(s: Session.Session, a: Session.Event)
    ensures Steps(s, [a]) == Session.Next(s, a)
  {
    assert [a][..0] == [];
  }

  lemma {:induction false} TwoSteps(s: Session.Session, a: Session.Event, b: Session.Event)
    ensures Steps(s, [a, b]) == Session.Next(Session.Next(s, a), b)
  {
    OneStep(s, a);
    StepsOne(s, [a], b);
    assert [a] + [b] == [a, b];
  }

  lemma {:induction false} ThreeSteps(s: Session.Session, a: Session.Event, b: Session.Event, c: Session.Event)
    ensures Steps(s, [a, b, c]) == Session.Next(Session.Next(Session.Next(s, a), b), c)
  {
    TwoSteps(s, a, b);
    StepsOne(s, [a, b], c);
    assert [a, b] + [c] == [a, b, c];
  }

  /** A run of the session goes on as its state does. */
  lemma {:induction false} StepsAreRun(run: seq<Session.Event>, events: seq<Session.Event>)
    ensures Steps(Session.After(run), events) == Session.After(run + events)
  {
    if events == [] {
      assert run + events == run;
    } else {
      StepsAreRun(run, events[..|events| - 1]);
      AfterLast(run, events);
    }
  }

  lemma {:induction false} AfterLast(run: seq<Session.Event>, events: seq<Session.Event>)
    requires events != []
    ensures Session.After(run + events)
         == Session.Next(Session.After(run + events[..|events| - 1]), events[|events| - 1])
  {
    assert (run + events)[..|run + events| - 1] == run + events[..|events| - 1];
  }

  /** The batch that an operation let loose, if it did: of which execution, and whether by a retry. */
  datatype Loose = Loose(phase: Session.Phase, retry: bool)

  /** A batch whose claim is the commit of the execution it runs. */
  ghost predicate ClaimedAs(t: Session.Session, d: Session.Dispatch, l: Loose) {
    && l.phase.Executing? && d.reply == l.phase.reply && d.retry == l.retry
    && 0 < d.revision <= |t.commits| && t.commits[d.revision - 1] == l.phase
  }

  ghost predicate OneMoreBatch(s: Session.Session, t: Session.Session, l: Loose) {
    |t.batches| == |s.batches| + 1 && s.batches < t.batches && ClaimedAs(t, t.batches[|s.batches|], l)
  }

  /** The operation of `w` is over but for its last save, in `phase`, having let `loose` loose. */
  ghost predicate Ends(
    s: Session.Session, t: Session.Session, w: Session.Worker, phase: Session.Phase, loose: Option<Loose>)
  {
    && Session.Of(t, w).phase == phase && Session.Of(t, w).at.Finishing?
    && match loose
       case None => t.batches == s.batches
       case Some(l) => OneMoreBatch(s, t, l)
  }

  ghost predicate NewReply(s: Session.Session, pending: Option<PendingToolCalls>) {
    pending.Some? ==> pending.value.replyId !in s.replies
  }

  lemma {:induction false} FailStep(s: Session.Session, w: Session.Worker)
    requires Session.Of(s, w).at.Begun?
    ensures Ends(s, Session.Next(s, Session.Fail(w)), w, Session.Of(s, w).phase, None)
  {
  }

  lemma {:induction false} ContinueStep(s: Session.Session, w: Session.Worker, after: AgentState)
    requires Session.Of(s, w).at.Begun? && Session.Of(s, w).phase.Free?
    requires after.execution == None && NewReply(s, after.calls)
    ensures Ends(s, Session.Next(s, Session.Continue(w, PauseOf(after.calls))), w, PhaseOf(after), None)
  {
  }

  /** An authorization whose save is acknowledged lets the batch loose; one that is not stops short of it. */
  lemma {:induction false} AuthorizeStep(
    s: Session.Session, w: Session.Worker, p: PendingToolCalls, decisions: seq<ToolConfirmation>, execution: string,
    expected: Option<nat>, fault: Fault)
    requires Session.Of(s, w) == Session.Agent(Session.Confirming(p.replyId, CallsOf(p.calls)), Session.Begun(expected))
    requires Decides(p, decisions) && Approving(decisions) && execution !in s.authors && Session.Stored(s)
    requires fault.Acked? ==> Session.Commits(s, expected, Acked)
    ensures var t := Session.Next(s, Session.Authorize(w, DecisionsOf(decisions), execution, fault));
      var phase := Session.Executing(p.replyId, CallsOf(p.calls), execution, DecisionsOf(decisions));
      if fault.Acked? then Batched(s, t, w, phase, Loose(phase, false)) else Ends(s, t, w, phase, None)
  {
    DecidesAbstractly(p, decisions);
    ApprovesAbstractly(decisions);
    ClaimStep(s, w, p.replyId, CallsOf(p.calls), DecisionsOf(decisions), execution, expected, fault);
  }

  lemma {:induction false} ClaimStep(
    s: Session.Session, w: Session.Worker, reply: string, calls: seq<Session.Call>, m: map<string, bool>,
    execution: string, expected: Option<nat>, fault: Fault)
    requires Session.Of(s, w) == Session.Agent(Session.Confirming(reply, calls), Session.Begun(expected))
    requires Session.Decided(calls, m) && AnyApproved(m) && execution !in s.authors && Session.Stored(s)
    requires fault.Acked? ==> Session.Commits(s, expected, Acked)
    ensures var t := Session.Next(s, Session.Authorize(w, m, execution, fault));
      var phase := Session.Executing(reply, calls, execution, m);
      if fault.Acked? then Batched(s, t, w, phase, Loose(phase, false)) else Ends(s, t, w, phase, None)
  {
  }

  ghost predicate Batched(
    s: Session.Session, t: Session.Session, w: Session.Worker, phase: Session.Phase, l: Loose)
  {
    && Session.Of(t, w).phase == phase && Session.Of(t, w).at.Batch? && t.replies == s.replies
    && OneMoreBatch(s, t, l)
  }

  lemma {:induction false} RetryStep(
    s: Session.Session, w: Session.Worker, phase: Session.Phase, expected: Option<nat>, fault: Fault)
    requires Session.Of(s, w) == Session.Agent(phase, Session.Begun(expected)) && phase.Executing?
    requires Session.Stored(s)
    requires fault.Acked? ==> Session.Commits(s, expected, Acked)
    ensures var t := Session.Next(s, Session.Retry(w, fault));
      if fault.Acked? then Batched(s, t, w, phase, Loose(phase, true)) else Ends(s, t, w, phase, None)
  {
  }

  /** A batch that reports doubt, or whose settling is cut short, keeps its execution. */
  lemma {:induction false} DoubtStep(
    s: Session.Session, t: Session.Session, w: Session.Worker, phase: Session.Phase, l: Loose)
    requires Batched(s, t, w, phase, l)
    ensures Ends(s, Session.Next(t, Session.Settle(w, true)), w, phase, Some(l))
  {
  }

  /** A batch that settles goes on with its reply. */
  lemma {:induction false} SettleSteps(
    s: Session.Session, t: Session.Session, w: Session.Worker, phase: Session.Phase, l: Loose, after: AgentState)
    requires Batched(s, t, w, phase, l) && after.execution == None && NewReply(s, after.calls)
    ensures Ends(s, Session.Next(Session.Next(t, Session.Settle(w, false)), Session.Continue(w, PauseOf(after.calls))),
                 w, PhaseOf(after), Some(l))
  {
    ContinueStep(Session.Next(t, Session.Settle(w, false)), w, after);
  }

  lemma {:induction false} DenySteps(
    s: Session.Session, w: Session.Worker, p: PendingToolCalls, decisions: seq<ToolConfirmation>, after: AgentState)
    requires Session.Of(s, w).at.Begun? && Session.Of(s, w).phase == Session.Confirming(p.replyId, CallsOf(p.calls))
    requires Decides(p, decisions) && !Approving(decisions)
    requires after.execution == None && NewReply(s, after.calls)
    ensures var t := Session.Next(s, Session.DenyAll(w, DecisionsOf(decisions)));
      Ends(s, Session.Next(t, Session.Continue(w, PauseOf(after.calls))), w, PhaseOf(after), None)
  {
    DecidesAbstractly(p, decisions);
    ApprovesAbstractly(decisions);
    DenyStep(s, w, p.replyId, CallsOf(p.calls), DecisionsOf(decisions));
    ContinueStep(Session.Next(s, Session.DenyAll(w, DecisionsOf(decisions))), w, after);
  }

  lemma {:induction false} DenyStep(
    s: Session.Session, w: Session.Worker, reply: string, calls: seq<Session.Call>, m: map<string, bool>)
    requires Session.Of(s, w).at.Begun? && Session.Of(s, w).phase == Session.Confirming(reply, calls)
    requires Session.Decided(calls, m) && !AnyApproved(m)
    ensures var t := Session.Next(s, Session.DenyAll(w, m));
      && Session.Of(t, w).at.Begun? && Session.Of(t, w).phase.Free?
      && t.batches == s.batches && t.replies == s.replies
  {
  }

  lemma {:induction false} ResolveSteps(s: Session.Session, w: Session.Worker, after: AgentState)
    requires Session.Of(s, w).at.Begun? && Session.Of(s, w).phase.Executing?
    requires after.execution == None && NewReply(s, after.calls)
    ensures var t := Session.Next(s, Session.Resolve(w));
      Ends(s, Session.Next(t, Session.Continue(w, PauseOf(after.calls))), w, PhaseOf(after), None)
  {
    ContinueStep(Session.Next(s, Session.Resolve(w)), w, after);
  }

  // ------------------------------------------------------------- operations

  /** The events of a resume; `lost` is what became of a save that was not acknowledged. */
  function ResumeEvents(
    w: Session.Worker, before: AgentState, after: AgentState, decisions: seq<ToolConfirmation>, e: ResumeEnv,
    dispatched: bool, cleared: bool, lost: Fault): seq<Session.Event>
  {
    var m := DecisionsOf(decisions);
    if cleared && dispatched then
      [Session.Authorize(w, m, e.execution, Acked), Session.Settle(w, false), Session.Continue(w, PauseOf(after.calls))]
    else if cleared then [Session.DenyAll(w, m), Session.Continue(w, PauseOf(after.calls))]
    else if before.calls == after.calls && before.execution == after.execution then [Session.Fail(w)]
    else if dispatched then [Session.Authorize(w, m, e.execution, Acked), Session.Settle(w, true)]
    else [Session.Authorize(w, m, e.execution, lost)]
  }

  /** The batch of a resume, when it lets one loose. */
  function ResumeBatch(before: AgentState, decisions: seq<ToolConfirmation>, e: ResumeEnv, dispatched: bool)
    : Option<Loose>
    requires dispatched ==> before.calls.Some?
  {
    if dispatched
    then Some(Loose(ExecutionPhase(PendingToolExecution(e.execution, before.calls.value, decisions)), false)) else None
  }

  lemma {:induction false} ResumeIsSteps(
    s: Session.Session, w: Session.Worker, expected: Option<nat>, before: AgentState, after: AgentState,
    decisions: seq<ToolConfirmation>, e: ResumeEnv, dispatched: bool, cleared: bool, lost: Fault)
    requires Resumes(before, after, decisions, e, dispatched, cleared) && !lost.Acked? && Session.Stored(s)
    requires Session.Of(s, w) == Session.Agent(PhaseOf(before), Session.Begun(expected))
    requires e.execution !in s.authors && (e.persisted ==> Session.Commits(s, expected, Acked))
    requires cleared ==> NewReply(s, after.calls)
    ensures dispatched ==> before.calls.Some?
    ensures var t := Steps(s, ResumeEvents(w, before, after, decisions, e, dispatched, cleared, lost));
      Ends(s, t, w, PhaseOf(after), ResumeBatch(before, decisions, e, dispatched))
  {
    var m := DecisionsOf(decisions);
    if cleared && !dispatched {
      DenySteps(s, w, before.calls.value, decisions, after);
      TwoSteps(s, Session.DenyAll(w, m), Session.Continue(w, PauseOf(after.calls)));
    } else if !cleared && SamePending(before, after) {
      FailStep(s, w);
      OneStep(s, Session.Fail(w));
    } else {
      AuthorizedIsSteps(s, w, expected, before, after, decisions, e, dispatched, cleared, lost);
    }
  }

  lemma {:induction false} AuthorizedIsSteps(
    s: Session.Session, w: Session.Worker, expected: Option<nat>, before: AgentState, after: AgentState,
    decisions: seq<ToolConfirmation>, e: ResumeEnv, dispatched: bool, cleared: bool, lost: Fault)
    requires Resumes(before, after, decisions, e, dispatched, cleared) && !lost.Acked? && Session.Stored(s)
    requires Session.Of(s, w) == Session.Agent(PhaseOf(before), Session.Begun(expected))
    requires e.execution !in s.authors && (e.persisted ==> Session.Commits(s, expected, Acked))
    requires cleared ==> dispatched && NewReply(s, after.calls)
    requires !cleared ==> !SamePending(before, after)
    ensures before.calls.Some?
    ensures var t := Steps(s, ResumeEvents(w, before, after, decisions, e, dispatched, cleared, lost));
      Ends(s, t, w, PhaseOf(after), ResumeBatch(before, decisions, e, dispatched))
  {
    var p, m := before.calls.value, DecisionsOf(decisions);
    var fault := if dispatched then Acked else lost;
    var authorize := Session.Authorize(w, m, e.execution, fault);
    var t := Session.Next(s, authorize);
    var phase := ExecutionPhase(PendingToolExecution(e.execution, p, decisions));
    AuthorizeStep(s, w, p, decisions, e.execution, expected, fault);
    if cleared {
      SettleSteps(s, t, w, phase, Loose(phase, false), after);
      ThreeSteps(s, authorize, Session.Settle(w, false), Session.Continue(w, PauseOf(after.calls)));
    } else if dispatched {
      DoubtStep(s, t, w, phase, Loose(phase, false));
      TwoSteps(s, authorize, Session.Settle(w, true));
    } else {
      OneStep(s, authorize);
    }
  }

  function RetryEvents(
    w: Session.Worker, after: AgentState, attempted: bool, persisted: bool, cleared: bool, lost: Fault)
    : seq<Session.Event>
  {
    if !attempted then [Session.Fail(w)]
    else if !persisted then [Session.Retry(w, lost)]
    else if cleared then
      [Session.Retry(w, Acked), Session.Settle(w, false), Session.Continue(w, PauseOf(after.calls))]
    else [Session.Retry(w, Acked), Session.Settle(w, true)]
  }

  /** The batch of a retry, when its claim lets one loose. */
  function RetryBatch(before: AgentState, dispatched: bool): Option<Loose>
    requires dispatched ==> before.execution.Some?
  {
    if dispatched then Some(Loose(ExecutionPhase(before.execution.value), true)) else None
  }

  lemma {:induction false} RetryIsSteps(
    s: Session.Session, w: Session.Worker, expected: Option<nat>, before: AgentState, after: AgentState,
    attempted: bool, persisted: bool, cleared: bool, lost: Fault)
    requires Resolves(before, after, cleared) && (attempted ==> before.execution.Some?) && !lost.Acked?
    requires cleared ==> attempted && persisted && NewReply(s, after.calls)
    requires Session.Of(s, w) == Session.Agent(PhaseOf(before), Session.Begun(expected)) && Session.Stored(s)
    requires persisted ==> Session.Commits(s, expected, Acked)
    ensures var t := Steps(s, RetryEvents(w, after, attempted, persisted, cleared, lost));
      Ends(s, t, w, PhaseOf(after), RetryBatch(before, attempted && persisted))
  {
    if !attempted {
      FailStep(s, w);
      OneStep(s, Session.Fail(w));
    } else {
      var phase := PhaseOf(before);
      var retry := Session.Retry(w, if persisted then Acked else lost);
      var t := Session.Next(s, retry);
      RetryStep(s, w, phase, expected, retry.fault);
      if !persisted {
        OneStep(s, retry);
      } else if cleared {
        SettleSteps(s, t, w, phase, Loose(phase, true), after);
        ThreeSteps(s, retry, Session.Settle(w, false), Session.Continue(w, PauseOf(after.calls)));
      } else {
        DoubtStep(s, t, w, phase, Loose(phase, true));
        TwoSteps(s, retry, Session.Settle(w, true));
      }
    }
  }

  function ResolveEvents(w: Session.Worker, after: AgentState, cleared: bool): seq<Session.Event> {
    if cleared then [Session.Resolve(w), Session.Continue(w, PauseOf(after.calls))] else [Session.Fail(w)]
  }

  lemma {:induction false} ResolveIsSteps(
    s: Session.Session, w: Session.Worker, before: AgentState, after: AgentState, cleared: bool)
    requires Resolves(before, after, cleared) && (cleared ==> NewReply(s, after.calls))
    requires Session.Of(s, w).at.Begun? && Session.Of(s, w).phase == PhaseOf(before)
    ensures Ends(s, Steps(s, ResolveEvents(w, after, cleared)), w, PhaseOf(after), None)
  {
    if cleared {
      ResolveSteps(s, w, after);
      TwoSteps(s, Session.Resolve(w), Session.Continue(w, PauseOf(after.calls)));
    } else {
      FailStep(s, w);
      OneStep(s, Session.Fail(w));
    }
  }

  // ------------------------------------------------------ moves of instances

  /** A batch let loose by an instance, and whether by a retry. */
  datatype Loosed = Loosed(dispatch: Dispatch, retry: bool)

  /** One operation of one instance, or a part of it: its state before and after, its events and batches. */
  datatype Move = Move(
    w: Session.Worker, before: AgentState, after: AgentState, events: seq<Session.Event>, loosed: seq<Loosed>)

  ghost predicate AllOf(events: seq<Session.Event>, w: Session.Worker) {
    forall i | 0 <= i < |events| :: events[i].w == w
  }

  /** The batch runs exactly approved calls, under the committed claim of its own execution. */
  ghost predicate Claims(t: Session.Session, d: Session.Dispatch, x: Loosed) {
    RunsApproved(x.dispatch) && ClaimedAs(t, d, Loose(ExecutionPhase(x.dispatch.execution), x.retry))
  }

  /** After `run`, the events of `m` lead its instance from its state to its next, with its batches. */
  ghost predicate Moves(run: seq<Session.Event>, m: Move) {
    var s, t := Session.After(run), Session.After(run + m.events);
    && AllOf(m.events, m.w)
    && Session.Of(s, m.w).phase == PhaseOf(m.before) && Session.Of(t, m.w).phase == PhaseOf(m.after)
    && AddsBatches(s, t, m.loosed)
  }

  ghost predicate AddsBatches(s: Session.Session, t: Session.Session, loosed: seq<Loosed>) {
    && |t.batches| == |s.batches| + |loosed| && s.batches <= t.batches
    && forall i | 0 <= i < |loosed| :: Claims(t, t.batches[|s.batches| + i], loosed[i])
  }

  /** What an instance dispatched between two moments. */
  function LoosedBy(before: seq<Dispatch>, after: seq<Dispatch>, retry: bool): seq<Loosed> {
    if |after| > |before| then [Loosed(after[|before|], retry)] else []
  }

  ghost predicate BatchIs(loose: Option<Loose>, loosed: seq<Loosed>) {
    match loose
    case None => loosed == []
    case Some(l) =>
      && |loosed| == 1 && RunsApproved(loosed[0].dispatch)
      && l == Loose(ExecutionPhase(loosed[0].dispatch.execution), loosed[0].retry)
  }

  lemma {:induction false} EndsMove(run: seq<Session.Event>, m: Move, loose: Option<Loose>)
    requires AllOf(m.events, m.w) && Session.Of(Session.After(run), m.w).phase == PhaseOf(m.before)
    requires Ends(Session.After(run), Steps(Session.After(run), m.events), m.w, PhaseOf(m.after), loose)
    requires BatchIs(loose, m.loosed)
    ensures Moves(run, m) && Session.Of(Session.After(run + m.events), m.w).at.Finishing?
  {
    StepsAreRun(run, m.events);
    EndsWithBatch(Session.After(run), Session.After(run + m.events), m.w, PhaseOf(m.after), loose, m.loosed);
  }

  lemma {:induction false} EndsWithBatch(
    s: Session.Session, t: Session.Session, w: Session.Worker, phase: Session.Phase, loose: Option<Loose>,
    loosed: seq<Loosed>)
    requires Ends(s, t, w, phase, loose) && BatchIs(loose, loosed)
    ensures Session.Of(t, w).phase == phase && Session.Of(t, w).at.Finishing? && AddsBatches(s, t, loosed)
  {
    assert loose.Some? ==> OneMoreBatch(s, t, loose.value) && Claims(t, t.batches[|s.batches|], loosed[0]);
  }

  /** The responses of an operation are identified by names that the session has not seen. */
  ghost predicate Unseen(run: seq<Session.Event>, steps: Env) {
    forall id | Given(steps, id) :: id !in Session.After(run).replies
  }

  /** Worker `w` is this instance, at the start of an operation. */
  ghost predicate Plays(agent: ReActAgent, run: seq<Session.Event>, w: Session.Worker)
    reads agent
  {
    var s := Session.After(run);
    Session.Of(s, w).phase == PhaseOf(agent.Snapshot()) && Session.Of(s, w).at.Begun?
  }

  /** A save by the operation of `w` would commit and be acknowledged if it were made now. */
  ghost predicate MaySave(run: seq<Session.Event>, w: Session.Worker) {
    var at := Session.Of(Session.After(run), w).at;
    at.Begun? && Session.Commits(Session.After(run), at.expected, Acked)
  }

  /** The operation is over but for its last save. */
  ghost predicate Operated(run: seq<Session.Event>, m: Move) {
    Moves(run, m) && Session.Of(Session.After(run + m.events), m.w).at.Finishing?
  }

  lemma {:induction false} SettledPauseIsNew(
    agent: ReActAgent, run: seq<Session.Event>, before: seq<Msg>, p: PendingToolCalls, x: Settlement,
    settle: SettleEnv, steps: Env, r: Result<Msg, AgentError>)
    requires agent.SettledAs(before, p, x, settle, steps, r) && x.how.Cleared? && p.step < agent.config.maxSteps
    requires Unseen(run, steps)
    ensures NewReply(Session.After(run), agent.pendingCalls)
  {
    PauseIsGiven(agent.config, Settled(before, p, x.told, settle), p.step, steps);
  }

  /** Loading a valid record makes the instance what the session says its worker becomes. */
  method BeginInSession(
    agent: ReActAgent, stored: Option<AgentState>, ghost run: seq<Session.Event>, ghost w: Session.Worker)
    returns (ok: bool, ghost m: Move)
    requires agent.Valid()
    requires Session.Of(Session.After(run), w) == Session.Agent(PhaseOf(agent.Snapshot()), Session.Off)
    requires match stored
      case None => Session.After(run).store == None
      case Some(state) =>
        Session.After(run).store.Some? && Session.After(run).store.value.phase == PhaseOf(state)
    modifies agent
    ensures agent.Valid() && agent.dispatches == old(agent.dispatches)
    ensures ok <==> stored.None? || StateValid(agent.config.name, agent.config.maxSteps, stored.value)
    ensures m == Move(w, old(agent.Snapshot()), agent.Snapshot(), if ok then [Session.Begin(w)] else [], [])
    ensures Moves(run, m)
    ensures if ok then Plays(agent, run + m.events, w) else agent.Snapshot() == old(agent.Snapshot())
  {
    ghost var before := agent.Snapshot();
    ok := agent.BeginOperation(stored);
    m := Move(w, before, agent.Snapshot(), if ok then [Session.Begin(w)] else [], []);
    OneStep(Session.After(run), Session.Begin(w));
    StepsAreRun(run, m.events);
  }

  /** A reply is a stretch of session events without a batch. */
  method ReplyInSession(
    agent: ReActAgent, message: Msg, beforeReply: bool, stored: bool, steps: Env,
    ghost run: seq<Session.Event>, ghost w: Session.Worker)
    returns (r: Result<Msg, AgentError>, ghost m: Move)
    requires agent.Valid() && Plays(agent, run, w) && Unseen(run, steps)
    modifies agent
    ensures agent.Valid() && agent.dispatches == old(agent.dispatches)
    ensures m == Move(w, old(agent.Snapshot()), agent.Snapshot(), m.events, []) && Operated(run, m)
  {
    ghost var s, before, free := Session.After(run), agent.Snapshot(), agent.Pending().None?;
    ghost var memory := agent.memory;
    r := agent.Reply(message, beforeReply, stored, steps);
    m := Move(w, before, agent.Snapshot(), [Session.Fail(w)], []);
    if free && beforeReply && stored {
      PauseIsGiven(agent.config, memory + [message], 0, steps);
      ContinueStep(s, w, agent.Snapshot());
      m := m.(events := [Session.Continue(w, PauseOf(agent.pendingCalls))]);
    } else {
      FailStep(s, w);
    }
    OneStep(s, m.events[0]);
    EndsMove(run, m, None);
  }

  lemma {:induction false} ResumeMoves(
    run: seq<Session.Event>, w: Session.Worker, before: AgentState, after: AgentState,
    decisions: seq<ToolConfirmation>, e: ResumeEnv, cleared: bool, lost: Fault,
    dispatches: seq<Dispatch>, later: seq<Dispatch>)
    requires Session.Of(Session.After(run), w).at.Begun? && Session.Of(Session.After(run), w).phase == PhaseOf(before)
    requires e.execution !in Session.After(run).authors && !lost.Acked? && (e.persisted ==> MaySave(run, w))
    requires Resumes(before, after, decisions, e, |later| > |dispatches|, cleared)
    requires cleared ==> NewReply(Session.After(run), after.calls)
    requires before.calls.Some? ==>
      LetsLoose(dispatches, later, PendingToolExecution(e.execution, before.calls.value, decisions), e.persisted)
    ensures Operated(run, Move(w, before, after,
      ResumeEvents(w, before, after, decisions, e, |later| > |dispatches|, cleared, lost),
      LoosedBy(dispatches, later, false)))
  {
    var dispatched := |later| > |dispatches|;
    var events := ResumeEvents(w, before, after, decisions, e, dispatched, cleared, lost);
    Session.RunKeepsInv(run);
    ResumeIsSteps(Session.After(run), w, Session.Of(Session.After(run), w).at.expected, before, after, decisions, e,
      dispatched, cleared, lost);
    EndsMove(run, Move(w, before, after, events, LoosedBy(dispatches, later, false)),
      ResumeBatch(before, decisions, e, dispatched));
  }

  /** A resume is a stretch of session events, with a batch in it exactly when it let one loose. */
  method ResumeInSession(
    agent: ReActAgent, replyId: string, confirmations: seq<ToolConfirmation>, e: ResumeEnv,
    ghost run: seq<Session.Event>, ghost w: Session.Worker, ghost lost: Fault)
    returns (r: Result<Msg, AgentError>, ghost m: Move)
    requires agent.Valid() && Plays(agent, run, w) && Unseen(run, e.steps) && !lost.Acked?
    requires e.execution !in Session.After(run).authors && (e.persisted ==> MaySave(run, w))
    modifies agent
    ensures agent.Valid() && Operated(run, m)
    ensures m == Move(w, old(agent.Snapshot()), agent.Snapshot(), m.events,
                      LoosedBy(old(agent.dispatches), agent.dispatches, false))
  {
    ghost var before, dispatches := agent.Snapshot(), agent.dispatches;
    ghost var settling;
    r, settling := agent.Resume(replyId, confirmations, e);
    ghost var cleared := IsCleared(settling);
    if cleared {
      SettledPauseIsNew(agent, run, before.messages, before.calls.value, settling.value, e.settle, e.steps, r);
    }
    ResumeMoves(run, w, before, agent.Snapshot(), confirmations, e, cleared, lost, dispatches, agent.dispatches);
    m := Move(w, before, agent.Snapshot(),
      ResumeEvents(w, before, agent.Snapshot(), confirmations, e, |agent.dispatches| > |dispatches|, cleared, lost),
      LoosedBy(dispatches, agent.dispatches, false));
  }

  lemma {:induction false} RetryMoves(
    run: seq<Session.Event>, w: Session.Worker, before: AgentState, after: AgentState, attempted: bool,
    persisted: bool, cleared: bool, lost: Fault, dispatches: seq<Dispatch>, later: seq<Dispatch>)
    requires Session.Of(Session.After(run), w).at.Begun? && Session.Of(Session.After(run), w).phase == PhaseOf(before)
    requires !lost.Acked? && (persisted ==> MaySave(run, w))
    requires Resolves(before, after, cleared) && (attempted ==> before.execution.Some?)
    requires cleared ==> attempted && persisted && NewReply(Session.After(run), after.calls)
    requires |later| > |dispatches| <==> attempted && persisted
    requires before.execution.Some? ==> LetsLoose(dispatches, later, before.execution.value, persisted)
    ensures Operated(run, Move(w, before, after, RetryEvents(w, after, attempted, persisted, cleared, lost),
      LoosedBy(dispatches, later, true)))
  {
    Session.RunKeepsInv(run);
    RetryIsSteps(Session.After(run), w, Session.Of(Session.After(run), w).at.expected, before, after,
      attempted, persisted, cleared, lost);
    EndsMove(run, Move(w, before, after, RetryEvents(w, after, attempted, persisted, cleared, lost),
      LoosedBy(dispatches, later, true)), RetryBatch(before, attempted && persisted));
  }

  /** A retry is a stretch of session events, with a batch in it exactly when it let one loose. */
  method RetryInSession(
    agent: ReActAgent, replyId: string, e: ResumeEnv,
    ghost run: seq<Session.Event>, ghost w: Session.Worker, ghost lost: Fault)
    returns (r: Result<Msg, AgentError>, ghost m: Move)
    requires agent.Valid() && Plays(agent, run, w) && Unseen(run, e.steps) && !lost.Acked?
    requires e.persisted ==> MaySave(run, w)
    modifies agent
    ensures agent.Valid() && Operated(run, m)
    ensures m == Move(w, old(agent.Snapshot()), agent.Snapshot(), m.events,
                      LoosedBy(old(agent.dispatches), agent.dispatches, true))
  {
    ghost var before, dispatches := agent.Snapshot(), agent.dispatches;
    ghost var attempted := agent.Retries(replyId, e);
    ghost var settling;
    r, settling := agent.Retry(replyId, e);
    ghost var cleared := IsCleared(settling);
    if cleared {
      SettledPauseIsNew(
        agent, run, before.messages, before.execution.value.confirmation, settling.value, e.settle, e.steps, r);
    }
    RetryMoves(run, w, before, agent.Snapshot(), attempted, e.persisted, cleared, lost, dispatches, agent.dispatches);
    m := Move(w, before, agent.Snapshot(), RetryEvents(w, agent.Snapshot(), attempted, e.persisted, cleared, lost),
      LoosedBy(dispatches, agent.dispatches, true));
  }

  /** A resolution is a stretch of session events that lets nothing loose. */
  method ResolveInSession(
    agent: ReActAgent, replyId: string, supplied: seq<ResultBlock>, settle: SettleEnv, steps: Env,
    ghost run: seq<Session.Event>, ghost w: Session.Worker)
    returns (r: Result<Msg, AgentError>, ghost m: Move)
    requires agent.Valid() && Plays(agent, run, w) && Unseen(run, steps)
    modifies agent
    ensures agent.Valid() && agent.dispatches == old(agent.dispatches)
    ensures m == Move(w, old(agent.Snapshot()), agent.Snapshot(), m.events, []) && Operated(run, m)
  {
    ghost var before := agent.Snapshot();
    ghost var settling;
    r, settling := agent.Resolve(replyId, supplied, settle, steps);
    ghost var cleared := IsCleared(settling);
    if cleared {
      SettledPauseIsNew(
        agent, run, before.messages, before.execution.value.confirmation, settling.value, settle, steps, r);
    }
    m := Move(w, before, agent.Snapshot(), ResolveEvents(w, agent.Snapshot(), cleared), []);
    ResolveIsSteps(Session.After(run), w, before, agent.Snapshot(), cleared);
    EndsMove(run, m, None);
  }

  /**
   * An operation ends: its last save commits what the instance then waits for, if it commits at all; it
   * is dropped, which leaves its instance as it was; or the instance crashes, and a new one takes its place.
   */
  lemma {:induction false} EndMoves(
    run: seq<Session.Event>, w: Session.Worker, state: AgentState, newborn: AgentState, fault: Fault)
    requires Session.Of(Session.After(run), w).phase == PhaseOf(state) && PhaseOf(newborn).Free?
    ensures Moves(run, Move(w, state, state, [Session.Finish(w, fault)], []))
    ensures Moves(run, Move(w, state, state, [Session.Drop(w)], []))
    ensures Moves(run, Move(w, state, newborn, [Session.Crash(w)], []))
    ensures var s, t := Session.After(run), Session.After(run + [Session.Finish(w, fault)]);
      var at := Session.Of(s, w).at;
      t.commits
      == s.commits + (if at.Finishing? && Session.Commits(s, at.expected, fault) then [PhaseOf(state)] else [])
  {
    EndStep(run, Move(w, state, state, [Session.Finish(w, fault)], []), Session.Finish(w, fault));
    EndStep(run, Move(w, state, state, [Session.Drop(w)], []), Session.Drop(w));
    EndStep(run, Move(w, state, newborn, [Session.Crash(w)], []), Session.Crash(w));
  }

  lemma {:induction false} EndStep(run: seq<Session.Event>, m: Move, e: Session.Event)
    requires Session.Of(Session.After(run), m.w).phase == PhaseOf(m.before)
    requires m.events == [e] && m.loosed == [] && e.w == m.w && (e.Finish? || e.Drop? || e.Crash?)
    requires if e.Crash? then PhaseOf(m.after).Free? else m.after == m.before
    ensures Moves(run, m) && Session.After(run + [e]) == Session.Next(Session.After(run), e)
  {
    StepsAreRun(run, [e]);
    OneStep(Session.After(run), e);
  }

  // ---------------------------------------- all that any instances ever do

  function RunOf(life: seq<Move>): seq<Session.Event> {
    if life == [] then [] else RunOf(life[..|life| - 1]) + life[|life| - 1].events
  }

  /** Every batch that any instance let loose, in order. */
  function LogOf(life: seq<Move>): seq<Loosed> {
    if life == [] then [] else LogOf(life[..|life| - 1]) + life[|life| - 1].loosed
  }

  /** The state that the last move of `w` left it in. */
  function StateOf(life: seq<Move>, w: Session.Worker): Option<AgentState> {
    if life == [] then None
    else if life[|life| - 1].w == w then Some(life[|life| - 1].after)
    else StateOf(life[..|life| - 1], w)
  }

  /** Any instances moved in turn, each from the state it was left in. */
  ghost predicate Lived(life: seq<Move>) {
    life == [] || (
      var init, m := life[..|life| - 1], life[|life| - 1];
      && Lived(init) && Moves(RunOf(init), m)
      && (StateOf(init, m.w).Some? ==> m.before == StateOf(init, m.w).value))
  }

  lemma {:induction false} OthersStand(run: seq<Session.Event>, events: seq<Session.Event>, w: Session.Worker,
                                       other: Session.Worker)
    requires AllOf(events, w) && other != w
    ensures Session.Of(Session.After(run + events), other) == Session.Of(Session.After(run), other)
  {
    if events == [] {
      assert run + events == run;
    } else {
      var init, e := events[..|events| - 1], events[|events| - 1];
      OthersStand(run, init, w, other);
      AfterLast(run, events);
      OneStands(Session.After(run + init), e, other);
    }
  }

  lemma {:induction false} OneStands(s: Session.Session, e: Session.Event, other: Session.Worker)
    requires e.w != other
    ensures Session.Of(Session.Next(s, e), other) == Session.Of(s, other)
  {
  }

  /** However instances interleave, each stands in the session where its own state says. */
  lemma {:induction false} InstancesKeepTheirPhase(life: seq<Move>, w: Session.Worker)
    requires Lived(life)
    ensures Session.Of(Session.After(RunOf(life)), w).phase
         == if StateOf(life, w).Some? then PhaseOf(StateOf(life, w).value) else Session.Free
  {
    if life != [] {
      var init, m := life[..|life| - 1], life[|life| - 1];
      InstancesKeepTheirPhase(init, w);
      if m.w != w { OthersStand(RunOf(init), m.events, m.w, w); }
    }
  }

  lemma {:induction false} RunAppends(run: seq<Session.Event>, events: seq<Session.Event>)
    ensures Session.After(run).commits <= Session.After(run + events).commits
  {
    if events == [] {
      assert run + events == run;
    } else {
      var init := events[..|events| - 1];
      RunAppends(run, init);
      AfterLast(run, events);
      Session.NextAppends(Session.After(run + init), events[|events| - 1]);
    }
  }

  /** The batches of the session are those that instances let loose, each under its own claim. */
  ghost predicate Logged(s: Session.Session, log: seq<Loosed>) {
    |s.batches| == |log| && forall i | 0 <= i < |log| :: Claims(s, s.batches[i], log[i])
  }

  /** All that any instances ever do is a run of the session, and what they let loose are its batches. */
  lemma {:induction false} LivesAreRuns(life: seq<Move>)
    requires Lived(life)
    ensures Logged(Session.After(RunOf(life)), LogOf(life))
  {
    if life != [] {
      var init, m := life[..|life| - 1], life[|life| - 1];
      LivesAreRuns(init);
      MoveIsLogged(RunOf(init), m, LogOf(init));
    }
  }

  lemma {:induction false} MoveIsLogged(run: seq<Session.Event>, m: Move, log: seq<Loosed>)
    requires Moves(run, m) && Logged(Session.After(run), log)
    ensures Logged(Session.After(run + m.events), log + m.loosed)
  {
    RunAppends(run, m.events);
    LoggedMore(Session.After(run), Session.After(run + m.events), log, m.loosed);
  }

  lemma {:induction false} LoggedMore(s: Session.Session, t: Session.Session, log: seq<Loosed>, more: seq<Loosed>)
    requires Logged(s, log) && s.commits <= t.commits && AddsBatches(s, t, more)
    ensures Logged(t, log + more)
  {
    forall i | 0 <= i < |log + more| ensures Claims(t, t.batches[i], (log + more)[i]) {
      if i < |log| {
        assert Claims(s, s.batches[i], log[i]);
      } else {
        assert Claims(t, t.batches[|s.batches| + (i - |log|)], more[i - |log|]);
      }
    }
  }

  function ReplyOfBatch(x: Loosed): string { x.dispatch.execution.confirmation.replyId }

  /**
   * Whatever instances do, all batches let loose for one reply run the same execution, with the same
   * calls and decisions, and all but the first are explicit retries.
   */
  lemma {:induction false} AgentsRunOneExecution(life: seq<Move>, i: nat, j: nat)
    requires Lived(life) && i < j < |LogOf(life)|
    requires ReplyOfBatch(LogOf(life)[i]) == ReplyOfBatch(LogOf(life)[j])
    ensures ExecutionPhase(LogOf(life)[i].dispatch.execution) == ExecutionPhase(LogOf(life)[j].dispatch.execution)
    ensures LogOf(life)[j].retry
    ensures RunsApproved(LogOf(life)[i].dispatch) && RunsApproved(LogOf(life)[j].dispatch)
  {
    LivesAreRuns(life);
    LoggedRunsOneExecution(RunOf(life), LogOf(life), i, j);
  }

  lemma {:induction false} LoggedRunsOneExecution(run: seq<Session.Event>, log: seq<Loosed>, i: nat, j: nat)
    requires Logged(Session.After(run), log) && i < j < |log| && ReplyOfBatch(log[i]) == ReplyOfBatch(log[j])
    ensures ExecutionPhase(log[i].dispatch.execution) == ExecutionPhase(log[j].dispatch.execution)
    ensures log[j].retry && RunsApproved(log[i].dispatch) && RunsApproved(log[j].dispatch)
  {
    var s := Session.After(run);
    assert Claims(s, s.batches[i], log[i]);
    assert Claims(s, s.batches[j], log[j]);
    Session.OneExecutionPerReply(run, s.batches[i].revision - 1, s.batches[j].revision - 1);
    LaterIsRetry(run, i, j);
  }

  lemma {:induction false} LaterIsRetry(run: seq<Session.Event>, i: nat, j: nat)
    requires var b := Session.After(run).batches; i < j < |b| && b[i].reply == b[j].reply
    ensures Session.After(run).batches[j].retry
  {
    Session.RunKeepsInv(run);
  }

  function CountFor(log: seq<Loosed>, reply: string): nat {
    if log == [] then 0
    else CountFor(log[..|log| - 1], reply) + if ReplyOfBatch(log[|log| - 1]) == reply then 1 else 0
  }

  lemma {:induction false} CountsAgree(log: seq<Loosed>, batches: seq<Session.Dispatch>, reply: string)
    requires |log| == |batches| && forall i | 0 <= i < |log| :: batches[i].reply == ReplyOfBatch(log[i])
    ensures CountFor(log, reply) == Session.CountBatches(batches, reply)
  {
    if log != [] { CountsAgree(log[..|log| - 1], batches[..|log| - 1], reply); }
  }

  /** Instances let the tools of one reply loose at most once, plus once for each acknowledged claim of a retry. */
  lemma {:induction false} AgentBatchesAreBounded(life: seq<Move>, reply: string)
    requires Lived(life)
    ensures CountFor(LogOf(life), reply) <= 1 + Session.RetriesClaimed(RunOf(life), reply)
  {
    var run, log := RunOf(life), LogOf(life);
    var batches := Session.After(run).batches;
    LivesAreRuns(life);
    forall i | 0 <= i < |log| ensures batches[i].reply == ReplyOfBatch(log[i]) {
      assert Claims(Session.After(run), batches[i], log[i]);
    }
    CountsAgree(log, batches, reply);
    Session.BatchesAreBounded(run, reply);
  }
}
