/**
 * One agent instance: the model and tool loop of a reply, the pause for confirmation, and the
 * operations that resume, retry or resolve it. Models, tools, hooks and storage are the environment's.
 */
module ReAct {
  import opened Messages
  import opened Confirmation

  datatype AgentError =
    | Failed
    | StorageFailed
    | InvalidResponse
    | MaxStepsExceeded
    | ConfirmationRequired(checkpoint: PendingToolCalls)
    | ExecutionInDoubt(execution: PendingToolExecution)
    | InvalidRequest
    | NothingPending

  type Content = c: seq<Block> | WellFormed(c)

  /** How a model step goes: not even asked, asked in vain, answered unusably, or answered. */
  datatype Answer =
    | NotAsked
    | NoAnswer
    | Unusable
    | Response(id: string, content: Content, wantsTools: bool)

  type Outputs = nat -> (ToolOutput, ResultState)

  /** How a started batch of confirmed tools goes: it finishes, is interrupted, or reports doubt. */
  datatype Batch = Ran(outputs: Outputs) | Cut | Doubtful

  /**
   * The environment of one step; each flag says whether hooks, interrupts or storage let it pass. Its
   * unconfirmed tools report `outputs`, or are interrupted.
   */
  datatype StepEnv = StepEnv(
    answer: Answer, beforeTools: bool, stored: bool, outputs: Option<Outputs>, observation: string, recorded: bool,
    afterTools: bool)

  /** The environment of the steps of a reply, given the history that the model is shown. */
  type Env = (nat, seq<Msg>) -> StepEnv

  /** How settling a checkpoint went: memory not replaced, results not appended, a hook failed, or done. */
  datatype Settling = NotReplaced | NotRecorded | HookFailed | Cleared

  /** A settling, and what it told the model about each call of the checkpoint. */
  datatype Settlement = Settlement(how: Settling, told: seq<ResultBlock>)

  datatype SettleEnv = SettleEnv(replaced: bool, observation: string, recorded: bool, afterTools: bool)

  function SettlingOf(e: SettleEnv): Settling {
    if !e.replaced then NotReplaced else if !e.recorded then NotRecorded
    else if !e.afterTools then HookFailed else Cleared
  }

  /** Calls let loose at a step without asking. */
  datatype Unconfirmed = Unconfirmed(step: nat, calls: seq<CallBlock>)

  /** Confirmed calls let loose under a saved execution checkpoint. */
  datatype Dispatch = Dispatch(execution: PendingToolExecution, calls: seq<CallBlock>)

  predicate Approves(decisions: seq<ToolConfirmation>, id: string) {
    exists i | 0 <= i < |decisions| :: decisions[i].callId == id && decisions[i].decision.Approve?
  }

  /** The identifiers of the calls that a human approved. */
  function ApprovedIds(decisions: seq<ToolConfirmation>): set<string> {
    set i | 0 <= i < |decisions| && decisions[i].decision.Approve? :: decisions[i].callId
  }

  /** The calls with one of these identifiers, in order. */
  function Picked(calls: seq<CallBlock>, ids: set<string>): (kept: seq<CallBlock>)
    ensures forall c :: c in kept <==> c in calls && c.id in ids
  {
    if calls == [] then []
    else
      var last, rest := calls[|calls| - 1], Picked(calls[..|calls| - 1], ids);
      if last.id in ids then rest + [last] else rest
  }

  lemma {:induction false} PickedInOrder(calls: seq<CallBlock>, ids: set<string>) returns (at: seq<nat>)
    ensures Selects(calls, at, Picked(calls, ids))
    ensures forall i | 0 <= i < |calls| :: i in at <==> calls[i].id in ids
  {
    at := [];
    if calls != [] {
      var init, last := calls[..|calls| - 1], calls[|calls| - 1];
      var before := PickedInOrder(init, ids);
      SelectsOneMore(init, before, Picked(init, ids), last);
      assert init + [last] == calls;
      at := if last.id in ids then before + [|init|] else before;
      forall i | 0 <= i < |calls| ensures i in at <==> calls[i].id in ids {
        assert i < |init| ==> calls[i] == init[i] && (i in before <==> init[i].id in ids);
        assert i in at <==> i in before || (i == |init| && last.id in ids);
      }
    }
  }

  /** Exactly the calls that a human approved, in their order. */
  ghost predicate RunsApproved(d: Dispatch) {
    var calls := d.execution.confirmation.calls;
    exists at: seq<nat> :: Selects(calls, at, d.calls) && forall i | 0 <= i < |calls| ::
      i in at <==> Approves(d.execution.decisions, calls[i].id)
  }

  lemma {:induction false} PickedIsApproved(execution: PendingToolExecution, ids: set<string>)
    requires forall call | call in execution.confirmation.calls ::
      call.id in ids <==> Approves(execution.decisions, call.id)
    ensures RunsApproved(Dispatch(execution, Picked(execution.confirmation.calls, ids)))
  {
    var calls := execution.confirmation.calls;
    var at := PickedInOrder(calls, ids);
    assert forall i | 0 <= i < |calls| :: calls[i] in calls;
  }

  datatype ResumeEnv = ResumeEnv(
    beforeTools: bool, execution: string, persisted: bool, batch: Batch, settle: SettleEnv, steps: Env)

  // ------------------------------------------------------------ answered calls

  predicate HasResult(m: Msg, call: Block) {
    exists b | b in m.content :: b.ToolResult? && call.ToolCall? && b.id == call.id && b.name == call.name
  }

  ghost predicate AnsweredAt(messages: seq<Msg>, i: nat)
    requires i < |messages|
  {
    forall b | b in messages[i].content && b.ToolCall? :: exists j | i < j < |messages| :: HasResult(messages[j], b)
  }

  /** Every call in memory has a later result, except those that a checkpoint waits for. */
  ghost predicate AllAnswered(messages: seq<Msg>, pending: Option<PendingToolCalls>) {
    forall i | 0 <= i < |messages| ::
      AnsweredAt(messages, i) || (pending.Some? && i == FirstWith(messages, pending.value.replyId))
  }

  lemma {:induction false} NoCalls(content: seq<Block>)
    ensures CallsIn(content) == [] ==> forall b | b in content :: !b.ToolCall?
    ensures forall b | b in content && b.ToolCall? :: b in CallsIn(content)
  {
    if content != [] {
      var init := content[..|content| - 1];
      NoCalls(init);
      assert forall b | b in content :: b in init || b == content[|content| - 1];
    }
  }

  lemma {:induction false} StillAnswered(messages: seq<Msg>, more: seq<Msg>, i: nat)
    requires i < |messages| && AnsweredAt(messages, i)
    ensures AnsweredAt(messages + more, i)
  {
    var after := messages + more;
    forall b | b in after[i].content && b.ToolCall? ensures exists j | i < j < |after| :: HasResult(after[j], b) {
      assert b in messages[i].content;
      var j :| i < j < |messages| && HasResult(messages[j], b);
      assert after[j] == messages[j];
    }
  }

  lemma {:induction false} AppendQuiet(messages: seq<Msg>, m: Msg)
    requires AllAnswered(messages, None) && CallsIn(m.content) == []
    ensures AllAnswered(messages + [m], None)
  {
    NoCalls(m.content);
    forall i | 0 <= i < |messages + [m]| ensures AnsweredAt(messages + [m], i) {
      if i < |messages| { StillAnswered(messages, [m], i); }
    }
  }

  /** A call and its results together leave nothing unanswered. */
  lemma {:induction false} AppendExchange(messages: seq<Msg>, assistant: Msg, observation: Msg)
    requires AllAnswered(messages, None) && CallsIn(observation.content) == []
    requires forall b | b in CallsIn(assistant.content) :: HasResult(observation, b)
    ensures AllAnswered(messages + [assistant] + [observation], None)
  {
    NoCalls(assistant.content);
    NoCalls(observation.content);
    var after := messages + [assistant] + [observation];
    forall i | 0 <= i < |after| ensures AnsweredAt(after, i) {
      if i < |messages| {
        StillAnswered(messages, [assistant] + [observation], i);
        assert after == messages + ([assistant] + [observation]);
      } else if i == |messages| {
        forall b | b in after[i].content && b.ToolCall? ensures exists j | i < j < |after| :: HasResult(after[j], b) {
          assert HasResult(after[|messages| + 1], b);
        }
      }
    }
  }

  lemma {:induction false} AppendPaused(messages: seq<Msg>, reply: Msg, p: PendingToolCalls)
    requires AllAnswered(messages, None) && p.replyId == reply.id
    requires forall i | 0 <= i < |messages| :: messages[i].id != reply.id
    ensures AllAnswered(messages + [reply], Some(p))
  {
    FirstIsFirst(messages + [reply], reply.id, |messages|);
    forall i | 0 <= i < |messages| ensures AnsweredAt(messages + [reply], i) { StillAnswered(messages, [reply], i); }
  }

  /** One result per call, in order, under the call's own identity. */
  function ResultsOf(calls: seq<CallBlock>, outputs: Outputs): (results: seq<ResultBlock>)
    ensures |results| == |calls|
    ensures forall i | 0 <= i < |calls| ::
      results[i] == ToolResult(calls[i].id, calls[i].name, outputs(i).0, outputs(i).1)
  {
    if calls == [] then []
    else
      var last, call := |calls| - 1, calls[|calls| - 1];
      ResultsOf(calls[..last], outputs) + [ToolResult(call.id, call.name, outputs(last).0, outputs(last).1)]
  }

  method ResultsFor(calls: seq<CallBlock>, outputs: Outputs) returns (results: seq<ResultBlock>)
    ensures results == ResultsOf(calls, outputs)
  {
    results := [];
    for k := 0 to |calls|
      invariant |results| == k
      invariant forall i | 0 <= i < k :: results[i] == ResultsOf(calls, outputs)[i]
    {
      results := results + [ToolResult(calls[k].id, calls[k].name, outputs(k).0, outputs(k).1)];
    }
  }

  /** What the tools of a batch report; an interrupted batch reports so for every call. */
  function OutputsOf(outputs: Option<Outputs>): Outputs {
    match outputs case Some(o) => o case None => (i: nat) => (TextOutput([]), ResultState.Interrupted)
  }

  function Observation(id: string, results: seq<ResultBlock>): (m: Msg)
    ensures m.id == id && m.content == results
  {
    Msg(id, "tool", Assistant, results)
  }

  lemma {:induction false} ResultsHoldNoCalls(content: seq<Block>)
    requires forall b | b in content :: b.ToolResult?
    ensures CallsIn(content) == []
  {
    if content != [] {
      assert content[|content| - 1] in content;
      ResultsHoldNoCalls(content[..|content| - 1]);
    }
  }

  lemma {:induction false} ResultsAnswer(calls: seq<CallBlock>, results: seq<ResultBlock>, id: string)
    requires |results| == |calls|
    requires forall i | 0 <= i < |calls| :: results[i].id == calls[i].id && results[i].name == calls[i].name
    ensures CallsIn(Observation(id, results).content) == []
    ensures forall b | b in calls :: HasResult(Observation(id, results), b)
  {
    ResultsHoldNoCalls(results);
    forall b | b in calls ensures HasResult(Observation(id, results), b) {
      var i :| 0 <= i < |calls| && calls[i] == b;
      assert results[i] in Observation(id, results).content;
    }
  }

  /** Marking calls as finished changes neither their identity nor any other block. */
  lemma {:induction false} SetCallsMembers(content: seq<Block>, state: CallState)
    ensures forall b | b in SetCallStates(content, state) && b.ToolCall? ::
      exists c :: c in CallsIn(content) && c.ToolCall? && c.id == b.id && c.name == b.name
    ensures forall b | b in content && !b.ToolCall? :: b in SetCallStates(content, state)
  {
    if content != [] {
      var init, last := content[..|content| - 1], content[|content| - 1];
      SetCallsMembers(init, state);
      assert forall b | b in CallsIn(init) :: b in CallsIn(content);
      forall b | b in SetCallStates(content, state) && b.ToolCall?
        ensures exists c :: c in CallsIn(content) && c.ToolCall? && c.id == b.id && c.name == b.name
      {
        if b in SetCallStates(init, state) {
          var c :| c in CallsIn(init) && c.ToolCall? && c.id == b.id && c.name == b.name;
        } else {
          assert last in CallsIn(content);
        }
      }
      assert forall b | b in content :: b in init || b == last;
    }
  }

  lemma {:induction false} ResultSurvives(messages: seq<Msg>, p: PendingToolCalls, j: nat, call: Block)
    requires j < |messages| && HasResult(messages[j], call)
    ensures HasResult(WithCallsFinished(messages, p)[j], call)
  {
    var b :| b in messages[j].content && b.ToolResult? && call.ToolCall? && b.id == call.id && b.name == call.name;
    SetCallsMembers(messages[j].content, CallState.Finished);
    assert b in WithCallsFinished(messages, p)[j].content;
  }

  /** Results for all calls of a checkpoint leave nothing unanswered. */
  lemma {:induction false} AppendSettled(messages: seq<Msg>, p: PendingToolCalls, observation: Msg)
    requires AllAnswered(messages, Some(p)) && MessageMatches(messages, p) && CallsIn(observation.content) == []
    requires forall b | b in p.calls :: HasResult(observation, b)
    ensures AllAnswered(WithCallsFinished(messages, p) + [observation], None)
  {
    var k := FirstWith(messages, p.replyId);
    var after := WithCallsFinished(messages, p) + [observation];
    NoCalls(observation.content);
    forall i | 0 <= i < |after| ensures AnsweredAt(after, i) {
      forall b | b in after[i].content && b.ToolCall? ensures exists j | i < j < |after| :: HasResult(after[j], b) {
        if i == k {
          SetCallsMembers(messages[k].content, CallState.Finished);
          var c :| c in CallsIn(messages[k].content) && c.ToolCall? && c.id == b.id && c.name == b.name;
          assert HasResult(after[|messages|], c);
          assert HasResult(after[|messages|], b);
        } else if i < |messages| {
          assert AnsweredAt(messages, i) && b in messages[i].content;
          var j :| i < j < |messages| && HasResult(messages[j], b);
          ResultSurvives(messages, p, j, b);
          assert HasResult(after[j], b);
        }
      }
    }
  }

  /** Response identifiers are not blank and new to the history they answer. */
  ghost predicate FreshIds(env: Env) {
    forall step: nat, history: seq<Msg> :: NewTo(env(step, history).answer, history)
  }

  ghost predicate NewTo(answer: Answer, history: seq<Msg>) {
    answer.Response? ==> !IsBlank(answer.id) && forall i | 0 <= i < |history| :: history[i].id != answer.id
  }

  /** Marks every call as asking, and collects the calls so marked. */
  method AskAll(content: seq<Block>) returns (edited: seq<Block>, calls: seq<CallBlock>)
    requires WellFormed(content)
    ensures edited == SetCallStates(content, Asking) && calls == CallsIn(edited)
    ensures |calls| == |CallsIn(content)| && forall i | 0 <= i < |calls| :: calls[i].callState == Asking
  {
    edited, calls := [], [];
    for i := 0 to |content|
      invariant edited == SetCallStates(content[..i], Asking) && calls == CallsIn(edited)
    {
      assert content[..i + 1][..i] == content[..i];
      var block := if content[i].ToolCall? then content[i].(callState := Asking) else content[i];
      CallsInAppend(edited, block);
      edited := edited + [block];
      if block.ToolCall? { calls := calls + [block]; }
    }
    assert content[..|content|] == content;
    CallsAreSet(content, Asking);
  }

  lemma {:induction false} CallsInAppend(content: seq<Block>, b: Block)
    ensures CallsIn(content + [b]) == if b.ToolCall? then CallsIn(content) + [b] else CallsIn(content)
  {
    assert (content + [b])[..|content|] == content;
  }

  lemma {:induction false} AskedCalls(content: seq<Block>)
    requires WellFormed(content)
    ensures |CallsIn(SetCallStates(content, Asking))| == |CallsIn(content)|
    ensures forall b | b in CallsIn(SetCallStates(content, Asking)) :: IsCall(b)
  {
    CallsAreCalls(content);
    CallsAreSet(content, Asking);
  }

  datatype Config = Config(name: string, maxSteps: nat, confirmationTools: set<string>)

  predicate RequiresConfirmation(c: Config, calls: seq<CallBlock>) {
    exists i | 0 <= i < |calls| :: calls[i].name in c.confirmationTools
  }

  /** What one answer does: the memory it leaves, the checkpoint, and how the reply ends if it does. */
  datatype StepEnd = StepEnd(
    memory: seq<Msg>, pending: Option<PendingToolCalls>, ended: Option<Result<Msg, AgentError>>)

  function ReplyOf(c: Config, answer: Answer): Msg
    requires answer.Response?
  {
    Msg(answer.id, c.name, Assistant, answer.content)
  }

  /** An answer without tools is the reply. */
  function Concluded(c: Config, before: seq<Msg>, e: StepEnv): StepEnd
    requires e.answer.Response?
  {
    if e.answer.wantsTools then StepEnd(before, None, Some(Err(InvalidResponse)))
    else if !e.beforeTools then StepEnd(before, None, Some(Err(Failed)))
    else if !e.stored then StepEnd(before, None, Some(Err(StorageFailed)))
    else
      var reply := ReplyOf(c, e.answer);
      StepEnd(before + [reply], None, Some(if e.afterTools then Ok(reply) else Err(Failed)))
  }

  /** At the last step, the tools asked for are not run. */
  function GivenUp(c: Config, before: seq<Msg>, e: StepEnv): StepEnd
    requires e.answer.Response?
  {
    if e.stored then StepEnd(before + [ReplyOf(c, e.answer)], None, Some(Err(MaxStepsExceeded)))
    else StepEnd(before, None, Some(Err(StorageFailed)))
  }

  function AskingReply(reply: Msg): Msg {
    reply.(content := SetCallStates(reply.content, CallState.Asking))
  }

  function CheckpointOf(reply: Msg, step: nat): PendingToolCalls
    requires WellFormed(reply.content)
  {
    AskedCalls(reply.content);
    PendingToolCalls(reply.id, step, CallsIn(AskingReply(reply).content))
  }

  function Paused(c: Config, before: seq<Msg>, step: nat, e: StepEnv): StepEnd
    requires e.answer.Response?
  {
    var reply := ReplyOf(c, e.answer);
    if e.stored then
      var p := CheckpointOf(reply, step);
      StepEnd(before + [AskingReply(reply)], Some(p), Some(Err(ConfirmationRequired(p))))
    else StepEnd(before, None, Some(Err(StorageFailed)))
  }

  /** Memory once a batch of unconfirmed tools has run. */
  function WithResults(c: Config, before: seq<Msg>, calls: seq<CallBlock>, e: StepEnv): seq<Msg>
    requires e.answer.Response?
  {
    before + [ReplyOf(c, e.answer)] + [Observation(e.observation, ResultsOf(calls, OutputsOf(e.outputs)))]
  }

  function ToolsRun(c: Config, before: seq<Msg>, calls: seq<CallBlock>, e: StepEnv): StepEnd
    requires e.answer.Response?
  {
    if !e.beforeTools then StepEnd(before, None, Some(Err(Failed)))
    else if !e.stored then StepEnd(before, None, Some(Err(StorageFailed)))
    else if !e.recorded then StepEnd(before + [ReplyOf(c, e.answer)], None, Some(Err(StorageFailed)))
    else
      StepEnd(WithResults(c, before, calls, e), None,
              if e.afterTools && e.outputs.Some? then None else Some(Err(Failed)))
  }

  /** What an agent does with one answer. */
  function StepOf(c: Config, before: seq<Msg>, step: nat, e: StepEnv): StepEnd
    requires e.answer.Response?
  {
    CallsAreCalls(e.answer.content);
    var calls: seq<CallBlock> := CallsIn(e.answer.content);
    if calls == [] then Concluded(c, before, e)
    else if step + 1 == c.maxSteps then GivenUp(c, before, e)
    else if RequiresConfirmation(c, calls) then Paused(c, before, step + 1, e)
    else ToolsRun(c, before, calls, e)
  }

  /** The whole loop: every step sees the memory that the step before it left. */
  function ReplyFrom(c: Config, before: seq<Msg>, step: nat, env: Env): (end: StepEnd)
    requires step < c.maxSteps
    ensures end.ended.Some?
    decreases c.maxSteps - step
  {
    var e := env(step, before);
    if !e.answer.Response? then StepEnd(before, None, Some(Err(Failed)))
    else
      var end := StepOf(c, before, step, e);
      if end.ended.Some? then end
      else GoesOnInside(c, before, step, e); ReplyFrom(c, end.memory, step + 1, env)
  }

  /** The message that an answer becomes in memory, with its calls in `state`. */
  ghost predicate IsReply(c: Config, answer: Answer, state: Option<CallState>, m: Msg)
    requires answer.Response?
  {
    && m.id == answer.id && m.name == c.name && m.role == Assistant && |m.content| == |answer.content|
    && forall i | 0 <= i < |answer.content| ::
         m.content[i] == if state.Some? && answer.content[i].ToolCall? then answer.content[i].(callState := state.value)
                         else answer.content[i]
  }

  /** Whether an answer asks for a tool, and for one that needs confirmation. */
  ghost predicate Asks(answer: Answer) requires answer.Response? { exists b | b in answer.content :: b.ToolCall? }

  ghost predicate AsksToConfirm(c: Config, answer: Answer) requires answer.Response? {
    exists b | b in answer.content :: b.ToolCall? && b.name in c.confirmationTools
  }

  lemma {:induction false} AskedFor(c: Config, e: StepEnv)
    requires e.answer.Response?
    ensures CallsIn(e.answer.content) != [] <==> Asks(e.answer)
    ensures (forall b | b in CallsIn(e.answer.content) :: IsCall(b)) &&
      (RequiresConfirmation(c, CallsIn(e.answer.content)) <==> AsksToConfirm(c, e.answer))
  {
    var content, calls := e.answer.content, CallsIn(e.answer.content);
    CallsAreCalls(content);
    var at := CallsAreIn(content);
    if calls != [] { assert content[at[0]] in content; }
    if b :| b in content && b.ToolCall? && b.name in c.confirmationTools {
      var i :| 0 <= i < |content| && content[i] == b;
      var k :| 0 <= k < |at| && at[k] == i;
      assert calls[k] == b;
    }
    if b :| b in content && b.ToolCall? {
      var i :| 0 <= i < |content| && content[i] == b;
      assert i in at;
    }
    if RequiresConfirmation(c, calls) {
      var k :| 0 <= k < |calls| && calls[k].name in c.confirmationTools;
      assert content[at[k]] in content;
    }
  }

  /**
   * An answer pauses, before the last step, exactly when any of its calls is of a tool that needs
   * confirmation. The pause keeps the reply with its calls asking, and waits for exactly them.
   */
  lemma {:induction false} PausesIff(c: Config, before: seq<Msg>, step: nat, e: StepEnv)
    requires e.answer.Response? && e.stored && step + 1 < c.maxSteps
    ensures var end := StepOf(c, before, step, e);
      && (end.pending.Some? <==>
            exists b | b in e.answer.content :: b.ToolCall? && b.name in c.confirmationTools)
      && (end.pending.Some? ==>
            && |end.memory| == |before| + 1 && before < end.memory
            && IsReply(c, e.answer, Some(CallState.Asking), end.memory[|before|])
            && end.pending == Some(PendingToolCalls(e.answer.id, step + 1, CallsIn(end.memory[|before|].content)))
            && end.ended == Some(Err(ConfirmationRequired(end.pending.value))))
  {
    AskedFor(c, e);
    OnlyStatesAreSet(e.answer.content, CallState.Asking);
  }

  /** An answer that asks for nothing ends the reply: refused, stopped or unsaved, or as the last message. */
  lemma {:induction false} ConcludesIff(c: Config, before: seq<Msg>, step: nat, e: StepEnv)
    requires e.answer.Response? && forall b | b in e.answer.content :: !b.ToolCall?
    ensures var end := StepOf(c, before, step, e);
      && end.pending == None && end.ended.Some?
      && (e.answer.wantsTools ==> end == StepEnd(before, None, Some(Err(InvalidResponse))))
      && (!e.answer.wantsTools && !e.beforeTools ==> end == StepEnd(before, None, Some(Err(Failed))))
      && (!e.answer.wantsTools && e.beforeTools && !e.stored ==>
            end == StepEnd(before, None, Some(Err(StorageFailed))))
      && (!e.answer.wantsTools && e.beforeTools && e.stored ==>
            && |end.memory| == |before| + 1 && before < end.memory && IsReply(c, e.answer, None, end.memory[|before|])
            && end.ended.value == if e.afterTools then Ok(end.memory[|before|]) else Err(Failed))
  {
    AskedFor(c, e);
  }

  /** At the last step the answer is kept, and nothing that it asks for is run. */
  lemma {:induction false} LastStepGivesUp(c: Config, before: seq<Msg>, step: nat, e: StepEnv)
    requires e.answer.Response? && step + 1 == c.maxSteps && Asks(e.answer)
    ensures var end := StepOf(c, before, step, e);
      && end.pending == None
      && (!e.stored ==> end == StepEnd(before, None, Some(Err(StorageFailed))))
      && (e.stored ==>
            && |end.memory| == |before| + 1 && before < end.memory && IsReply(c, e.answer, None, end.memory[|before|])
            && end.ended == Some(Err(MaxStepsExceeded)))
  {
    AskedFor(c, e);
  }

  /** The results of a batch, for the call blocks at positions `at`: what each tool reported, or its interruption. */
  ghost predicate IsObservation(content: seq<Block>, at: seq<nat>, e: StepEnv, m: Msg) {
    && m.id == e.observation && m.name == "tool" && m.role == Assistant && |m.content| == |at|
    && forall k | 0 <= k < |at| && at[k] < |content| && content[at[k]].ToolCall? ::
         && m.content[k].ToolResult?
         && m.content[k].id == content[at[k]].id && m.content[k].name == content[at[k]].name
         && (match e.outputs
             case Some(outputs) => m.content[k].output == outputs(k).0 && m.content[k].state == outputs(k).1
             case None => m.content[k].state == ResultState.Interrupted)
  }

  /**
   * Calls of which none needs confirmation are run before the last step, once hooks and storage let
   * them: memory gains the reply, and in one message a result for each call, in order. Only a batch
   * that was recorded, not interrupted and let pass goes on.
   */
  lemma {:induction false} RunsUnasked(c: Config, before: seq<Msg>, step: nat, e: StepEnv) returns (at: seq<nat>)
    requires e.answer.Response? && step + 1 < c.maxSteps && Asks(e.answer) && !AsksToConfirm(c, e.answer)
    ensures Selects(e.answer.content, at, CallsIn(e.answer.content))
    ensures forall i | 0 <= i < |e.answer.content| :: i in at <==> e.answer.content[i].ToolCall?
    ensures var end := StepOf(c, before, step, e);
      && end.pending == None
      && (!e.beforeTools ==> end == StepEnd(before, None, Some(Err(Failed))))
      && (e.beforeTools && !e.stored ==> end == StepEnd(before, None, Some(Err(StorageFailed))))
      && (e.beforeTools && e.stored ==>
            && |end.memory| == |before| + (if e.recorded then 2 else 1) && before < end.memory
            && IsReply(c, e.answer, None, end.memory[|before|])
            && (e.recorded ==> IsObservation(e.answer.content, at, e, end.memory[|before| + 1]))
            && end.ended == if !e.recorded then Some(Err(StorageFailed))
                            else if !e.afterTools || e.outputs.None? then Some(Err(Failed)) else None)
  {
    AskedFor(c, e);
    at := CallsAreIn(e.answer.content);
  }

  /** Only running tools goes on, and never at the last step. */
  lemma {:induction false} GoesOnInside(c: Config, before: seq<Msg>, step: nat, e: StepEnv)
    requires e.answer.Response? && step < c.maxSteps && StepOf(c, before, step, e).ended.None?
    ensures step + 1 < c.maxSteps
  {
  }

  /** Every call is answered or pending, unless the steps ran out or storage failed. */
  ghost predicate Complete(r: Result<Msg, AgentError>, memory: seq<Msg>, pending: Option<PendingToolCalls>) {
    r == Err(MaxStepsExceeded) || r == Err(StorageFailed) || AllAnswered(memory, pending)
  }

  ghost predicate LoadableIff(c: Config, memory: seq<Msg>, pending: Option<PendingToolCalls>) {
    StateValid(c.name, c.maxSteps, AgentState(c.name, memory, pending, None))
    <==> (pending.Some? ==> Distinct(pending.value.calls))
  }

  /** A pause is reported with its checkpoint, which leaves a step to resume with. */
  ghost predicate PauseReported(c: Config, end: StepEnd, step: nat) {
    match end.pending
    case None => end.ended.Some? && end.ended.value.Err? ==> !end.ended.value.error.ConfirmationRequired?
    case Some(p) => step < p.step < c.maxSteps && end.ended == Some(Err(ConfirmationRequired(p)))
  }

  /** What any part of the loop that ends keeps of a history with nothing unanswered. */
  ghost predicate EndsWell(c: Config, before: seq<Msg>, step: nat, end: StepEnd) {
    && before <= end.memory && PauseReported(c, end, step) && LoadableIff(c, end.memory, end.pending)
    && (AllAnswered(before, None) ==>
          if end.ended.Some? then Complete(end.ended.value, end.memory, end.pending)
          else AllAnswered(end.memory, end.pending))
  }

  lemma {:induction false} ConcludesWell(c: Config, before: seq<Msg>, step: nat, e: StepEnv)
    requires e.answer.Response? && CallsIn(e.answer.content) == []
    ensures EndsWell(c, before, step, Concluded(c, before, e))
  {
    if AllAnswered(before, None) { AppendQuiet(before, ReplyOf(c, e.answer)); }
  }

  lemma {:induction false} PausesWell(c: Config, before: seq<Msg>, step: nat, e: StepEnv)
    requires e.answer.Response? && CallsIn(e.answer.content) != [] && NewTo(e.answer, before)
    requires 0 < step < c.maxSteps
    ensures EndsWell(c, before, step - 1, Paused(c, before, step, e))
  {
    var reply := ReplyOf(c, e.answer);
    CallsAreSet(reply.content, CallState.Asking);
    PausedStateIsValidIff(c.name, c.maxSteps, before, AskingReply(reply), CheckpointOf(reply, step));
    if AllAnswered(before, None) { AppendPaused(before, AskingReply(reply), CheckpointOf(reply, step)); }
  }

  lemma {:induction false} ToolsRunWell(c: Config, before: seq<Msg>, calls: seq<CallBlock>, step: nat, e: StepEnv)
    requires e.answer.Response? && calls == CallsIn(e.answer.content)
    ensures EndsWell(c, before, step, ToolsRun(c, before, calls, e))
  {
    var results := ResultsOf(calls, OutputsOf(e.outputs));
    ResultsAnswer(calls, results, e.observation);
    if AllAnswered(before, None) { AppendExchange(before, ReplyOf(c, e.answer), Observation(e.observation, results)); }
  }

  lemma {:induction false} StepEndsWell(c: Config, before: seq<Msg>, step: nat, e: StepEnv)
    requires e.answer.Response? && NewTo(e.answer, before) && step < c.maxSteps
    ensures EndsWell(c, before, step, StepOf(c, before, step, e))
  {
    CallsAreCalls(e.answer.content);
    var calls: seq<CallBlock> := CallsIn(e.answer.content);
    if calls == [] {
      ConcludesWell(c, before, step, e);
    } else if step + 1 == c.maxSteps {
    } else if RequiresConfirmation(c, calls) {
      PausesWell(c, before, step + 1, e);
    } else {
      ToolsRunWell(c, before, calls, step, e);
    }
  }

  /**
   * However the loop ends, it only appends to memory, leaves no call unanswered that is not pending
   * unless the steps ran out or storage failed, and leaves a state that the agent would load
   * exactly if a pause has distinct identifiers.
   */
  lemma {:induction false} ReplyEndsWell(c: Config, before: seq<Msg>, step: nat, env: Env)
    requires FreshIds(env) && step < c.maxSteps
    ensures EndsWell(c, before, step, ReplyFrom(c, before, step, env))
    decreases c.maxSteps - step
  {
    var e := env(step, before);
    assert NewTo(e.answer, before);
    if e.answer.Response? {
      StepEndsWell(c, before, step, e);
      var end := StepOf(c, before, step, e);
      if end.ended.None? {
        GoesOnInside(c, before, step, e);
        ReplyEndsWell(c, end.memory, step + 1, env);
        EndsWellLater(c, before, step, end, ReplyFrom(c, end.memory, step + 1, env));
      }
    }
  }

  lemma {:induction false} EndsWellLater(c: Config, before: seq<Msg>, step: nat, middle: StepEnd, end: StepEnd)
    requires EndsWell(c, before, step, middle) && middle.ended.None? && end.ended.Some?
    requires EndsWell(c, middle.memory, step + 1, end)
    ensures EndsWell(c, before, step, end)
  {
  }

  /** The identifier is one that the model's side gave some response. */
  ghost predicate Given(env: Env, id: string) {
    exists step: nat, history: seq<Msg> :: env(step, history).answer.Response? && env(step, history).answer.id == id
  }

  /** A pause is identified by the response that asked for it. */
  lemma {:induction false} PauseIsGiven(c: Config, before: seq<Msg>, step: nat, env: Env)
    requires step < c.maxSteps
    ensures var end := ReplyFrom(c, before, step, env);
      end.pending.Some? ==> Given(env, end.pending.value.replyId)
    decreases c.maxSteps - step
  {
    var e := env(step, before);
    if e.answer.Response? && StepOf(c, before, step, e).ended.None? {
      GoesOnInside(c, before, step, e);
      PauseIsGiven(c, StepOf(c, before, step, e).memory, step + 1, env);
    }
  }

  /** A step that leads from one memory to the next. */
  ghost predicate GoesOn(c: Config, before: seq<Msg>, step: nat, env: Env, after: seq<Msg>) {
    var e := env(step, before);
    e.answer.Response? && StepOf(c, before, step, e) == StepEnd(after, None, None)
  }

  /**
   * A reply as the memories its model was shown: each was left by the step before it, which went on,
   * and the last is where something ended it.
   */
  ghost predicate IsChain(
    c: Config, before: seq<Msg>, step: nat, env: Env, shown: seq<seq<Msg>>, end: StepEnd)
  {
    && shown != [] && shown[0] == before && step + |shown| <= c.maxSteps
    && (forall i | 0 <= i < |shown| - 1 :: GoesOn(c, shown[i], step + i, env, shown[i + 1]))
    && var k := |shown| - 1;
       var last := env(step + k, shown[k]);
       if last.answer.Response? then StepOf(c, shown[k], step + k, last) == end && end.ended.Some?
       else end == StepEnd(shown[k], None, Some(Err(Failed)))
  }

  lemma {:induction false} GoesOnUnpaused(c: Config, before: seq<Msg>, step: nat, e: StepEnv)
    requires e.answer.Response? && StepOf(c, before, step, e).ended.None?
    ensures StepOf(c, before, step, e).pending.None?
  {
  }

  /** Every reply is such a chain: one model call for each step, shown what the steps before it left. */
  lemma {:induction false} ReplyIsChain(c: Config, before: seq<Msg>, step: nat, env: Env) returns (shown: seq<seq<Msg>>)
    requires step < c.maxSteps
    ensures IsChain(c, before, step, env, shown, ReplyFrom(c, before, step, env))
    decreases c.maxSteps - step
  {
    var e := env(step, before);
    shown := [before];
    if e.answer.Response? && StepOf(c, before, step, e).ended.None? {
      GoesOnInside(c, before, step, e);
      GoesOnUnpaused(c, before, step, e);
      var rest := ReplyIsChain(c, StepOf(c, before, step, e).memory, step + 1, env);
      LongerChain(c, before, step, env, rest, ReplyFrom(c, before, step, env));
      shown := [before] + rest;
    }
  }

  lemma {:induction false} LongerChain(
    c: Config, before: seq<Msg>, step: nat, env: Env, rest: seq<seq<Msg>>, end: StepEnd)
    requires rest != [] && IsChain(c, rest[0], step + 1, env, rest, end)
    requires GoesOn(c, before, step, env, rest[0])
    ensures IsChain(c, before, step, env, [before] + rest, end)
  {
    var shown := [before] + rest;
    forall i | 0 <= i < |shown| - 1 ensures GoesOn(c, shown[i], step + i, env, shown[i + 1]) {
      if i > 0 {
        assert GoesOn(c, rest[i - 1], step + 1 + (i - 1), env, rest[i - 1 + 1]);
        assert shown[i] == rest[i - 1] && shown[i + 1] == rest[i] && step + i == step + 1 + (i - 1);
      }
    }
    assert step + (|shown| - 1) == step + 1 + (|rest| - 1) && shown[|shown| - 1] == rest[|rest| - 1];
  }

  /** A successful reply is the last message of memory, and asks for no tools. */
  ghost predicate SaysLast(end: StepEnd) {
    end.ended.Some? && end.ended.value.Ok? ==>
      && end.memory != [] && end.memory[|end.memory| - 1] == end.ended.value.value
      && CallsIn(end.ended.value.value.content) == []
  }

  lemma {:induction false} StepSaysLast(c: Config, before: seq<Msg>, step: nat, e: StepEnv)
    requires e.answer.Response?
    ensures SaysLast(StepOf(c, before, step, e))
  {
  }

  lemma {:induction false} ReplyIsLast(c: Config, before: seq<Msg>, step: nat, env: Env)
    requires step < c.maxSteps
    ensures SaysLast(ReplyFrom(c, before, step, env))
    decreases c.maxSteps - step
  {
    var e := env(step, before);
    if e.answer.Response? {
      StepSaysLast(c, before, step, e);
      if StepOf(c, before, step, e).ended.None? {
        GoesOnInside(c, before, step, e);
        ReplyIsLast(c, StepOf(c, before, step, e).memory, step + 1, env);
      }
    }
  }

  /** Memory once a checkpoint is settled: its calls finished, their results appended. */
  function Settled(before: seq<Msg>, p: PendingToolCalls, results: seq<ResultBlock>, e: SettleEnv): seq<Msg> {
    WithCallsFinished(before, p) + [Observation(e.observation, results)]
  }

  /** What each way of settling leaves of a loadable state, and of one with nothing unanswered. */
  lemma {:induction false} SettledStates(
    c: Config, state: AgentState, p: PendingToolCalls, results: seq<ResultBlock>, e: SettleEnv)
    requires PendingOf(state) == Some(p) && MessageMatches(state.messages, p)
    requires |results| == |p.calls| && forall i | 0 <= i < |p.calls| :: Answers(results[i], p.calls[i])
    ensures StateValid(c.name, c.maxSteps, state) ==>
      && !StateValid(c.name, c.maxSteps, state.(messages := WithCallsFinished(state.messages, p)))
      && !StateValid(c.name, c.maxSteps, state.(messages := Settled(state.messages, p, results, e)))
      && StateValid(c.name, c.maxSteps, AgentState(c.name, Settled(state.messages, p, results, e), None, None))
    ensures AllAnswered(state.messages, Some(p)) ==> AllAnswered(Settled(state.messages, p, results, e), None)
  {
    var observation := Observation(e.observation, results);
    ResultsAnswer(p.calls, results, e.observation);
    if AllAnswered(state.messages, Some(p)) { AppendSettled(state.messages, p, observation); }
    if StateValid(c.name, c.maxSteps, state) {
      var history := WithCallsFinished(state.messages, p);
      assert history + [] == history;
      SettledStateIsValidIffCleared(c.name, c.maxSteps, state, [], false);
      SettledStateIsValidIffCleared(c.name, c.maxSteps, state, [observation], false);
      SettledStateIsValidIffCleared(c.name, c.maxSteps, state, [observation], true);
    }
  }

  class ReActAgent {
    const config: Config
    var memory: seq<Msg>
    var pendingCalls: Option<PendingToolCalls>
    var pendingExecution: Option<PendingToolExecution>
    /** Model calls made for the current logical reply, over all its pauses. */
    ghost var modelCalls: nat
    /** The batches of unconfirmed tools that were let loose, over the agent's life. */
    ghost var batches: seq<Unconfirmed>
    /** The batches of confirmed tools that were let loose, over the agent's life. */
    ghost var dispatches: seq<Dispatch>

    constructor (config: Config)
      requires config.maxSteps > 0
      ensures Valid() && Loadable() && this.config == config
      ensures memory == [] && pendingCalls == None && pendingExecution == None
    {
      this.config := config;
      memory, pendingCalls, pendingExecution := [], None, None;
      modelCalls, batches, dispatches := 0, [], [];
    }

    function Snapshot(): AgentState
      reads this
    {
      AgentState(config.name, memory, pendingCalls, pendingExecution)
    }

    /** Whether the agent would accept its own state if it loaded it back. */
    ghost predicate Loadable()
      reads this
    {
      StateValid(config.name, config.maxSteps, Snapshot())
    }

    ghost predicate Pausable(p: PendingToolCalls)
      reads this
    {
      0 < p.step < config.maxSteps && modelCalls == p.step
    }

    /**
     * A pending step counts the model calls spent so far, and leaves one to resume with; tools run
     * unconfirmed only before the last step, and only if none of them needs confirmation.
     */
    ghost predicate Valid()
      reads this
    {
      && config.maxSteps > 0 && modelCalls <= config.maxSteps
      && !(pendingCalls.Some? && pendingExecution.Some?)
      && (pendingCalls.Some? ==> Pausable(pendingCalls.value))
      && (pendingExecution.Some? ==> Pausable(pendingExecution.value.confirmation))
      && (forall i | 0 <= i < |batches| ::
            batches[i].step < config.maxSteps
            && forall call | call in batches[i].calls :: call.name !in config.confirmationTools)
    }

    function Pending(): Option<PendingToolCalls>
      reads this
    {
      PendingOf(Snapshot())
    }

    /** Appends the reply with its calls asking, and records the checkpoint. */
    method PauseForConfirmation(step: nat, assistant: Msg, stored: bool)
      returns (r: Result<PendingToolCalls, AgentError>)
      requires WellFormed(assistant.content)
      modifies this`memory, this`pendingCalls
      ensures if stored then
          && r == Ok(CheckpointOf(assistant, step)) && pendingCalls == Some(CheckpointOf(assistant, step))
          && memory == old(memory) + [AskingReply(assistant)]
        else r == Err(StorageFailed) && memory == old(memory) && pendingCalls == old(pendingCalls)
    {
      var edited, calls := AskAll(assistant.content);
      if !stored { return Err(StorageFailed); }
      var checkpoint := PendingToolCalls(assistant.id, step, calls);
      memory := memory + [assistant.(content := edited)];
      pendingCalls := Some(checkpoint);
      return Ok(checkpoint);
    }

    /**
     * The model and tool loop from `start`. It never runs past its last step: either something
     * ends it, or the last allowed step does.
     */
    method ContinueReply(loaded: seq<Msg>, start: nat, env: Env) returns (r: Result<Msg, AgentError>)
      requires Valid() && start < config.maxSteps && modelCalls == start
      requires loaded == memory && pendingCalls == None && pendingExecution == None
      modifies this`memory, this`pendingCalls, this`modelCalls, this`batches
      ensures Valid() && old(batches) <= batches
      ensures ReplyFrom(config, old(memory), start, env) == StepEnd(memory, pendingCalls, Some(r))
    {
      var history := loaded;
      for step := start to config.maxSteps
        invariant start <= step < config.maxSteps && modelCalls == step
        invariant Valid() && pendingCalls == None && pendingExecution == None
        invariant history == memory && old(batches) <= batches
        invariant ReplyFrom(config, old(memory), start, env) == ReplyFrom(config, memory, step, env)
      {
        var ended := TakeStep(step, history, env);
        if ended.Some? { return ended.value; }
        history := memory;
      }
      assert false;
    }

    /** One step: the model is asked once, and its answer acted upon. */
    method TakeStep(step: nat, history: seq<Msg>, env: Env) returns (ended: Option<Result<Msg, AgentError>>)
      requires Valid() && step < config.maxSteps && modelCalls == step
      requires history == memory && pendingCalls == None && pendingExecution == None
      modifies this`memory, this`pendingCalls, this`modelCalls, this`batches
      ensures Valid() && old(batches) <= batches
      ensures ended.None? ==>
        && pendingCalls == None && step + 1 < config.maxSteps && modelCalls == step + 1
        && ReplyFrom(config, old(memory), step, env) == ReplyFrom(config, memory, step + 1, env)
      ensures ended.Some? ==> ReplyFrom(config, old(memory), step, env) == StepEnd(memory, pendingCalls, ended)
    {
      var e := env(step, history);
      if e.answer.NotAsked? { return Some(Err(Failed)); }
      modelCalls := modelCalls + 1;
      if e.answer.NoAnswer? || e.answer.Unusable? { return Some(Err(Failed)); }
      ended := Respond(step, e);
      if ended.None? { GoesOnInside(config, history, step, e); }
    }

    /** Continues from memory; with fresh identifiers, the loop ends well. */
    method Continue(start: nat, env: Env) returns (r: Result<Msg, AgentError>)
      requires Valid() && start < config.maxSteps && modelCalls == start
      requires pendingCalls == None && pendingExecution == None
      modifies this`memory, this`pendingCalls, this`modelCalls, this`batches
      ensures Valid() && old(batches) <= batches
      ensures ReplyFrom(config, old(memory), start, env) == StepEnd(memory, pendingCalls, Some(r))
      ensures FreshIds(env) ==> EndsWell(config, old(memory), start, StepEnd(memory, pendingCalls, Some(r)))
    {
      if FreshIds(env) { ReplyEndsWell(config, memory, start, env); }
      r := ContinueReply(memory, start, env);
    }

    /** What an agent does with one answer; None when it goes on to the next step. */
    method Respond(step: nat, e: StepEnv) returns (ended: Option<Result<Msg, AgentError>>)
      requires Valid() && step < config.maxSteps && modelCalls == step + 1 && e.answer.Response?
      requires pendingCalls == None && pendingExecution == None
      modifies this`memory, this`pendingCalls, this`batches
      ensures Valid() && old(batches) <= batches
      ensures StepOf(config, old(memory), step, e) == StepEnd(memory, pendingCalls, ended)
      ensures ended.None? ==> pendingCalls == None
    {
      CallsAreCalls(e.answer.content);
      var calls: seq<CallBlock> := CallsIn(e.answer.content);
      var assistant := ReplyOf(config, e.answer);
      if calls == [] {
        var r := Conclude(assistant, e);
        return Some(r);
      }
      if step + 1 == config.maxSteps {
        if !e.stored { return Some(Err(StorageFailed)); }
        memory := memory + [assistant];
        return Some(Err(MaxStepsExceeded));
      }
      if RequiresConfirmation(config, calls) {
        var paused := PauseForConfirmation(step + 1, assistant, e.stored);
        return Some(Err(if paused.Ok? then ConfirmationRequired(paused.value) else paused.error));
      }
      if !e.beforeTools { return Some(Err(Failed)); }
      if !e.stored { return Some(Err(StorageFailed)); }
      var failure := RunTools(step + 1, assistant, calls, e);
      return if failure.Some? then Some(Err(failure.value)) else None;
    }

    /** Ends a reply with an answer that asks for no tools. */
    method Conclude(assistant: Msg, e: StepEnv) returns (r: Result<Msg, AgentError>)
      requires e.answer.Response? && assistant == ReplyOf(config, e.answer)
      modifies this`memory
      ensures StepEnd(memory, None, Some(r)) == Concluded(config, old(memory), e)
    {
      if e.answer.wantsTools { return Err(InvalidResponse); }
      if !e.beforeTools { return Err(Failed); }
      if !e.stored { return Err(StorageFailed); }
      memory := memory + [assistant];
      if !e.afterTools { return Err(Failed); }
      return Ok(assistant);
    }

    /** Runs a batch of unconfirmed tools, and records the reply and its results. */
    method RunTools(step: nat, assistant: Msg, calls: seq<CallBlock>, e: StepEnv) returns (failure: Option<AgentError>)
      requires e.answer.Response? && assistant == ReplyOf(config, e.answer)
      modifies this`memory, this`batches
      ensures batches == old(batches) + [Unconfirmed(step, calls)]
      ensures memory == if e.recorded then WithResults(config, old(memory), calls, e) else old(memory) + [assistant]
      ensures failure == if !e.recorded then Some(StorageFailed)
        else if e.afterTools && e.outputs.Some? then None else Some(Failed)
    {
      memory := memory + [assistant];
      batches := batches + [Unconfirmed(step, calls)];
      var results := ResultsFor(calls, OutputsOf(e.outputs));
      if !e.recorded { return Some(StorageFailed); }
      memory := memory + [Observation(e.observation, results)];
      return if e.afterTools && e.outputs.Some? then None else Some(Failed);
    }

    /** What an accepted set of results does to memory and to the checkpoint, in the order it does it. */
    method Settle(p: PendingToolCalls, results: seq<ResultBlock>, e: SettleEnv) returns (r: Settling)
      requires Pending() == Some(p) && Valid() && MessageMatches(memory, p)
      requires |results| == |p.calls| && forall i | 0 <= i < |p.calls| :: Answers(results[i], p.calls[i])
      modifies this`memory, this`pendingCalls, this`pendingExecution
      ensures Valid()
      ensures if r.Cleared? then pendingCalls == None && pendingExecution == None
        else pendingCalls == old(pendingCalls) && pendingExecution == old(pendingExecution)
      ensures r == SettlingOf(e)
      ensures r.NotReplaced? <==> !e.replaced
      ensures r.NotRecorded? <==> e.replaced && !e.recorded
      ensures r.Cleared? <==> e.replaced && e.recorded && e.afterTools
      ensures !r.NotReplaced? ==> FinishedIn(old(memory), memory, p.replyId)
      ensures e.replaced && e.recorded ==>
        |memory| == |old(memory)| + 1 && memory[|old(memory)|] == Msg(e.observation, "tool", Assistant, results)
      ensures memory == (if r.NotReplaced? then old(memory)
                         else if r.NotRecorded? then WithCallsFinished(old(memory), p)
                         else Settled(old(memory), p, results, e))
      ensures old(Loadable()) ==> (Loadable() <==> r.NotReplaced? || r.Cleared?)
      ensures AllAnswered(old(memory), Some(p)) ==> r.NotReplaced? || r.NotRecorded? || AllAnswered(memory, None)
    {
      SettledStates(config, Snapshot(), p, results, e);
      var history := FinishCheckpointCalls(memory, p);
      if !e.replaced { return NotReplaced; }
      memory := history;
      if !e.recorded { return NotRecorded; }
      memory := memory + [Observation(e.observation, results)];
      if !e.afterTools { return HookFailed; }
      pendingCalls, pendingExecution := None, None;
      return Cleared;
    }

    /** Settling went as the environment let it; once cleared, the reply went on from the settled memory. */
    ghost predicate SettledAs(
      before: seq<Msg>, p: PendingToolCalls, s: Settlement, settle: SettleEnv, steps: Env, r: Result<Msg, AgentError>)
      reads this
    {
      && s.how == SettlingOf(settle)
      && (!s.how.Cleared? ==> r == Err(if s.how.HookFailed? then Failed else StorageFailed))
      && (s.how.Cleared? && p.step < config.maxSteps ==>
            ReplyFrom(config, Settled(before, p, s.told, settle), p.step, steps)
            == StepEnd(memory, pendingCalls, Some(r)))
    }

    /** Settles a checkpoint, and goes on with the reply where it paused. */
    method SettleAndContinue(p: PendingToolCalls, results: seq<ResultBlock>, settle: SettleEnv, steps: Env)
      returns (r: Result<Msg, AgentError>, ghost how: Settling)
      requires Pending() == Some(p) && Valid() && MessageMatches(memory, p)
      requires |results| == |p.calls| && forall i | 0 <= i < |p.calls| :: Answers(results[i], p.calls[i])
      modifies this`memory, this`pendingCalls, this`pendingExecution, this`modelCalls, this`batches
      ensures Valid() && old(batches) <= batches
      ensures SettledAs(old(memory), p, Settlement(how, results), settle, steps, r)
      ensures how.Cleared? ==>
        pendingExecution == None && (FreshIds(steps) && pendingCalls.Some? ==> p.step < pendingCalls.value.step)
      ensures !how.Cleared? ==>
        r.Err? && pendingCalls == old(pendingCalls) && pendingExecution == old(pendingExecution)
      ensures old(Loadable()) && FreshIds(steps) ==>
        (Loadable() <==> Sound(Some(Settlement(how, results)), pendingCalls))
      ensures old(AllAnswered(memory, Some(p))) && FreshIds(steps) ==> Complete(r, memory, Pending())
    {
      var settled := Settle(p, results, settle);
      how := settled;
      if !settled.Cleared? { return Err(if settled.HookFailed? then Failed else StorageFailed), settled; }
      r := Continue(p.step, steps);
    }

    /** Begins an operation: a stored state that is valid replaces the one in memory. */
    method BeginOperation(stored: Option<AgentState>) returns (ok: bool)
      requires Valid()
      modifies this`memory, this`pendingCalls, this`pendingExecution, this`modelCalls
      ensures Valid()
      ensures ok <==> stored.None? || StateValid(config.name, config.maxSteps, stored.value)
      ensures Snapshot() == if ok && stored.Some? then stored.value else old(Snapshot())
    {
      if stored.None? { return true; }
      ok := ValidateState(config.name, config.maxSteps, stored.value);
      if !ok { return; }
      memory, pendingCalls, pendingExecution := stored.value.messages, stored.value.calls, stored.value.execution;
      modelCalls := match PendingOf(stored.value) case Some(p) => p.step case None => 0;
    }

    /** Settles a checkpoint with results that fit its approved calls; refused, it changes nothing. */
    method SettleResults(
      p: PendingToolCalls, decisions: map<string, Decision>, confirmations: seq<ToolConfirmation>,
      supplied: seq<ResultBlock>, settle: SettleEnv, steps: Env)
      returns (r: Result<Msg, AgentError>, ghost settling: Option<Settlement>)
      requires Pending() == Some(p) && Valid()
      requires decisions.Keys == Ids(p.calls) == Decided(confirmations) && Reads(decisions, confirmations)
      modifies this`memory, this`pendingCalls, this`pendingExecution, this`modelCalls, this`batches
      ensures Valid() && old(batches) <= batches
      ensures settling.Some? <==> Settles(p.calls, decisions, supplied) && MessageMatches(old(memory), p)
      ensures settling.None? ==> r == Err(InvalidRequest) && Snapshot() == old(Snapshot())
      ensures settling.Some? ==>
        && SettledAs(old(memory), p, settling.value, settle, steps, r)
        && AllTold(confirmations, supplied, p.calls, settling.value.told)
        && (settling.value.how.Cleared? ==> pendingExecution == None)
        && (!settling.value.how.Cleared? ==>
              r.Err? && pendingCalls == old(pendingCalls) && pendingExecution == old(pendingExecution))
      ensures old(Loadable()) && FreshIds(steps) ==> (Loadable() <==> Sound(settling, pendingCalls))
      ensures old(AllAnswered(memory, Some(p))) && FreshIds(steps) ==> Complete(r, memory, Pending())
    {
      var reconciled := ReconciledResults(p.calls, decisions, supplied);
      if reconciled.Err? || !MessageMatches(memory, p) { return Err(InvalidRequest), None; }
      ReportedIsTold(p.calls, decisions, confirmations, supplied, reconciled.value);
      ghost var how;
      r, how := SettleAndContinue(p, reconciled.value, settle, steps);
      settling := Some(Settlement(how, reconciled.value));
    }

    /** Starts a reply to a new message, unless a checkpoint is pending. */
    method Reply(message: Msg, beforeReply: bool, stored: bool, steps: Env) returns (r: Result<Msg, AgentError>)
      requires Valid()
      modifies this`memory, this`pendingCalls, this`modelCalls, this`batches
      ensures Valid() && old(batches) <= batches && pendingExecution == old(pendingExecution)
      ensures old(Pending()).Some? || !beforeReply || !stored ==> r.Err? && Snapshot() == old(Snapshot())
      ensures old(Pending()).None? && beforeReply && stored ==>
        ReplyFrom(config, old(memory) + [message], 0, steps) == StepEnd(memory, pendingCalls, Some(r))
      ensures old(Loadable()) && FreshIds(steps) ==> (Loadable() <==> Sound(None, pendingCalls))
      ensures AllAnswered(old(memory), old(Pending())) && CallsIn(message.content) == [] && FreshIds(steps) ==>
        Complete(r, memory, Pending())
    {
      if pendingExecution.Some? { return Err(ExecutionInDoubt(pendingExecution.value)); }
      if pendingCalls.Some? { return Err(ConfirmationRequired(pendingCalls.value)); }
      if !beforeReply { return Err(Failed); }
      if !stored { return Err(StorageFailed); }
      if CallsIn(message.content) == [] && AllAnswered(memory, None) { AppendQuiet(memory, message); }
      memory := memory + [message];
      modelCalls := 0;
      r := Continue(0, steps);
    }

    /** Whether a resume is one of the pending reply, with a decision for each of its calls, and is let through. */
    ghost predicate Resumable(replyId: string, confirmations: seq<ToolConfirmation>, e: ResumeEnv)
      reads this
    {
      && pendingExecution.None? && pendingCalls.Some? && pendingCalls.value.replyId == replyId
      && Decides(pendingCalls.value, confirmations) && MessageMatches(memory, pendingCalls.value) && e.beforeTools
    }

    /**
     * Resumes a paused reply. Approved tools are let loose only once the execution checkpoint, with
     * exactly one decision for every call, is saved; denied calls are never among them.
     */
    method Resume(replyId: string, confirmations: seq<ToolConfirmation>, e: ResumeEnv)
      returns (r: Result<Msg, AgentError>, ghost settling: Option<Settlement>)
      requires Valid()
      modifies this
      ensures Valid() && old(batches) <= batches
      ensures Resumes(old(Snapshot()), Snapshot(), confirmations, e,
                      |dispatches| > |old(dispatches)|, IsCleared(settling))
      ensures old(pendingCalls).Some? ==>
        && LetsLoose(old(dispatches), dispatches,
             PendingToolExecution(e.execution, old(pendingCalls).value, confirmations), e.persisted)
        && (dispatches != old(dispatches) ==> Decides(old(pendingCalls).value, confirmations))
      ensures old(pendingExecution).Some? || old(pendingCalls).None? || old(pendingCalls).value.replyId != replyId ==>
        r.Err? && Snapshot() == old(Snapshot()) && dispatches == old(dispatches)
      ensures settling.Some? ==>
        && old(pendingCalls).Some?
        && SettledAs(old(memory), old(pendingCalls).value, settling.value, e.settle, e.steps, r)
        && AllTold(confirmations, Supplied(old(dispatches), dispatches, e),
                   old(pendingCalls).value.calls, settling.value.told)
      ensures |dispatches| > |old(dispatches)| <==>
        old(Resumable(replyId, confirmations, e)) && Approving(confirmations) && e.persisted
      ensures settling.Some? <==>
        && old(Resumable(replyId, confirmations, e)) && (Approving(confirmations) ==> e.persisted && e.batch.Ran?)
        && Settles(old(pendingCalls).value.calls, MapOf(confirmations), Supplied(old(dispatches), dispatches, e))
      ensures settling.None? ==> r == Err(
        if old(pendingExecution).Some? then ExecutionInDoubt(old(pendingExecution).value)
        else if old(pendingCalls).None? then NothingPending
        else if !old(Resumable(replyId, confirmations, e.(beforeTools := true))) then InvalidRequest
        else if !e.beforeTools then Failed
        else if Approving(confirmations) && !e.persisted then StorageFailed
        else if Approving(confirmations) && !e.batch.Ran? then
          ExecutionInDoubt(PendingToolExecution(e.execution, old(pendingCalls).value, confirmations))
        else InvalidRequest)
      ensures old(Loadable()) && !IsBlank(e.execution) && FreshIds(e.steps) ==>
        (Loadable() <==> Sound(settling, pendingCalls))
      ensures old(AllAnswered(memory, Pending())) && FreshIds(e.steps) ==> Complete(r, memory, Pending())
    {
      settling := None;
      if pendingExecution.Some? { return Err(ExecutionInDoubt(pendingExecution.value)), None; }
      if pendingCalls.None? { return Err(NothingPending), None; }
      var p := pendingCalls.value;
      if p.replyId != replyId { return Err(InvalidRequest), None; }
      var decided := ConfirmationMap(p, confirmations);
      if decided.Err? || !MessageMatches(memory, p) { return Err(InvalidRequest), None; }
      if !e.beforeTools { return Err(Failed), None; }
      MapIsRead(confirmations, decided.value);
      r, settling := ResumeDecided(p, decided.value, confirmations, e);
    }

    /** Resumes a checkpoint that is decided: runs what was approved, and settles with the results. */
    method ResumeDecided(
      p: PendingToolCalls, decisions: map<string, Decision>, confirmations: seq<ToolConfirmation>, e: ResumeEnv)
      returns (r: Result<Msg, AgentError>, ghost settling: Option<Settlement>)
      requires Valid() && pendingCalls == Some(p) && pendingExecution == None
      requires Decides(p, confirmations) && decisions.Keys == Ids(p.calls) && Reads(decisions, confirmations)
      modifies this
      ensures Valid() && old(batches) <= batches
      ensures Resumes(old(Snapshot()), Snapshot(), confirmations, e,
                      |dispatches| > |old(dispatches)|, IsCleared(settling))
      ensures LetsLoose(old(dispatches), dispatches, PendingToolExecution(e.execution, p, confirmations), e.persisted)
      ensures settling.Some? ==>
        && SettledAs(old(memory), p, settling.value, e.settle, e.steps, r)
        && AllTold(confirmations, Supplied(old(dispatches), dispatches, e), p.calls, settling.value.told)
      ensures |dispatches| > |old(dispatches)| <==> Approving(confirmations) && e.persisted
      ensures settling.Some? <==>
        && (Approving(confirmations) ==> e.persisted && e.batch.Ran?)
        && Settles(p.calls, decisions, Supplied(old(dispatches), dispatches, e)) && MessageMatches(old(memory), p)
      ensures settling.None? ==> r == Err(
        if Approving(confirmations) && !e.persisted then StorageFailed
        else if Approving(confirmations) && !e.batch.Ran? then
          ExecutionInDoubt(PendingToolExecution(e.execution, p, confirmations))
        else InvalidRequest)
      ensures old(Loadable()) && !IsBlank(e.execution) && FreshIds(e.steps) ==>
        (Loadable() <==> Sound(settling, pendingCalls))
      ensures old(AllAnswered(memory, Some(p))) && FreshIds(e.steps) ==> Complete(r, memory, Pending())
    {
      var results := RunApproved(p, decisions, confirmations, e);
      if results.Err? { return Err(results.error), None; }
      r, settling := SettleResults(p, decisions, confirmations, results.value, e.settle, e.steps);
    }

    /** Saves the execution checkpoint and then runs the approved calls; with none, does nothing. */
    method RunApproved(
      p: PendingToolCalls, decisions: map<string, Decision>, confirmations: seq<ToolConfirmation>, e: ResumeEnv)
      returns (r: Result<seq<ResultBlock>, AgentError>)
      requires Valid() && pendingCalls == Some(p) && pendingExecution == None
      requires OneEach(confirmations) && Decided(confirmations) == Ids(p.calls)
      requires Reads(decisions, confirmations)
      modifies this`pendingCalls, this`pendingExecution, this`dispatches
      ensures Valid() && Pending() == Some(p)
      ensures if Approving(confirmations) then
          && pendingCalls == None && pendingExecution == Some(PendingToolExecution(e.execution, p, confirmations))
          && (|dispatches| > |old(dispatches)| <==> e.persisted)
        else
          && pendingCalls == Some(p) && pendingExecution == None && dispatches == old(dispatches) && r == Ok([])
      ensures LetsLoose(old(dispatches), dispatches, PendingToolExecution(e.execution, p, confirmations), e.persisted)
      ensures r.Ok? ==> r.value == Supplied(old(dispatches), dispatches, e)
      ensures r.Ok? <==> (Approving(confirmations) ==> e.persisted && e.batch.Ran?)
      ensures r.Err? ==>
        r.error == if e.persisted then ExecutionInDoubt(PendingToolExecution(e.execution, p, confirmations))
                   else StorageFailed
      ensures old(Loadable()) && !IsBlank(e.execution) ==> Loadable()
    {
      var approved := Picked(p.calls, set id | id in decisions && decisions[id].Approve?);
      var execution := PendingToolExecution(e.execution, p, confirmations);
      ApprovedAreLetLoose(execution, decisions, approved);
      if approved == [] { return Ok([]); }
      AuthorizedIsLoadable(config, Snapshot(), execution);
      pendingCalls, pendingExecution := None, Some(execution);
      if !e.persisted { return Err(StorageFailed); }
      dispatches := dispatches + [Dispatch(execution, approved)];
      if !e.batch.Ran? { return Err(ExecutionInDoubt(execution)); }
      var results := ResultsFor(approved, e.batch.outputs);
      return Ok(results);
    }

    /** Settles an uncertain execution with results verified elsewhere; runs no approved tool. */
    method Resolve(replyId: string, supplied: seq<ResultBlock>, settle: SettleEnv, steps: Env)
      returns (r: Result<Msg, AgentError>, ghost settling: Option<Settlement>)
      requires Valid()
      modifies this`memory, this`pendingCalls, this`pendingExecution, this`modelCalls, this`batches
      ensures Valid() && old(batches) <= batches
      ensures Resolves(old(Snapshot()), Snapshot(), IsCleared(settling))
      ensures old(pendingExecution).None? || old(pendingExecution).value.confirmation.replyId != replyId ==>
        r.Err? && Snapshot() == old(Snapshot())
      ensures settling.None? ==> Snapshot() == old(Snapshot())
      ensures settling.None? ==> r == Err(if old(pendingExecution).None? then NothingPending else InvalidRequest)
      ensures settling.Some? <==>
        && old(pendingExecution).Some? && old(pendingExecution).value.confirmation.replyId == replyId
        && Resolvable(old(memory), old(pendingExecution).value, supplied)
      ensures settling.Some? ==>
        && old(pendingExecution).Some?
        && SettledAs(old(memory), old(pendingExecution).value.confirmation, settling.value, settle, steps, r)
        && AllTold(old(pendingExecution).value.decisions, supplied,
                   old(pendingExecution).value.confirmation.calls, settling.value.told)
      ensures old(Loadable()) && FreshIds(steps) ==> (Loadable() <==> Sound(settling, pendingCalls))
      ensures old(AllAnswered(memory, Pending())) && FreshIds(steps) ==> Complete(r, memory, Pending())
    {
      settling := None;
      if pendingExecution.None? { return Err(NothingPending), None; }
      var p := pendingExecution.value.confirmation;
      if p.replyId != replyId { return Err(InvalidRequest), None; }
      var decided := ConfirmationMap(p, pendingExecution.value.decisions);
      if decided.Err? { return Err(InvalidRequest), None; }
      MapIsRead(pendingExecution.value.decisions, decided.value);
      r, settling := SettleResults(p, decided.value, pendingExecution.value.decisions, supplied, settle, steps);
    }

    /** Whether a retry gets as far as claiming the execution. */
    predicate Retries(replyId: string, e: ResumeEnv)
      reads this
    {
      && pendingExecution.Some? && pendingExecution.value.confirmation.replyId == replyId
      && MessageMatches(memory, pendingExecution.value.confirmation) && e.beforeTools
    }

    /** Lets the approved calls of an uncertain execution loose again, once the claim to do so is saved. */
    method Retry(replyId: string, e: ResumeEnv) returns (r: Result<Msg, AgentError>, ghost settling: Option<Settlement>)
      requires Valid()
      modifies this
      ensures Valid() && old(batches) <= batches
      ensures Resolves(old(Snapshot()), Snapshot(), IsCleared(settling))
      ensures |dispatches| > |old(dispatches)| <==> e.persisted && old(Retries(replyId, e))
      ensures settling.Some? <==>
        && old(Retries(replyId, e)) && e.persisted && e.batch.Ran?
        && Resolvable(old(memory), old(pendingExecution).value, Supplied(old(dispatches), dispatches, e))
      ensures settling.None? ==> r == Err(
        if old(pendingExecution).None? then NothingPending
        else if !old(Retries(replyId, e.(beforeTools := true))) then InvalidRequest
        else if !e.beforeTools then Failed
        else if !e.persisted then StorageFailed
        else if !e.batch.Ran? then ExecutionInDoubt(old(pendingExecution).value)
        else InvalidRequest)
      ensures old(pendingExecution).Some? ==>
        LetsLoose(old(dispatches), dispatches, old(pendingExecution).value, e.persisted)
      ensures old(pendingExecution).None? || old(pendingExecution).value.confirmation.replyId != replyId ==>
        r.Err? && Snapshot() == old(Snapshot()) && dispatches == old(dispatches)
      ensures settling.Some? ==>
        && old(pendingExecution).Some?
        && SettledAs(old(memory), old(pendingExecution).value.confirmation, settling.value, e.settle, e.steps, r)
        && AllTold(old(pendingExecution).value.decisions, Supplied(old(dispatches), dispatches, e),
                   old(pendingExecution).value.confirmation.calls, settling.value.told)
      ensures old(Loadable()) && FreshIds(e.steps) ==> (Loadable() <==> Sound(settling, pendingCalls))
      ensures old(AllAnswered(memory, Pending())) && FreshIds(e.steps) ==> Complete(r, memory, Pending())
    {
      if pendingExecution.None? { return Err(NothingPending), None; }
      var p := pendingExecution.value.confirmation;
      if p.replyId != replyId || !MessageMatches(memory, p) { return Err(InvalidRequest), None; }
      if !e.beforeTools { return Err(Failed), None; }
      if !e.persisted { return Err(StorageFailed), None; }
      r, settling := RunAgain(pendingExecution.value, e);
    }

    /** Runs the approved calls of an execution whose claim is saved, and settles with their results. */
    method RunAgain(execution: PendingToolExecution, e: ResumeEnv)
      returns (r: Result<Msg, AgentError>, ghost settling: Option<Settlement>)
      requires Valid() && pendingExecution == Some(execution) && e.persisted
      modifies this
      ensures Valid() && old(batches) <= batches && |dispatches| > |old(dispatches)|
      ensures Resolves(old(Snapshot()), Snapshot(), IsCleared(settling))
      ensures LetsLoose(old(dispatches), dispatches, execution, e.persisted)
      ensures settling.Some? <==>
        e.batch.Ran? && Resolvable(old(memory), execution, Supplied(old(dispatches), dispatches, e))
      ensures settling.None? ==> r == Err(if !e.batch.Ran? then ExecutionInDoubt(execution) else InvalidRequest)
      ensures settling.Some? ==>
        && SettledAs(old(memory), execution.confirmation, settling.value, e.settle, e.steps, r)
        && AllTold(execution.decisions, Supplied(old(dispatches), dispatches, e),
                   execution.confirmation.calls, settling.value.told)
      ensures old(Loadable()) && FreshIds(e.steps) ==> (Loadable() <==> Sound(settling, pendingCalls))
      ensures old(AllAnswered(memory, Pending())) && FreshIds(e.steps) ==> Complete(r, memory, Pending())
    {
      var approved := Picked(execution.confirmation.calls, ApprovedIds(execution.decisions));
      PickedIsApproved(execution, ApprovedIds(execution.decisions));
      dispatches := dispatches + [Dispatch(execution, approved)];
      if !e.batch.Ran? { return Err(ExecutionInDoubt(execution)), None; }
      var results := ResultsFor(approved, e.batch.outputs);
      r, settling := Resolve(execution.confirmation.replyId, results, e.settle, e.steps);
    }
  }

  /** The decision map says of each decision what the list says. */
  ghost predicate Reads(decisions: map<string, Decision>, confirmations: seq<ToolConfirmation>) {
    forall i | 0 <= i < |confirmations| ::
      confirmations[i].callId in decisions && decisions[confirmations[i].callId] == confirmations[i].decision
  }

  predicate Approving(confirmations: seq<ToolConfirmation>) {
    exists i | 0 <= i < |confirmations| :: confirmations[i].decision.Approve?
  }

  /** Some call is approved exactly when some decision approves. */
  lemma {:induction false} SomeApproval(
    calls: seq<CallBlock>, decisions: map<string, Decision>, confirmations: seq<ToolConfirmation>,
    approved: seq<CallBlock>)
    requires forall c :: c in approved <==> c in calls && IsApproved(decisions, c)
    requires Decided(confirmations) == Ids(calls) && Reads(decisions, confirmations)
    ensures approved != [] <==> Approving(confirmations)
  {
    if approved != [] {
      assert approved[0] in approved;
      assert approved[0].id in Decided(confirmations);
    }
    if Approving(confirmations) {
      var i :| 0 <= i < |confirmations| && confirmations[i].decision.Approve?;
      assert confirmations[i].callId in Ids(calls);
      var k :| 0 <= k < |calls| && calls[k].id == confirmations[i].callId;
      assert calls[k] in approved;
    }
  }

  /** The approved calls are what an execution lets loose, if any is approved. */
  lemma {:induction false} ApprovedAreLetLoose(
    execution: PendingToolExecution, decisions: map<string, Decision>, approved: seq<CallBlock>)
    requires Decided(execution.decisions) == Ids(execution.confirmation.calls)
    requires Reads(decisions, execution.decisions)
    requires approved == Picked(execution.confirmation.calls, set id | id in decisions && decisions[id].Approve?)
    ensures approved != [] <==> Approving(execution.decisions)
    ensures RunsApproved(Dispatch(execution, approved))
  {
    SomeApproval(execution.confirmation.calls, decisions, execution.decisions, approved);
    DispatchesApproved(execution, decisions);
  }

  /** The execution checkpoint of a loadable pause is loadable. */
  lemma {:induction false} AuthorizedIsLoadable(c: Config, state: AgentState, execution: PendingToolExecution)
    requires state.calls == Some(execution.confirmation) && state.execution == None
    requires OneEach(execution.decisions) && Decided(execution.decisions) == Ids(execution.confirmation.calls)
    requires Approving(execution.decisions)
    ensures StateValid(c.name, c.maxSteps, state) && !IsBlank(execution.executionId) ==>
      StateValid(c.name, c.maxSteps, state.(calls := None, execution := Some(execution)))
  {
    if StateValid(c.name, c.maxSteps, state) && !IsBlank(execution.executionId) {
      AuthorizedStateIsValid(c.name, c.maxSteps, state, execution.executionId, execution.decisions);
    }
  }

  /** Nothing is let loose, or exactly the approved calls of an execution whose checkpoint is saved. */
  ghost predicate LetsLoose(
    before: seq<Dispatch>, after: seq<Dispatch>, execution: PendingToolExecution, persisted: bool)
  {
    after == before || (
      && persisted && |after| == |before| + 1 && before < after
      && RunsApproved(after[|before|]) && after[|before|].execution == execution)
  }

  /** One decision for every call of a checkpoint, and no other. */
  ghost predicate Decides(p: PendingToolCalls, confirmations: seq<ToolConfirmation>) {
    OneEach(confirmations) && Decided(confirmations) == Ids(p.calls)
  }

  ghost predicate SamePending(before: AgentState, after: AgentState) {
    after.calls == before.calls && after.execution == before.execution
  }

  /** What a resume does to the checkpoint: settles it, turns it into an execution, or nothing. */
  ghost predicate Resumes(
    before: AgentState, after: AgentState, confirmations: seq<ToolConfirmation>, e: ResumeEnv, dispatched: bool,
    cleared: bool)
  {
    if cleared then
      && before.execution == None && before.calls.Some? && Decides(before.calls.value, confirmations)
      && after.execution == None && (dispatched <==> Approving(confirmations)) && (dispatched ==> e.persisted)
    else
      || (SamePending(before, after) && !dispatched)
      || (&& before.execution == None && before.calls.Some? && Decides(before.calls.value, confirmations)
          && Approving(confirmations) && after.calls == None
          && after.execution == Some(PendingToolExecution(e.execution, before.calls.value, confirmations))
          && (dispatched <==> e.persisted))
  }

  /** What a list of decisions says of each call. */
  function MapOf(confirmations: seq<ToolConfirmation>): (m: map<string, Decision>)
    ensures m.Keys == Decided(confirmations)
  {
    if confirmations == [] then map[]
    else
      var last := confirmations[|confirmations| - 1];
      MapOf(confirmations[..|confirmations| - 1])[last.callId := last.decision]
  }

  lemma {:induction false} MapIsRead(confirmations: seq<ToolConfirmation>, decisions: map<string, Decision>)
    requires OneEach(confirmations) && decisions.Keys == Decided(confirmations) && Reads(decisions, confirmations)
    ensures decisions == MapOf(confirmations)
  {
    MapReads(confirmations);
    forall id | id in decisions ensures decisions[id] == MapOf(confirmations)[id] {
      var i :| 0 <= i < |confirmations| && confirmations[i].callId == id;
    }
  }

  lemma {:induction false} MapReads(confirmations: seq<ToolConfirmation>)
    requires OneEach(confirmations)
    ensures Reads(MapOf(confirmations), confirmations)
  {
    if confirmations != [] { MapReads(confirmations[..|confirmations| - 1]); }
  }

  /** Whether results settle an execution that is still the one in memory. */
  ghost predicate Resolvable(memory: seq<Msg>, execution: PendingToolExecution, supplied: seq<ResultBlock>) {
    && Decides(execution.confirmation, execution.decisions)
    && Settles(execution.confirmation.calls, MapOf(execution.decisions), supplied)
    && MessageMatches(memory, execution.confirmation)
  }

  /** What a retry or resolution does to the checkpoint: settles it, or nothing. */
  ghost predicate Resolves(before: AgentState, after: AgentState, cleared: bool) {
    if cleared then before.execution.Some? && after.execution == None else SamePending(before, after)
  }

  ghost predicate IsCleared(settling: Option<Settlement>) {
    settling.Some? && settling.value.how.Cleared?
  }

  /** The results of the batch let loose between two moments, if one was. */
  function Supplied(before: seq<Dispatch>, after: seq<Dispatch>, e: ResumeEnv): seq<ResultBlock> {
    if |after| <= |before| || !e.batch.Ran? then [] else ResultsOf(after[|before|].calls, e.batch.outputs)
  }

  /** What the model is told about a call: the supplied result if approved, else that and why it was denied. */
  ghost predicate Told(
    decisions: seq<ToolConfirmation>, supplied: seq<ResultBlock>, call: CallBlock, result: ResultBlock)
  {
    && Answers(result, call)
    && (Approves(decisions, call.id) ==> result in supplied)
    && (!Approves(decisions, call.id) ==> result.state == Denied && DeniedFor(decisions, call.id, result.output))
  }

  ghost predicate DeniedFor(decisions: seq<ToolConfirmation>, id: string, output: ToolOutput) {
    exists i | 0 <= i < |decisions| ::
      decisions[i].callId == id && decisions[i].decision.Deny? && output == TextOutput(decisions[i].decision.reason)
  }

  ghost predicate AllTold(
    decisions: seq<ToolConfirmation>, supplied: seq<ResultBlock>, calls: seq<CallBlock>, told: seq<ResultBlock>)
  {
    |told| == |calls| && forall i | 0 <= i < |calls| :: Told(decisions, supplied, calls[i], told[i])
  }

  lemma {:induction false} ReportedIsTold(
    calls: seq<CallBlock>, decisions: map<string, Decision>, confirmations: seq<ToolConfirmation>,
    supplied: seq<ResultBlock>, told: seq<ResultBlock>)
    requires Decided(confirmations) == Ids(calls) && Reads(decisions, confirmations) && |told| == |calls|
    requires forall i | 0 <= i < |calls| :: Reported(decisions, supplied, calls[i], told[i])
    ensures AllTold(confirmations, supplied, calls, told)
  {
    forall i | 0 <= i < |calls| ensures Told(confirmations, supplied, calls[i], told[i]) {
      assert Reported(decisions, supplied, calls[i], told[i]);
      assert calls[i].id in Decided(confirmations);
      var j :| 0 <= j < |confirmations| && confirmations[j].callId == calls[i].id;
    }
  }

  /** Approval read from the decision map is approval in the list. */
  lemma {:induction false} DispatchesApproved(execution: PendingToolExecution, decisions: map<string, Decision>)
    requires Decided(execution.decisions) == Ids(execution.confirmation.calls)
    requires Reads(decisions, execution.decisions)
    ensures var ids := set id | id in decisions && decisions[id].Approve?;
      RunsApproved(Dispatch(execution, Picked(execution.confirmation.calls, ids)))
  {
    var calls := execution.confirmation.calls;
    var ids := set id | id in decisions && decisions[id].Approve?;
    forall call | call in calls ensures call.id in ids <==> Approves(execution.decisions, call.id) {
      var k :| 0 <= k < |calls| && calls[k] == call;
      assert call.id in Decided(execution.decisions);
      var j :| 0 <= j < |execution.decisions| && execution.decisions[j].callId == call.id;
    }
    PickedIsApproved(execution, ids);
  }

  /** Memory and checkpoint agree: no settling was cut short, and the pending calls are distinct. */
  ghost predicate Sound(settling: Option<Settlement>, pending: Option<PendingToolCalls>) {
    && (settling.Some? ==> settling.value.how.NotReplaced? || settling.value.how.Cleared?)
    && (pending.Some? ==> Distinct(pending.value.calls))
  }

  // ------------------------------------------------- two states that are rejected

  function Call(state: CallState): (call: Block)
    ensures IsCall(call)
  {
    assert 'c' in "c" && 't' in "t";
    ToolCall("c", "t", "{}", state)
  }

  const AGENT := Config("agent", 3, {"t"})

  function TwoCalls(): (content: Content)
    ensures CallsIn(content) == content && |content| == 2 && content[0] == content[1] == Call(CallState.Pending)
  {
    var content := [Call(CallState.Pending), Call(CallState.Pending)];
    assert content[..1] == [Call(CallState.Pending)] && content[..1][..0] == [];
    assert CallsIn(content[..1]) == [Call(CallState.Pending)];
    content
  }

  const ASKS_TWICE: StepEnv := StepEnv(Response("r", TwoCalls(), true), true, true, None, "o", true, true)

  /** A model that asks twice for a call of one identifier. */
  function SharedIds(): Env {
    (step: nat, history: seq<Msg>) => ASKS_TWICE
  }

  lemma {:induction false} SharedIdsPause(p: PendingToolCalls)
    requires p == CheckpointOf(ReplyOf(AGENT, ASKS_TWICE.answer), 1)
    ensures StepOf(AGENT, [], 0, ASKS_TWICE) == Paused(AGENT, [], 1, ASKS_TWICE)
    ensures !Distinct(p.calls)
  {
    var content := ASKS_TWICE.answer.content;
    var calls: seq<CallBlock> := CallsIn(content);
    assert calls[0].name in AGENT.confirmationTools;
    CallsAreSet(content, CallState.Asking);
    assert p.calls[0].id == p.calls[1].id;
  }

  /** A reply that pauses, and leaves a state that its own agent would not load. */
  ghost predicate PausesUnloadable(c: Config, end: StepEnd) {
    && end.pending.Some? && end.ended == Some(Err(ConfirmationRequired(end.pending.value)))
    && !StateValid(c.name, c.maxSteps, AgentState(c.name, end.memory, end.pending, None))
  }

  lemma {:induction false} SharedIdsPauseUnloadable(c: Config, env: Env, e: StepEnv)
    requires c.maxSteps > 1 && env(0, []) == e && e.answer.Response? && e.stored && !IsBlank(e.answer.id)
    requires CallsIn(e.answer.content) != [] && StepOf(c, [], 0, e) == Paused(c, [], 1, e)
    requires !Distinct(CheckpointOf(ReplyOf(c, e.answer), 1).calls)
    ensures PausesUnloadable(c, ReplyFrom(c, [], 0, env))
  {
    PausesWell(c, [], 1, e);
  }

  /** Two calls of one identifier are enough. */
  lemma {:induction false} SharedIdsAreRejected()
    ensures PausesUnloadable(AGENT, ReplyFrom(AGENT, [], 0, SharedIds()))
  {
    assert 'r' in "r";
    SharedIdsPause(CheckpointOf(ReplyOf(AGENT, ASKS_TWICE.answer), 1));
    SharedIdsPauseUnloadable(AGENT, SharedIds(), ASKS_TWICE);
  }

  /** A reply that waits for one confirmation. */
  function Waiting(): AgentState {
    var call: CallBlock := Call(CallState.Asking);
    AgentState(AGENT.name, [Msg("r", AGENT.name, Assistant, [call])], Some(PendingToolCalls("r", 1, [call])), None)
  }

  /** Settled while an `AfterToolCall` hook fails, it keeps a checkpoint that is rejected on reload. */
  lemma {:induction false} FailingHookIsRejected(told: ResultBlock)
    ensures var state, e := Waiting(), SettleEnv(true, "o", true, false);
      && StateValid(AGENT.name, AGENT.maxSteps, state) && SettlingOf(e) == HookFailed
      && !StateValid(AGENT.name, AGENT.maxSteps,
           state.(messages := Settled(state.messages, state.calls.value, [told], e)))
  {
    var state, e := Waiting(), SettleEnv(true, "o", true, false);
    var content := state.messages[0].content;
    assert 'r' in "r" && content[..0] == [];
    assert CallsIn(content) == content;
    FirstIsFirst(state.messages, "r", 0);
    SettledStateIsValidIffCleared(AGENT.name, AGENT.maxSteps, state, [Observation(e.observation, [told])], false);
  }
}
