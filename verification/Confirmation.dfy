/** Human confirmation checkpoints, the decisions and results that settle them, and saved agent state. */
module Confirmation {
  import opened Messages

  /** Constructing a call block rejects blank identities. */
  predicate IsCall(b: Block) {
    b.ToolCall? && !IsBlank(b.id) && !IsBlank(b.name)
  }

  type CallBlock = b: Block | IsCall(b) witness (
    assert "i"[0] in "i" && "t"[0] in "t"; ToolCall("i", "t", "{}", Pending))

  type ResultBlock = b: Block | b.ToolResult? witness ToolResult("id", "tool", TextOutput([]), Success)

  datatype PendingToolCalls = PendingToolCalls(replyId: string, step: nat, calls: seq<CallBlock>)

  datatype Decision = Approve | Deny(reason: seq<Byte>)

  datatype ToolConfirmation = ToolConfirmation(callId: string, decision: Decision)

  datatype PendingToolExecution = PendingToolExecution(
    executionId: string, confirmation: PendingToolCalls, decisions: seq<ToolConfirmation>)

  /** What a session saves; the format version and context summary are not part of this model. */
  datatype AgentState = AgentState(
    agentName: string, messages: seq<Msg>, calls: Option<PendingToolCalls>, execution: Option<PendingToolExecution>)

  datatype Rejection = InvalidConfirmation | InvalidResolution

  function Ids(calls: seq<CallBlock>): set<string> {
    set i | 0 <= i < |calls| :: calls[i].id
  }

  ghost predicate Distinct(calls: seq<CallBlock>) {
    forall i, j | 0 <= i < j < |calls| :: calls[i].id != calls[j].id
  }

  ghost predicate OneEach(decisions: seq<ToolConfirmation>) {
    forall i, j | 0 <= i < j < |decisions| :: decisions[i].callId != decisions[j].callId
  }

  function Decided(decisions: seq<ToolConfirmation>): set<string> {
    set i | 0 <= i < |decisions| :: decisions[i].callId
  }

  // ------------------------------------------------------ validating checkpoints

  ghost predicate CallsValid(p: PendingToolCalls) {
    && !IsBlank(p.replyId) && p.step > 0 && p.calls != []
    && (forall i | 0 <= i < |p.calls| :: p.calls[i].callState == Asking)
    && Distinct(p.calls)
  }

  method ValidateCalls(p: PendingToolCalls) returns (ok: bool)
    ensures ok <==> CallsValid(p)
  {
    if IsBlank(p.replyId) || p.step == 0 || p.calls == [] { return false; }
    var ids: set<string> := {};
    for k := 0 to |p.calls|
      invariant ids == Ids(p.calls[..k])
      invariant forall i | 0 <= i < k :: p.calls[i].callState == Asking
      invariant Distinct(p.calls[..k])
    {
      var call := p.calls[k];
      if call.callState != Asking || call.id in ids { return false; }
      ids := ids + {call.id};
      assert p.calls[..k + 1] == p.calls[..k] + [call];
    }
    assert p.calls[..|p.calls|] == p.calls;
    return true;
  }

  lemma {:induction false} DistinctIffCounted(calls: seq<CallBlock>)
    ensures Distinct(calls) <==> |Ids(calls)| == |calls|
  {
    var ids := seq(|calls|, i requires 0 <= i < |calls| => calls[i].id);
    assert Ids(calls) == set id | id in ids by {
      forall id | id in Ids(calls) ensures id in ids {
        var i :| 0 <= i < |calls| && calls[i].id == id;
        assert ids[i] == id;
      }
      forall id | id in ids ensures id in Ids(calls) { var i :| 0 <= i < |ids| && ids[i] == id; }
    }
    NoDuplicatesIffCounted(ids);
    if NoDuplicates(ids) {
      forall i, j | 0 <= i < j < |calls| ensures calls[i].id != calls[j].id { assert ids[i] != ids[j]; }
    }
  }

  /** A checkpoint is valid when it names a reply and a step, and asks about at least one call, each by its own id. */
  lemma {:induction false} ValidCheckpoint(p: PendingToolCalls)
    ensures CallsValid(p) <==>
      && !IsBlank(p.replyId) && 1 <= p.step && |Ids(p.calls)| == |p.calls| > 0
      && forall call | call in p.calls :: call.callState == CallState.Asking
  {
    DistinctIffCounted(p.calls);
    if CallsValid(p) {
      forall call | call in p.calls ensures call.callState == CallState.Asking {
        var i :| 0 <= i < |p.calls| && p.calls[i] == call;
      }
    }
  }

  /** Exactly one decision for every call, some of them approvals, under a stable identifier. */
  ghost predicate ExecutionValid(e: PendingToolExecution) {
    && !IsBlank(e.executionId) && CallsValid(e.confirmation)
    && OneEach(e.decisions) && Decided(e.decisions) == Ids(e.confirmation.calls)
    && exists i | 0 <= i < |e.decisions| :: e.decisions[i].decision.Approve?
  }

  lemma {:induction false} OneEachIffCounted(decisions: seq<ToolConfirmation>)
    ensures |Decided(decisions)| <= |decisions|
    ensures OneEach(decisions) <==> |Decided(decisions)| == |decisions|
  {
    var ids := seq(|decisions|, i requires 0 <= i < |decisions| => decisions[i].callId);
    assert Decided(decisions) == set id | id in ids by {
      forall id | id in Decided(decisions) ensures id in ids {
        var i :| 0 <= i < |decisions| && decisions[i].callId == id;
        assert ids[i] == id;
      }
      forall id | id in ids ensures id in Decided(decisions) { var i :| 0 <= i < |ids| && ids[i] == id; }
    }
    NoDuplicatesIffCounted(ids);
    if NoDuplicates(ids) {
      forall i, j | 0 <= i < j < |decisions| ensures decisions[i].callId != decisions[j].callId {
        assert ids[i] != ids[j];
      }
    }
  }

  /** One decision for each call and no other: as many decisions as calls, and every call among them. */
  lemma {:induction false} DecidesEachOnce(calls: seq<CallBlock>, decisions: seq<ToolConfirmation>)
    ensures OneEach(decisions) && Decided(decisions) == Ids(calls) <==>
      && |decisions| == |Ids(calls)|
      && forall call | call in calls :: exists i | 0 <= i < |decisions| :: decisions[i].callId == call.id
  {
    OneEachIffCounted(decisions);
    if OneEach(decisions) && Decided(decisions) == Ids(calls) {
      forall call | call in calls ensures exists i | 0 <= i < |decisions| :: decisions[i].callId == call.id {
        var k :| 0 <= k < |calls| && calls[k] == call;
        assert call.id in Decided(decisions);
      }
    }
    if |decisions| == |Ids(calls)|
       && forall call | call in calls :: exists i | 0 <= i < |decisions| :: decisions[i].callId == call.id
    {
      forall id | id in Ids(calls) ensures id in Decided(decisions) {
        var k :| 0 <= k < |calls| && calls[k].id == id;
        assert calls[k] in calls;
        var i :| 0 <= i < |decisions| && decisions[i].callId == calls[k].id;
      }
      SubsetIsNoLarger(Ids(calls), Decided(decisions));
      SubsetOfSameSize(Ids(calls), Decided(decisions));
    }
  }

  /** An execution is valid when a valid checkpoint has as many decisions as calls, one for each, some approving. */
  lemma {:induction false} ValidExecution(e: PendingToolExecution)
    ensures ExecutionValid(e) <==>
      && !IsBlank(e.executionId) && CallsValid(e.confirmation) && |e.decisions| == |e.confirmation.calls|
      && (forall call | call in e.confirmation.calls ::
            exists i | 0 <= i < |e.decisions| :: e.decisions[i].callId == call.id)
      && exists d | d in e.decisions :: d.decision == Approve
  {
    DecidesEachOnce(e.confirmation.calls, e.decisions);
    DistinctIffCounted(e.confirmation.calls);
    if i :| 0 <= i < |e.decisions| && e.decisions[i].decision.Approve? { assert e.decisions[i] in e.decisions; }
  }

  lemma {:induction false} SubsetOfSameSize(a: set<string>, b: set<string>)
    requires a <= b && |a| == |b|
    ensures a == b
  {
    if x :| x in b && x !in a {
      SubsetIsNoLarger(a, b - {x});
    }
  }

  method ValidateExecution(e: PendingToolExecution) returns (ok: bool)
    ensures ok <==> ExecutionValid(e)
  {
    if IsBlank(e.executionId) { return false; }
    var callsOk := ValidateCalls(e.confirmation);
    if !callsOk { return false; }
    var expected := Ids(e.confirmation.calls);
    var found: set<string> := {};
    var approved := 0;
    for k := 0 to |e.decisions|
      invariant found == Decided(e.decisions[..k]) && found <= expected
      invariant OneEach(e.decisions[..k])
      invariant approved > 0 <==> exists i | 0 <= i < k :: e.decisions[i].decision.Approve?
    {
      var decision := e.decisions[k];
      if decision.callId !in expected || decision.callId in found {
        assert e.decisions[k].callId in Decided(e.decisions);
        return false;
      }
      found := found + {decision.callId};
      if decision.decision.Approve? { approved := approved + 1; }
      assert e.decisions[..k + 1] == e.decisions[..k] + [decision];
    }
    assert e.decisions[..|e.decisions|] == e.decisions;
    if |found| == |expected| { SubsetOfSameSize(found, expected); }
    return |found| == |expected| && approved != 0;
  }

  // ------------------------------------------------------- decisions and results

  /** Reads the decisions as a map, exactly when they decide every call once and no other. */
  method ConfirmationMap(p: PendingToolCalls, confirmations: seq<ToolConfirmation>)
    returns (r: Result<map<string, Decision>, Rejection>)
    ensures r.Ok? <==> OneEach(confirmations) && Decided(confirmations) == Ids(p.calls)
    ensures r.Ok? ==> r.value.Keys == Ids(p.calls)
    ensures r.Ok? ==> forall i | 0 <= i < |confirmations| ::
      confirmations[i].callId in r.value && r.value[confirmations[i].callId] == confirmations[i].decision
  {
    var pending := Ids(p.calls);
    var decisions: map<string, Decision> := map[];
    for k := 0 to |confirmations|
      invariant decisions.Keys == Decided(confirmations[..k]) && decisions.Keys <= pending
      invariant OneEach(confirmations[..k])
      invariant forall i | 0 <= i < k ::
        confirmations[i].callId in decisions && decisions[confirmations[i].callId] == confirmations[i].decision
    {
      var c := confirmations[k];
      if c.callId !in pending || c.callId in decisions {
        assert confirmations[k].callId in Decided(confirmations);
        return Err(InvalidConfirmation);
      }
      decisions := decisions[c.callId := c.decision];
      assert confirmations[..k + 1] == confirmations[..k] + [c];
    }
    assert confirmations[..|confirmations|] == confirmations;
    if exists k | 0 <= k < |p.calls| :: p.calls[k].id !in decisions {
      var k :| 0 <= k < |p.calls| && p.calls[k].id !in decisions;
      assert p.calls[k].id in pending;
      return Err(InvalidConfirmation);
    }
    return Ok(decisions);
  }

  predicate IsApproved(decisions: map<string, Decision>, call: CallBlock) {
    call.id in decisions && decisions[call.id].Approve?
  }

  /** `result` is a terminal answer to `call`. */
  predicate Answers(result: ResultBlock, call: CallBlock) {
    result.id == call.id && result.name == call.name && IsTerminal(result.state)
  }

  ghost predicate AnswersApproved(result: ResultBlock, calls: seq<CallBlock>, decisions: map<string, Decision>) {
    exists i | 0 <= i < |calls| :: IsApproved(decisions, calls[i]) && Answers(result, calls[i])
  }

  ghost predicate Supplies(supplied: seq<ResultBlock>, id: string) {
    exists j | 0 <= j < |supplied| :: supplied[j].id == id
  }

  ghost predicate OneResultEach(supplied: seq<ResultBlock>) {
    forall i, j | 0 <= i < j < |supplied| :: supplied[i].id != supplied[j].id
  }

  ghost predicate DistinctApproved(calls: seq<CallBlock>, decisions: map<string, Decision>, k: nat)
    requires k <= |calls|
  {
    forall i, j | 0 <= i < j < k && IsApproved(decisions, calls[i]) :: calls[i].id != calls[j].id
  }

  /** Whether the supplied results settle the approved calls: one terminal result each, and no other. */
  ghost predicate Settles(calls: seq<CallBlock>, decisions: map<string, Decision>, supplied: seq<ResultBlock>) {
    && (forall j | 0 <= j < |supplied| :: AnswersApproved(supplied[j], calls, decisions))
    && OneResultEach(supplied)
    && (forall i | 0 <= i < |calls| && IsApproved(decisions, calls[i]) :: Supplies(supplied, calls[i].id))
    && DistinctApproved(calls, decisions, |calls|)
  }

  /** What the model is told about one call: the supplied result, or that it was denied. */
  ghost predicate Reported(
    decisions: map<string, Decision>, supplied: seq<ResultBlock>, call: CallBlock, result: ResultBlock)
  {
    && Answers(result, call)
    && (if IsApproved(decisions, call) then result in supplied
        else call.id in decisions && result.state == Denied && result.output == TextOutput(decisions[call.id].reason))
  }

  /** `name` is the name of some approved call with identifier `id`. */
  ghost predicate Named(calls: seq<CallBlock>, decisions: map<string, Decision>, id: string, name: string) {
    exists i | 0 <= i < |calls| :: IsApproved(decisions, calls[i]) && calls[i].id == id && calls[i].name == name
  }

  /** The result answers an approved call, and its tool is not still running. */
  ghost predicate Finishes(calls: seq<CallBlock>, decisions: map<string, Decision>, result: ResultBlock) {
    exists i | 0 <= i < |calls| ::
      && calls[i].id in decisions && decisions[calls[i].id] == Approve
      && result.id == calls[i].id && result.name == calls[i].name && result.state != ResultState.Running
  }

  /** Results settle a set of decided calls: they finish approved ones, each of them once. */
  lemma {:induction false} SettlesMeaning(
    calls: seq<CallBlock>, decisions: map<string, Decision>, supplied: seq<ResultBlock>)
    requires Distinct(calls)
    ensures Settles(calls, decisions, supplied) <==>
      && (forall j | 0 <= j < |supplied| :: Finishes(calls, decisions, supplied[j]))
      && (forall i | 0 <= i < |calls| && calls[i].id in decisions && decisions[calls[i].id] == Approve ::
            exists j | 0 <= j < |supplied| :: supplied[j].id == calls[i].id)
      && (forall j, k | 0 <= j < |supplied| && 0 <= k < |supplied| && supplied[j].id == supplied[k].id :: j == k)
  {
    forall j | 0 <= j < |supplied|
      ensures AnswersApproved(supplied[j], calls, decisions) <==> Finishes(calls, decisions, supplied[j])
    {
      if AnswersApproved(supplied[j], calls, decisions) {
        var i :| 0 <= i < |calls| && IsApproved(decisions, calls[i]) && Answers(supplied[j], calls[i]);
      }
      if Finishes(calls, decisions, supplied[j]) {
        var i :| 0 <= i < |calls| && calls[i].id in decisions && decisions[calls[i].id] == Approve
          && supplied[j].id == calls[i].id && supplied[j].name == calls[i].name
          && supplied[j].state != ResultState.Running;
        assert IsApproved(decisions, calls[i]) && Answers(supplied[j], calls[i]);
      }
    }
    if OneResultEach(supplied) {
      assert forall j, k | 0 <= j < |supplied| && 0 <= k < |supplied| && supplied[j].id == supplied[k].id ::
        !(j < k) && !(k < j);
    }
    if Settles(calls, decisions, supplied) {
      forall i | 0 <= i < |calls| && IsApproved(decisions, calls[i])
        ensures exists j | 0 <= j < |supplied| :: supplied[j].id == calls[i].id
      {
        assert Supplies(supplied, calls[i].id);
      }
    }
  }

  method ApprovedNames(calls: seq<CallBlock>, decisions: map<string, Decision>) returns (names: map<string, string>)
    ensures forall i | 0 <= i < |calls| && IsApproved(decisions, calls[i]) :: calls[i].id in names
    ensures forall id | id in names :: Named(calls, decisions, id, names[id])
  {
    names := map[];
    for k := 0 to |calls|
      invariant forall i | 0 <= i < k && IsApproved(decisions, calls[i]) :: calls[i].id in names
      invariant forall id | id in names :: Named(calls, decisions, id, names[id])
    {
      if IsApproved(decisions, calls[k]) {
        assert Named(calls, decisions, calls[k].id, calls[k].name);
        names := names[calls[k].id := calls[k].name];
      }
    }
  }

  /** One terminal result for each approved name, under that name, and no other. */
  ghost predicate Fits(names: map<string, string>, supplied: seq<ResultBlock>) {
    && (forall j | 0 <= j < |supplied| ::
          supplied[j].id in names && names[supplied[j].id] == supplied[j].name && IsTerminal(supplied[j].state))
    && OneResultEach(supplied)
    && (forall id | id in names :: Supplies(supplied, id))
  }

  method IndexResults(names: map<string, string>, supplied: seq<ResultBlock>)
    returns (r: Result<map<string, ResultBlock>, Rejection>)
    ensures r.Ok? <==> Fits(names, supplied)
    ensures r.Ok? ==> r.value.Keys == names.Keys
    ensures r.Ok? ==> forall id | id in r.value :: r.value[id] in supplied && r.value[id].id == id
  {
    var byId: map<string, ResultBlock> := map[];
    for k := 0 to |supplied|
      invariant forall j | 0 <= j < k ::
        supplied[j].id in names && names[supplied[j].id] == supplied[j].name && IsTerminal(supplied[j].state)
      invariant forall i, j | 0 <= i < j < k :: supplied[i].id != supplied[j].id
      invariant byId.Keys <= names.Keys && byId.Keys == (set j | 0 <= j < k :: supplied[j].id)
      invariant forall id | id in byId :: byId[id] in supplied && byId[id].id == id
    {
      var result := supplied[k];
      if result.id !in names || result.name != names[result.id] || !IsTerminal(result.state) {
        return Err(InvalidResolution);
      }
      if result.id in byId { return Err(InvalidResolution); }
      byId := byId[result.id := result];
    }
    if exists id | id in names :: id !in byId {
      var id :| id in names && id !in byId;
      assert !Supplies(supplied, id);
      return Err(InvalidResolution);
    }
    return Ok(byId);
  }

  /** The check in two steps, through the names of the approved calls, is the direct one. */
  lemma {:induction false} SettlesByName(
    calls: seq<CallBlock>, decisions: map<string, Decision>, supplied: seq<ResultBlock>, names: map<string, string>)
    requires forall i | 0 <= i < |calls| && IsApproved(decisions, calls[i]) :: calls[i].id in names
    requires forall id | id in names :: Named(calls, decisions, id, names[id])
    ensures Settles(calls, decisions, supplied) <==>
      Fits(names, supplied) && DistinctApproved(calls, decisions, |calls|)
  {
    if Fits(names, supplied) && DistinctApproved(calls, decisions, |calls|) {
      forall j | 0 <= j < |supplied| ensures AnswersApproved(supplied[j], calls, decisions) {
        assert Named(calls, decisions, supplied[j].id, names[supplied[j].id]);
      }
    }
    if Settles(calls, decisions, supplied) {
      forall j | 0 <= j < |supplied|
        ensures supplied[j].id in names && names[supplied[j].id] == supplied[j].name && IsTerminal(supplied[j].state)
      {
        assert AnswersApproved(supplied[j], calls, decisions);
        var i :| 0 <= i < |calls| && IsApproved(decisions, calls[i]) && Answers(supplied[j], calls[i]);
        assert Named(calls, decisions, calls[i].id, names[calls[i].id]);
      }
      forall id | id in names ensures Supplies(supplied, id) {
        assert Named(calls, decisions, id, names[id]);
      }
    }
  }

  /** Settles every call in order, exactly when the supplied results fit the approved calls. */
  method ReconciledResults(calls: seq<CallBlock>, decisions: map<string, Decision>, supplied: seq<ResultBlock>)
    returns (r: Result<seq<ResultBlock>, Rejection>)
    requires decisions.Keys == Ids(calls)
    ensures r.Ok? <==> Settles(calls, decisions, supplied)
    ensures r.Ok? ==> |r.value| == |calls|
    ensures r.Ok? ==> forall i | 0 <= i < |calls| :: Reported(decisions, supplied, calls[i], r.value[i])
    ensures r.Ok? ==> forall i | 0 <= i < |calls| ::
      match decisions[calls[i].id]
      case Approve => r.value[i] in supplied && r.value[i].id == calls[i].id && r.value[i].name == calls[i].name
      case Deny(reason) => r.value[i] == ToolResult(calls[i].id, calls[i].name, TextOutput(reason), ResultState.Denied)
  {
    var names := ApprovedNames(calls, decisions);
    SettlesByName(calls, decisions, supplied, names);
    var indexed := IndexResults(names, supplied);
    if indexed.Err? { return Err(indexed.error); }
    r := OrderResults(calls, decisions, indexed.value);
    if r.Ok? {
      forall i | 0 <= i < |calls| ensures Reported(decisions, supplied, calls[i], r.value[i]) {
        ReportedByName(calls, decisions, supplied, indexed.value, i);
      }
    }
  }

  /** The result for one call: the one indexed for it if approved, a denial otherwise. */
  function ResultFor(decisions: map<string, Decision>, byId: map<string, ResultBlock>, call: CallBlock): ResultBlock
    requires call.id in decisions && (IsApproved(decisions, call) ==> call.id in byId)
  {
    match decisions[call.id]
    case Approve => byId[call.id]
    case Deny(reason) => ToolResult(call.id, call.name, TextOutput(reason), Denied)
  }

  ghost predicate HandedOut(calls: seq<CallBlock>, decisions: map<string, Decision>, k: nat, id: string)
    requires forall i | 0 <= i < |calls| :: calls[i].id in decisions
  {
    k <= |calls| && exists i | 0 <= i < k :: IsApproved(decisions, calls[i]) && calls[i].id == id
  }

  /** Hands each indexed result to its call, once. */
  method OrderResults(calls: seq<CallBlock>, decisions: map<string, Decision>, indexed: map<string, ResultBlock>)
    returns (r: Result<seq<ResultBlock>, Rejection>)
    requires forall i | 0 <= i < |calls| :: calls[i].id in decisions
    requires forall i | 0 <= i < |calls| && IsApproved(decisions, calls[i]) :: calls[i].id in indexed
    ensures r.Ok? <==> DistinctApproved(calls, decisions, |calls|)
    ensures r.Ok? ==> |r.value| == |calls|
    ensures r.Ok? ==> forall i | 0 <= i < |calls| :: r.value[i] == ResultFor(decisions, indexed, calls[i])
  {
    var byId := indexed;
    var results: seq<ResultBlock> := [];
    for k := 0 to |calls|
      invariant |results| == k && DistinctApproved(calls, decisions, k)
      invariant forall id | id in byId :: id in indexed && byId[id] == indexed[id]
      invariant forall id | id in indexed && id !in byId :: HandedOut(calls, decisions, k, id)
      invariant forall i | 0 <= i < k && IsApproved(decisions, calls[i]) :: calls[i].id !in byId
      invariant forall i | 0 <= i < k :: results[i] == ResultFor(decisions, indexed, calls[i])
    {
      var call := calls[k];
      match decisions[call.id] {
        case Approve =>
          if call.id !in byId { return Err(InvalidResolution); }
          results := results + [byId[call.id]];
          byId := byId - {call.id};
        case Deny(reason) =>
          results := results + [ToolResult(call.id, call.name, TextOutput(reason), Denied)];
      }
    }
    return Ok(results);
  }

  lemma {:induction false} ReportedByName(
    calls: seq<CallBlock>, decisions: map<string, Decision>, supplied: seq<ResultBlock>,
    byId: map<string, ResultBlock>, i: nat)
    requires i < |calls| && calls[i].id in decisions
    requires Settles(calls, decisions, supplied)
    requires IsApproved(decisions, calls[i]) ==> calls[i].id in byId
    requires IsApproved(decisions, calls[i]) ==>
      byId[calls[i].id] in supplied && byId[calls[i].id].id == calls[i].id
    ensures Reported(decisions, supplied, calls[i], ResultFor(decisions, byId, calls[i]))
  {
    if IsApproved(decisions, calls[i]) {
      var j :| 0 <= j < |supplied| && supplied[j] == byId[calls[i].id];
      assert AnswersApproved(supplied[j], calls, decisions);
      var i' :| 0 <= i' < |calls| && IsApproved(decisions, calls[i']) && Answers(supplied[j], calls[i']);
      assert i' == i;
    }
  }

  // ---------------------------------------------------------------- saved state

  /** The first message with an identifier; `|messages|` when there is none. */
  function FirstWith(messages: seq<Msg>, id: string): (k: nat)
    ensures k <= |messages|
    ensures k < |messages| ==> messages[k].id == id
    ensures forall i | 0 <= i < k :: messages[i].id != id
  {
    FirstIndex(messages, (m: Msg) => m.id == id)
  }

  function CallsIn(content: seq<Block>): (calls: seq<Block>) {
    if content == [] then []
    else
      var rest := CallsIn(content[..|content| - 1]);
      if content[|content| - 1].ToolCall? then rest + [content[|content| - 1]] else rest
  }

  /** The calls of a message are its call blocks, in order. */
  lemma {:induction false} CallsAreIn(content: seq<Block>) returns (at: seq<nat>)
    ensures Selects(content, at, CallsIn(content))
    ensures forall i | 0 <= i < |content| :: i in at <==> content[i].ToolCall?
  {
    at := [];
    if content != [] {
      var init, last := content[..|content| - 1], content[|content| - 1];
      var before := CallsAreIn(init);
      SelectsOneMore(init, before, CallsIn(init), last);
      assert init + [last] == content;
      at := if last.ToolCall? then before + [|init|] else before;
    }
  }

  /** Setting call states changes nothing else. */
  lemma {:induction false} OnlyStatesAreSet(content: seq<Block>, state: CallState)
    ensures |SetCallStates(content, state)| == |content|
    ensures forall i | 0 <= i < |content| ::
      SetCallStates(content, state)[i] == if content[i].ToolCall? then content[i].(callState := state) else content[i]
  {
    if content != [] { OnlyStatesAreSet(content[..|content| - 1], state); }
  }

  /** Whether memory holds the checkpoint's reply, with exactly the checkpoint's calls. */
  predicate MessageMatches(messages: seq<Msg>, p: PendingToolCalls) {
    var k := FirstWith(messages, p.replyId);
    k < |messages| && CallsIn(messages[k].content) == p.calls
  }

  /** The check an agent makes before trusting a loaded or restored state. */
  ghost predicate StateValid(name: string, maxSteps: nat, state: AgentState) {
    && state.agentName == name
    && (state.calls.Some? ==>
          var p := state.calls.value;
          CallsValid(p) && p.step < maxSteps && MessageMatches(state.messages, p))
    && !(state.calls.Some? && state.execution.Some?)
    && (state.execution.Some? ==>
          var p := state.execution.value.confirmation;
          ExecutionValid(state.execution.value) && p.step < maxSteps && MessageMatches(state.messages, p))
  }

  method ValidateState(name: string, maxSteps: nat, state: AgentState) returns (ok: bool)
    ensures ok <==> StateValid(name, maxSteps, state)
  {
    if state.agentName != name { return false; }
    if state.calls.Some? {
      ok := ValidateCalls(state.calls.value);
      if !ok || state.calls.value.step >= maxSteps { return false; }
      if !MessageMatches(state.messages, state.calls.value) { return false; }
    }
    if state.calls.Some? && state.execution.Some? { return false; }
    if state.execution.Some? {
      ok := ValidateExecution(state.execution.value);
      if !ok || state.execution.value.confirmation.step >= maxSteps { return false; }
      if !MessageMatches(state.messages, state.execution.value.confirmation) { return false; }
    }
    return true;
  }

  function SetCallStates(content: seq<Block>, state: CallState): (r: seq<Block>)
    ensures |r| == |content|
  {
    if content == [] then []
    else
      var last := content[|content| - 1];
      SetCallStates(content[..|content| - 1], state) + [if last.ToolCall? then last.(callState := state) else last]
  }

  /** A reply whose tool calls are all well formed, as every model response is. */
  predicate WellFormed(content: seq<Block>) {
    forall i | 0 <= i < |content| && content[i].ToolCall? :: IsCall(content[i])
  }

  lemma {:induction false} CallsAreSet(content: seq<Block>, state: CallState)
    ensures |CallsIn(SetCallStates(content, state))| == |CallsIn(content)|
    ensures forall i | 0 <= i < |CallsIn(content)| ::
      && CallsIn(content)[i].ToolCall?
      && CallsIn(SetCallStates(content, state))[i] == CallsIn(content)[i].(callState := state)
  {
    if content != [] {
      var init := content[..|content| - 1];
      CallsAreSet(init, state);
      var set' := SetCallStates(content, state);
      assert set'[..|set'| - 1] == SetCallStates(init, state);
    }
  }

  lemma {:induction false} CallsAreCalls(content: seq<Block>)
    requires WellFormed(content)
    ensures forall i | 0 <= i < |CallsIn(content)| :: IsCall(CallsIn(content)[i])
  {
    if content != [] { CallsAreCalls(content[..|content| - 1]); }
  }

  /** `after` is the message with every call finished, and nothing else changed. */
  ghost predicate CallsFinished(before: Msg, after: Msg) {
    && after.id == before.id && after.name == before.name && after.role == before.role
    && |after.content| == |before.content|
    && forall j | 0 <= j < |before.content| ::
         after.content[j] == if before.content[j].ToolCall? then before.content[j].(callState := CallState.Finished)
                             else before.content[j]
  }

  /** The calls of the first message of that identifier are finished, and no other of these messages has changed. */
  ghost predicate FinishedIn(before: seq<Msg>, after: seq<Msg>, id: string) {
    |before| <= |after| && forall i | 0 <= i < |before| ::
      if before[i].id == id && (forall j | 0 <= j < i :: before[j].id != id)
      then CallsFinished(before[i], after[i]) else after[i] == before[i]
  }

  /** Marks every call of the checkpoint's reply, the first message of its identifier, as finished. */
  method FinishCheckpointCalls(history: seq<Msg>, p: PendingToolCalls) returns (r: seq<Msg>)
    ensures r == WithCallsFinished(history, p)
    ensures |r| == |history| && FinishedIn(history, r, p.replyId)
  {
    var k := FirstWith(history, p.replyId);
    if k == |history| { return history; }
    var content := history[k].content;
    var edited: seq<Block> := [];
    for i := 0 to |content|
      invariant edited == SetCallStates(content[..i], CallState.Finished)
    {
      var block := content[i];
      edited := edited + [if block.ToolCall? then block.(callState := CallState.Finished) else block];
      assert content[..i + 1][..i] == content[..i];
    }
    assert content[..|content|] == content;
    OnlyStatesAreSet(content, CallState.Finished);
    return history[k := history[k].(content := edited)];
  }

  function WithCallsFinished(history: seq<Msg>, p: PendingToolCalls): (r: seq<Msg>)
    ensures |r| == |history|
  {
    var k := FirstWith(history, p.replyId);
    if k == |history| then history
    else history[k := history[k].(content := SetCallStates(history[k].content, CallState.Finished))]
  }

  lemma {:induction false} FirstIsFirst(messages: seq<Msg>, id: string, k: nat)
    requires k < |messages| && messages[k].id == id
    requires forall i | 0 <= i < k :: messages[i].id != id
    ensures FirstWith(messages, id) == k
  {
  }

  /** The state saved when a reply pauses for confirmation. */
  function PausedState(name: string, memory: seq<Msg>, reply: Msg, p: PendingToolCalls): AgentState {
    AgentState(name, memory + [reply], Some(p), None)
  }

  /**
   * A paused reply is accepted on reload exactly when its calls have distinct identifiers, which
   * pausing itself does not check.
   */
  lemma {:induction false} PausedStateIsValidIff(
      name: string, maxSteps: nat, memory: seq<Msg>, reply: Msg, p: PendingToolCalls)
    requires !IsBlank(reply.id) && forall i | 0 <= i < |memory| :: memory[i].id != reply.id
    requires p.replyId == reply.id && 0 < p.step < maxSteps
    requires p.calls != [] && p.calls == CallsIn(reply.content)
    requires forall i | 0 <= i < |p.calls| :: p.calls[i].callState == Asking
    ensures StateValid(name, maxSteps, PausedState(name, memory, reply, p)) <==> Distinct(p.calls)
  {
    FirstIsFirst(memory + [reply], reply.id, |memory|);
  }

  /** What resuming saves before any approved tool runs is valid whenever the paused state was. */
  lemma {:induction false} AuthorizedStateIsValid(
    name: string, maxSteps: nat, state: AgentState, execution: string, decisions: seq<ToolConfirmation>)
    requires StateValid(name, maxSteps, state) && state.calls.Some? && !IsBlank(execution)
    requires OneEach(decisions) && Decided(decisions) == Ids(state.calls.value.calls)
    requires exists i | 0 <= i < |decisions| :: decisions[i].decision.Approve?
    ensures StateValid(name, maxSteps, state.(
      calls := None, execution := Some(PendingToolExecution(execution, state.calls.value, decisions))))
  {
  }

  /** Once its calls are finished in memory, a checkpoint no longer matches them. */
  lemma {:induction false} FinishedNoLongerMatches(messages: seq<Msg>, p: PendingToolCalls, more: seq<Msg>)
    requires CallsValid(p) && MessageMatches(messages, p)
    ensures !MessageMatches(WithCallsFinished(messages, p) + more, p)
  {
    var k := FirstWith(messages, p.replyId);
    var after := WithCallsFinished(messages, p) + more;
    FirstIsFirst(after, p.replyId, k);
    CallsAreSet(messages[k].content, CallState.Finished);
    assert CallsIn(after[k].content)[0] != p.calls[0];
  }

  function PendingOf(state: AgentState): Option<PendingToolCalls> {
    match state.execution
    case Some(e) => Some(e.confirmation)
    case None => state.calls
  }

  /** The first message of that identifier holds exactly these calls. */
  ghost predicate AsksFor(messages: seq<Msg>, id: string, calls: seq<CallBlock>) {
    exists k | 0 <= k < |messages| ::
      && messages[k].id == id && (forall j | 0 <= j < k :: messages[j].id != id)
      && CallsIn(messages[k].content) == calls
  }

  /**
   * A state is accepted when it is this agent's, waits for at most one thing, and what it waits for is
   * valid, leaves a step to resume with, and is what its reply in memory asks for.
   */
  lemma {:induction false} StateAccepted(name: string, maxSteps: nat, state: AgentState)
    ensures StateValid(name, maxSteps, state) <==>
      && state.agentName == name && (state.calls.None? || state.execution.None?)
      && (state.execution.Some? ==> ExecutionValid(state.execution.value))
      && (state.calls.Some? || state.execution.Some? ==>
            var p := if state.calls.Some? then state.calls.value else state.execution.value.confirmation;
            CallsValid(p) && p.step + 1 <= maxSteps && AsksFor(state.messages, p.replyId, p.calls))
  {
    if state.calls.Some? { MatchesMeaning(state.messages, state.calls.value); }
    if state.execution.Some? { MatchesMeaning(state.messages, state.execution.value.confirmation); }
  }

  lemma {:induction false} MatchesMeaning(messages: seq<Msg>, p: PendingToolCalls)
    ensures MessageMatches(messages, p) <==> AsksFor(messages, p.replyId, p.calls)
  {
    if k :| 0 <= k < |messages| && messages[k].id == p.replyId && forall j | 0 <= j < k :: messages[j].id != p.replyId {
      FirstIsFirst(messages, p.replyId, k);
    }
  }

  /**
   * Settling replaces memory before it clears the checkpoint: with the checkpoint left behind the
   * state is rejected on reload, and with the checkpoint cleared it is accepted.
   */
  lemma {:induction false} SettledStateIsValidIffCleared(
      name: string, maxSteps: nat, state: AgentState, more: seq<Msg>, cleared: bool)
    requires StateValid(name, maxSteps, state) && PendingOf(state).Some?
    ensures var messages := WithCallsFinished(state.messages, PendingOf(state).value) + more;
      var after := if cleared then AgentState(name, messages, None, None) else state.(messages := messages);
      StateValid(name, maxSteps, after) <==> cleared
  {
    FinishedNoLongerMatches(state.messages, PendingOf(state).value, more);
  }
}
