/** Durable idempotency records: what a claim and a finish do to one row, and the table they update. */
module Idempotency {
  import opened Messages

  /** The error codes that the layers set or inspect; `Other` is any further code of a tool. */
  datatype Code =
    | IdempotencyInDoubt | ToolExecutionInDoubt | IdempotencyConflict | IdempotencyNotFound | StaleOwner
    | InvalidIdentity | InvalidKey | StorageFailure | Other(name: string)

  datatype ToolError = ToolError(message: string, code: Option<Code>, retryable: bool)

  type Outcome = Result<ToolOutput, ToolError>

  function Coded(code: Code): ToolError { ToolError(Description(code), Some(code), false) }

  function Description(code: Code): string {
    match code
    case IdempotencyInDoubt => "durable tool execution is active or uncertain"
    case IdempotencyConflict => "idempotency key or completed result conflicts"
    case IdempotencyNotFound => "idempotency record does not exist"
    case StaleOwner => "stale idempotency owner token"
    case InvalidIdentity => "idempotency namespace and tool name must not be blank"
    case InvalidKey => "idempotency key must be a non-blank string"
    case _ => "tool failure"
  }

  predicate HasCode(outcome: Outcome, code: Code) {
    outcome.Err? && outcome.error.code == Some(code)
  }

  /** Whether the effects of the tool are unknown; either layer's code says so. */
  predicate InDoubt(outcome: Outcome) {
    HasCode(outcome, ToolExecutionInDoubt) || HasCode(outcome, IdempotencyInDoubt)
  }

  /** The idempotency entry of the call's metadata, if there is one. */
  datatype KeyEntry = Absent | NotText | Key(text: string)

  datatype Context = Context(key: KeyEntry, metadata: string)

  datatype Request = Request(namespace: string, tool: string, input: string, context: Context)

  function KeyOf(request: Request): string {
    if request.context.key.Key? then request.context.key.text else ""
  }

  /** Why a request cannot be bound to a record, or None. */
  function Flaw(request: Request): Option<ToolError> {
    if IsBlank(request.namespace) || IsBlank(request.tool) then
      Some(Coded(InvalidIdentity))
    else if !request.context.key.Key? || IsBlank(request.context.key.text) then
      Some(Coded(InvalidKey))
    else None
  }

  /** The primary key of the table. */
  datatype RowId = RowId(namespace: string, tool: string, key: string)

  function IdOf(request: Request): RowId {
    RowId(request.namespace, request.tool, KeyOf(request))
  }

  datatype Row = Row(request: Request, owner: string, result: Option<Outcome>)

  datatype Claim = Acquired(token: string) | Completed(result: Outcome) | Unfinished

  /** The row after a claim with a new `token`, and what the claim returns. */
  function ClaimRow(row: Option<Row>, request: Request, token: string): (Option<Row>, Result<Claim, ToolError>) {
    if Flaw(request).Some? then (row, Err(Flaw(request).value))
    else match row
      case None => (Some(Row(request, token, None)), Ok(Acquired(token)))
      case Some(found) =>
        if found.request != request then (row, Err(Coded(IdempotencyConflict)))
        else match found.result
          case Some(result) => (row, Ok(Completed(result)))
          case None => (row, Ok(Unfinished))
  }

  /** Completing supplies the owner's token; reconciling supplies none. */
  function FinishRow(row: Option<Row>, request: Request, token: Option<string>, outcome: Outcome)
    : (Option<Row>, Result<(), ToolError>)
  {
    if Flaw(request).Some? then (row, Err(Flaw(request).value))
    else if HasCode(outcome, IdempotencyInDoubt) then
      (row, Err(Coded(IdempotencyInDoubt)))
    else match row
      case None => (row, Err(Coded(IdempotencyNotFound)))
      case Some(found) =>
        if found.request != request then (row, Err(Coded(IdempotencyConflict)))
        else if token.Some? && token.value != found.owner then
          (row, Err(Coded(StaleOwner)))
        else if found.result.Some? && found.result.value != outcome then
          (row, Err(Coded(IdempotencyConflict)))
        else (Some(found.(result := Some(outcome))), Ok(()))
  }

  class SQLiteIdempotencyStore {
    var rows: map<RowId, Row>

    constructor ()
      ensures rows == map[]
    {
      rows := map[];
    }

    function Get(id: RowId): Option<Row>
      reads this
    {
      if id in rows then Some(rows[id]) else None
    }

    /** Inserts the row of a new request, or reports on the row found; touches no other row. */
    method Claim(request: Request, token: string, fault: Fault) returns (r: Result<Claim, ToolError>)
      modifies this
      ensures var (row, claim) := ClaimRow(old(Get(IdOf(request))), request, token);
        && rows == (if fault.NotCommitted? || row.None? then old(rows) else old(rows)[IdOf(request) := row.value])
        && r == (if Flaw(request).Some? || fault.Acked? || (fault.AckLost? && claim.Err?) then claim
                 else Err(Coded(StorageFailure)))
    {
      var flaw := Flaw(request);
      if flaw.Some? { return Err(flaw.value); }
      if fault.NotCommitted? { return Err(Coded(StorageFailure)); }
      var id := IdOf(request);
      var claim;
      if id in rows {
        var row := rows[id];
        if row.request != request {
          return Err(Coded(IdempotencyConflict));
        }
        claim := if row.result.Some? then Completed(row.result.value) else Unfinished;
      } else {
        rows := rows[id := Row(request, token, None)];
        claim := Acquired(token);
      }
      if fault.AckLost? { return Err(Coded(StorageFailure)); }
      return Ok(claim);
    }

    method Finish(request: Request, token: Option<string>, outcome: Outcome, fault: Fault)
      returns (r: Result<(), ToolError>)
      modifies this
      ensures var (row, finish) := FinishRow(old(Get(IdOf(request))), request, token, outcome);
        && rows == (if fault.NotCommitted? || row.None? then old(rows) else old(rows)[IdOf(request) := row.value])
        && r == (if Flaw(request).Some? || HasCode(outcome, IdempotencyInDoubt) then finish
                 else if fault.NotCommitted? || (fault.AckLost? && finish.Ok?) then Err(Coded(StorageFailure))
                 else finish)
    {
      var flaw := Flaw(request);
      if flaw.Some? { return Err(flaw.value); }
      if HasCode(outcome, IdempotencyInDoubt) {
        return Err(Coded(IdempotencyInDoubt));
      }
      if fault.NotCommitted? { return Err(Coded(StorageFailure)); }
      var id := IdOf(request);
      if id !in rows { return Err(Coded(IdempotencyNotFound)); }
      var row := rows[id];
      if row.request != request {
        return Err(Coded(IdempotencyConflict));
      }
      if token.Some? && token.value != row.owner {
        return Err(Coded(StaleOwner));
      }
      if row.result.Some? {
        if row.result.value != outcome {
          return Err(Coded(IdempotencyConflict));
        }
      } else {
        rows := rows[id := row.(result := Some(outcome))];
      }
      if fault.AckLost? { return Err(Coded(StorageFailure)); }
      return Ok(());
    }
  }

  /** A finish is accepted exactly from the owner or an operator, once, and then fixes the result for good. */
  lemma {:induction false} FinishAccepts(row: Option<Row>, request: Request, token: Option<string>, outcome: Outcome)
    ensures var (after, r) := FinishRow(row, request, token, outcome);
      && (r.Ok? <==>
            && Flaw(request).None? && !HasCode(outcome, IdempotencyInDoubt)
            && row.Some? && row.value.request == request
            && (token == None || token == Some(row.value.owner))
            && (row.value.result == None || row.value.result == Some(outcome)))
      && (r.Ok? ==> ClaimRow(after, request, "").1 == Ok(Completed(outcome)))
      && (r.Err? ==> after == row)
  {
  }

  /**
   * An uncertain outcome can be stored after all: finishing an open row leaves it in doubt exactly
   * when the outcome carries the tool's own in-doubt code, which only an operator would supply.
   */
  lemma {:induction false} InDoubtStoredIff(row: Row, token: Option<string>, outcome: Outcome)
    requires Flaw(row.request).None? && row.result.None? && (token == None || token == Some(row.owner))
    ensures var after := FinishRow(Some(row), row.request, token, outcome).0.value;
      (after.result.Some? && InDoubt(after.result.value)) <==> HasCode(outcome, ToolExecutionInDoubt)
  {
  }

  /** Two requests share a record exactly when namespace, tool and key agree. */
  lemma {:induction false} SharedRecord(a: Request, b: Request)
    requires Flaw(a).None? && Flaw(b).None?
    ensures IdOf(a) == IdOf(b) <==> a.namespace == b.namespace && a.tool == b.tool && a.context.key == b.context.key
  {
  }

  /** A request can be recorded when namespace, tool and key are all given and none is blank. */
  lemma {:induction false} Recordable(request: Request)
    ensures Flaw(request).None? <==>
      && !IsBlank(request.namespace) && !IsBlank(request.tool)
      && request.context.key.Key? && !IsBlank(request.context.key.text)
    ensures Flaw(request).Some? ==>
      Flaw(request).value.code
      == Some(if IsBlank(request.namespace) || IsBlank(request.tool) then InvalidIdentity else InvalidKey)
  {
  }

  /** What a claim answers, and that it changes at most an absent row. */
  lemma {:induction false} ClaimAnswers(row: Option<Row>, request: Request, token: string)
    requires Flaw(request).None?
    ensures var (after, r) := ClaimRow(row, request, token);
      match row
      case None => after == Some(Row(request, token, None)) && r == Ok(Acquired(token))
      case Some(found) =>
        && after == row
        && (found.request != request ==> r.Err? && r.error.code == Some(IdempotencyConflict))
        && (found.request == request && found.result.None? ==> r == Ok(Unfinished))
        && (found.request == request && found.result.Some? ==> r == Ok(Completed(found.result.value)))
  {
  }

  /** Why a finish is refused. */
  lemma {:induction false} FinishRefuses(row: Option<Row>, request: Request, token: Option<string>, outcome: Outcome)
    requires Flaw(request).None? && FinishRow(row, request, token, outcome).1.Err?
    ensures FinishRow(row, request, token, outcome).1.error.code == Some(
      if outcome.Err? && outcome.error.code == Some(IdempotencyInDoubt) then IdempotencyInDoubt
      else if row.None? then IdempotencyNotFound
      else if row.value.request != request then IdempotencyConflict
      else if token.Some? && token.value != row.value.owner then StaleOwner
      else IdempotencyConflict)
  {
  }

  // -------------------------------------------------------------- the tool

  /** Outcomes that a caller may take for the tool's answer: none of the layer's own errors. */
  predicate Definitive(outcome: Outcome) {
    outcome.Ok? || outcome.error.code !in {
      Some(IdempotencyInDoubt), Some(ToolExecutionInDoubt), Some(IdempotencyConflict),
      Some(InvalidIdentity), Some(InvalidKey)}
  }

  /** Every answer of a tool of its own is definitive, and no answer that a layer makes up about a call is. */
  lemma {:induction false} DefinitiveAnswers(outcome: Outcome)
    ensures outcome.Ok? || outcome.error.code.None? || outcome.error.code.value.Other? ==> Definitive(outcome)
    ensures Definitive(outcome) ==> !InDoubt(outcome)
    ensures forall code | code in {IdempotencyInDoubt, ToolExecutionInDoubt} ::
      InDoubt(Err(Coded(code))) && !Definitive(Err(Coded(code)))
    ensures forall code | code in {IdempotencyConflict, InvalidIdentity, InvalidKey} :: !Definitive(Err(Coded(code)))
    ensures InDoubt(outcome) ==>
      outcome.Err? && outcome.error.code in {Some(IdempotencyInDoubt), Some(ToolExecutionInDoubt)}
  {
  }

  /** What a caller gets whose tool does not run: the stored result, the conflict, or doubt. */
  lemma {:induction false} UnrunAnswers(row: Option<Row>, request: Request, token: string, fault: Fault)
    requires Flaw(request).None?
    ensures var outcome := Unrun(ClaimRow(row, request, token).1, fault);
      if row.Some? && row.value.request == request && row.value.result.Some? && fault.Acked? then
        outcome == row.value.result.value
      else
        outcome.Err? && outcome.error.code
          == Some(if row.Some? && row.value.request != request && !fault.NotCommitted? then IdempotencyConflict
                  else IdempotencyInDoubt)
  {
  }

  /** A failed claim may have committed, so only a conflict is reported as such. */
  function ClaimFailure(error: ToolError): Outcome {
    Err(if error.code == Some(IdempotencyConflict) then error else Coded(IdempotencyInDoubt))
  }

  /** What a caller is given whose claim did not let the tool run. */
  function Unrun(claim: Result<Claim, ToolError>, fault: Fault): Outcome {
    if fault.NotCommitted? then Err(Coded(IdempotencyInDoubt))
    else match claim
      case Err(error) => ClaimFailure(error)
      case Ok(Completed(result)) => if fault.Acked? then result else Err(Coded(IdempotencyInDoubt))
      case Ok(_) => Err(Coded(IdempotencyInDoubt))
  }

  /** One undisturbed execution; `inner` is what the wrapped tool would answer. */
  method Execute(
    store: SQLiteIdempotencyStore, request: Request, token: string, inner: Outcome,
    claimFault: Fault, completeFault: Fault)
    returns (outcome: Outcome, ran: bool)
    modifies store
    ensures request.context.key.Absent? ==> ran && outcome == inner && store.rows == old(store.rows)
    ensures !request.context.key.Absent? ==>
      (ran <==> Flaw(request).None? && old(store.Get(IdOf(request))).None? && claimFault.Acked?)
    ensures !request.context.key.Absent? && ran ==>
      && outcome == (if InDoubt(inner) || completeFault.Acked? then inner else Err(Coded(IdempotencyInDoubt)))
      && store.rows == old(store.rows)[IdOf(request) :=
           Row(request, token, if InDoubt(inner) || completeFault.NotCommitted? then None else Some(inner))]
    ensures !request.context.key.Absent? && !ran ==>
      && outcome == (if Flaw(request).Some? then Err(Flaw(request).value)
                     else Unrun(ClaimRow(old(store.Get(IdOf(request))), request, token).1, claimFault))
      && store.rows == if Flaw(request).None? && old(store.Get(IdOf(request))).None? && claimFault.AckLost?
                       then old(store.rows)[IdOf(request) := Row(request, token, None)] else old(store.rows)
    ensures !request.context.key.Absent? && Definitive(outcome) ==>
      && IdOf(request) in store.rows && store.rows[IdOf(request)].request == request
      && store.rows[IdOf(request)].result == Some(outcome)
    ensures forall id | id in old(store.rows) :: id in store.rows && store.rows[id] == old(store.rows)[id]
  {
    if request.context.key.Absent? { return inner, true; }
    var flaw := Flaw(request);
    if flaw.Some? { return Err(flaw.value), false; }
    var claim := store.Claim(request, token, claimFault);
    if claim.Err? { return ClaimFailure(claim.error), false; }
    match claim.value {
      case Completed(result) => return result, false;
      case Unfinished => return Err(Coded(IdempotencyInDoubt)), false;
      case Acquired(owner) =>
        ran := true;
        if InDoubt(inner) { return inner, ran; }
        var finished := store.Finish(request, Some(owner), inner, completeFault);
        if finished.Err? { return Err(Coded(IdempotencyInDoubt)), ran; }
        return inner, ran;
    }
  }
}
