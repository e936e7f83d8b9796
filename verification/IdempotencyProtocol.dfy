/**
 * Any number of callers of tools that share one idempotency table: every interleaving, with
 * crashes, lost reports, operators who reconcile, and owner tokens that need not even be fresh.
 */
module IdempotencyProtocol {
  import opened Messages
  import opened Idempotency

  type Caller = nat

  /** Where one execution stands: its claim acquired, its tool running, or its answer not yet recorded. */
  datatype Local =
    | Idle
    | Claimed(request: Request, token: string)
    | Running(request: Request, token: string)
    | Answered(request: Request, token: string, outcome: Outcome)

  datatype Return = Return(request: Request, outcome: Outcome)

  /** `runs` lists the executions of wrapped tools and `given` what callers were given; nobody reads them. */
  datatype State = State(
    rows: map<RowId, Row>, callers: map<Caller, Local>, runs: seq<Request>, given: seq<Return>)

  datatype Event =
    | Claim(c: Caller, request: Request, token: string, fault: Fault)
    | Start(c: Caller)
    | Answer(c: Caller, outcome: Outcome)
    | Complete(c: Caller, fault: Fault)
    | Reconcile(request: Request, outcome: Outcome, fault: Fault)
    | Crash(c: Caller)

  const INITIAL := State(map[], map[], [], [])

  function Of(s: State, c: Caller): Local {
    if c in s.callers then s.callers[c] else Idle
  }

  function At(s: State, c: Caller, local: Local): State {
    s.(callers := s.callers[c := local])
  }

  function Get(s: State, id: RowId): Option<Row> {
    if id in s.rows then Some(s.rows[id]) else None
  }

  function Put(s: State, id: RowId, row: Option<Row>): State {
    if row.Some? then s.(rows := s.rows[id := row.value]) else s
  }

  function Returned(s: State, c: Caller, request: Request, outcome: Outcome): State {
    At(s, c, Idle).(given := s.given + [Return(request, outcome)])
  }

  function AfterClaim(s: State, c: Caller, request: Request, claim: Result<Idempotency.Claim, ToolError>): (t: State)
    ensures t.rows == s.rows
    ensures t.callers == s.callers[c := Of(t, c)] && (Of(t, c).Idle? || Of(t, c).Claimed?)
  {
    match claim
    case Err(error) => Returned(s, c, request, ClaimFailure(error))
    case Ok(Completed(result)) => Returned(s, c, request, result)
    case Ok(Unfinished) => Returned(s, c, request, Err(Coded(IdempotencyInDoubt)))
    case Ok(Acquired(token)) => At(s, c, Claimed(request, token))
  }

  function ClaimStep(s: State, c: Caller, request: Request, token: string, fault: Fault): (t: State)
    ensures t.callers == s.callers[c := Of(t, c)] && (Of(t, c).Idle? || Of(t, c).Claimed?)
  {
    if Flaw(request).Some? then Returned(s, c, request, Err(Flaw(request).value))
    else if fault.NotCommitted? then AfterClaim(s, c, request, Err(Coded(StorageFailure)))
    else
      var (row, claim) := ClaimRow(Get(s, IdOf(request)), request, token);
      AfterClaim(Put(s, IdOf(request), row), c, request,
        if fault.AckLost? && claim.Ok? then Err(Coded(StorageFailure)) else claim)
  }

  function Finished(s: State, request: Request, token: Option<string>, outcome: Outcome): State {
    Put(s, IdOf(request), FinishRow(Get(s, IdOf(request)), request, token, outcome).0)
  }

  function CompleteStep(s: State, c: Caller, request: Request, token: string, outcome: Outcome, fault: Fault): State {
    if fault.NotCommitted? then Returned(s, c, request, Err(Coded(IdempotencyInDoubt)))
    else
      var finish := FinishRow(Get(s, IdOf(request)), request, Some(token), outcome).1;
      Returned(Finished(s, request, Some(token), outcome), c, request,
        if finish.Ok? && fault.Acked? then outcome else Err(Coded(IdempotencyInDoubt)))
  }

  /**
   * One effect of one caller or operator; an event that its caller cannot take changes nothing. Calls
   * without a key pass by the table, so they are no events.
   */
  function Next(s: State, event: Event): State {
    match event
    case Claim(c, request, token, fault) =>
      if Of(s, c).Idle? && !request.context.key.Absent? then ClaimStep(s, c, request, token, fault) else s
    case Start(c) =>
      var local := Of(s, c);
      if local.Claimed?
      then At(s, c, Local.Running(local.request, local.token)).(runs := s.runs + [local.request]) else s
    case Answer(c, outcome) =>
      var local := Of(s, c);
      if !local.Running? then s
      else if InDoubt(outcome) then Returned(s, c, local.request, outcome)
      else At(s, c, Answered(local.request, local.token, outcome))
    case Complete(c, fault) =>
      var local := Of(s, c);
      if local.Answered? then CompleteStep(s, c, local.request, local.token, local.outcome, fault) else s
    case Reconcile(request, outcome, fault) =>
      if fault.NotCommitted? then s
      else Finished(s, request, None, outcome)
    case Crash(c) => At(s, c, Idle)
  }

  function After(run: seq<Event>): State {
    if run == [] then INITIAL else Next(After(run[..|run| - 1]), run[|run| - 1])
  }

  // ------------------------------------------------------------- invariant

  /** A row is filed under its own request's identity, and that request is well formed. */
  ghost predicate Rows(s: State) {
    forall id | id in s.rows :: IdOf(s.rows[id].request) == id && Flaw(s.rows[id].request).None?
  }

  ghost predicate Holds(s: State, local: Local) {
    !local.Idle? ==>
      && IdOf(local.request) in s.rows
      && s.rows[IdOf(local.request)].request == local.request
      && s.rows[IdOf(local.request)].owner == local.token
  }

  ghost predicate Callers(s: State) {
    forall c | c in s.callers :: Holds(s, s.callers[c])
  }

  /** No two callers hold a claim to one record. */
  ghost predicate Unique(s: State) {
    forall b, c | b in s.callers && c in s.callers && b != c && !s.callers[b].Idle? && !s.callers[c].Idle? ::
      IdOf(s.callers[b].request) != IdOf(s.callers[c].request)
  }

  ghost predicate RunsOnce(runs: seq<Request>) {
    forall i, j | 0 <= i < j < |runs| :: IdOf(runs[i]) != IdOf(runs[j])
  }

  ghost predicate RunsBacked(s: State) {
    forall r | r in s.runs :: IdOf(r) in s.rows && s.rows[IdOf(r)].request == r
  }

  /** Who holds a claim and has not started has not run. */
  ghost predicate ClaimsFresh(s: State) {
    forall c | c in s.callers && s.callers[c].Claimed? :: s.callers[c].request !in s.runs
  }

  ghost predicate StoredAs(s: State, r: Return) {
    && IdOf(r.request) in s.rows && s.rows[IdOf(r.request)].request == r.request
    && s.rows[IdOf(r.request)].result == Some(r.outcome)
  }

  ghost predicate ReturnsStored(s: State) {
    forall r | r in s.given && Definitive(r.outcome) :: StoredAs(s, r)
  }

  ghost predicate Inv(s: State) {
    Rows(s) && Callers(s) && Unique(s) && RunsOnce(s.runs) && RunsBacked(s) && ClaimsFresh(s) && ReturnsStored(s)
  }

  /** A row may only be filled in: its request, owner and first result stay. */
  ghost predicate Grows(before: Row, after: Row) {
    && after.request == before.request && after.owner == before.owner
    && (before.result.Some? ==> after.result == before.result)
  }

  /** A caller that stops, or goes on with the claim it holds, disturbs nothing. */
  lemma {:induction false} QuietStep(s: State, c: Caller, local: Local)
    requires Inv(s)
    requires local.Idle? || (
      && !local.Claimed? && !Of(s, c).Idle? && local.request == Of(s, c).request && local.token == Of(s, c).token)
    ensures Inv(At(s, c, local))
  {
    var t := At(s, c, local);
    assert Rows(t) && RunsOnce(t.runs) && RunsBacked(t) && ReturnsStored(t);
    assert Callers(t) && ClaimsFresh(t);
    forall b, d | b in t.callers && d in t.callers && b != d && !t.callers[b].Idle? && !t.callers[d].Idle?
      ensures IdOf(t.callers[b].request) != IdOf(t.callers[d].request)
    {
      assert IdOf(Of(s, b).request) != IdOf(Of(s, d).request);
    }
  }

  lemma {:induction false} ReturnStep(s: State, c: Caller, request: Request, outcome: Outcome)
    requires Inv(s) && (Definitive(outcome) ==> StoredAs(s, Return(request, outcome)))
    ensures Inv(Returned(s, c, request, outcome))
  {
    QuietStep(s, c, Idle);
    var u := At(s, c, Idle);
    var t := Returned(s, c, request, outcome);
    forall r | r in t.given && Definitive(r.outcome) ensures StoredAs(t, r) {
      if r in s.given { assert StoredAs(s, r); } else { assert r == Return(request, outcome); }
    }
    assert Rows(t) && Callers(t) && Unique(t) && RunsOnce(t.runs) && RunsBacked(t) && ClaimsFresh(t);
  }

  lemma {:induction false} GrowStep(s: State, id: RowId, row: Row)
    requires Inv(s) && id in s.rows && Grows(s.rows[id], row)
    ensures Inv(Put(s, id, Some(row)))
  {
    var t := Put(s, id, Some(row));
    forall c | c in t.callers ensures Holds(t, t.callers[c]) { assert Holds(s, s.callers[c]); }
    forall r | r in t.given && Definitive(r.outcome) ensures StoredAs(t, r) { assert StoredAs(s, r); }
    assert Rows(t) && Unique(t) && RunsOnce(t.runs) && RunsBacked(t) && ClaimsFresh(t);
  }

  /** A record that does not exist: nobody claims it, nobody ran it, nobody was answered from it. */
  lemma {:induction false} NobodyKnows(s: State, id: RowId)
    requires Inv(s) && id !in s.rows
    ensures forall c | c in s.callers && !s.callers[c].Idle? :: IdOf(s.callers[c].request) != id
    ensures forall r | r in s.runs :: IdOf(r) != id
    ensures forall r | r in s.given && Definitive(r.outcome) :: IdOf(r.request) != id
  {
    forall c | c in s.callers && !s.callers[c].Idle? ensures IdOf(s.callers[c].request) != id {
      assert Holds(s, s.callers[c]);
    }
    forall r | r in s.given && Definitive(r.outcome) ensures IdOf(r.request) != id { assert StoredAs(s, r); }
  }

  lemma {:induction false} InsertStep(s: State, request: Request, token: string)
    requires Inv(s) && Flaw(request).None? && IdOf(request) !in s.rows
    ensures Inv(Put(s, IdOf(request), Some(Row(request, token, None))))
  {
    NobodyKnows(s, IdOf(request));
    var t := Put(s, IdOf(request), Some(Row(request, token, None)));
    assert Rows(t) && RunsBacked(t) && Callers(t);
    assert ReturnsStored(t) && Unique(t) && RunsOnce(t.runs) && ClaimsFresh(t);
  }

  lemma {:induction false} AcquireStep(s: State, c: Caller, request: Request, token: string)
    requires Inv(s) && Flaw(request).None? && IdOf(request) !in s.rows && Of(s, c).Idle?
    ensures Inv(At(Put(s, IdOf(request), Some(Row(request, token, None))), c, Claimed(request, token)))
  {
    NobodyKnows(s, IdOf(request));
    InsertStep(s, request, token);
    HoldStep(Put(s, IdOf(request), Some(Row(request, token, None))), c, request, token);
  }

  /** A caller may hold the claim to a record that nobody knows yet. */
  lemma {:induction false} HoldStep(s: State, c: Caller, request: Request, token: string)
    requires Inv(s) && Holds(s, Claimed(request, token)) && request !in s.runs
    requires forall b | b in s.callers && !s.callers[b].Idle? :: IdOf(s.callers[b].request) != IdOf(request)
    ensures Inv(At(s, c, Claimed(request, token)))
  {
    var t := At(s, c, Claimed(request, token));
    assert Rows(t) && RunsOnce(t.runs) && RunsBacked(t) && ReturnsStored(t);
    assert Callers(t) && ClaimsFresh(t) && Unique(t);
  }

  lemma {:induction false} ClaimKeepsInv(s: State, c: Caller, request: Request, token: string, fault: Fault)
    requires Inv(s) && Of(s, c).Idle?
    ensures Inv(ClaimStep(s, c, request, token, fault))
  {
    if Flaw(request).Some? {
      ReturnStep(s, c, request, Err(Flaw(request).value));
    } else if fault.NotCommitted? {
      ReturnStep(s, c, request, ClaimFailure(Coded(StorageFailure)));
    } else if IdOf(request) !in s.rows {
      if fault.Acked? {
        AcquireStep(s, c, request, token);
      } else {
        var t := Put(s, IdOf(request), Some(Row(request, token, None)));
        InsertStep(s, request, token);
        ReturnStep(t, c, request, ClaimFailure(Coded(StorageFailure)));
      }
    } else {
      FoundKeepsInv(s, c, request, token, fault);
    }
  }

  lemma {:induction false} FoundKeepsInv(s: State, c: Caller, request: Request, token: string, fault: Fault)
    requires Inv(s) && Flaw(request).None? && !fault.NotCommitted? && IdOf(request) in s.rows
    ensures Inv(ClaimStep(s, c, request, token, fault))
  {
    var (row, claim) := ClaimRow(Get(s, IdOf(request)), request, token);
    PutSame(s, IdOf(request));
    ReportKeepsInv(s, c, request, if fault.AckLost? && claim.Ok? then Err(Coded(StorageFailure)) else claim);
  }

  lemma {:induction false} PutSame(s: State, id: RowId)
    ensures Put(s, id, Get(s, id)) == s
  {
    if id in s.rows { assert s.rows[id := s.rows[id]] == s.rows; }
  }

  /** A claim that acquires nothing reports an error, or the stored result. */
  lemma {:induction false} ReportKeepsInv(
      s: State, c: Caller, request: Request, claim: Result<Idempotency.Claim, ToolError>)
    requires Inv(s) && (claim.Ok? ==> !claim.value.Acquired?)
    requires claim.Ok? && claim.value.Completed? ==> StoredAs(s, Return(request, claim.value.result))
    ensures Inv(AfterClaim(s, c, request, claim))
  {
    match claim
    case Err(error) => ReturnStep(s, c, request, ClaimFailure(error));
    case Ok(Completed(result)) => ReturnStep(s, c, request, result);
    case Ok(Unfinished) => ReturnStep(s, c, request, Err(Coded(IdempotencyInDoubt)));
  }

  lemma {:induction false} StartKeepsInv(s: State, c: Caller)
    requires Inv(s) && Of(s, c).Claimed?
    ensures Inv(Next(s, Start(c)))
  {
    var local := Of(s, c);
    QuietStep(s, c, Local.Running(local.request, local.token));
    var u := At(s, c, Local.Running(local.request, local.token));
    var t := Next(s, Start(c));
    assert Holds(s, local);
    forall i | 0 <= i < |s.runs| ensures IdOf(s.runs[i]) != IdOf(local.request) {
      assert s.runs[i] in s.runs;
    }
    assert RunsOnce(t.runs) && RunsBacked(t);
    forall b | b in t.callers && t.callers[b].Claimed? ensures t.callers[b].request !in t.runs { }
    assert Rows(t) && Callers(t) && Unique(t) && ReturnsStored(t);
  }

  lemma {:induction false} FinishGrows(s: State, request: Request, token: Option<string>, outcome: Outcome)
    requires Inv(s)
    ensures Inv(Finished(s, request, token, outcome))
    ensures FinishRow(Get(s, IdOf(request)), request, token, outcome).1.Ok? ==>
      StoredAs(Finished(s, request, token, outcome), Return(request, outcome))
  {
    var row := FinishRow(Get(s, IdOf(request)), request, token, outcome).0;
    if row.Some? { GrowStep(s, IdOf(request), row.value); }
  }

  lemma {:induction false} NextKeepsInv(s: State, event: Event)
    requires Inv(s)
    ensures Inv(Next(s, event))
  {
    match event
    case Claim(c, request, token, fault) => if Of(s, c).Idle? { ClaimKeepsInv(s, c, request, token, fault); }
    case Start(c) => if Of(s, c).Claimed? { StartKeepsInv(s, c); }
    case Answer(c, outcome) => AnswerKeepsInv(s, c, outcome);
    case Complete(c, fault) => if Of(s, c).Answered? { CompleteKeepsInv(s, c, fault); }
    case Reconcile(request, outcome, fault) => FinishGrows(s, request, None, outcome);
    case Crash(c) => QuietStep(s, c, Idle);
  }

  lemma {:induction false} AnswerKeepsInv(s: State, c: Caller, outcome: Outcome)
    requires Inv(s)
    ensures Inv(Next(s, Answer(c, outcome)))
  {
    var local := Of(s, c);
    if local.Running? {
      if InDoubt(outcome) {
        ReturnStep(s, c, local.request, outcome);
      } else {
        QuietStep(s, c, Answered(local.request, local.token, outcome));
      }
    }
  }

  lemma {:induction false} CompleteKeepsInv(s: State, c: Caller, fault: Fault)
    requires Inv(s) && Of(s, c).Answered?
    ensures Inv(Next(s, Complete(c, fault)))
  {
    var local := Of(s, c);
    if fault.NotCommitted? {
      ReturnStep(s, c, local.request, Err(Coded(IdempotencyInDoubt)));
    } else {
      FinishGrows(s, local.request, Some(local.token), local.outcome);
      var finish := FinishRow(Get(s, IdOf(local.request)), local.request, Some(local.token), local.outcome).1;
      ReturnStep(Finished(s, local.request, Some(local.token), local.outcome), c, local.request,
        if finish.Ok? && fault.Acked? then local.outcome else Err(Coded(IdempotencyInDoubt)));
    }
  }

  lemma {:induction false} RunKeepsInv(run: seq<Event>)
    ensures Inv(After(run))
  {
    if run != [] {
      RunKeepsInv(run[..|run| - 1]);
      NextKeepsInv(After(run[..|run| - 1]), run[|run| - 1]);
    }
  }

  // -------------------------------------------------------------- theorems

  /** One namespace, tool and key: the wrapped tool is never started twice. */
  lemma {:induction false} EachKeyRunsAtMostOnce(run: seq<Event>, i: nat, j: nat)
    requires i < j < |After(run).runs|
    ensures IdOf(After(run).runs[i]) != IdOf(After(run).runs[j])
  {
    RunKeepsInv(run);
  }

  /** All definitive answers for one key are the stored one, so they are all the same. */
  lemma {:induction false} DefinitiveAnswersAgree(run: seq<Event>, i: nat, j: nat)
    requires i < |After(run).given| && j < |After(run).given|
    requires Definitive(After(run).given[i].outcome) && Definitive(After(run).given[j].outcome)
    requires IdOf(After(run).given[i].request) == IdOf(After(run).given[j].request)
    ensures After(run).given[i] == After(run).given[j]
    ensures StoredAs(After(run), After(run).given[i])
  {
    RunKeepsInv(run);
    assert After(run).given[i] in After(run).given && After(run).given[j] in After(run).given;
  }

  /** What an event may do to the records: insert one without result, or supply `outcome` to one. */
  ghost predicate Settles(before: map<RowId, Row>, after: map<RowId, Row>, outcome: Option<Outcome>) {
    && (forall id | id in before :: id in after && Grows(before[id], after[id])
          && (after[id].result != before[id].result ==> outcome.Some? && after[id].result == outcome))
    && (forall id | id in after && id !in before :: after[id].result.None?)
  }

  lemma {:induction false} ClaimSettles(s: State, c: Caller, request: Request, token: string, fault: Fault)
    requires Inv(s)
    ensures Settles(s.rows, ClaimStep(s, c, request, token, fault).rows, None)
  {
    if Flaw(request).None? && !fault.NotCommitted? {
      var (row, claim) := ClaimRow(Get(s, IdOf(request)), request, token);
      assert Settles(s.rows, Put(s, IdOf(request), row).rows, None);
    }
  }

  lemma {:induction false} FinishSettles(s: State, request: Request, token: Option<string>, outcome: Outcome)
    requires Inv(s)
    ensures Settles(s.rows, Finished(s, request, token, outcome).rows, Some(outcome))
  {
    if IdOf(request) in s.rows { FinishRowGrows(s.rows[IdOf(request)], request, token, outcome); }
  }

  lemma {:induction false} FinishRowGrows(row: Row, request: Request, token: Option<string>, outcome: Outcome)
    ensures var after := FinishRow(Some(row), request, token, outcome).0;
      after.Some? && Grows(row, after.value)
      && (after.value.result == row.result || after.value.result == Some(outcome))
  {
  }

  /** The outcome that an event would store. */
  function Supplied(s: State, event: Event): Option<Outcome> {
    match event
    case Complete(c, _) => if Of(s, c).Answered? then Some(Of(s, c).outcome) else None
    case Reconcile(_, outcome, _) => Some(outcome)
    case _ => None
  }

  lemma {:induction false} NextSettles(s: State, event: Event)
    requires Inv(s)
    ensures Settles(s.rows, Next(s, event).rows, Supplied(s, event))
  {
    match event
    case Claim(c, request, token, fault) => ClaimSettles(s, c, request, token, fault);
    case Complete(c, fault) => if Of(s, c).Answered? { CompleteSettles(s, c, Of(s, c), fault); }
    case Reconcile(request, outcome, fault) => FinishSettles(s, request, None, outcome);
    case _ => assert Next(s, event).rows == s.rows;
  }

  lemma {:induction false} CompleteSettles(s: State, c: Caller, local: Local, fault: Fault)
    requires Inv(s) && local.Answered?
    ensures var t := CompleteStep(s, c, local.request, local.token, local.outcome, fault);
      Settles(s.rows, t.rows, Some(local.outcome))
  {
    FinishSettles(s, local.request, Some(local.token), local.outcome);
  }

  ghost predicate Kept(early: State, late: State, id: RowId)
    requires id in early.rows
  {
    id in late.rows && Grows(early.rows[id], late.rows[id])
  }

  lemma {:induction false} NextKeeps(early: State, s: State, event: Event, id: RowId)
    requires Inv(s) && id in early.rows && Kept(early, s, id)
    ensures Kept(early, Next(s, event), id)
  {
    NextSettles(s, event);
  }

  /** A record's request, owner and stored result outlive whatever happens next. */
  lemma {:induction false} RecordsOnlyGrow(run: seq<Event>, more: seq<Event>, id: RowId)
    requires id in After(run).rows
    ensures Kept(After(run), After(run + more), id)
  {
    if more == [] {
      assert run + more == run;
    } else {
      var init := more[..|more| - 1];
      RecordsOnlyGrow(run, init, id);
      RunKeepsInv(run + init);
      assert (run + more)[..|run + more| - 1] == run + init;
      NextKeeps(After(run), After(run + init), more[|more| - 1], id);
    }
  }

  ghost predicate Reconciles(event: Event, id: RowId, outcome: Outcome) {
    event.Reconcile? && IdOf(event.request) == id && event.outcome == outcome
  }

  ghost predicate AnswersSettled(s: State) {
    forall c | c in s.callers && s.callers[c].Answered? :: !InDoubt(s.callers[c].outcome)
  }

  lemma {:induction false} NextKeepsSettled(s: State, event: Event)
    requires AnswersSettled(s)
    ensures AnswersSettled(Next(s, event))
  {
    match event
    case Claim(c, request, token, fault) =>
      var t := ClaimStep(s, c, request, token, fault);
      assert AnswersSettled(t);
    case _ =>
  }

  lemma {:induction false} AnswersAreSettled(run: seq<Event>)
    ensures AnswersSettled(After(run))
  {
    if run != [] {
      AnswersAreSettled(run[..|run| - 1]);
      NextKeepsSettled(After(run[..|run| - 1]), run[|run| - 1]);
    }
  }

  /** An in-doubt result that one event stores is an operator's, and carries the tool's own code. */
  lemma {:induction false} InDoubtIsReconciled(s: State, event: Event, id: RowId)
    requires Inv(s) && AnswersSettled(s)
    requires id in Next(s, event).rows && Next(s, event).rows[id].result.Some?
    requires InDoubt(Next(s, event).rows[id].result.value)
    ensures var result := Next(s, event).rows[id].result.value;
      || (id in s.rows && s.rows[id].result == Some(result))
      || (Reconciles(event, id, result) && HasCode(result, ToolExecutionInDoubt))
  {
    NextSettles(s, event);
    if !(id in s.rows && s.rows[id].result == Next(s, event).rows[id].result) {
      assert id in s.rows && Supplied(s, event) == Next(s, event).rows[id].result;
      assert event.Reconcile?;
    }
  }

  /**
   * A stored result is in doubt only because an operator supplied exactly that result, with the
   * tool's own in-doubt code; the callers themselves never store one.
   */
  lemma {:induction false} InDoubtIsStoredByOperators(run: seq<Event>, id: RowId)
    requires id in After(run).rows && After(run).rows[id].result.Some?
    requires InDoubt(After(run).rows[id].result.value)
    ensures HasCode(After(run).rows[id].result.value, ToolExecutionInDoubt)
    ensures exists event :: event in run && Reconciles(event, id, After(run).rows[id].result.value)
  {
    if run != [] {
      var init, event := run[..|run| - 1], run[|run| - 1];
      var result := After(run).rows[id].result.value;
      RunKeepsInv(init);
      AnswersAreSettled(init);
      InDoubtIsReconciled(After(init), event, id);
      if Reconciles(event, id, result) && HasCode(result, ToolExecutionInDoubt) {
        assert event in run;
      } else {
        InDoubtIsStoredByOperators(init, id);
        var earlier :| earlier in init && Reconciles(earlier, id, result);
        assert earlier in run;
      }
    }
  }

  /** An operator's in-doubt result for a record that its owner abandoned does get stored. */
  lemma {:induction false} OperatorsMayStoreInDoubt(request: Request, c: Caller, token: string, outcome: Outcome)
    requires Flaw(request).None? && HasCode(outcome, ToolExecutionInDoubt)
    ensures var run := [Event.Claim(c, request, token, Acked), Crash(c), Reconcile(request, outcome, Acked)];
      var rows := After(run).rows;
      IdOf(request) in rows && rows[IdOf(request)].result == Some(outcome) && InDoubt(outcome)
  {
    var run := [Event.Claim(c, request, token, Acked), Crash(c), Reconcile(request, outcome, Acked)];
    assert run[..2] == [Event.Claim(c, request, token, Acked), Crash(c)];
    assert run[..2][..1] == [Event.Claim(c, request, token, Acked)];
    assert run[..2][..1][..0] == [];
    var first := Next(INITIAL, run[0]);
    assert After(run[..2][..1]) == first;
    assert After(run[..2]) == Next(first, Crash(c));
  }
}
