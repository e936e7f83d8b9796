/** A call of the wrapped tool, and an operator's reconciliation, as callers of the shared table. */
module IdempotencyRefinement {
  import opened Messages
  import opened Idempotency
  import Protocol = IdempotencyProtocol

  /** One call, from claim to record; a call that stops early cannot take the later ones. */
  function ExecuteEvents(
    c: Protocol.Caller, request: Request, token: string, inner: Outcome, claimFault: Fault, completeFault: Fault)
    : seq<Protocol.Event>
  {
    [Protocol.Claim(c, request, token, claimFault), Protocol.Start(c), Protocol.Answer(c, inner),
     Protocol.Complete(c, completeFault)]
  }

  lemma {:induction false} AfterOne(run: seq<Protocol.Event>, e: Protocol.Event)
    ensures Protocol.After(run + [e]) == Protocol.Next(Protocol.After(run), e)
  {
    assert (run + [e])[..|run|] == run;
  }

  lemma {:induction false} AfterCall(
    run: seq<Protocol.Event>, a: Protocol.Event, b: Protocol.Event, d: Protocol.Event, e: Protocol.Event)
    ensures Protocol.After(run + [a, b, d, e])
         == Protocol.Next(Protocol.Next(Protocol.Next(Protocol.Next(Protocol.After(run), a), b), d), e)
  {
    AfterOne(run, a);
    AfterOne(run + [a], b);
    AfterOne(run + [a] + [b], d);
    AfterOne(run + [a] + [b] + [d], e);
    assert run + [a] + [b] + [d] + [e] == run + [a, b, d, e];
  }

  /** From `s` to `t`, caller `c` alone moved: it was given `outcome`, and ran the tool or not. */
  ghost predicate Called(
    s: Protocol.State, t: Protocol.State, c: Protocol.Caller, request: Request, outcome: Outcome, ran: bool,
    rows: map<RowId, Row>)
  {
    && t.rows == rows && Protocol.Of(t, c).Idle? && t.callers == s.callers[c := Protocol.Of(t, c)]
    && t.given == s.given + [Protocol.Return(request, outcome)]
    && t.runs == s.runs + (if ran then [request] else [])
  }

  /** What is left of a call that has ended changes nothing. */
  lemma {:induction false} EndedCall(t: Protocol.State, c: Protocol.Caller, inner: Outcome, completeFault: Fault)
    requires Protocol.Of(t, c).Idle?
    ensures Protocol.Next(Protocol.Next(Protocol.Next(t, Protocol.Start(c)), Protocol.Answer(c, inner)),
              Protocol.Complete(c, completeFault)) == t
  {
    assert Protocol.Next(t, Protocol.Start(c)) == t;
    assert Protocol.Next(t, Protocol.Answer(c, inner)) == t;
  }

  /** A claim that does not acquire ends the call. */
  lemma {:induction false} UnrunCall(
    s: Protocol.State, c: Protocol.Caller, request: Request, token: string, claimFault: Fault)
    requires Protocol.Of(s, c).Idle? && !request.context.key.Absent?
    requires !(Flaw(request).None? && Protocol.Get(s, IdOf(request)).None? && claimFault.Acked?)
    ensures Called(s, Protocol.Next(s, Protocol.Claim(c, request, token, claimFault)), c, request,
      if Flaw(request).Some? then Err(Flaw(request).value)
      else Unrun(ClaimRow(Protocol.Get(s, IdOf(request)), request, token).1, claimFault),
      false,
      if Flaw(request).None? && Protocol.Get(s, IdOf(request)).None? && claimFault.AckLost?
      then s.rows[IdOf(request) := Row(request, token, None)] else s.rows)
  {
    Protocol.PutSame(s, IdOf(request));
  }

  lemma {:induction false} AcquiredCall(s: Protocol.State, c: Protocol.Caller, request: Request, token: string)
    requires Protocol.Of(s, c).Idle? && !request.context.key.Absent?
    requires Flaw(request).None? && Protocol.Get(s, IdOf(request)).None?
    ensures var row := Row(request, token, None);
      Protocol.Next(Protocol.Next(s, Protocol.Claim(c, request, token, Acked)), Protocol.Start(c))
      == Protocol.State(s.rows[IdOf(request) := row],
           s.callers[c := Protocol.Claimed(request, token)][c := Protocol.Local.Running(request, token)],
           s.runs + [request], s.given)
  {
    var t := Protocol.Next(s, Protocol.Claim(c, request, token, Acked));
    assert t == Protocol.At(s.(rows := s.rows[IdOf(request) := Row(request, token, None)]), c,
                            Protocol.Claimed(request, token));
  }

  lemma {:induction false} AnsweredCall(
    t: Protocol.State, c: Protocol.Caller, request: Request, token: string, inner: Outcome, completeFault: Fault)
    requires Protocol.Of(t, c) == Protocol.Local.Running(request, token) && Flaw(request).None?
    requires Protocol.Get(t, IdOf(request)) == Some(Row(request, token, None))
    ensures var u := Protocol.Next(Protocol.Next(t, Protocol.Answer(c, inner)), Protocol.Complete(c, completeFault));
      Called(t, u, c, request,
        if InDoubt(inner) || completeFault.Acked? then inner else Err(Coded(IdempotencyInDoubt)), false,
        if InDoubt(inner) || completeFault.NotCommitted? then t.rows
        else t.rows[IdOf(request) := Row(request, token, Some(inner))])
  {
    var answered := Protocol.Next(t, Protocol.Answer(c, inner));
    if InDoubt(inner) {
      assert Protocol.Next(answered, Protocol.Complete(c, completeFault)) == answered;
    } else {
      var row := Row(request, token, None);
      assert Protocol.Of(answered, c) == Protocol.Answered(request, token, inner);
      assert FinishRow(Some(row), request, Some(token), inner) == (Some(row.(result := Some(inner))), Ok(()));
    }
  }

  /** A claim that acquires runs the tool once, and records its answer unless that is in doubt. */
  lemma {:induction false} RunCall(
    s: Protocol.State, c: Protocol.Caller, request: Request, token: string, inner: Outcome, completeFault: Fault)
    requires Protocol.Of(s, c).Idle? && !request.context.key.Absent?
    requires Flaw(request).None? && Protocol.Get(s, IdOf(request)).None?
    ensures var t := Protocol.Next(Protocol.Next(s, Protocol.Claim(c, request, token, Acked)), Protocol.Start(c));
      var u := Protocol.Next(Protocol.Next(t, Protocol.Answer(c, inner)), Protocol.Complete(c, completeFault));
      Called(s, u, c, request,
        if InDoubt(inner) || completeFault.Acked? then inner else Err(Coded(IdempotencyInDoubt)), true,
        s.rows[IdOf(request) := Row(request, token,
          if InDoubt(inner) || completeFault.NotCommitted? then None else Some(inner))])
  {
    AcquiredCall(s, c, request, token);
    var t := Protocol.Next(Protocol.Next(s, Protocol.Claim(c, request, token, Acked)), Protocol.Start(c));
    AnsweredCall(t, c, request, token, inner, completeFault);
  }

  /**
   * Among any other callers of one table, wherever they stand, a call is a stretch of the protocol:
   * it leaves the table and gives the answer of that stretch, and never runs a tool that has run.
   */
  method ExecuteInProtocol(
    store: SQLiteIdempotencyStore, request: Request, token: string, inner: Outcome,
    claimFault: Fault, completeFault: Fault, ghost run: seq<Protocol.Event>, ghost c: Protocol.Caller)
    returns (outcome: Outcome, ran: bool, ghost events: seq<Protocol.Event>)
    requires store.rows == Protocol.After(run).rows && Protocol.Of(Protocol.After(run), c).Idle?
    requires !request.context.key.Absent?
    modifies store
    ensures events == ExecuteEvents(c, request, token, inner, claimFault, completeFault)
    ensures Called(Protocol.After(run), Protocol.After(run + events), c, request, outcome, ran, store.rows)
    ensures ran ==> forall r | r in Protocol.After(run).runs :: IdOf(r) != IdOf(request)
    ensures forall r | r in Protocol.After(run).given && IdOf(r.request) == IdOf(request) ::
      Definitive(r.outcome) && Definitive(outcome) ==> r == Protocol.Return(request, outcome)
  {
    ghost var s := Protocol.After(run);
    events := ExecuteEvents(c, request, token, inner, claimFault, completeFault);
    AfterCall(run, events[0], events[1], events[2], events[3]);
    outcome, ran := Execute(store, request, token, inner, claimFault, completeFault);
    if ran {
      RunCall(s, c, request, token, inner, completeFault);
    } else {
      UnrunCall(s, c, request, token, claimFault);
      EndedCall(Protocol.Next(s, events[0]), c, inner, completeFault);
    }
    NeverAgain(run, events, request, outcome, ran);
  }

  lemma {:induction false} NeverAgain(
    run: seq<Protocol.Event>, events: seq<Protocol.Event>, request: Request, outcome: Outcome, ran: bool)
    requires var s, t := Protocol.After(run), Protocol.After(run + events);
      && t.given == s.given + [Protocol.Return(request, outcome)]
      && t.runs == s.runs + (if ran then [request] else [])
    ensures ran ==> forall r | r in Protocol.After(run).runs :: IdOf(r) != IdOf(request)
    ensures forall r | r in Protocol.After(run).given && IdOf(r.request) == IdOf(request) ::
      Definitive(r.outcome) && Definitive(outcome) ==> r == Protocol.Return(request, outcome)
  {
    var s, t := Protocol.After(run), Protocol.After(run + events);
    forall r | ran && r in s.runs ensures IdOf(r) != IdOf(request) {
      var i :| 0 <= i < |s.runs| && s.runs[i] == r;
      Protocol.EachKeyRunsAtMostOnce(run + events, i, |s.runs|);
    }
    forall r | r in s.given && IdOf(r.request) == IdOf(request) && Definitive(r.outcome) && Definitive(outcome)
      ensures r == Protocol.Return(request, outcome)
    {
      var i :| 0 <= i < |s.given| && s.given[i] == r;
      Protocol.DefinitiveAnswersAgree(run + events, i, |s.given|);
    }
  }

  /** An operator's reconciliation is one event of the protocol. */
  method ReconcileInProtocol(
    store: SQLiteIdempotencyStore, request: Request, outcome: Outcome, fault: Fault, ghost run: seq<Protocol.Event>)
    returns (r: Result<(), ToolError>)
    requires store.rows == Protocol.After(run).rows
    modifies store
    ensures Protocol.After(run + [Protocol.Reconcile(request, outcome, fault)])
         == Protocol.After(run).(rows := store.rows)
    ensures r.Ok? ==> IdOf(request) in store.rows && store.rows[IdOf(request)].result == Some(outcome)
  {
    AfterOne(run, Protocol.Reconcile(request, outcome, fault));
    r := store.Finish(request, None, outcome, fault);
  }
}
