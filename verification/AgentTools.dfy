/**
 * The two layers together: agent instances that share a session let approved tools loose, and each
 * tool is wrapped in the durable idempotency layer.
 */
module AgentTools {
  import opened Messages
  import Idempotency
  import Layer = IdempotencyProtocol
  import Session = AgentSession

  /** One approved call of an execution, by its position among the calls. */
  datatype Approval = Approval(phase: Session.Phase, i: nat)

  /** The wrapper's namespace for each tool name. */
  type Namespaces = string -> string

  datatype State = State(
    session: Session.Session, layer: Layer.State, owners: map<Layer.Caller, Approval>, runs: seq<Approval>)

  datatype Event =
    | Agent(session: Session.Event)
    | CallTool(w: Session.Worker, i: nat, c: Layer.Caller, token: string, fault: Fault)
    | Tool(layer: Layer.Event)

  const INITIAL := State(Session.INITIAL, Layer.INITIAL, map[], [])

  /** The idempotency key of one call of one execution. */
  function KeyText(execution: string, callId: string): string {
    execution + ":" + callId
  }

  function CallOf(a: Approval): Session.Call
    requires Session.Approved(a.phase, a.i)
  {
    a.phase.calls[a.i]
  }

  function RequestOf(namespaces: Namespaces, a: Approval): Idempotency.Request
    requires Session.Approved(a.phase, a.i)
  {
    var call := CallOf(a);
    var key := KeyText(a.phase.execution, call.id);
    Idempotency.Request(namespaces(call.name), call.name, call.input, Idempotency.Context(Idempotency.Key(key), ""))
  }

  function Claimed(namespaces: Namespaces, s: State, a: Approval, c: Layer.Caller, token: string, fault: Fault): State
    requires Session.Approved(a.phase, a.i)
  {
    s.(layer := Layer.Next(s.layer, Layer.Claim(c, RequestOf(namespaces, a), token, fault)), owners := s.owners[c := a])
  }

  /** One step of either layer. Tools are called only from a batch, and only its approved calls. */
  function Next(namespaces: Namespaces, s: State, event: Event): State {
    match event
    case Agent(e) => s.(session := Session.Next(s.session, e))
    case CallTool(w, i, c, token, fault) =>
      var agent := Session.Of(s.session, w);
      if agent.at.Batch? && Session.Approved(agent.phase, i) && Layer.Of(s.layer, c).Idle?
      then Claimed(namespaces, s, Approval(agent.phase, i), c, token, fault) else s
    case Tool(e) =>
      if e.Claim? then s
      else
        var t := s.(layer := Layer.Next(s.layer, e));
        if e.Start? && Layer.Of(s.layer, e.c).Claimed? && e.c in s.owners
        then t.(runs := s.runs + [s.owners[e.c]]) else t
  }

  function After(namespaces: Namespaces, run: seq<Event>): State {
    if run == [] then INITIAL else Next(namespaces, After(namespaces, run[..|run| - 1]), run[|run| - 1])
  }

  // -------------------------------------------------------------- invariant

  /** The approval is part of an execution that the session committed. */
  ghost predicate Backed(s: State, a: Approval) {
    a.phase in s.session.commits && Session.Approved(a.phase, a.i)
  }

  ghost predicate Owns(namespaces: Namespaces, s: State, c: Layer.Caller, local: Layer.Local) {
    !local.Idle? ==>
      c in s.owners && Backed(s, s.owners[c]) && local.request == RequestOf(namespaces, s.owners[c])
  }

  ghost predicate Owners(namespaces: Namespaces, s: State) {
    forall c | c in s.layer.callers :: Owns(namespaces, s, c, s.layer.callers[c])
  }

  ghost predicate RunsMatch(namespaces: Namespaces, s: State) {
    && |s.runs| == |s.layer.runs|
    && forall k | 0 <= k < |s.runs| ::
         Backed(s, s.runs[k]) && s.layer.runs[k] == RequestOf(namespaces, s.runs[k])
  }

  ghost predicate Inv(namespaces: Namespaces, s: State) {
    Session.Inv(s.session) && Layer.Inv(s.layer) && Owners(namespaces, s) && RunsMatch(namespaces, s)
  }

  /** How one step of the tool layer moves its callers and its record of runs. */
  ghost predicate LayerMoves(s: Layer.State, t: Layer.State, c: Layer.Caller, started: bool) {
    && (forall b | b in t.callers && b != c :: b in s.callers && t.callers[b] == s.callers[b])
    && (c in t.callers && !t.callers[c].Idle? ==>
          !Layer.Of(s, c).Idle? && t.callers[c].request == Layer.Of(s, c).request)
    && t.runs == (if started && Layer.Of(s, c).Claimed? then s.runs + [Layer.Of(s, c).request] else s.runs)
  }

  lemma {:induction false} LayerMovesOn(s: Layer.State, e: Layer.Event)
    requires !e.Claim?
    ensures LayerMoves(s, Layer.Next(s, e), if e.Reconcile? then 0 else e.c, e.Start?)
  {
  }

  lemma {:induction false} ToolKeepsInv(namespaces: Namespaces, s: State, e: Layer.Event)
    requires Inv(namespaces, s) && !e.Claim?
    ensures Inv(namespaces, Next(namespaces, s, Tool(e)))
  {
    Layer.NextKeepsInv(s.layer, e);
    LayerMovesOn(s.layer, e);
    var c := if e.Reconcile? then 0 else e.c;
    assert Owns(namespaces, s, c, Layer.Of(s.layer, c));
    MovesKeepInv(namespaces, s, Next(namespaces, s, Tool(e)), c, e.Start?);
  }

  /** A move of one caller that claims nothing keeps what is known of owners and runs. */
  lemma {:induction false} MovesKeepInv(namespaces: Namespaces, s: State, t: State, c: Layer.Caller, started: bool)
    requires Inv(namespaces, s) && Layer.Inv(t.layer) && LayerMoves(s.layer, t.layer, c, started)
    requires Owns(namespaces, s, c, Layer.Of(s.layer, c))
    requires t.session == s.session && t.owners == s.owners
    requires t.runs == if started && Layer.Of(s.layer, c).Claimed? then s.runs + [s.owners[c]] else s.runs
    ensures Inv(namespaces, t)
  {
    forall b | b in t.layer.callers ensures Owns(namespaces, t, b, t.layer.callers[b]) {
      assert Owns(namespaces, s, b, Layer.Of(s.layer, b));
    }
    forall k | 0 <= k < |t.runs|
      ensures Backed(t, t.runs[k]) && t.layer.runs[k] == RequestOf(namespaces, t.runs[k])
    {
      if k < |s.runs| { assert Backed(s, s.runs[k]); }
    }
  }

  lemma {:induction false} ClaimMoves(
      s: Layer.State, c: Layer.Caller, request: Idempotency.Request, token: string, fault: Fault)
    requires Layer.Of(s, c).Idle? && !request.context.key.Absent?
    ensures var t := Layer.Next(s, Layer.Claim(c, request, token, fault));
      && t.runs == s.runs
      && t.callers == s.callers[c := Layer.Of(t, c)]
      && (!Layer.Of(t, c).Idle? ==> Layer.Of(t, c).request == request)
  {
  }

  lemma {:induction false} CallKeepsInv(
    namespaces: Namespaces, s: State, a: Approval, c: Layer.Caller, token: string, fault: Fault)
    requires Inv(namespaces, s) && Backed(s, a) && Layer.Of(s.layer, c).Idle?
    ensures Inv(namespaces, Claimed(namespaces, s, a, c, token, fault))
  {
    var t := Claimed(namespaces, s, a, c, token, fault);
    var request := RequestOf(namespaces, a);
    Layer.NextKeepsInv(s.layer, Layer.Claim(c, request, token, fault));
    ClaimMoves(s.layer, c, request, token, fault);
    forall b | b in t.layer.callers ensures Owns(namespaces, t, b, t.layer.callers[b]) {
      if b != c { assert Owns(namespaces, s, b, s.layer.callers[b]); }
    }
    assert RunsMatch(namespaces, t);
  }

  lemma {:induction false} AgentKeepsInv(namespaces: Namespaces, s: State, e: Session.Event)
    requires Inv(namespaces, s)
    ensures Inv(namespaces, Next(namespaces, s, Agent(e)))
  {
    var t := Next(namespaces, s, Agent(e));
    Session.NextKeepsInv(s.session, e);
    Session.NextAppends(s.session, e);
    forall b | b in t.layer.callers ensures Owns(namespaces, t, b, t.layer.callers[b]) {
      assert Owns(namespaces, s, b, s.layer.callers[b]);
    }
    forall k | 0 <= k < |t.runs|
      ensures Backed(t, t.runs[k]) && t.layer.runs[k] == RequestOf(namespaces, t.runs[k])
    {
      assert Backed(s, s.runs[k]);
    }
  }

  lemma {:induction false} NextKeepsInv(namespaces: Namespaces, s: State, event: Event)
    requires Inv(namespaces, s)
    ensures Inv(namespaces, Next(namespaces, s, event))
  {
    match event
    case Agent(e) => AgentKeepsInv(namespaces, s, e);
    case CallTool(w, i, c, token, fault) =>
      var agent := Session.Of(s.session, w);
      if agent.at.Batch? && Session.Approved(agent.phase, i) && Layer.Of(s.layer, c).Idle? {
        assert Session.Holds(s.session.commits, agent);
        CallKeepsInv(namespaces, s, Approval(agent.phase, i), c, token, fault);
      }
    case Tool(e) => if !e.Claim? { ToolKeepsInv(namespaces, s, e); }
  }

  lemma {:induction false} RunKeepsInv(namespaces: Namespaces, run: seq<Event>)
    ensures Inv(namespaces, After(namespaces, run))
  {
    if run != [] {
      RunKeepsInv(namespaces, run[..|run| - 1]);
      NextKeepsInv(namespaces, After(namespaces, run[..|run| - 1]), run[|run| - 1]);
    }
  }

  // --------------------------------------------------------------- theorems

  lemma {:induction false} SamePhase(commits: seq<Session.Phase>, p: Session.Phase, q: Session.Phase)
    requires Session.Stable(commits) && p in commits && q in commits
    requires p.Executing? && q.Executing? && p.reply == q.reply
    ensures p == q
  {
    var j :| 0 <= j < |commits| && commits[j] == p;
    var k :| 0 <= k < |commits| && commits[k] == q;
    assert j < k ==> commits[k] == commits[j];
    assert k < j ==> commits[j] == commits[k];
  }

  /**
   * Over all resumes, retries, crashes and competing instances, the tool behind one call of one
   * reply is started at most once.
   */
  lemma {:induction false} EachCallRunsAtMostOnce(namespaces: Namespaces, run: seq<Event>, j: nat, k: nat)
    requires j < k < |After(namespaces, run).runs|
    ensures var runs := After(namespaces, run).runs;
      && Session.Approved(runs[j].phase, runs[j].i) && Session.Approved(runs[k].phase, runs[k].i)
      && !(runs[j].phase.reply == runs[k].phase.reply
           && CallOf(runs[j]).id == CallOf(runs[k]).id && CallOf(runs[j]).name == CallOf(runs[k]).name)
  {
    RunKeepsInv(namespaces, run);
    var s := After(namespaces, run);
    assert Backed(s, s.runs[j]) && Backed(s, s.runs[k]);
    if s.runs[j].phase.reply == s.runs[k].phase.reply {
      SamePhase(s.session.commits, s.runs[j].phase, s.runs[k].phase);
      assert Idempotency.IdOf(s.layer.runs[j]) != Idempotency.IdOf(s.layer.runs[k]);
    }
  }

  ghost predicate DistinctIds(calls: seq<Session.Call>) {
    forall i, j | 0 <= i < j < |calls| :: calls[i].id != calls[j].id
  }

  /** When the calls of a reply have distinct identifiers, the identifier alone names the call. */
  lemma {:induction false} EachCallIdRunsAtMostOnce(namespaces: Namespaces, run: seq<Event>, j: nat, k: nat)
    requires j < k < |After(namespaces, run).runs|
    requires var a := After(namespaces, run).runs[j];
      a.phase.Executing? && DistinctIds(a.phase.calls)
    ensures var runs := After(namespaces, run).runs;
      && Session.Approved(runs[j].phase, runs[j].i) && Session.Approved(runs[k].phase, runs[k].i)
      && !(runs[j].phase.reply == runs[k].phase.reply && CallOf(runs[j]).id == CallOf(runs[k]).id)
  {
    EachCallRunsAtMostOnce(namespaces, run, j, k);
    RunKeepsInv(namespaces, run);
    var s := After(namespaces, run);
    assert Backed(s, s.runs[j]) && Backed(s, s.runs[k]);
    if s.runs[j].phase.reply == s.runs[k].phase.reply && CallOf(s.runs[j]).id == CallOf(s.runs[k]).id {
      SamePhase(s.session.commits, s.runs[j].phase, s.runs[k].phase);
    }
  }

  /** A call that was denied in the session's committed execution never runs, at whatever position. */
  lemma {:induction false} DeniedNeverRuns(
      namespaces: Namespaces, run: seq<Event>, phase: Session.Phase, id: string, k: nat)
    requires phase in After(namespaces, run).session.commits && phase.Executing?
    requires id in phase.decisions && !phase.decisions[id]
    requires k < |After(namespaces, run).runs|
    ensures var a := After(namespaces, run).runs[k];
      Session.Approved(a.phase, a.i) && !(a.phase.reply == phase.reply && CallOf(a).id == id)
  {
    RunKeepsInv(namespaces, run);
    var s := After(namespaces, run);
    assert Backed(s, s.runs[k]);
    if s.runs[k].phase.reply == phase.reply {
      SamePhase(s.session.commits, s.runs[k].phase, phase);
    }
  }

  predicate NoColon(text: string) {
    ':' !in text
  }

  /** Keys determine both parts when execution identifiers hold no colon. */
  lemma {:induction false} KeysAreInjective(e: string, x: string, f: string, y: string)
    requires NoColon(e) && NoColon(f) && KeyText(e, x) == KeyText(f, y)
    ensures e == f && x == y
  {
    var key := KeyText(e, x);
    assert key[|e|] == ':' && key[|f|] == ':';
    assert (forall i | 0 <= i < |e| :: key[i] == e[i]) && (forall i | 0 <= i < |f| :: key[i] == f[i]);
    assert e == key[..|e|] && f == key[..|f|];
    assert x == key[|e| + 1..] && y == key[|f| + 1..];
  }

  /** Two running calls with one key are the same call of the same reply: answers never cross over. */
  lemma {:induction false} KeysIdentifyCalls(namespaces: Namespaces, run: seq<Event>, j: nat, k: nat)
    requires j < |After(namespaces, run).runs| && k < |After(namespaces, run).runs|
    requires var runs := After(namespaces, run).runs;
      && Session.Approved(runs[j].phase, runs[j].i) && Session.Approved(runs[k].phase, runs[k].i)
      && NoColon(runs[j].phase.execution) && NoColon(runs[k].phase.execution)
      && KeyText(runs[j].phase.execution, CallOf(runs[j]).id) == KeyText(runs[k].phase.execution, CallOf(runs[k]).id)
    ensures var runs := After(namespaces, run).runs;
      runs[j].phase == runs[k].phase && CallOf(runs[j]).id == CallOf(runs[k]).id
  {
    RunKeepsInv(namespaces, run);
    var s := After(namespaces, run);
    var a, b := s.runs[j], s.runs[k];
    KeysAreInjective(a.phase.execution, CallOf(a).id, b.phase.execution, CallOf(b).id);
    assert Backed(s, a) && Backed(s, b);
    CommittedIsDrawn(s.session, a.phase);
    CommittedIsDrawn(s.session, b.phase);
    SamePhase(s.session.commits, a.phase, b.phase);
  }

  lemma {:induction false} CommittedIsDrawn(s: Session.Session, phase: Session.Phase)
    requires Session.Inv(s) && phase in s.commits
    ensures Session.Drawn(s, phase)
  {
    var k :| 0 <= k < |s.commits| && s.commits[k] == phase;
    assert Session.Drawn(s, s.commits[k]);
  }

  /** What a wrapped tool is run with: its own call's name and input, under a key of that call and its execution. */
  lemma {:induction false} RunsCarryCalls(namespaces: Namespaces, run: seq<Event>, k: nat)
    requires k < |After(namespaces, run).runs|
    ensures var s := After(namespaces, run);
      && k < |s.layer.runs| && s.runs[k].phase.Executing? && s.runs[k].i < |s.runs[k].phase.calls|
      && var call, request := s.runs[k].phase.calls[s.runs[k].i], s.layer.runs[k];
         && request.tool == call.name && request.namespace == namespaces(call.name) && request.input == call.input
         && request.context.key == Idempotency.Key(s.runs[k].phase.execution + ":" + call.id)
  {
    RunKeepsInv(namespaces, run);
    assert Backed(After(namespaces, run), After(namespaces, run).runs[k]);
  }

  /** An approved call that was never claimed runs when a batch lets it loose: at most once, but not less. */
  lemma {:induction false} ApprovedCallRuns(
    namespaces: Namespaces, run: seq<Event>, w: Session.Worker, i: nat, c: Layer.Caller, token: string)
    requires var s := After(namespaces, run);
      && Layer.Of(s.layer, c).Idle? && Session.Of(s.session, w).at.Batch?
      && Session.Approved(Session.Of(s.session, w).phase, i)
      && var request := RequestOf(namespaces, Approval(Session.Of(s.session, w).phase, i));
         Idempotency.Flaw(request).None? && Idempotency.IdOf(request) !in s.layer.rows
    ensures var s := After(namespaces, run);
      After(namespaces, run + [CallTool(w, i, c, token, Acked), Tool(Layer.Start(c))]).runs
      == s.runs + [Approval(Session.Of(s.session, w).phase, i)]
  {
    var s, call, start := After(namespaces, run), CallTool(w, i, c, token, Acked), Tool(Layer.Start(c));
    var request := RequestOf(namespaces, Approval(Session.Of(s.session, w).phase, i));
    assert (run + [call])[..|run|] == run;
    assert (run + [call, start])[..|run| + 1] == run + [call];
    assert After(namespaces, run + [call]) == Next(namespaces, s, call);
    assert After(namespaces, run + [call, start]) == Next(namespaces, Next(namespaces, s, call), start);
    assert Layer.Of(Next(namespaces, s, call).layer, c) == Layer.Claimed(request, token);
  }
}
