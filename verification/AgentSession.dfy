/**
 * One persisted agent session shared by any number of agent instances: operations load it, work on
 * it in memory and save it by compare-and-swap, with crashes, dropped futures and lost reports.
 */
module AgentSession {
  import opened Messages

  const MAX_REVISION: nat := 0xFFFF_FFFF_FFFF_FFFF

  type Worker = nat
  type ReplyId = string

  datatype Call = Call(id: string, name: string, input: string)

  /** What a session waits for; `decisions` says for each call id whether it was approved. */
  datatype Phase =
    | Free
    | Confirming(reply: ReplyId, calls: seq<Call>)
    | Executing(reply: ReplyId, calls: seq<Call>, execution: string, decisions: map<string, bool>)

  /** Every call has a decision, and there is no other. */
  predicate Decided(calls: seq<Call>, decisions: map<string, bool>) {
    && (forall i | 0 <= i < |calls| :: calls[i].id in decisions)
    && (forall id | id in decisions :: exists i | 0 <= i < |calls| :: calls[i].id == id)
  }

  predicate Approved(phase: Phase, i: nat) {
    && phase.Executing? && i < |phase.calls|
    && phase.calls[i].id in phase.decisions && phase.decisions[phase.calls[i].id]
  }

  /** Where an instance's current operation stands; `expected` is the revision its next save expects. */
  datatype Point =
    | Off
    | Begun(expected: Option<nat>)
    | Batch(expected: Option<nat>)
    | Finishing(expected: Option<nat>)

  /** An agent instance: its phase in memory, which outlives its operations, and its operation. */
  datatype Agent = Agent(phase: Phase, at: Point)

  datatype Record = Record(revision: nat, phase: Phase)

  /** A batch of approved tools let loose for one reply; `retry` when an explicit retry claimed it. */
  datatype Dispatch = Dispatch(reply: ReplyId, revision: nat, retry: bool)

  /**
   * `commits` and `batches` are histories; `replies` and `authors` record which message and
   * execution identifiers were ever drawn, which is all that makes new ones new.
   */
  datatype Session = Session(
    store: Option<Record>, agents: map<Worker, Agent>,
    commits: seq<Phase>, batches: seq<Dispatch>, replies: set<ReplyId>, authors: map<string, ReplyId>)

  const INITIAL := Session(None, map[], [], [], {}, map[])

  datatype Event =
    | Begin(w: Worker)
    | Fail(w: Worker)
    | Continue(w: Worker, pause: Option<(ReplyId, seq<Call>)>)
    | Authorize(w: Worker, decisions: map<string, bool>, execution: string, fault: Fault)
    | DenyAll(w: Worker, decisions: map<string, bool>)
    | Retry(w: Worker, fault: Fault)
    | Resolve(w: Worker)
    | Settle(w: Worker, inDoubt: bool)
    | Finish(w: Worker, fault: Fault)
    | Drop(w: Worker)
    | Crash(w: Worker)

  function Of(s: Session, w: Worker): Agent {
    if w in s.agents then s.agents[w] else Agent(Free, Off)
  }

  function At(s: Session, w: Worker, agent: Agent): Session {
    s.(agents := s.agents[w := agent])
  }

  function Revision(store: Option<Record>): Option<nat> {
    match store case None => None case Some(record) => Some(record.revision)
  }

  predicate Commits(s: Session, expected: Option<nat>, fault: Fault) {
    && !fault.NotCommitted? && Revision(s.store) == expected
    && (match expected case None => true case Some(revision) => revision < MAX_REVISION)
  }

  /** The session after a save of `phase` that commits. */
  function Committed(s: Session, phase: Phase): Session {
    var revision := (match s.store case None => 0 case Some(record) => record.revision) + 1;
    s.(store := Some(Record(revision, phase)), commits := s.commits + [phase])
  }

  /** The claim that precedes a batch: only its acknowledged commit lets tools run. */
  function ClaimBatch(s: Session, w: Worker, phase: Phase, expected: Option<nat>, retry: bool, fault: Fault): Session
    requires phase.Executing?
  {
    if !Commits(s, expected, fault) then At(s, w, Agent(phase, Finishing(expected)))
    else
      var t := Committed(s, phase);
      if fault.AckLost? then At(t, w, Agent(phase, Finishing(expected)))
      else
        var revision := t.store.value.revision;
        At(t, w, Agent(phase, Batch(Some(revision))))
          .(batches := t.batches + [Dispatch(phase.reply, revision, retry)])
  }

  /** One step of one instance; an event that it cannot take changes nothing. */
  function Next(s: Session, event: Event): Session {
    var agent := Of(s, event.w);
    var phase, at := agent.phase, agent.at;
    match event
    case Begin(w) =>
      if at.Off?
      then At(s, w, Agent(if s.store.Some? then s.store.value.phase else phase, Begun(Revision(s.store)))) else s
    case Fail(w) => if at.Begun? then At(s, w, Agent(phase, Finishing(at.expected))) else s
    case Continue(w, pause) =>
      if !at.Begun? || !phase.Free? then s
      else if pause.None? then At(s, w, Agent(Free, Finishing(at.expected)))
      else if pause.value.0 in s.replies then s
      else
        var (reply, calls) := pause.value;
        At(s, w, Agent(Confirming(reply, calls), Finishing(at.expected))).(replies := s.replies + {reply})
    case Authorize(w, decisions, execution, fault) =>
      if at.Begun? && phase.Confirming? && Decided(phase.calls, decisions) && execution !in s.authors
         && exists id | id in decisions :: decisions[id]
      then
        ClaimBatch(s.(authors := s.authors[execution := phase.reply]), w,
          Executing(phase.reply, phase.calls, execution, decisions), at.expected, false, fault)
      else s
    case DenyAll(w, decisions) =>
      if at.Begun? && phase.Confirming? && Decided(phase.calls, decisions)
         && forall id | id in decisions :: !decisions[id]
      then At(s, w, Agent(Free, at)) else s
    case Retry(w, fault) =>
      if at.Begun? && phase.Executing? then ClaimBatch(s, w, phase, at.expected, true, fault) else s
    case Resolve(w) => if at.Begun? && phase.Executing? then At(s, w, Agent(Free, at)) else s
    case Settle(w, inDoubt) =>
      if !at.Batch? then s
      else if inDoubt then At(s, w, Agent(phase, Finishing(at.expected)))
      else At(s, w, Agent(Free, Begun(at.expected)))
    case Finish(w, fault) =>
      if !at.Finishing? then s
      else At(if Commits(s, at.expected, fault) then Committed(s, phase) else s, w, Agent(phase, Off))
    case Drop(w) => At(s, w, Agent(phase, Off))
    case Crash(w) => At(s, w, Agent(Free, Off))
  }

  // -------------------------------------------------------------- invariant

  ghost predicate Stored(s: Session) {
    s.store == if s.commits == [] then None else Some(Record(|s.commits|, s.commits[|s.commits| - 1]))
  }

  /** A committed execution is its reply's only one, and the reply never waits for confirmation again. */
  ghost predicate Stable(commits: seq<Phase>) {
    forall i, j | 0 <= i < j < |commits| && commits[i].Executing? ::
      && (commits[j].Executing? && commits[j].reply == commits[i].reply ==> commits[j] == commits[i])
      && (commits[j].Confirming? ==> commits[j].reply != commits[i].reply)
  }

  ghost predicate NewReply(commits: seq<Phase>, reply: ReplyId) {
    forall k | 0 <= k < |commits| && !commits[k].Free? :: commits[k].reply != reply
  }

  /** `phase` may be committed after `commits`. */
  ghost predicate Leads(commits: seq<Phase>, phase: Phase) {
    commits == [] || (
      var last := commits[|commits| - 1];
      || phase == last || phase.Free?
      || (phase.Executing? && last == Confirming(phase.reply, phase.calls))
      || (phase.Confirming? && NewReply(commits, phase.reply)))
  }

  /** The identifiers in a phase were drawn before. */
  ghost predicate Drawn(s: Session, phase: Phase) {
    && (!phase.Free? ==> phase.reply in s.replies)
    && (phase.Executing? ==> phase.execution in s.authors && s.authors[phase.execution] == phase.reply)
  }

  ghost predicate AllDrawn(s: Session) {
    && (forall k | 0 <= k < |s.commits| :: Drawn(s, s.commits[k]))
    && (forall w | w in s.agents :: Drawn(s, s.agents[w].phase))
  }

  /** An operation's save can succeed only if nobody else saved, and then continues the last commit. */
  ghost predicate Holds(commits: seq<Phase>, agent: Agent) {
    var phase, at := agent.phase, agent.at;
    at.Off? || (
      && (at.expected == None || 0 < at.expected.value <= |commits|)
      && (at.expected == (if commits == [] then None else Some(|commits|)) ==>
            Leads(commits, phase)
            && (at.Begun? && commits != [] ==> phase == commits[|commits| - 1] || phase.Free?))
      && (at.Batch? ==> phase.Executing? && phase in commits))
  }

  ghost predicate Agents(s: Session) {
    forall w | w in s.agents :: Holds(s.commits, s.agents[w])
  }

  ghost predicate Executed(commits: seq<Phase>, reply: ReplyId) {
    exists k | 0 <= k < |commits| :: commits[k].Executing? && commits[k].reply == reply
  }

  /** A first batch per reply, whose execution is committed; all batches claimed different revisions. */
  ghost predicate Batches(s: Session) {
    && (forall i | 0 <= i < |s.batches| :: Executed(s.commits, s.batches[i].reply))
    && (forall i | 0 <= i < |s.batches| :: s.batches[i].revision <= |s.commits|)
    && (forall i, j | 0 <= i < j < |s.batches| :: s.batches[i].revision < s.batches[j].revision)
    && (forall i, j | 0 <= i < j < |s.batches| && s.batches[i].reply == s.batches[j].reply :: s.batches[j].retry)
  }

  ghost predicate Inv(s: Session) {
    Stored(s) && Stable(s.commits) && AllDrawn(s) && Agents(s) && Batches(s)
  }

  lemma {:induction false} LocalStep(s: Session, w: Worker, agent: Agent)
    requires Inv(s) && Holds(s.commits, agent) && Drawn(s, agent.phase)
    ensures Inv(At(s, w, agent))
  {
    var t := At(s, w, agent);
    assert Agents(t) && AllDrawn(t) && Batches(t);
  }

  /** Drawing a new identifier disturbs nothing. */
  lemma {:induction false} DrawStep(s: Session, replies: set<ReplyId>, authors: map<string, ReplyId>)
    requires Inv(s) && s.replies <= replies
    requires forall e | e in s.authors :: e in authors && authors[e] == s.authors[e]
    ensures Inv(s.(replies := replies, authors := authors))
  {
    var t := s.(replies := replies, authors := authors);
    forall k | 0 <= k < |t.commits| ensures Drawn(t, t.commits[k]) { assert Drawn(s, s.commits[k]); }
    forall w | w in t.agents ensures Drawn(t, t.agents[w].phase) { assert Drawn(s, s.agents[w].phase); }
    assert Agents(t) && Batches(t);
  }

  lemma {:induction false} LeadsKeepsStable(commits: seq<Phase>, phase: Phase)
    requires Stable(commits) && Leads(commits, phase)
    ensures Stable(commits + [phase])
  {
  }

  lemma {:induction false} HoldsLater(commits: seq<Phase>, agent: Agent, phase: Phase)
    requires Holds(commits, agent)
    ensures Holds(commits + [phase], agent)
  {
  }

  lemma {:induction false} CommitStep(s: Session, phase: Phase)
    requires Inv(s) && Leads(s.commits, phase) && Drawn(s, phase)
    ensures Inv(Committed(s, phase))
  {
    var t := Committed(s, phase);
    LeadsKeepsStable(s.commits, phase);
    forall w | w in t.agents ensures Holds(t.commits, t.agents[w]) {
      HoldsLater(s.commits, s.agents[w], phase);
    }
    assert Agents(t);
    assert AllDrawn(t);
    forall i | 0 <= i < |t.batches| ensures Executed(t.commits, t.batches[i].reply) {
      assert Executed(s.commits, s.batches[i].reply);
      var k :| 0 <= k < |s.commits| && s.commits[k].Executing? && s.commits[k].reply == s.batches[i].reply;
      assert t.commits[k] == s.commits[k];
    }
    assert Batches(t);
  }

  lemma {:induction false} NoneExecutes(s: Session, reply: ReplyId)
    requires Inv(s) && s.commits != []
    requires s.commits[|s.commits| - 1].Confirming? && s.commits[|s.commits| - 1].reply == reply
    ensures forall i | 0 <= i < |s.batches| :: s.batches[i].reply != reply
  {
    forall i | 0 <= i < |s.batches| ensures s.batches[i].reply != reply {
      assert Executed(s.commits, s.batches[i].reply);
      var k :| 0 <= k < |s.commits| && s.commits[k].Executing? && s.commits[k].reply == s.batches[i].reply;
      assert k < |s.commits| - 1;
    }
  }

  /** Letting loose a batch whose claim was just committed. */
  lemma {:induction false} BatchStep(s: Session, phase: Phase, retry: bool)
    requires Inv(s) && s.commits != [] && phase == s.commits[|s.commits| - 1] && phase.Executing?
    requires forall i | 0 <= i < |s.batches| :: s.batches[i].revision < |s.commits|
    requires retry || forall i | 0 <= i < |s.batches| :: s.batches[i].reply != phase.reply
    ensures Inv(s.(batches := s.batches + [Dispatch(phase.reply, |s.commits|, retry)]))
  {
    var t := s.(batches := s.batches + [Dispatch(phase.reply, |s.commits|, retry)]);
    assert Executed(s.commits, phase.reply);
    assert Agents(t) && AllDrawn(t) && Batches(t);
  }

  lemma {:induction false} ClaimKeepsInv(
      s: Session, w: Worker, phase: Phase, expected: Option<nat>, retry: bool, fault: Fault)
    requires Inv(s) && phase.Executing? && Drawn(s, phase)
    requires Holds(s.commits, Agent(phase, Finishing(expected)))
    requires Commits(s, expected, fault) && !retry ==>
      forall i | 0 <= i < |s.batches| :: s.batches[i].reply != phase.reply
    ensures Inv(ClaimBatch(s, w, phase, expected, retry, fault))
  {
    if !Commits(s, expected, fault) {
      LocalStep(s, w, Agent(phase, Finishing(expected)));
    } else {
      CommitStep(s, phase);
      var t := Committed(s, phase);
      if fault.AckLost? {
        HoldsLater(s.commits, Agent(phase, Finishing(expected)), phase);
        LocalStep(t, w, Agent(phase, Finishing(expected)));
      } else {
        BatchStep(t, phase, retry);
        var u := t.(batches := t.batches + [Dispatch(phase.reply, |t.commits|, retry)]);
        assert u.commits[|u.commits| - 1] == phase;
        LocalStep(u, w, Agent(phase, Batch(Some(|t.commits|))));
      }
    }
  }

  lemma {:induction false} AuthorizeKeepsInv(
    s: Session, w: Worker, decisions: map<string, bool>, execution: string, fault: Fault)
    requires Inv(s)
    ensures Inv(Next(s, Authorize(w, decisions, execution, fault)))
  {
    var agent := Of(s, w);
    var phase, at := agent.phase, agent.at;
    if Next(s, Authorize(w, decisions, execution, fault)) != s {
      var authors := s.authors[execution := phase.reply];
      DrawStep(s, s.replies, authors);
      var t := s.(authors := authors);
      assert Holds(s.commits, agent) && Drawn(s, phase);
      if Commits(t, at.expected, fault) && s.commits != [] { NoneExecutes(s, phase.reply); }
      ClaimKeepsInv(t, w, Executing(phase.reply, phase.calls, execution, decisions), at.expected, false, fault);
    }
  }

  lemma {:induction false} FinishKeepsInv(s: Session, w: Worker, fault: Fault)
    requires Inv(s) && Of(s, w).at.Finishing?
    ensures Inv(Next(s, Finish(w, fault)))
  {
    var agent := Of(s, w);
    assert Holds(s.commits, agent) && Drawn(s, agent.phase);
    if Commits(s, agent.at.expected, fault) {
      CommitStep(s, agent.phase);
      LocalStep(Committed(s, agent.phase), w, Agent(agent.phase, Off));
    } else {
      LocalStep(s, w, Agent(agent.phase, Off));
    }
  }

  lemma {:induction false} ContinueKeepsInv(s: Session, w: Worker, pause: Option<(ReplyId, seq<Call>)>)
    requires Inv(s) && Of(s, w).at.Begun? && Of(s, w).phase.Free?
    ensures Inv(Next(s, Continue(w, pause)))
  {
    var expected := Of(s, w).at.expected;
    assert Holds(s.commits, Of(s, w));
    match pause
    case None => LocalStep(s, w, Agent(Free, Finishing(expected)));
    case Some((reply, calls)) =>
      if reply !in s.replies {
        DrawStep(s, s.replies + {reply}, s.authors);
        var t := s.(replies := s.replies + {reply});
        assert NewReply(s.commits, reply) by { assert forall k | 0 <= k < |s.commits| :: Drawn(s, s.commits[k]); }
        LocalStep(t, w, Agent(Confirming(reply, calls), Finishing(expected)));
        assert At(t, w, Agent(Confirming(reply, calls), Finishing(expected)))
            == At(s, w, Agent(Confirming(reply, calls), Finishing(expected))).(replies := s.replies + {reply});
      }
  }

  /** Where an operation goes without saving: on with its phase, or free of it. */
  lemma {:induction false} MoveKeepsInv(s: Session, w: Worker, at: Point)
    requires Inv(s)
    requires at.Off? || (!Of(s, w).at.Off? && !at.Batch? && at.expected == Of(s, w).at.expected)
    ensures Inv(At(s, w, Agent(Free, at)))
    ensures !at.Begun? ==> Inv(At(s, w, Agent(Of(s, w).phase, at)))
  {
    assert Holds(s.commits, Of(s, w)) && Drawn(s, Of(s, w).phase);
    LocalStep(s, w, Agent(Free, at));
    if !at.Begun? { LocalStep(s, w, Agent(Of(s, w).phase, at)); }
  }

  lemma {:induction false} BeginKeepsInv(s: Session, w: Worker)
    requires Inv(s) && Of(s, w).at.Off?
    ensures Inv(Next(s, Begin(w)))
  {
    assert Drawn(s, Of(s, w).phase);
    LocalStep(s, w, Agent(if s.store.Some? then s.store.value.phase else Of(s, w).phase, Begun(Revision(s.store))));
  }

  lemma {:induction false} RetryKeepsInv(s: Session, w: Worker, fault: Fault)
    requires Inv(s) && Of(s, w).at.Begun? && Of(s, w).phase.Executing?
    ensures Inv(Next(s, Retry(w, fault)))
  {
    assert Holds(s.commits, Of(s, w)) && Drawn(s, Of(s, w).phase);
    ClaimKeepsInv(s, w, Of(s, w).phase, Of(s, w).at.expected, true, fault);
  }

  lemma {:induction false} NextKeepsInv(s: Session, event: Event)
    requires Inv(s)
    ensures Inv(Next(s, event))
  {
    var at := Of(s, event.w).at;
    match event
    case Begin(w) => if at.Off? { BeginKeepsInv(s, w); }
    case Fail(w) => if at.Begun? { MoveKeepsInv(s, w, Finishing(at.expected)); }
    case Continue(w, pause) => if at.Begun? && Of(s, w).phase.Free? { ContinueKeepsInv(s, w, pause); }
    case Authorize(w, decisions, execution, fault) => AuthorizeKeepsInv(s, w, decisions, execution, fault);
    case DenyAll(w, decisions) => if at.Begun? { MoveKeepsInv(s, w, at); }
    case Retry(w, fault) => if at.Begun? && Of(s, w).phase.Executing? { RetryKeepsInv(s, w, fault); }
    case Resolve(w) => if at.Begun? { MoveKeepsInv(s, w, at); }
    case Settle(w, inDoubt) =>
      if at.Batch? { MoveKeepsInv(s, w, if inDoubt then Finishing(at.expected) else Begun(at.expected)); }
    case Finish(w, fault) => if at.Finishing? { FinishKeepsInv(s, w, fault); }
    case Drop(w) => MoveKeepsInv(s, w, Off);
    case Crash(w) => MoveKeepsInv(s, w, Off);
  }

  lemma {:induction false} NextAppends(s: Session, event: Event)
    ensures s.commits <= Next(s, event).commits
  {
  }

  function After(run: seq<Event>): Session {
    if run == [] then INITIAL else Next(After(run[..|run| - 1]), run[|run| - 1])
  }

  lemma {:induction false} RunKeepsInv(run: seq<Event>)
    ensures Inv(After(run))
  {
    if run != [] {
      RunKeepsInv(run[..|run| - 1]);
      NextKeepsInv(After(run[..|run| - 1]), run[|run| - 1]);
    }
  }

  // --------------------------------------------------------------- theorems

  /** Whatever instances compete, one reply gets one execution: identifier, calls and decisions. */
  lemma {:induction false} OneExecutionPerReply(run: seq<Event>, j: nat, k: nat)
    requires j < |After(run).commits| && k < |After(run).commits|
    requires After(run).commits[j].Executing? && After(run).commits[k].Executing?
    requires After(run).commits[j].reply == After(run).commits[k].reply
    ensures After(run).commits[j] == After(run).commits[k]
  {
    RunKeepsInv(run);
    var commits := After(run).commits;
    assert j < k ==> commits[k] == commits[j];
    assert k < j ==> commits[j] == commits[k];
  }

  /** Whether `event` is an explicit retry for `reply` whose claim commits and is acknowledged. */
  predicate ClaimsRetry(s: Session, event: Event, reply: ReplyId) {
    && event.Retry? && event.fault.Acked? && Of(s, event.w).at.Begun?
    && Of(s, event.w).phase.Executing? && Of(s, event.w).phase.reply == reply
    && Commits(s, Of(s, event.w).at.expected, event.fault)
  }

  function RetriesClaimed(run: seq<Event>, reply: ReplyId): nat {
    if run == [] then 0
    else
      var init := run[..|run| - 1];
      RetriesClaimed(init, reply) + if ClaimsRetry(After(init), run[|run| - 1], reply) then 1 else 0
  }

  function CountBatches(batches: seq<Dispatch>, reply: ReplyId): nat {
    if batches == [] then 0
    else
      CountBatches(batches[..|batches| - 1], reply)
      + if batches[|batches| - 1].reply == reply then 1 else 0
  }

  function CountRetries(batches: seq<Dispatch>, reply: ReplyId): nat {
    if batches == [] then 0
    else
      var last := batches[|batches| - 1];
      CountRetries(batches[..|batches| - 1], reply) + if last.reply == reply && last.retry then 1 else 0
  }

  /** Only the first batch for a reply may be no retry. */
  ghost predicate FirstOnly(batches: seq<Dispatch>) {
    forall i, j | 0 <= i < j < |batches| && batches[i].reply == batches[j].reply :: batches[j].retry
  }

  lemma {:induction false} CountedBatches(batches: seq<Dispatch>, reply: ReplyId)
    requires FirstOnly(batches)
    ensures CountBatches(batches, reply) <= 1 + CountRetries(batches, reply)
    ensures CountBatches(batches, reply) > 0 ==> exists i | 0 <= i < |batches| :: batches[i].reply == reply
  {
    if batches != [] {
      var init := batches[..|batches| - 1];
      CountedBatches(init, reply);
      if batches[|batches| - 1].reply == reply && !batches[|batches| - 1].retry {
        assert forall i | 0 <= i < |init| :: batches[i].reply != reply;
      }
      if CountBatches(init, reply) > 0 {
        var i :| 0 <= i < |init| && init[i].reply == reply;
        assert batches[i].reply == reply;
      }
    }
  }

  lemma {:induction false} NextCountsRetries(s: Session, event: Event, reply: ReplyId)
    ensures CountRetries(Next(s, event).batches, reply)
         == CountRetries(s.batches, reply) + if ClaimsRetry(s, event, reply) then 1 else 0
  {
    var t := Next(s, event);
    if t.batches != s.batches {
      assert t.batches[..|t.batches| - 1] == s.batches;
    }
  }

  lemma {:induction false} RetriesAreClaimed(run: seq<Event>, reply: ReplyId)
    ensures CountRetries(After(run).batches, reply) == RetriesClaimed(run, reply)
  {
    if run != [] {
      var init := run[..|run| - 1];
      RetriesAreClaimed(init, reply);
      NextCountsRetries(After(init), run[|run| - 1], reply);
    }
  }

  /** Approved tools are let loose at most once, plus once for every explicit retry whose claim succeeded. */
  lemma {:induction false} BatchesAreBounded(run: seq<Event>, reply: ReplyId)
    ensures CountBatches(After(run).batches, reply) <= 1 + RetriesClaimed(run, reply)
  {
    RunKeepsInv(run);
    CountedBatches(After(run).batches, reply);
    RetriesAreClaimed(run, reply);
  }
}
