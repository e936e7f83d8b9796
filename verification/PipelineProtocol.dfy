/**
 * Any number of workers on one checkpoint key: every interleaving of run, resume and reconcile,
 * with crashes, dropped futures and saves that commit although the caller sees a failure.
 */
module PipelineProtocol {
  import opened Messages
  import opened Checkpoints

  type Worker = nat

  /** Where one run, resume or reconcile stands between two of its effects. */
  datatype Local =
    | Idle
    | AtBoundary(record: Record)
    | Fenced(record: Record)
    | Dispatched(record: Record)
    | Inspecting(record: Record)

  /** One invocation of a stage's agent; `stage` is zero-based. */
  datatype Dispatch = Dispatch(stage: nat, input: Msg)

  /** `commits` and `log` are histories that no worker reads. */
  datatype State = State(
    store: Option<Record>, workers: map<Worker, Local>, commits: seq<Record>, log: seq<Dispatch>)

  /** `acked` is false when a save commits but its caller observes a failure. */
  datatype Event =
    | Create(w: Worker, input: Msg, acked: bool)
    | Load(w: Worker)
    | Fence(w: Worker, acked: bool)
    | Invoke(w: Worker)
    | Commit(w: Worker, reply: Msg, acked: bool)
    | Inspect(w: Worker, revision: nat)
    | Reconcile(w: Worker, reply: Msg, acked: bool)
    | Crash(w: Worker)

  /** The stage names each worker's pipeline was built with. */
  type Config = Worker -> seq<string>

  const INITIAL := State(None, map[], [], [])

  function Of(s: State, w: Worker): Local {
    if w in s.workers then s.workers[w] else Idle
  }

  function At(s: State, w: Worker, local: Local): State {
    s.(workers := s.workers[w := local])
  }

  /** The checkpoint after stage `|completed|` replied, or None when its reply cannot be handed off. */
  function Advanced(names: seq<string>, checkpoint: Checkpoint, reply: Msg): Option<Checkpoint> {
    var index := |checkpoint.completed|;
    if index >= |names| then None
    else
      var step := Step(index + 1, names[index], reply);
      if index + 1 == |names| then
        Some(checkpoint.(completed := checkpoint.completed + [step], status := Status.Finished))
      else
        match HandoffOf(names[index], reply)
        case Err(_) => None
        case Ok(next) =>
          Some(checkpoint.(completed := checkpoint.completed + [step], nextInput := next, status := Ready))
  }

  /** Where a worker goes on with the record that its save returned. */
  function Continue(record: Record, reconciling: bool): Local {
    if reconciling then Idle
    else match record.checkpoint.status
      case Ready => AtBoundary(record)
      case InFlight => Fenced(record)
      case Finished => Idle
  }

  function Saved(
      s: State, w: Worker, expected: Option<nat>, checkpoint: Checkpoint, acked: bool, reconciling: bool): State {
    match Cas(s.store, expected, checkpoint)
    case Err(_) => At(s, w, Idle)
    case Ok(record) =>
      At(s, w, if acked then Continue(record, reconciling) else Idle)
        .(store := Some(record), commits := s.commits + [record])
  }

  /** One effect of one worker; an event that its worker cannot take changes nothing. */
  function Next(config: Config, s: State, event: Event): State {
    var local := Of(s, event.w);
    match event
    case Create(w, input, acked) =>
      if local.Idle? then Saved(s, w, None, Checkpoint(VERSION, config(w), [], input, Ready), acked, false) else s
    case Load(w) =>
      if local.Idle? && s.store.Some? && s.store.value.revision != 0
         && IsUsable(s.store.value.checkpoint, config(w), Ready)
      then At(s, w, AtBoundary(s.store.value)) else s
    case Fence(w, acked) =>
      if local.AtBoundary?
      then Saved(s, w, Some(local.record.revision), local.record.checkpoint.(status := InFlight), acked, false) else s
    case Invoke(w) =>
      if local.Fenced?
      then At(s, w, Dispatched(local.record))
           .(log := s.log + [Dispatch(|local.record.checkpoint.completed|, local.record.checkpoint.nextInput)])
      else s
    case Commit(w, reply, acked) =>
      if local.Dispatched? then SaveReply(config, s, w, reply, acked, false) else s
    case Inspect(w, revision) =>
      if local.Idle? && s.store.Some? && s.store.value.revision == revision != 0
         && IsUsable(s.store.value.checkpoint, config(w), InFlight)
      then At(s, w, Inspecting(s.store.value)) else s
    case Reconcile(w, reply, acked) =>
      if local.Inspecting? then
        if reply.role == Assistant && |local.record.checkpoint.completed| < |config(w)|
           && reply.name == config(w)[|local.record.checkpoint.completed|]
        then SaveReply(config, s, w, reply, acked, true) else At(s, w, Idle)
      else s
    case Crash(w) => At(s, w, Idle)
  }

  function SaveReply(config: Config, s: State, w: Worker, reply: Msg, acked: bool, reconciling: bool): State
    requires !Of(s, w).Idle?
  {
    var record := Of(s, w).record;
    match Advanced(config(w), record.checkpoint, reply)
    case None => At(s, w, Idle)
    case Some(checkpoint) => Saved(s, w, Some(record.revision), checkpoint, acked, reconciling)
  }

  /** The state after a run: any finite sequence of events. */
  function After(config: Config, run: seq<Event>): State {
    if run == [] then INITIAL else Next(config, After(config, run[..|run| - 1]), run[|run| - 1])
  }

  // ------------------------------------------------------------ invariant

  /** The `k`-th commit, for zero-based `k`. */
  ghost predicate Shape(record: Record, k: nat, names: seq<string>) {
    var c := record.checkpoint;
    && record.revision == k + 1 && c.version == VERSION && c.names == names
    && |c.completed| == k / 2 && StepsMatch(c.completed, names)
    && c.status == (if k % 2 == 1 then InFlight else if k / 2 == |names| then Status.Finished else Ready)
    && (k % 2 == 1 ==> k / 2 < |names|)
  }

  /** What one commit may change: first the status, then one more reply and its handoff. */
  ghost predicate Follows(before: Checkpoint, after: Checkpoint) {
    if before.status == Ready then after == before.(status := InFlight)
    else
      && before.status == InFlight && |after.completed| == |before.completed| + 1
      && Advanced(before.names, before, after.completed[|before.completed|].message) == Some(after)
  }

  ghost predicate Chain(s: State) {
    && s.store == (if s.commits == [] then None else Some(s.commits[|s.commits| - 1]))
    && (s.commits != [] ==> s.commits[0].checkpoint.names != [])
    && (forall k | 0 <= k < |s.commits| :: Shape(s.commits[k], k, s.commits[0].checkpoint.names))
    && (forall k | 0 <= k < |s.commits| - 1 :: Follows(s.commits[k].checkpoint, s.commits[k + 1].checkpoint))
  }

  /** A worker holds some committed record of a pipeline with its own stages. */
  ghost predicate Holds(names: seq<string>, local: Local, commits: seq<Record>) {
    local.Idle? || (
      var record := local.record;
      && 0 < record.revision <= |commits| && commits[record.revision - 1] == record
      && record.checkpoint.names == names
      && record.checkpoint.status == if local.AtBoundary? then Ready else InFlight)
  }

  ghost predicate Workers(config: Config, s: State) {
    forall w | w in s.workers :: Holds(config(w), s.workers[w], s.commits)
  }

  predicate Running(local: Local) { local.Fenced? || local.Dispatched? }

  /** No two workers own the same in-flight revision. */
  ghost predicate Unique(s: State) {
    forall v, w | v in s.workers && w in s.workers && v != w ::
      Running(s.workers[v]) && Running(s.workers[w]) ==>
        s.workers[v].record.revision != s.workers[w].record.revision
  }

  /** Every invocation had its stage's fence committed, and used the input committed there. */
  ghost predicate Logged(s: State) {
    && (forall d | d in s.log :: 2 * d.stage + 1 < |s.commits|
          && d.input == s.commits[2 * d.stage + 1].checkpoint.nextInput)
    && (forall i, j | 0 <= i < j < |s.log| :: s.log[i].stage != s.log[j].stage)
    && (forall w, d | w in s.workers && d in s.log ::
          s.workers[w].Fenced? ==> d.stage != |s.workers[w].record.checkpoint.completed|)
  }

  ghost predicate Inv(config: Config, s: State) {
    Chain(s) && Workers(config, s) && Unique(s) && Logged(s)
  }

  ghost predicate ValidConfig(config: Config) {
    forall w :: config(w) != []
  }

  /** A worker that stops, or picks up a committed record without running it, disturbs nothing. */
  lemma {:induction false} QuietStep(config: Config, s: State, w: Worker, local: Local)
    requires Inv(config, s) && Holds(config(w), local, s.commits) && !Running(local)
    ensures Inv(config, At(s, w, local))
  {
    var t := At(s, w, local);
    assert Chain(t) && Unique(t) && Logged(t);
    forall v | v in t.workers ensures Holds(config(v), t.workers[v], t.commits) { }
  }

  /** `s` after `record` was committed. */
  function Appended(s: State, record: Record): State {
    s.(store := Some(record), commits := s.commits + [record])
  }

  /** `record` is a legal next commit. */
  ghost predicate Extends(s: State, record: Record) {
    var k := |s.commits|;
    && record.checkpoint.names != []
    && Shape(record, k, record.checkpoint.names)
    && (k > 0 ==> s.commits[0].checkpoint.names == record.checkpoint.names
                  && Follows(s.commits[k - 1].checkpoint, record.checkpoint))
  }

  lemma {:induction false} AppendKeepsChain(s: State, record: Record)
    requires Chain(s) && Extends(s, record)
    ensures Chain(Appended(s, record))
  {
  }

  lemma {:induction false} AppendKeepsInv(config: Config, s: State, record: Record)
    requires Inv(config, s) && Extends(s, record)
    ensures Inv(config, Appended(s, record))
  {
    AppendKeepsChain(s, record);
    var t := Appended(s, record);
    forall w | w in t.workers ensures Holds(config(w), t.workers[w], t.commits) {
      assert Holds(config(w), s.workers[w], s.commits);
    }
    assert Unique(t) && Logged(t);
  }

  /** Whoever fenced the newest commit is alone on it, and its stage has not been invoked. */
  lemma {:induction false} FencingStep(config: Config, s: State, w: Worker, record: Record)
    requires Inv(config, s) && Extends(s, record) && record.checkpoint.names == config(w)
    requires record.checkpoint.status == InFlight
    ensures Inv(config, At(Appended(s, record), w, Fenced(record)))
  {
    AppendKeepsInv(config, s, record);
    var u := Appended(s, record);
    var t := At(u, w, Fenced(record));
    forall v | v in t.workers ensures Holds(config(v), t.workers[v], t.commits) { }
    forall v | v in s.workers && Running(s.workers[v]) ensures s.workers[v].record.revision < record.revision {
      assert Holds(config(v), s.workers[v], s.commits);
    }
    assert Unique(t);
    forall d | d in s.log ensures d.stage < |record.checkpoint.completed| { }
    assert Chain(t) && Logged(t);
  }

  /** A save keeps the invariant: it fails, or commits a legal next record. */
  lemma {:induction false} SavedKeepsInv(
      config: Config, s: State, w: Worker, expected: Option<nat>, checkpoint: Checkpoint, acked: bool,
      reconciling: bool)
    requires Inv(config, s) && checkpoint.names == config(w)
    requires expected == (if s.commits == [] then None else Some(|s.commits|)) ==>
      Extends(s, Record(|s.commits| + 1, checkpoint))
    ensures Inv(config, Saved(s, w, expected, checkpoint, acked, reconciling))
  {
    match Cas(s.store, expected, checkpoint) {
      case Err(_) => QuietStep(config, s, w, Idle);
      case Ok(record) =>
        assert record == Record(|s.commits| + 1, checkpoint);
        var local := if acked then Continue(record, reconciling) else Idle;
        if local.Fenced? {
          FencingStep(config, s, w, record);
        } else {
          AppendKeepsInv(config, s, record);
          QuietStep(config, Appended(s, record), w, local);
        }
        assert Saved(s, w, expected, checkpoint, acked, reconciling) == At(Appended(s, record), w, local);
    }
  }

  /** The commit that a reply produces continues the in-flight record it answers. */
  lemma {:induction false} AdvancedFollows(names: seq<string>, record: Record, k: nat, reply: Msg)
    requires Shape(record, k, names) && k % 2 == 1 && Advanced(names, record.checkpoint, reply).Some?
    ensures var next := Advanced(names, record.checkpoint, reply).value;
      Follows(record.checkpoint, next) && Shape(Record(k + 2, next), k + 1, names)
  {
  }

  lemma {:induction false} ReplyKeepsInv(
      config: Config, s: State, w: Worker, reply: Msg, acked: bool, reconciling: bool)
    requires Inv(config, s)
    requires Of(s, w).Dispatched? || Of(s, w).Inspecting?
    ensures Inv(config, SaveReply(config, s, w, reply, acked, reconciling))
  {
    var record := Of(s, w).record;
    assert Holds(config(w), s.workers[w], s.commits);
    match Advanced(config(w), record.checkpoint, reply) {
      case None => QuietStep(config, s, w, Idle);
      case Some(next) =>
        AdvancedFollows(config(w), record, record.revision - 1, reply);
        SavedKeepsInv(config, s, w, Some(record.revision), next, acked, reconciling);
    }
  }

  lemma {:induction false} FenceKeepsInv(config: Config, s: State, w: Worker, acked: bool)
    requires Inv(config, s) && Of(s, w).AtBoundary?
    ensures Inv(config, Next(config, s, Fence(w, acked)))
  {
    var record := Of(s, w).record;
    assert Holds(config(w), s.workers[w], s.commits);
    SavedKeepsInv(config, s, w, Some(record.revision), record.checkpoint.(status := InFlight), acked, false);
  }

  /** A running worker's record says which commit it fenced. */
  lemma {:induction false} RunningStage(config: Config, s: State, w: Worker)
    requires Inv(config, s) && Running(Of(s, w))
    ensures var record := Of(s, w).record;
      var k := 2 * |record.checkpoint.completed| + 1;
      record.revision == k + 1 <= |s.commits| && s.commits[k] == record
  {
    assert Holds(config(w), s.workers[w], s.commits);
  }

  /** An invocation whose stage nobody has invoked, or is about to, may be logged. */
  lemma {:induction false} LoggingStep(config: Config, s: State, d: Dispatch)
    requires Inv(config, s) && 2 * d.stage + 1 < |s.commits|
    requires d.input == s.commits[2 * d.stage + 1].checkpoint.nextInput
    requires forall i | 0 <= i < |s.log| :: s.log[i].stage != d.stage
    requires forall v | v in s.workers && s.workers[v].Fenced? ::
      |s.workers[v].record.checkpoint.completed| != d.stage
    ensures Inv(config, s.(log := s.log + [d]))
  {
    var t := s.(log := s.log + [d]);
    forall e | e in t.log ensures e == d || e in s.log { }
    assert Logged(t);
    assert Chain(t) && Workers(config, t) && Unique(t);
  }

  /** Once a fenced worker goes on to invoke its agent, nobody else is fenced for its stage. */
  lemma {:induction false} DispatchingStep(config: Config, s: State, w: Worker)
    requires Inv(config, s) && Of(s, w).Fenced?
    ensures Inv(config, At(s, w, Dispatched(Of(s, w).record)))
  {
    var t := At(s, w, Dispatched(Of(s, w).record));
    forall v | v in t.workers ensures Holds(config(v), t.workers[v], t.commits) {
      assert Holds(config(v), s.workers[v], s.commits);
    }
    assert Unique(t);
    assert Chain(t) && Workers(config, t);
    assert Logged(t);
  }

  lemma {:induction false} StageIsOwn(config: Config, s: State, w: Worker, v: Worker)
    requires Inv(config, s) && Of(s, w).Fenced? && Of(s, v).Fenced? && v != w
    ensures |s.workers[v].record.checkpoint.completed| != |s.workers[w].record.checkpoint.completed|
  {
    RunningStage(config, s, w);
    RunningStage(config, s, v);
  }

  lemma {:induction false} InvokeKeepsInv(config: Config, s: State, w: Worker)
    requires Inv(config, s) && Of(s, w).Fenced?
    ensures Inv(config, Next(config, s, Invoke(w)))
  {
    var record := Of(s, w).record;
    var t := At(s, w, Dispatched(record));
    DispatchingStep(config, s, w);
    RunningStage(config, s, w);
    StageIsFresh(config, s, w);
    LoggingStep(config, t, Dispatch(|record.checkpoint.completed|, record.checkpoint.nextInput));
  }

  /** Nobody else is about to invoke the stage of a fenced worker, and nobody has invoked it. */
  lemma {:induction false} StageIsFresh(config: Config, s: State, w: Worker)
    requires Inv(config, s) && Of(s, w).Fenced?
    ensures var t, stage := At(s, w, Dispatched(Of(s, w).record)), |Of(s, w).record.checkpoint.completed|;
      && (forall v | v in t.workers && t.workers[v].Fenced? :: |t.workers[v].record.checkpoint.completed| != stage)
      && (forall i | 0 <= i < |s.log| :: s.log[i].stage != stage)
  {
    forall v | v in s.workers && v != w && s.workers[v].Fenced?
      ensures |s.workers[v].record.checkpoint.completed| != |s.workers[w].record.checkpoint.completed|
    {
      StageIsOwn(config, s, w, v);
    }
    assert forall i | 0 <= i < |s.log| :: s.log[i] in s.log;
  }

  /** Loading for resume takes only a `Ready` record, inspecting for reconcile only an `InFlight` one. */
  lemma {:induction false} LoadKeepsInv(config: Config, s: State, w: Worker, status: Status)
    requires Inv(config, s) && s.store.Some? && status != Status.Finished
    requires IsUsable(s.store.value.checkpoint, config(w), status)
    ensures Inv(config, At(s, w, if status == Ready then AtBoundary(s.store.value) else Inspecting(s.store.value)))
  {
    QuietStep(config, s, w, if status == Ready then AtBoundary(s.store.value) else Inspecting(s.store.value));
  }

  lemma {:induction false} CreateKeepsInv(config: Config, s: State, w: Worker, input: Msg, acked: bool)
    requires Inv(config, s) && ValidConfig(config) && Of(s, w).Idle?
    ensures Inv(config, Next(config, s, Create(w, input, acked)))
  {
    SavedKeepsInv(config, s, w, None, Checkpoint(VERSION, config(w), [], input, Ready), acked, false);
  }

  lemma {:induction false} ReconcileKeepsInv(config: Config, s: State, w: Worker, reply: Msg, acked: bool)
    requires Inv(config, s) && Of(s, w).Inspecting?
    ensures Inv(config, Next(config, s, Reconcile(w, reply, acked)))
  {
    if Next(config, s, Reconcile(w, reply, acked)) == At(s, w, Idle) {
      QuietStep(config, s, w, Idle);
    } else {
      ReplyKeepsInv(config, s, w, reply, acked, true);
    }
  }

  lemma {:induction false} NextKeepsInv(config: Config, s: State, event: Event)
    requires Inv(config, s) && ValidConfig(config)
    ensures Inv(config, Next(config, s, event))
  {
    match event
    case Create(w, input, acked) => if Of(s, w).Idle? { CreateKeepsInv(config, s, w, input, acked); }
    case Load(w) =>
      if Of(s, w).Idle? && s.store.Some? && IsUsable(s.store.value.checkpoint, config(w), Ready) {
        LoadKeepsInv(config, s, w, Ready);
      }
    case Fence(w, acked) => if Of(s, w).AtBoundary? { FenceKeepsInv(config, s, w, acked); }
    case Invoke(w) => if Of(s, w).Fenced? { InvokeKeepsInv(config, s, w); }
    case Commit(w, reply, acked) =>
      if Of(s, w).Dispatched? { ReplyKeepsInv(config, s, w, reply, acked, false); }
    case Inspect(w, revision) =>
      if Of(s, w).Idle? && s.store.Some? && IsUsable(s.store.value.checkpoint, config(w), InFlight) {
        LoadKeepsInv(config, s, w, InFlight);
      }
    case Reconcile(w, reply, acked) => if Of(s, w).Inspecting? { ReconcileKeepsInv(config, s, w, reply, acked); }
    case Crash(w) => QuietStep(config, s, w, Idle);
  }

  lemma {:induction false} RunKeepsInv(config: Config, run: seq<Event>)
    requires ValidConfig(config)
    ensures Inv(config, After(config, run))
  {
    if run != [] {
      RunKeepsInv(config, run[..|run| - 1]);
      NextKeepsInv(config, After(config, run[..|run| - 1]), run[|run| - 1]);
    }
  }

  // ------------------------------------------------------------- theorems

  /** No stage's agent is ever invoked twice, by any worker, in any run. */
  lemma {:induction false} EachStageInvokedAtMostOnce(config: Config, run: seq<Event>, i: nat, j: nat)
    requires ValidConfig(config)
    requires i < j < |After(config, run).log|
    ensures After(config, run).log[i].stage != After(config, run).log[j].stage
  {
    RunKeepsInv(config, run);
  }

  /** Every invocation was fenced first, and got the input that the fence committed. */
  lemma {:induction false} InvocationsAreFenced(config: Config, run: seq<Event>, d: Dispatch)
    requires ValidConfig(config) && d in After(config, run).log
    ensures var commits := After(config, run).commits;
      2 * d.stage + 1 < |commits|
      && var fence := commits[2 * d.stage + 1].checkpoint;
         fence.status == InFlight && |fence.completed| == d.stage && d.input == fence.nextInput
  {
    RunKeepsInv(config, run);
    LoggedWasFenced(After(config, run), d);
  }

  lemma {:induction false} LoggedWasFenced(s: State, d: Dispatch)
    requires Chain(s) && Logged(s) && d in s.log
    ensures 2 * d.stage + 1 < |s.commits|
    ensures var fence := s.commits[2 * d.stage + 1].checkpoint;
      fence.status == InFlight && |fence.completed| == d.stage && d.input == fence.nextInput
  {
  }

  /** The stored revision counts the stages exactly, so a run of `n` stages commits at most 2n + 1 times. */
  lemma {:induction false} RevisionCountsStages(config: Config, run: seq<Event>)
    requires ValidConfig(config) && After(config, run).store.Some?
    ensures var record := After(config, run).store.value;
      var c := record.checkpoint;
      && record.revision == |After(config, run).commits|
      && record.revision == 2 * |c.completed| + (if c.status == InFlight then 2 else 1)
      && record.revision <= 2 * |c.names| + 1
      && (c.status == Status.Finished <==> |c.completed| == |c.names|)
      && StepsMatch(c.completed, c.names)
  {
    RunKeepsInv(config, run);
  }

  /** The reply of the last stage and all steps are readable exactly when the stored run is finished. */
  lemma {:induction false} FinishedIsReadable(config: Config, run: seq<Event>)
    requires ValidConfig(config) && After(config, run).store.Some?
    ensures var c := After(config, run).store.value.checkpoint;
      && (FinishedOutput(c).Some? <==> c.status == Status.Finished)
      && (FinishedOutput(c).Some? ==>
            && FinishedOutput(c).value.steps == c.completed && c.completed != []
            && FinishedOutput(c).value.message == c.completed[|c.completed| - 1].message)
  {
    RunKeepsInv(config, run);
  }

  /** Whether a ready checkpoint's input is the original one, or the handoff of its last reply. */
  ghost predicate InputIsHandedOff(c: Checkpoint, original: Msg) {
    if c.completed == [] then c.nextInput == original
    else
      var last := c.completed[|c.completed| - 1];
      HandoffOf(last.agentName, last.message) == Ok(c.nextInput)
  }

  /** Every committed boundary that can be resumed has the input its next stage is meant to get. */
  lemma {:induction false} NextInputIsHandoff(config: Config, run: seq<Event>, k: nat)
    requires ValidConfig(config) && k < |After(config, run).commits|
    requires After(config, run).commits[k].checkpoint.status == Ready
    ensures InputIsHandedOff(After(config, run).commits[k].checkpoint,
                             After(config, run).commits[0].checkpoint.nextInput)
  {
    RunKeepsInv(config, run);
    CommittedInput(After(config, run), k);
  }

  lemma {:induction false} CommittedInput(s: State, k: nat)
    requires Chain(s) && k < |s.commits| && s.commits[k].checkpoint.status == Ready
    ensures InputIsHandedOff(s.commits[k].checkpoint, s.commits[0].checkpoint.nextInput)
  {
    if k > 0 { assert Follows(s.commits[k - 1].checkpoint, s.commits[k - 1 + 1].checkpoint); }
  }

  lemma {:induction false} NextAppends(config: Config, s: State, event: Event)
    ensures s.commits <= Next(config, s, event).commits
  {
  }

  /** Whatever a run has committed stays committed: later events only append. */
  lemma {:induction false} CommitsOnlyGrow(config: Config, run: seq<Event>, more: seq<Event>)
    ensures After(config, run).commits <= After(config, run + more).commits
  {
    if more == [] {
      assert run + more == run;
    } else {
      var init := more[..|more| - 1];
      CommitsOnlyGrow(config, run, init);
      assert (run + more)[..|run + more| - 1] == run + init;
      NextAppends(config, After(config, run + init), more[|more| - 1]);
    }
  }

  /** Committed replies are never replaced, dropped or reordered, however the run goes on. */
  lemma {:induction false} ProgressOnlyGrows(config: Config, run: seq<Event>, more: seq<Event>)
    requires ValidConfig(config) && After(config, run).store.Some?
    ensures After(config, run + more).store.Some?
    ensures After(config, run).store.value.checkpoint.completed
      <= After(config, run + more).store.value.checkpoint.completed
    ensures After(config, run).store.value.revision <= After(config, run + more).store.value.revision
  {
    RunKeepsInv(config, run);
    RunKeepsInv(config, run + more);
    CommitsOnlyGrow(config, run, more);
    LongerChain(After(config, run), After(config, run + more));
  }

  lemma {:induction false} LongerChain(early: State, late: State)
    requires Chain(early) && Chain(late) && early.store.Some? && early.commits <= late.commits
    ensures late.store.Some? && early.store.value.revision <= late.store.value.revision
    ensures early.store.value.checkpoint.completed <= late.store.value.checkpoint.completed
  {
    CompletedPrefix(late, |early.commits| - 1, |late.commits| - 1);
    assert late.commits[|early.commits| - 1] == early.commits[|early.commits| - 1];
  }

  lemma {:induction false} CompletedPrefix(s: State, j: nat, k: nat)
    requires Chain(s) && j <= k < |s.commits|
    ensures s.commits[j].checkpoint.completed <= s.commits[k].checkpoint.completed
  {
    if j < k {
      CompletedPrefix(s, j, k - 1);
      assert Follows(s.commits[k - 1].checkpoint, s.commits[k - 1 + 1].checkpoint);
    }
  }

  /** The event that made a commit: its creation, a fence, an agent's reply or a verified one. */
  ghost predicate Authored(config: Config, e: Event, c: Checkpoint) {
    if c.status == InFlight then e.Fence?
    else if c.completed == [] then e.Create? && c.nextInput == e.input && c.names == config(e.w)
    else
      var last := c.completed[|c.completed| - 1];
      if e.Reconcile? then
        last.message == e.reply && e.reply.role == Assistant && e.reply.name == last.agentName
      else e.Commit? && last.message == e.reply
  }

  lemma {:induction false} NextIsAuthored(config: Config, s: State, event: Event)
    ensures var t := Next(config, s, event);
      t.commits == s.commits
      || (|t.commits| == |s.commits| + 1 && Authored(config, event, t.commits[|s.commits|].checkpoint))
  {
  }

  /** No commit appears by itself, and no committed reply is made up. */
  lemma {:induction false} EveryCommitIsAuthored(config: Config, run: seq<Event>, k: nat)
    requires k < |After(config, run).commits|
    ensures exists e :: e in run && Authored(config, e, After(config, run).commits[k].checkpoint)
  {
    if run != [] {
      var init, event := run[..|run| - 1], run[|run| - 1];
      NextAppends(config, After(config, init), event);
      NextIsAuthored(config, After(config, init), event);
      if k < |After(config, init).commits| {
        EveryCommitIsAuthored(config, init, k);
        var e :| e in init && Authored(config, e, After(config, init).commits[k].checkpoint);
        assert e in run;
      } else {
        assert event in run;
      }
    }
  }
}
