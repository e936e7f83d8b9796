/** The bounded fan-out: one input to many agents, for every completion order and interrupt point. */
module Parallel {
  import opened Messages

  datatype Reply = Replied(message: Msg) | AgentFailed(reason: string)

  datatype Outcome = Completed(message: Msg) | BranchFailed(reason: string) | Cut | NotStarted

  /** How waiting for a branch ends: cancelled, with a branch that noticed the interrupt, or with a reply. */
  datatype Wake = Cancelled | Noticed(index: nat) | Observed(index: nat, reply: Reply)

  /**
   * One turn of the scheduler's loop: whether it starts interrupted, which queued branches get
   * polled for the first time, and how the wait ends. A wake that cannot happen changes nothing.
   */
  datatype Turn = Turn(interrupted: bool, polled: seq<nat>, wake: Wake)

  datatype Ending = Going | Settled | Stopped

  /** `invoked` lists the agents invoked, in order, which nobody reads. */
  datatype Fan = Fan(
    next: nat, active: set<nat>, started: set<nat>, outcomes: seq<Outcome>, invoked: seq<nat>, ending: Ending)

  function Fresh(n: nat): (f: Fan)
    ensures |f.outcomes| == n && forall i | 0 <= i < n :: f.outcomes[i] == NotStarted
  {
    Fan(0, {}, {}, Repeat(n), [], Going)
  }

  function Repeat(n: nat): (r: seq<Outcome>)
    ensures |r| == n && forall i | 0 <= i < n :: r[i] == NotStarted
  {
    if n == 0 then [] else Repeat(n - 1) + [NotStarted]
  }

  function Outcomes(reply: Reply): Outcome {
    match reply case Replied(message) => Completed(message) case AgentFailed(reason) => BranchFailed(reason)
  }

  /** Queues branches while there are some and the limit allows. */
  function Refill(f: Fan, n: nat, limit: nat): (r: Fan)
    ensures r.ending == f.ending && |r.outcomes| == |f.outcomes|
    decreases n - f.next
  {
    if f.next < n && |f.active| < limit
    then Refill(f.(next := f.next + 1, active := f.active + {f.next}), n, limit) else f
  }

  /** First polls invoke queued agents, each at its own first poll only. */
  function Poll(f: Fan, polled: seq<nat>): (r: Fan)
    ensures r.ending == f.ending && |r.outcomes| == |f.outcomes|
  {
    if polled == [] then f
    else
      var g, i := Poll(f, polled[..|polled| - 1]), polled[|polled| - 1];
      if i in g.active && i !in g.started then g.(started := g.started + {i}, invoked := g.invoked + [i]) else g
  }

  function Wait(f: Fan, wake: Wake): (r: Fan)
    ensures r.ending == f.ending || r.ending == Stopped
    ensures |r.outcomes| == |f.outcomes|
  {
    match wake
    case Cancelled => f.(ending := Stopped)
    case Noticed(i) => if i in f.active then f.(ending := Stopped) else f
    case Observed(i, reply) =>
      if i in f.active && i in f.started && i < |f.outcomes|
      then f.(active := f.active - {i}, outcomes := f.outcomes[i := Outcomes(reply)]) else f
  }

  function Next(f: Fan, n: nat, limit: nat, turn: Turn): (r: Fan)
    ensures |r.outcomes| == |f.outcomes|
  {
    if f.ending != Going then f
    else if turn.interrupted then f.(ending := Stopped)
    else
      var g := Refill(f, n, limit);
      if g.active == {} then g.(ending := Settled) else Wait(Poll(g, turn.polled), turn.wake)
  }

  /** The fan-out after some turns. */
  function After(n: nat, limit: nat, turns: seq<Turn>): (f: Fan)
    ensures |f.outcomes| == n
  {
    if turns == [] then Fresh(n) else Next(After(n, limit, turns[..|turns| - 1]), n, limit, turns[|turns| - 1])
  }

  datatype Cause = Interrupted | AgentFailures

  datatype Report = Report(cause: Option<Cause>, outcomes: seq<Outcome>)

  /** After an interrupt, a branch without an outcome was cut off if it was invoked at all. */
  function Labelled(f: Fan, k: nat): (r: seq<Outcome>)
    requires k <= |f.outcomes|
    ensures |r| == k
    ensures forall i | 0 <= i < k ::
      r[i] == if f.outcomes[i] == NotStarted && i in f.started then Cut else f.outcomes[i]
  {
    if k == 0 then []
    else
      Labelled(f, k - 1) +
        [if f.outcomes[k - 1] == NotStarted && k - 1 in f.started then Cut else f.outcomes[k - 1]]
  }

  predicate AnyFailed(outcomes: seq<Outcome>) {
    exists i | 0 <= i < |outcomes| :: outcomes[i].BranchFailed?
  }

  function ReportOf(f: Fan): (r: Option<Report>)
    ensures r.Some? ==> |r.value.outcomes| == |f.outcomes|
  {
    match f.ending
    case Going => None
    case Stopped => Some(Report(Some(Cause.Interrupted), Labelled(f, |f.outcomes|)))
    case Settled => Some(Report(if AnyFailed(f.outcomes) then Some(AgentFailures) else None, f.outcomes))
  }

  // --------------------------------------------------------------- the loop

  /** Runs the branches over the given turns; None when they end before the run does. */
  method Run(n: nat, limit: nat, turns: seq<Turn>) returns (r: Option<Report>)
    requires limit > 0
    ensures r == ReportOf(After(n, limit, turns))
  {
    var f := Fresh(n);
    for t := 0 to |turns|
      invariant f == After(n, limit, turns[..t]) && f.ending == Going
    {
      assert turns[..t + 1][..t] == turns[..t];
      ghost var before := f;
      var turn := turns[t];
      if turn.interrupted {
        f := f.(ending := Stopped);
        Stays(n, limit, turns, t + 1);
        return Some(Report(Some(Cause.Interrupted), Labelled(f, |f.outcomes|)));
      }
      while f.next < n && |f.active| < limit
        invariant f.ending == Going && |f.outcomes| == |before.outcomes|
        invariant Refill(f, n, limit) == Refill(before, n, limit)
        decreases n - f.next
      {
        f := f.(next := f.next + 1, active := f.active + {f.next});
      }
      if f.active == {} {
        Stays(n, limit, turns, t + 1);
        return Some(Report(if AnyFailed(f.outcomes) then Some(AgentFailures) else None, f.outcomes));
      }
      f := Poll(f, turn.polled);
      f := Wait(f, turn.wake);
      if f.ending == Stopped {
        Stays(n, limit, turns, t + 1);
        return Some(Report(Some(Cause.Interrupted), Labelled(f, |f.outcomes|)));
      }
    }
    assert turns[..|turns|] == turns;
    return None;
  }

  /** A run that is over stays as it is. */
  lemma {:induction false} Stays(n: nat, limit: nat, turns: seq<Turn>, t: nat)
    requires t <= |turns| && After(n, limit, turns[..t]).ending != Going
    ensures After(n, limit, turns) == After(n, limit, turns[..t])
  {
    if t < |turns| {
      var init := turns[..|turns| - 1];
      assert init[..t] == turns[..t];
      Stays(n, limit, init, t);
    } else {
      assert turns[..t] == turns;
    }
  }

  // -------------------------------------------------------------- invariant

  ghost predicate Bounded(f: Fan, n: nat, limit: nat) {
    && f.next <= n && |f.outcomes| == n && |f.active| <= limit
    && (forall i | i in f.active || i in f.started :: i < f.next)
  }

  /** Queued branches without an outcome are exactly the active ones, and no other was touched. */
  ghost predicate Tracked(f: Fan) {
    && f.next <= |f.outcomes|
    && (forall i | 0 <= i < |f.outcomes| :: (i in f.active <==> i < f.next && f.outcomes[i] == NotStarted))
    && (forall i | 0 <= i < |f.outcomes| :: !f.outcomes[i].Cut? && (f.outcomes[i] != NotStarted ==> i in f.started))
  }

  ghost predicate InvokedOnce(f: Fan) {
    && (forall i, j | 0 <= i < j < |f.invoked| :: f.invoked[i] != f.invoked[j])
    && (forall i :: i in f.started <==> i in f.invoked)
  }

  ghost predicate Inv(f: Fan, n: nat, limit: nat) {
    && Bounded(f, n, limit) && Tracked(f) && InvokedOnce(f)
    && (f.ending == Settled ==> f.active == {} && f.next == n)
  }

  lemma {:induction false} RefillKeepsInv(f: Fan, n: nat, limit: nat)
    requires Inv(f, n, limit) && f.ending == Going
    ensures Inv(Refill(f, n, limit), n, limit) && Refill(f, n, limit).ending == Going
    decreases n - f.next
  {
    if f.next < n && |f.active| < limit {
      QueueKeepsInv(f, n, limit);
      RefillKeepsInv(f.(next := f.next + 1, active := f.active + {f.next}), n, limit);
    }
  }

  /** Refilling leaves nothing queued only when nothing is left to start. */
  lemma {:induction false} RefillStartsAll(f: Fan, n: nat, limit: nat)
    requires f.next <= n && limit > 0
    ensures Refill(f, n, limit).active == {} ==> Refill(f, n, limit).next == n
    decreases n - f.next
  {
    if f.next < n && |f.active| < limit {
      RefillStartsAll(f.(next := f.next + 1, active := f.active + {f.next}), n, limit);
    }
  }

  lemma {:induction false} QueueKeepsInv(f: Fan, n: nat, limit: nat)
    requires Inv(f, n, limit) && f.ending == Going && f.next < n && |f.active| < limit
    ensures Inv(f.(next := f.next + 1, active := f.active + {f.next}), n, limit)
  {
    var g := f.(next := f.next + 1, active := f.active + {f.next});
    assert Tracked(g) && Bounded(g, n, limit) && InvokedOnce(g);
  }

  lemma {:induction false} PollKeepsInv(f: Fan, n: nat, limit: nat, polled: seq<nat>)
    requires Inv(f, n, limit) && f.ending == Going
    ensures Inv(Poll(f, polled), n, limit) && Poll(f, polled).ending == Going
  {
    if polled != [] {
      PollKeepsInv(f, n, limit, polled[..|polled| - 1]);
      var g, i := Poll(f, polled[..|polled| - 1]), polled[|polled| - 1];
      if i in g.active && i !in g.started {
        var h := g.(started := g.started + {i}, invoked := g.invoked + [i]);
        assert Bounded(h, n, limit) && Tracked(h) && InvokedOnce(h);
      }
    }
  }

  lemma {:induction false} WaitKeepsInv(f: Fan, n: nat, limit: nat, wake: Wake)
    requires Inv(f, n, limit) && f.ending == Going
    ensures Inv(Wait(f, wake), n, limit)
  {
    if wake.Observed? && wake.index in f.active && wake.index in f.started {
      var g := f.(active := f.active - {wake.index}, outcomes := f.outcomes[wake.index := Outcomes(wake.reply)]);
      assert Bounded(g, n, limit) && Tracked(g) && InvokedOnce(g);
    }
  }

  lemma {:induction false} NextKeepsInv(f: Fan, n: nat, limit: nat, turn: Turn)
    requires limit > 0 && Inv(f, n, limit)
    ensures Inv(Next(f, n, limit, turn), n, limit)
  {
    if f.ending == Going && !turn.interrupted {
      RefillKeepsInv(f, n, limit);
      var g := Refill(f, n, limit);
      if g.active == {} {
        RefillStartsAll(f, n, limit);
      } else {
        PollKeepsInv(g, n, limit, turn.polled);
        WaitKeepsInv(Poll(g, turn.polled), n, limit, turn.wake);
      }
    }
  }

  lemma {:induction false} RunKeepsInv(n: nat, limit: nat, turns: seq<Turn>)
    requires limit > 0
    ensures Inv(After(n, limit, turns), n, limit)
  {
    if turns != [] {
      RunKeepsInv(n, limit, turns[..|turns| - 1]);
      NextKeepsInv(After(n, limit, turns[..|turns| - 1]), n, limit, turns[|turns| - 1]);
    }
  }

  // --------------------------------------------------------------- theorems

  /** The branches invoked and not yet heard of, which run concurrently. */
  function Live(f: Fan): set<nat> {
    f.active * f.started
  }

  /** At no time are there more live branches than the limit allows, and no branch is invoked twice. */
  lemma {:induction false} ConcurrencyIsBounded(n: nat, limit: nat, turns: seq<Turn>)
    requires limit > 0
    ensures |Live(After(n, limit, turns))| <= limit
    ensures InvokedOnce(After(n, limit, turns))
  {
    RunKeepsInv(n, limit, turns);
    var f := After(n, limit, turns);
    SubsetIsNoLarger(Live(f), f.active);
  }

  /** A run that settles heard every branch: it succeeds if all completed, and fails if any did not. */
  lemma {:induction false} SettledRunsHeardAll(n: nat, limit: nat, turns: seq<Turn>)
    requires limit > 0 && ReportOf(After(n, limit, turns)).Some?
    ensures var f := After(n, limit, turns);
      var report := ReportOf(f).value;
      && (report.cause == None <==> f.ending == Settled && forall i | 0 <= i < n :: report.outcomes[i].Completed?)
      && (report.cause == Some(AgentFailures) <==> f.ending == Settled && AnyFailed(report.outcomes))
      && (f.ending == Settled ==> forall i | 0 <= i < n ::
            i in f.invoked && (report.outcomes[i].Completed? || report.outcomes[i].BranchFailed?))
  {
    RunKeepsInv(n, limit, turns);
  }

  /**
   * On interruption, the branches labelled cut off are exactly those invoked without an observed
   * reply, those labelled not started exactly those never invoked, and observed replies stand.
   */
  lemma {:induction false} InterruptionIsExact(n: nat, limit: nat, turns: seq<Turn>, i: nat)
    requires limit > 0 && i < n && ReportOf(After(n, limit, turns)).Some?
    requires ReportOf(After(n, limit, turns)).value.cause == Some(Cause.Interrupted)
    ensures var f := After(n, limit, turns);
      var outcome := ReportOf(f).value.outcomes[i];
      && (outcome == Cut <==> i in f.invoked && f.outcomes[i] == NotStarted)
      && (outcome == NotStarted <==> i !in f.invoked)
      && (outcome.Completed? || outcome.BranchFailed? ==> outcome == f.outcomes[i])
  {
    RunKeepsInv(n, limit, turns);
  }

  /** In this turn, branch `i` is observed to complete or fail as `outcome` says. */
  ghost predicate Delivers(turn: Turn, i: nat, outcome: Outcome) {
    match outcome
    case Completed(message) => turn.wake == Observed(i, Replied(message))
    case BranchFailed(reason) => turn.wake == Observed(i, AgentFailed(reason))
    case _ => false
  }

  /** A recorded outcome is never replaced, and came from an observed reply of that branch. */
  lemma {:induction false} OutcomesAreReplies(n: nat, limit: nat, turns: seq<Turn>, i: nat)
    requires limit > 0 && i < n
    requires After(n, limit, turns).outcomes[i] != NotStarted
    ensures exists t :: 0 <= t < |turns| && Delivers(turns[t], i, After(n, limit, turns).outcomes[i])
  {
    if turns != [] {
      var init, turn := turns[..|turns| - 1], turns[|turns| - 1];
      RunKeepsInv(n, limit, init);
      var f := After(n, limit, init);
      OutcomesKept(f, n, limit, turn, i);
      if f.outcomes[i] != NotStarted {
        OutcomesAreReplies(n, limit, init, i);
        var t :| 0 <= t < |init| && Delivers(init[t], i, f.outcomes[i]);
        assert turns[t] == init[t];
      } else {
        assert turns[|turns| - 1] == turn;
      }
    }
  }

  lemma {:induction false} OutcomesKept(f: Fan, n: nat, limit: nat, turn: Turn, i: nat)
    requires limit > 0 && Inv(f, n, limit) && i < n
    ensures var g := Next(f, n, limit, turn);
      && |g.outcomes| == n
      && (f.outcomes[i] != NotStarted ==> g.outcomes[i] == f.outcomes[i])
      && (g.outcomes[i] != f.outcomes[i] ==>
            Delivers(turn, i, g.outcomes[i]))
  {
    if f.ending == Going && !turn.interrupted {
      RefillKeepsInv(f, n, limit);
      RefillKeepsOutcomes(f, n, limit);
      var g := Refill(f, n, limit);
      PollKeepsInv(g, n, limit, turn.polled);
      PollKeepsOutcomes(g, turn.polled);
    }
  }

  lemma {:induction false} RefillKeepsOutcomes(f: Fan, n: nat, limit: nat)
    ensures Refill(f, n, limit).outcomes == f.outcomes
    decreases n - f.next
  {
    if f.next < n && |f.active| < limit {
      RefillKeepsOutcomes(f.(next := f.next + 1, active := f.active + {f.next}), n, limit);
    }
  }

  lemma {:induction false} PollKeepsOutcomes(f: Fan, polled: seq<nat>)
    ensures Poll(f, polled).outcomes == f.outcomes && Poll(f, polled).active == f.active
  {
    if polled != [] { PollKeepsOutcomes(f, polled[..|polled| - 1]); }
  }

  /** What a report says of a branch: the message or error it was heard with, or that the run was interrupted. */
  lemma {:induction false} ReportsAreHeard(n: nat, limit: nat, turns: seq<Turn>, i: nat)
    requires limit > 0 && i < n && ReportOf(After(n, limit, turns)).Some?
    ensures var report := ReportOf(After(n, limit, turns)).value;
      match report.outcomes[i]
      case Completed(message) => exists t :: 0 <= t < |turns| && turns[t].wake == Observed(i, Replied(message))
      case BranchFailed(reason) => exists t :: 0 <= t < |turns| && turns[t].wake == Observed(i, AgentFailed(reason))
      case _ => report.cause == Some(Cause.Interrupted)
  {
    var f := After(n, limit, turns);
    RunKeepsInv(n, limit, turns);
    if f.outcomes[i] != NotStarted {
      OutcomesAreReplies(n, limit, turns, i);
      var t :| 0 <= t < |turns| && Delivers(turns[t], i, f.outcomes[i]);
    }
  }

  /** The first reply observed of an invoked branch, while the run goes on, is in every later report. */
  lemma {:induction false} ObservedIsReported(n: nat, limit: nat, turns: seq<Turn>, t: nat, i: nat)
    requires limit > 0 && i < n && t < |turns| && ReportOf(After(n, limit, turns)).Some?
    requires After(n, limit, turns[..t]).ending == Going && !turns[t].interrupted
    requires After(n, limit, turns[..t]).outcomes[i] == NotStarted && i in After(n, limit, turns[..t + 1]).invoked
    requires turns[t].wake.Observed? && turns[t].wake.index == i
    ensures ReportOf(After(n, limit, turns)).value.outcomes[i]
         == match turns[t].wake.reply
            case Replied(message) => Completed(message)
            case AgentFailed(reason) => BranchFailed(reason)
  {
    var f, g := After(n, limit, turns[..t]), After(n, limit, turns[..t + 1]);
    assert turns[..t + 1][..t] == turns[..t];
    RunKeepsInv(n, limit, turns[..t]);
    RunKeepsInv(n, limit, turns[..t + 1]);
    ObservedStep(f, n, limit, turns[t], i);
    OutcomeStays(n, limit, turns, t + 1, i);
    RunKeepsInv(n, limit, turns);
  }

  lemma {:induction false} ObservedStep(f: Fan, n: nat, limit: nat, turn: Turn, i: nat)
    requires limit > 0 && i < n && Inv(f, n, limit) && f.ending == Going && !turn.interrupted
    requires f.outcomes[i] == NotStarted && i in Next(f, n, limit, turn).invoked
    requires turn.wake.Observed? && turn.wake.index == i
    ensures Next(f, n, limit, turn).outcomes[i]
         == match turn.wake.reply
            case Replied(message) => Completed(message)
            case AgentFailed(reason) => BranchFailed(reason)
  {
    var g := Refill(f, n, limit);
    RefillKeepsInv(f, n, limit);
    RefillKeepsOutcomes(f, n, limit);
    RefillStartsAll(f, n, limit);
    if g.active != {} {
      PollKeepsInv(g, n, limit, turn.polled);
      PollKeepsOutcomes(g, turn.polled);
    }
  }

  lemma {:induction false} OutcomeStays(n: nat, limit: nat, turns: seq<Turn>, t: nat, i: nat)
    requires limit > 0 && i < n && t <= |turns| && After(n, limit, turns[..t]).outcomes[i] != NotStarted
    ensures After(n, limit, turns).outcomes[i] == After(n, limit, turns[..t]).outcomes[i]
  {
    if t == |turns| {
      assert turns[..t] == turns;
    } else {
      var init := turns[..|turns| - 1];
      assert init[..t] == turns[..t];
      OutcomeStays(n, limit, init, t, i);
      RunKeepsInv(n, limit, init);
      OutcomesKept(After(n, limit, init), n, limit, turns[|turns| - 1], i);
    }
  }

  /** The limit is used: while branches are left to queue, a turn leaves at most the one it heard unreplaced. */
  lemma {:induction false} LimitIsUsed(n: nat, limit: nat, turns: seq<Turn>)
    requires limit > 0 && turns != [] && After(n, limit, turns).ending == Going
    ensures var f, before := After(n, limit, turns), After(n, limit, turns[..|turns| - 1]);
      && (f.next < n ==> |f.active| + 1 >= limit)
      && (f.next < n && f.outcomes == before.outcomes ==> |f.active| == limit)
  {
    RunKeepsInv(n, limit, turns[..|turns| - 1]);
    LimitUsedNext(After(n, limit, turns[..|turns| - 1]), n, limit, turns[|turns| - 1]);
  }

  lemma {:induction false} LimitUsedNext(f: Fan, n: nat, limit: nat, turn: Turn)
    requires limit > 0 && Inv(f, n, limit) && Next(f, n, limit, turn).ending == Going
    ensures var after := Next(f, n, limit, turn);
      && (after.next < n ==> |after.active| + 1 >= limit)
      && (after.next < n && after.outcomes == f.outcomes ==> |after.active| == limit)
  {
    var g := Refill(f, n, limit);
    RefillFills(f, n, limit);
    RefillKeepsInv(f, n, limit);
    RefillKeepsOutcomes(f, n, limit);
    PollKeepsOutcomes(g, turn.polled);
    PollQueuesNothing(g, turn.polled);
    if turn.wake.Observed? && turn.wake.index in g.active && turn.wake.index in Poll(g, turn.polled).started {
      assert f.outcomes[turn.wake.index] == NotStarted;
    }
  }

  lemma {:induction false} RefillFills(f: Fan, n: nat, limit: nat)
    requires |f.active| <= limit
    ensures var g := Refill(f, n, limit); |g.active| >= limit || g.next >= n
    decreases n - f.next
  {
    if f.next < n && |f.active| < limit {
      RefillFills(f.(next := f.next + 1, active := f.active + {f.next}), n, limit);
    }
  }

  lemma {:induction false} PollQueuesNothing(f: Fan, polled: seq<nat>)
    ensures Poll(f, polled).next == f.next
  {
    if polled != [] { PollQueuesNothing(f, polled[..|polled| - 1]); }
  }

  /** A branch is invoked in the turn that first polls it while it is queued, and in no other way. */
  lemma {:induction false} InvokedWhenPolled(n: nat, limit: nat, turns: seq<Turn>, i: nat)
    requires limit > 0 && i in After(n, limit, turns).invoked
    ensures exists t :: 0 <= t < |turns| && i in turns[t].polled
  {
    if turns != [] {
      var init, turn := turns[..|turns| - 1], turns[|turns| - 1];
      var f := After(n, limit, init);
      if i in f.invoked {
        InvokedWhenPolled(n, limit, init, i);
        var t :| 0 <= t < |init| && i in init[t].polled;
        assert turns[t] == init[t];
      } else {
        RefillInvokesNone(f, n, limit);
        PollInvokes(Refill(f, n, limit), turn.polled, i);
        assert turns[|turns| - 1] == turn;
      }
    }
  }

  lemma {:induction false} RefillInvokesNone(f: Fan, n: nat, limit: nat)
    ensures Refill(f, n, limit).invoked == f.invoked
    decreases n - f.next
  {
    if f.next < n && |f.active| < limit {
      RefillInvokesNone(f.(next := f.next + 1, active := f.active + {f.next}), n, limit);
    }
  }

  lemma {:induction false} PollInvokes(f: Fan, polled: seq<nat>, i: nat)
    ensures i in Poll(f, polled).invoked ==> i in f.invoked || i in polled
  {
    if polled != [] { PollInvokes(f, polled[..|polled| - 1], i); }
  }

  /** A turn that goes on invokes every branch that it polls and that waits for a reply. */
  lemma {:induction false} PolledAreInvoked(n: nat, limit: nat, turns: seq<Turn>, i: nat)
    requires limit > 0 && turns != [] && i in turns[|turns| - 1].polled && !turns[|turns| - 1].interrupted
    requires After(n, limit, turns[..|turns| - 1]).ending == Going
    requires i < After(n, limit, turns).next && i < n && After(n, limit, turns[..|turns| - 1]).outcomes[i] == NotStarted
    ensures i in After(n, limit, turns).invoked
  {
    var f, turn := After(n, limit, turns[..|turns| - 1]), turns[|turns| - 1];
    var g := Refill(f, n, limit);
    RunKeepsInv(n, limit, turns[..|turns| - 1]);
    RefillKeepsInv(f, n, limit);
    RefillKeepsOutcomes(f, n, limit);
    PollQueuesNothing(g, turn.polled);
    PollStarts(g, turn.polled, i);
    PollKeepsInv(g, n, limit, turn.polled);
  }

  lemma {:induction false} PollStarts(f: Fan, polled: seq<nat>, i: nat)
    requires i in polled && i in f.active
    ensures i in Poll(f, polled).started
  {
    var init := polled[..|polled| - 1];
    PollKeepsOutcomes(f, init);
    if polled[|polled| - 1] != i { PollStarts(f, init, i); }
  }

  /** Whether the wait of a turn ends the run: cancelled, or the interrupt noticed by a branch that waits. */
  ghost predicate IsStopped(before: Fan, wake: Wake, next: nat) {
    match wake
    case Cancelled => true
    case Noticed(i) => i < next && i < |before.outcomes| && before.outcomes[i] == NotStarted
    case Observed(_, _) => false
  }

  /** Every branch has been heard. */
  ghost predicate AllHeard(f: Fan) {
    forall k | 0 <= k < |f.outcomes| :: f.outcomes[k] != NotStarted
  }

  /**
   * A run stops in a turn that starts interrupted, is cancelled, or has a waiting branch notice the
   * interrupt, and settles in the first undisturbed turn that finds every branch heard.
   */
  lemma {:induction false} EndsWhen(n: nat, limit: nat, turns: seq<Turn>)
    requires limit > 0 && turns != [] && After(n, limit, turns[..|turns| - 1]).ending == Going
    ensures var before, after := After(n, limit, turns[..|turns| - 1]), After(n, limit, turns);
      var turn := turns[|turns| - 1];
      && (after.ending == Settled <==> !turn.interrupted && AllHeard(before))
      && (after.ending == Stopped
          <==> turn.interrupted || (!AllHeard(before) && IsStopped(before, turn.wake, after.next)))
  {
    RunKeepsInv(n, limit, turns[..|turns| - 1]);
    EndsNext(After(n, limit, turns[..|turns| - 1]), n, limit, turns[|turns| - 1]);
  }

  lemma {:induction false} EndsNext(f: Fan, n: nat, limit: nat, turn: Turn)
    requires limit > 0 && Inv(f, n, limit) && f.ending == Going
    ensures var after := Next(f, n, limit, turn);
      && (after.ending == Settled <==> !turn.interrupted && AllHeard(f))
      && (after.ending == Stopped
          <==> turn.interrupted || (!AllHeard(f) && IsStopped(f, turn.wake, after.next)))
  {
    if !turn.interrupted {
      var g := Refill(f, n, limit);
      RefilledHeard(f, n, limit);
      PollQueuesNothing(g, turn.polled);
      PollKeepsOutcomes(g, turn.polled);
    }
  }

  lemma {:induction false} RefilledHeard(f: Fan, n: nat, limit: nat)
    requires limit > 0 && Inv(f, n, limit) && f.ending == Going
    ensures var g := Refill(f, n, limit);
      && g.outcomes == f.outcomes && (g.active == {} <==> AllHeard(f)) && g.ending == Going
      && forall i: nat :: i in g.active <==> i < |f.outcomes| && i < g.next && f.outcomes[i] == NotStarted
  {
    var g := Refill(f, n, limit);
    RefillKeepsInv(f, n, limit);
    RefillKeepsOutcomes(f, n, limit);
    RefillStartsAll(f, n, limit);
  }
}
