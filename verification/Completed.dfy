/** The acceptor for completed conversation prefixes, and what it promises recent-turn selection. */
module Completed {
  import opened Messages
  import opened RecentTurns

  datatype Progress = Progress(pending: map<string, string>, last: Option<Msg>, hasUser: bool)

  /** The calls still unresolved after `blocks`, or None at the first malformed exchange. */
  function ReadExchanges(blocks: seq<Block>, pending: map<string, string>): Option<map<string, string>> {
    if blocks == [] then Some(pending)
    else
      var last := |blocks| - 1;
      match ReadExchanges(blocks[..last], pending)
      case None => None
      case Some(open) =>
        match blocks[last]
        case ToolCall(id, name, _, _) => if id in open then None else Some(open[id := name])
        case ToolResult(id, name, _, state) =>
          if IsTerminal(state) && id in open && open[id] == name then Some(open - {id}) else None
        case _ => Some(open)
  }

  predicate IsAnswer(message: Option<Msg>) {
    && message.Some? && message.value.role == Assistant
    && (exists b | b in message.value.content :: b.Text? || b.StructuredOutput?)
    && (forall b | b in message.value.content :: !b.ToolCall? && !b.ToolResult?)
  }

  function ReadMessage(p: Progress, message: Msg): Option<Progress> {
    if message.role == System then Some(p)
    else if message.role == User && p.hasUser && (p.pending != map[] || !IsAnswer(p.last)) then None
    else
      match ReadExchanges(message.content, p.pending)
      case None => None
      case Some(open) => Some(Progress(open, Some(message), p.hasUser || message.role == User))
  }

  function ReadHistory(messages: seq<Msg>): Option<Progress> {
    if messages == [] then Some(Progress(map[], None, false))
    else
      match ReadHistory(messages[..|messages| - 1])
      case None => None
      case Some(p) => ReadMessage(p, messages[|messages| - 1])
  }

  predicate IsCompleted(messages: seq<Msg>) {
    match ReadHistory(messages)
    case None => false
    case Some(p) => p.hasUser && p.pending == map[] && IsAnswer(p.last)
  }

  /** Reads one message's calls and results against the calls still pending. */
  method ResolveExchanges(content: seq<Block>, before: map<string, string>)
    returns (pending: Option<map<string, string>>)
    ensures pending == ReadExchanges(content, before)
    ensures forall events | Tracks(before, events) && Paired(events) ::
      && (pending.Some? <==> Paired(events + EventsIn(content)))
      && (pending.Some? ==> Tracks(pending.value, events + EventsIn(content)))
  {
    forall events | Tracks(before, events) && Paired(events)
      ensures ReadExchanges(content, before).Some? <==> Paired(events + EventsIn(content))
      ensures ReadExchanges(content, before).Some? ==>
        Tracks(ReadExchanges(content, before).value, events + EventsIn(content))
    {
      ExchangesMeaning(events, before, content);
    }
    var open := before;
    for k := 0 to |content|
      invariant ReadExchanges(content[..k], before) == Some(open)
    {
      assert content[..k + 1][..k] == content[..k];
      ExchangesRejectedStay(content, before, k + 1);
      match content[k]
      case ToolCall(id, name, _, _) =>
        if id in open { return None; }
        open := open[id := name];
      case ToolResult(id, name, _, state) =>
        if !IsTerminal(state) || id !in open || open[id] != name { return None; }
        open := open - {id};
      case _ =>
    }
    assert content[..|content|] == content;
    return Some(open);
  }

  /** Fails closed on incomplete turns and orphan tool exchanges. */
  method ValidateCompleted(messages: seq<Msg>) returns (ok: bool)
    ensures ok == IsCompleted(messages)
    ensures ok <==> WellTurned(messages)
  {
    AcceptanceMeaning(messages);
    var pending: map<string, string> := map[];
    var last: Option<Msg> := None;
    var hasUser := false;
    for i := 0 to |messages|
      invariant ReadHistory(messages[..i]) == Some(Progress(pending, last, hasUser))
    {
      assert messages[..i + 1][..i] == messages[..i];
      RejectedStays(messages, i + 1);
      if messages[i].role != System {
        if messages[i].role == User && hasUser && (pending != map[] || !IsAnswer(last)) { return false; }
        hasUser := hasUser || messages[i].role == User;
        var resolved := ResolveExchanges(messages[i].content, pending);
        if resolved.None? { return false; }
        pending, last := resolved.value, Some(messages[i]);
      }
    }
    assert messages[..|messages|] == messages;
    return hasUser && pending == map[] && IsAnswer(last);
  }

  lemma {:induction false} RejectedStays(messages: seq<Msg>, i: nat)
    requires i <= |messages|
    ensures ReadHistory(messages[..i]).None? ==> ReadHistory(messages).None?
  {
    if i == |messages| {
      assert messages[..i] == messages;
    } else {
      var init := messages[..|messages| - 1];
      RejectedStays(init, i);
      assert init[..i] == messages[..i];
    }
  }

  lemma {:induction false} ExchangesRejectedStay(blocks: seq<Block>, pending: map<string, string>, k: nat)
    requires k <= |blocks|
    ensures ReadExchanges(blocks[..k], pending).None? ==> ReadExchanges(blocks, pending).None?
  {
    if k == |blocks| {
      assert blocks[..k] == blocks;
    } else {
      var init := blocks[..|blocks| - 1];
      ExchangesRejectedStay(init, pending, k);
      assert init[..k] == blocks[..k];
    }
  }

  // ------------------------------------- completed histories are never expanded

  /** A call still pending was made in the current turn, or before any user message. */
  ghost predicate PendingIsRecent(pending: map<string, string>, calls: map<CallKey, nat>, turn: nat, first: bool) {
    forall id | id in pending ::
      (id, pending[id]) in calls
      && (calls[(id, pending[id])] == turn || (first && calls[(id, pending[id])] == 0))
  }

  lemma {:induction false} ExchangesStayRecent(blocks: seq<Block>, pending: map<string, string>,
    calls: map<CallKey, nat>, turn: nat, dep: nat, first: bool)
    requires PendingIsRecent(pending, calls, turn, first) && turn <= dep
    requires ReadExchanges(blocks, pending).Some?
    ensures PendingIsRecent(ReadExchanges(blocks, pending).value, CallsAfter(blocks, calls, turn), turn, first)
    ensures !first ==> DepAfter(blocks, calls, turn, dep) >= turn
  {
    if blocks != [] {
      ExchangesStayRecent(blocks[..|blocks| - 1], pending, calls, turn, dep, first);
    }
  }

  /** A call that the acceptor does not see can only move to the current turn. */
  lemma {:induction false} UnseenCallsStayRecent(
    blocks: seq<Block>, pending: map<string, string>, calls: map<CallKey, nat>, turn: nat, first: bool)
    requires PendingIsRecent(pending, calls, turn, first)
    ensures PendingIsRecent(pending, CallsAfter(blocks, calls, turn), turn, first)
  {
    if blocks != [] { UnseenCallsStayRecent(blocks[..|blocks| - 1], pending, calls, turn, first); }
  }

  /** The turn that message `i` extends: its user message so far, or 0. */
  function TurnBefore(history: seq<Msg>, i: nat): nat
    requires i <= |history|
  {
    if i == 0 then 0 else TurnStart(history, i - 1)
  }

  lemma {:induction false} NoUsersNoTurn(history: seq<Msg>, i: nat)
    requires i <= |history| && UsersFrom(history, 0) == UsersFrom(history, i)
    ensures TurnBefore(history, i) == 0
  {
    var s := TurnBefore(history, i);
    if s > 0 {
      UsersFromAntitone(history, 0, s);
      UsersFromAntitone(history, s, i);
    }
  }

  /** No message that the acceptor sees, after the first turn, depends on an earlier turn. */
  ghost predicate StaysInTurns(history: seq<Msg>, i: nat)
    requires i <= |history|
  {
    forall k: nat | k < i && history[k].role != System && UsersFrom(history, 0) - UsersFrom(history, k + 1) > 1 ::
      Dep(history, k) >= TurnStart(history, k)
  }

  /** What the acceptor's progress says of the first `i` messages. */
  ghost predicate Reflects(history: seq<Msg>, i: nat, p: Progress)
    requires i <= |history|
  {
    var users := UsersFrom(history, 0) - UsersFrom(history, i);
    && p.hasUser == (users > 0)
    && PendingIsRecent(p.pending, CallsBefore(history, i), TurnBefore(history, i), users <= 1)
    && StaysInTurns(history, i)
  }

  lemma {:induction false} AcceptedPrefix(history: seq<Msg>, i: nat)
    requires i <= |history| && ReadHistory(history[..i]).Some?
    ensures Reflects(history, i, ReadHistory(history[..i]).value)
  {
    if i > 0 {
      assert history[..i][..i - 1] == history[..i - 1];
      AcceptedPrefix(history, i - 1);
      AcceptedStep(history, i - 1, ReadHistory(history[..i - 1]).value, ReadHistory(history[..i]).value);
    }
  }

  lemma {:induction false} AcceptedStep(history: seq<Msg>, k: nat, p: Progress, next: Progress)
    requires k < |history| && Reflects(history, k, p)
    requires ReadMessage(p, history[k]) == Some(next)
    ensures Reflects(history, k + 1, next)
  {
    var first := UsersFrom(history, 0) - UsersFrom(history, k + 1) <= 1;
    UsersFromAntitone(history, 0, k);
    PendingAtMessage(history, k, p);
    MessageStaysRecent(p, history[k], CallsBefore(history, k), TurnStart(history, k), k, first);
    assert StaysInTurns(history, k + 1);
  }

  /** A new turn starts with nothing pending, so what is pending at a message belongs to its turn. */
  lemma {:induction false} PendingAtMessage(history: seq<Msg>, k: nat, p: Progress)
    requires k < |history| && Reflects(history, k, p) && ReadMessage(p, history[k]).Some?
    ensures PendingIsRecent(p.pending, CallsBefore(history, k), TurnStart(history, k),
                            UsersFrom(history, 0) - UsersFrom(history, k + 1) <= 1)
  {
    UsersFromAntitone(history, 0, k);
    if history[k].role == User && !p.hasUser { NoUsersNoTurn(history, k); }
  }

  /** Reading one message keeps the pending calls recent, and its results stay in its turn. */
  lemma {:induction false} MessageStaysRecent(
    p: Progress, m: Msg, calls: map<CallKey, nat>, turn: nat, index: nat, first: bool)
    requires ReadMessage(p, m).Some? && turn <= index
    requires PendingIsRecent(p.pending, calls, turn, first)
    ensures PendingIsRecent(ReadMessage(p, m).value.pending, CallsAfter(m.content, calls, turn), turn, first)
    ensures !first && m.role != System ==> DepAfter(m.content, calls, turn, index) >= turn
  {
    if m.role == System {
      UnseenCallsStayRecent(m.content, p.pending, calls, turn, first);
    } else {
      ExchangesStayRecent(m.content, p.pending, calls, turn, index, first);
    }
  }

  /** No System message, which the acceptor does not see, answers a call made before the cut. */
  ghost predicate SystemsStayAfter(history: seq<Msg>, b: nat) {
    forall i: nat | i < |history| && history[i].role == System :: Dep(history, i) == i || Dep(history, i) >= b
  }

  /**
   * On a completed history the policy keeps exactly the last `n` turns and the System messages, if
   * and only if no System message answers a call from an earlier turn.
   */
  lemma {:induction false} CompletedExpandsIff(history: seq<Msg>, n: nat)
    requires 0 < n && IsCompleted(history)
    ensures Start(history, n) == Boundary(history, n) <==> SystemsStayAfter(history, Boundary(history, n))
  {
    var b := Boundary(history, n);
    assert history[..|history|] == history;
    AcceptedPrefix(history, |history|);
    SuffixStaysInTurns(history, n);
    if SystemsStayAfter(history, b) { PassStays(history, 0, b); }
    if Start(history, n) == b {
      forall i: nat | i < |history| && history[i].role == System ensures Dep(history, i) == i || Dep(history, i) >= b {
        PassAntitone(history, 0, i, b);
      }
    }
  }

  /** In particular when no System message carries a result at all. */
  lemma {:induction false} CompletedNeverExpands(history: seq<Msg>, n: nat)
    requires 0 < n && IsCompleted(history) && NoSystemResults(history)
    ensures Start(history, n) == Boundary(history, n)
  {
    CompletedExpandsIff(history, n);
    forall i: nat | i < |history| && history[i].role == System ensures Dep(history, i) == i {
      NoResultDep(history, i);
    }
  }

  lemma {:induction false} PassStays(history: seq<Msg>, from: nat, b: nat)
    requires from <= |history| && SystemsStayAfter(history, b)
    requires forall i: nat | b <= i < |history| && history[i].role != System :: Dep(history, i) >= b
    ensures PassFrom(history, from, b) == b
    decreases |history| - from
  {
    if from < |history| { PassStays(history, from + 1, b); }
  }

  /** When messages depend on their own turn only, none after a boundary depends on one before it. */
  lemma {:induction false} SuffixStaysInTurns(history: seq<Msg>, n: nat)
    requires 0 < n && StaysInTurns(history, |history|)
    ensures var b := Boundary(history, n);
      forall i: nat | b <= i < |history| && history[i].role != System :: Dep(history, i) >= b
  {
    var b := Boundary(history, n);
    if b > 0 {
      forall i: nat | b <= i < |history| && history[i].role != System ensures Dep(history, i) >= b {
        UsersFromAntitone(history, b, i + 1);
        TurnStartIsLatest(history, i, b);
      }
    }
  }

  // --------------------------------------------------- what acceptance means

  datatype ToolEvent = Called(id: string, name: string) | Answered(id: string, name: string, terminal: bool)

  /** The calls and results among some blocks, in order. */
  function EventsIn(blocks: seq<Block>): seq<ToolEvent> {
    if blocks == [] then []
    else
      var before := EventsIn(blocks[..|blocks| - 1]);
      match blocks[|blocks| - 1]
      case ToolCall(id, name, _, _) => before + [Called(id, name)]
      case ToolResult(id, name, _, state) => before + [Answered(id, name, IsTerminal(state))]
      case _ => before
  }

  /** The calls and results of the first `i` messages, System messages aside. */
  function EventsBefore(history: seq<Msg>, i: nat): seq<ToolEvent>
    requires i <= |history|
  {
    if i == 0 then []
    else if history[i - 1].role == System then EventsBefore(history, i - 1)
    else EventsBefore(history, i - 1) + EventsIn(history[i - 1].content)
  }

  /** Just before event `k`, the newest event with this identifier is a call under this name. */
  ghost predicate Waits(events: seq<ToolEvent>, k: nat, id: string, name: string)
    requires k <= |events|
  {
    exists j | 0 <= j < k :: events[j] == Called(id, name) && forall m | j < m < k :: events[m].id != id
  }

  /** Event `k` opens a call that is not open, or is the terminal answer to the one that is. */
  ghost predicate InPlace(events: seq<ToolEvent>, k: nat)
    requires k < |events|
  {
    match events[k]
    case Called(id, _) => forall name :: !Waits(events, k, id, name)
    case Answered(id, name, terminal) => terminal && Waits(events, k, id, name)
  }

  ghost predicate Paired(events: seq<ToolEvent>) {
    forall k | 0 <= k < |events| :: InPlace(events, k)
  }

  ghost predicate NothingWaits(events: seq<ToolEvent>) {
    forall id, name :: !Waits(events, |events|, id, name)
  }

  ghost predicate UserBefore(history: seq<Msg>, i: nat)
    requires i <= |history|
  {
    exists u | 0 <= u < i :: history[u].role == User
  }

  /** The newest message before `i`, System messages aside, is a visible answer without tool blocks. */
  ghost predicate AnswerBefore(history: seq<Msg>, i: nat)
    requires i <= |history|
  {
    exists j | 0 <= j < i ::
      && history[j].role == Assistant && ShowsText(history[j].content)
      && forall m | j < m < i :: history[m].role == System
  }

  /** Text or structured output for the user, and no tool exchange. */
  ghost predicate ShowsText(content: seq<Block>) {
    && (exists i | 0 <= i < |content| :: content[i].Text? || content[i].StructuredOutput?)
    && (forall i | 0 <= i < |content| :: !content[i].ToolCall? && !content[i].ToolResult?)
  }

  lemma {:induction false} AnswerShows(m: Msg)
    ensures IsAnswer(Some(m)) <==> m.role == Assistant && ShowsText(m.content)
  {
    if IsAnswer(Some(m)) {
      var b :| b in m.content && (b.Text? || b.StructuredOutput?);
      var i :| 0 <= i < |m.content| && m.content[i] == b;
    }
  }

  /** A turn may end before message `i`: every call is answered, and so is the user. */
  ghost predicate TurnMayEnd(history: seq<Msg>, i: nat)
    requires i <= |history|
  {
    NothingWaits(EventsBefore(history, i)) && AnswerBefore(history, i)
  }

  /** Every turn but the first starts where one may end. */
  ghost predicate TurnsEnd(history: seq<Msg>, i: nat)
    requires i <= |history|
  {
    forall u | 0 <= u < i && history[u].role == User && UserBefore(history, u) :: TurnMayEnd(history, u)
  }

  /** `pending` holds exactly the open calls. */
  ghost predicate Tracks(pending: map<string, string>, events: seq<ToolEvent>) {
    forall id, name :: Waits(events, |events|, id, name) <==> id in pending && pending[id] == name
  }

  lemma {:induction false} WaitsAppend(events: seq<ToolEvent>, e: ToolEvent, id: string, name: string)
    ensures Waits(events + [e], |events| + 1, id, name) <==>
      e == Called(id, name) || (e.id != id && Waits(events, |events|, id, name))
  {
    var more := events + [e];
    if e == Called(id, name) {
      assert more[|events|] == Called(id, name);
    } else if e.id != id && Waits(events, |events|, id, name) {
      var j :| 0 <= j < |events| && events[j] == Called(id, name) && forall m | j < m < |events| :: events[m].id != id;
      assert more[j] == Called(id, name) && forall m | j < m < |more| :: more[m].id != id;
    }
    if e != Called(id, name) && Waits(more, |more|, id, name) {
      var j :| 0 <= j < |more| && more[j] == Called(id, name) && forall m | j < m < |more| :: more[m].id != id;
      assert j < |events| && events[j] == Called(id, name) && more[|events|] == e;
      assert forall m | j < m < |events| :: events[m].id == more[m].id;
    }
  }

  lemma {:induction false} WaitsInPrefix(events: seq<ToolEvent>, more: seq<ToolEvent>, k: nat, id: string, name: string)
    requires k <= |events|
    ensures Waits(events + more, k, id, name) <==> Waits(events, k, id, name)
  {
    var all := events + more;
    if Waits(events, k, id, name) {
      var j :| 0 <= j < k && events[j] == Called(id, name) && forall m | j < m < k :: events[m].id != id;
      assert all[j] == Called(id, name) && forall m | j < m < k :: all[m].id != id;
    }
    if Waits(all, k, id, name) {
      var j :| 0 <= j < k && all[j] == Called(id, name) && forall m | j < m < k :: all[m].id != id;
      assert events[j] == Called(id, name) && forall m | j < m < k :: events[m].id == all[m].id;
    }
  }

  lemma {:induction false} InPlaceInPrefix(events: seq<ToolEvent>, more: seq<ToolEvent>, k: nat)
    requires k < |events|
    ensures InPlace(events + more, k) <==> InPlace(events, k)
  {
    forall id, name ensures Waits(events + more, k, id, name) <==> Waits(events, k, id, name) {
      WaitsInPrefix(events, more, k, id, name);
    }
  }

  lemma {:induction false} PairedAppend(events: seq<ToolEvent>, more: seq<ToolEvent>)
    ensures Paired(events + more) ==> Paired(events)
    ensures |more| == 1 ==> (Paired(events + more) <==> Paired(events) && InPlace(events + more, |events|))
  {
    forall k | 0 <= k < |events| ensures InPlace(events + more, k) <==> InPlace(events, k) {
      InPlaceInPrefix(events, more, k);
    }
    if Paired(events + more) {
      forall k | 0 <= k < |events| ensures InPlace(events, k) { assert InPlace(events + more, k); }
      if |more| == 1 { assert InPlace(events + more, |events|); }
    }
  }

  /** What reading one event may do to the pending calls. */
  lemma {:induction false} EventTracked(events: seq<ToolEvent>, pending: map<string, string>, e: ToolEvent)
    requires Tracks(pending, events)
    ensures InPlace(events + [e], |events|) <==>
      if e.Called? then e.id !in pending else e.terminal && e.id in pending && pending[e.id] == e.name
    ensures InPlace(events + [e], |events|) ==>
      Tracks(if e.Called? then pending[e.id := e.name] else pending - {e.id}, events + [e])
  {
    forall id, name ensures Waits(events + [e], |events|, id, name) <==> id in pending && pending[id] == name {
      WaitsInPrefix(events, [e], |events|, id, name);
    }
    assert (events + [e])[|events|] == e;
    assert e.id in pending ==> Waits(events + [e], |events|, e.id, pending[e.id]);
    forall id, name
      ensures Waits(events + [e], |events| + 1, id, name) <==>
        e == Called(id, name) || (e.id != id && id in pending && pending[id] == name)
    {
      WaitsAppend(events, e, id, name);
    }
  }

  /** One message's blocks are read through exactly when each call and result is in place. */
  lemma {:induction false} ExchangesMeaning(events: seq<ToolEvent>, pending: map<string, string>, blocks: seq<Block>)
    requires Tracks(pending, events) && Paired(events)
    ensures ReadExchanges(blocks, pending).Some? <==> Paired(events + EventsIn(blocks))
    ensures ReadExchanges(blocks, pending).Some? ==>
      Tracks(ReadExchanges(blocks, pending).value, events + EventsIn(blocks))
  {
    if blocks == [] {
      assert events + [] == events;
    } else {
      var init, last := blocks[..|blocks| - 1], blocks[|blocks| - 1];
      ExchangesMeaning(events, pending, init);
      var before := events + EventsIn(init);
      if last.ToolCall? || last.ToolResult? {
        var e :=
          if last.ToolCall? then Called(last.id, last.name) else Answered(last.id, last.name, IsTerminal(last.state));
        assert events + EventsIn(blocks) == before + [e];
        PairedAppend(before, [e]);
        if ReadExchanges(init, pending).Some? { EventTracked(before, ReadExchanges(init, pending).value, e); }
      }
    }
  }

  /** What the acceptor's progress over `i` messages stands for. */
  ghost predicate Means(history: seq<Msg>, i: nat, p: Progress)
    requires i <= |history|
  {
    && Tracks(p.pending, EventsBefore(history, i)) && (p.hasUser <==> UserBefore(history, i))
    && (IsAnswer(p.last) <==> AnswerBefore(history, i))
  }

  lemma {:induction false} AnswerStep(history: seq<Msg>, i: nat)
    requires i < |history|
    ensures AnswerBefore(history, i + 1) <==>
      if history[i].role == System then AnswerBefore(history, i) else IsAnswer(Some(history[i]))
  {
    AnswerShows(history[i]);
    if history[i].role == System {
      if AnswerBefore(history, i) {
        var j :| 0 <= j < i && history[j].role == Assistant && ShowsText(history[j].content)
          && forall m | j < m < i :: history[m].role == System;
        assert forall m | j < m < i + 1 :: history[m].role == System;
      }
    }
  }

  lemma {:induction false} HistoryStep(history: seq<Msg>, i: nat, p: Progress)
    requires i < |history| && Means(history, i, p) && Paired(EventsBefore(history, i)) && TurnsEnd(history, i)
    ensures ReadMessage(p, history[i]).Some? <==> Paired(EventsBefore(history, i + 1)) && TurnsEnd(history, i + 1)
    ensures ReadMessage(p, history[i]).Some? ==> Means(history, i + 1, ReadMessage(p, history[i]).value)
  {
    var m, events := history[i], EventsBefore(history, i);
    AnswerStep(history, i);
    assert UserBefore(history, i + 1) <==> UserBefore(history, i) || m.role == User;
    assert NothingWaits(events) <==> p.pending == map[] by {
      forall id | id in p.pending ensures Waits(events, |events|, id, p.pending[id]) { }
    }
    if m.role != System { ExchangesMeaning(events, p.pending, m.content); }
  }

  lemma {:induction false} HistoryMeaning(history: seq<Msg>, i: nat)
    requires i <= |history|
    ensures ReadHistory(history[..i]).Some? <==> Paired(EventsBefore(history, i)) && TurnsEnd(history, i)
    ensures ReadHistory(history[..i]).Some? ==> Means(history, i, ReadHistory(history[..i]).value)
  {
    if i > 0 {
      assert history[..i][..i - 1] == history[..i - 1];
      HistoryMeaning(history, i - 1);
      if ReadHistory(history[..i - 1]).Some? {
        HistoryStep(history, i - 1, ReadHistory(history[..i - 1]).value);
      } else if history[i - 1].role != System {
        PairedAppend(EventsBefore(history, i - 1), EventsIn(history[i - 1].content));
      }
    }
  }

  ghost predicate WellTurned(history: seq<Msg>) {
    && UserBefore(history, |history|) && Paired(EventsBefore(history, |history|))
    && TurnsEnd(history, |history|) && TurnMayEnd(history, |history|)
  }

  /**
   * A history is accepted exactly when it has a user, each call is new when made and each result is
   * the terminal answer to an open call of its identifier and name, and every turn ends with all of
   * its calls answered and a visible answer to the user.
   */
  lemma {:induction false} AcceptanceMeaning(history: seq<Msg>)
    ensures IsCompleted(history) <==> WellTurned(history)
  {
    assert history[..|history|] == history;
    HistoryMeaning(history, |history|);
    if ReadHistory(history).Some? {
      var p, events := ReadHistory(history).value, EventsBefore(history, |history|);
      assert NothingWaits(events) <==> p.pending == map[] by {
        forall id | id in p.pending ensures Waits(events, |events|, id, p.pending[id]) { }
      }
    }
  }
}
