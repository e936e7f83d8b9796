/** Recent-turn history selection: turn boundaries, tool dependencies and the reverse pass. */
module RecentTurns {
  import opened Messages

  type CallKey = (string, string)

  // ---------------------------------------------------------------- turns

  /** How many user messages `history[from..]` contains. */
  function UsersFrom(history: seq<Msg>, from: nat): nat
    requires from <= |history|
    decreases |history| - from
  {
    if from == |history| then 0
    else (if history[from].role == User then 1 else 0) + UsersFrom(history, from + 1)
  }

  /** The user message that opens the last `n` turns, or 0 when there are no more than `n`. */
  ghost predicate IsBoundary(history: seq<Msg>, n: nat, s: nat) {
    if UsersFrom(history, 0) <= n then s == 0
    else s < |history| && history[s].role == User && UsersFrom(history, s) == n
  }

  function BoundaryFrom(history: seq<Msg>, n: nat, from: nat): (s: nat)
    requires 0 < n && from <= |history| && n <= UsersFrom(history, from)
    ensures from <= s < |history| && history[s].role == User && UsersFrom(history, s) == n
    decreases |history| - from
  {
    if history[from].role == User && UsersFrom(history, from) == n then from
    else BoundaryFrom(history, n, from + 1)
  }

  function Boundary(history: seq<Msg>, n: nat): (s: nat)
    requires 0 < n
    ensures s <= |history|
    ensures IsBoundary(history, n, s)
  {
    if UsersFrom(history, 0) <= n then 0 else BoundaryFrom(history, n, 0)
  }

  lemma {:induction false} UsersFromAntitone(history: seq<Msg>, i: nat, j: nat)
    requires i <= j <= |history|
    ensures UsersFrom(history, j) <= UsersFrom(history, i)
    ensures i < j && history[i].role == User ==> UsersFrom(history, j) < UsersFrom(history, i)
    decreases j - i
  {
    if i < j { UsersFromAntitone(history, i + 1, j); }
  }

  /** Where the turn containing message `i` starts: its last user message so far, or 0. */
  function TurnStart(history: seq<Msg>, i: nat): (s: nat)
    requires i < |history|
    ensures s <= i && (s == 0 || history[s].role == User)
  {
    if history[i].role == User then i else if i == 0 then 0 else TurnStart(history, i - 1)
  }

  lemma {:induction false} TurnStartIsLatest(history: seq<Msg>, i: nat, u: nat)
    requires u <= i < |history| && history[u].role == User
    ensures u <= TurnStart(history, i)
  {
    if history[i].role != User { TurnStartIsLatest(history, i - 1, u); }
  }

  // --------------------------------------------------------- dependencies

  /** The latest-call table after reading `blocks`: every call maps to the turn it was made in. */
  function CallsAfter(blocks: seq<Block>, calls: map<CallKey, nat>, turn: nat): map<CallKey, nat> {
    if blocks == [] then calls
    else
      var last := |blocks| - 1;
      var before := CallsAfter(blocks[..last], calls, turn);
      match blocks[last]
      case ToolCall(id, name, _, _) => before[(id, name) := turn]
      case _ => before
  }

  /** `dep` pulled back to the turn of every call that a result in `blocks` answers. */
  function DepAfter(blocks: seq<Block>, calls: map<CallKey, nat>, turn: nat, dep: nat): (d: nat)
    ensures d <= dep
  {
    if blocks == [] then dep
    else
      var last := |blocks| - 1;
      var before := DepAfter(blocks[..last], calls, turn, dep);
      var known := CallsAfter(blocks[..last], calls, turn);
      match blocks[last]
      case ToolResult(id, name, _, _) =>
        if (id, name) in known && known[(id, name)] < before then known[(id, name)] else before
      case _ => before
  }

  /** The latest-call table before message `i` is read. */
  function CallsBefore(history: seq<Msg>, i: nat): map<CallKey, nat>
    requires i <= |history|
  {
    if i == 0 then map[]
    else CallsAfter(history[i - 1].content, CallsBefore(history, i - 1), TurnStart(history, i - 1))
  }

  /** The earliest turn message `i` depends on, or `i` itself. */
  function Dep(history: seq<Msg>, i: nat): (d: nat)
    requires i < |history|
    ensures d <= i
  {
    DepAfter(history[i].content, CallsBefore(history, i), TurnStart(history, i), i)
  }

  // What `Dep` means, without the tables: the turn of the call that each result answers.

  predicate IsCall(block: Block, key: CallKey) {
    block.ToolCall? && (block.id, block.name) == key
  }

  predicate HasCall(blocks: seq<Block>, key: CallKey) {
    exists q | 0 <= q < |blocks| :: IsCall(blocks[q], key)
  }

  predicate IsResultAt(history: seq<Msg>, i: nat, p: nat) {
    i < |history| && p < |history[i].content| && history[i].content[p].ToolResult?
  }

  function KeyAt(history: seq<Msg>, i: nat, p: nat): CallKey
    requires IsResultAt(history, i, p)
  {
    (history[i].content[p].id, history[i].content[p].name)
  }

  /** Message `j` holds the latest call before block `p` of message `i` that has its id and name. */
  predicate Answers(history: seq<Msg>, i: nat, p: nat, j: nat)
    requires IsResultAt(history, i, p)
  {
    var key := KeyAt(history, i, p);
    if HasCall(history[i].content[..p], key) then j == i
    else j < i && IsLatestCaller(history, i, key, j)
  }

  predicate IsLatestCaller(history: seq<Msg>, i: nat, key: CallKey, j: nat)
    requires i <= |history|
  {
    && j < i && HasCall(history[j].content, key)
    && forall k | j < k < i :: !HasCall(history[k].content, key)
  }

  lemma {:induction false} CallsAfterMeaning(blocks: seq<Block>, calls: map<CallKey, nat>, turn: nat, key: CallKey)
    ensures var after := CallsAfter(blocks, calls, turn);
            if HasCall(blocks, key) then key in after && after[key] == turn
            else (key in after <==> key in calls) && (key in calls ==> after[key] == calls[key])
  {
    if blocks != [] {
      var last := |blocks| - 1;
      CallsAfterMeaning(blocks[..last], calls, turn, key);
      assert HasCall(blocks, key) <==> HasCall(blocks[..last], key) || IsCall(blocks[last], key) by {
        if HasCall(blocks[..last], key) {
          var q :| 0 <= q < last && IsCall(blocks[..last][q], key);
          assert IsCall(blocks[q], key);
        }
        if HasCall(blocks, key) {
          var q :| 0 <= q < |blocks| && IsCall(blocks[q], key);
          assert q < last ==> IsCall(blocks[..last][q], key);
        }
      }
    }
  }

  /** The result at block `p` of message `i` answers a call that message `j` makes. */
  predicate DependsOn(history: seq<Msg>, i: nat, p: nat, j: nat) {
    IsResultAt(history, i, p) && Answers(history, i, p, j)
  }

  /** The table holds exactly the keys called so far, at the turn of their latest caller. */
  lemma {:induction false} CallsBeforeMeaning(history: seq<Msg>, i: nat, key: CallKey)
    requires i <= |history|
    ensures key in CallsBefore(history, i) ==>
      exists j: nat :: IsLatestCaller(history, i, key, j) && CallsBefore(history, i)[key] == TurnStart(history, j)
    ensures forall j: nat :: IsLatestCaller(history, i, key, j) ==>
      key in CallsBefore(history, i) && CallsBefore(history, i)[key] == TurnStart(history, j)
  {
    if i > 0 {
      CallsBeforeMeaning(history, i - 1, key);
      var content := history[i - 1].content;
      CallsAfterMeaning(content, CallsBefore(history, i - 1), TurnStart(history, i - 1), key);
      if HasCall(content, key) {
        assert IsLatestCaller(history, i, key, i - 1);
      } else {
        assert forall j: nat :: IsLatestCaller(history, i, key, j) <==> IsLatestCaller(history, i - 1, key, j);
      }
    }
  }

  /** Every call a result answers is at or after `d`'s turn, and `d` is `i` or one such turn. */
  ghost predicate IsEarliestTurn(history: seq<Msg>, i: nat, k: nat, d: nat)
    requires i < |history|
  {
    && d <= i
    && (forall p: nat, j: nat :: p < k && DependsOn(history, i, p, j) ==> d <= TurnStart(history, j))
    && (d < i ==> exists p: nat, j: nat :: p < k && DependsOn(history, i, p, j) && d == TurnStart(history, j))
  }

  /** `Dep` is the earliest turn of the calls that the message's results answer. */
  lemma {:induction false} DepMeaning(history: seq<Msg>, i: nat)
    requires i < |history|
    ensures IsEarliestTurn(history, i, |history[i].content|, Dep(history, i))
  {
    DepPrefixMeaning(history, i, |history[i].content|);
    assert history[i].content[..|history[i].content|] == history[i].content;
  }

  lemma {:induction false} DepPrefixMeaning(history: seq<Msg>, i: nat, k: nat)
    requires i < |history| && k <= |history[i].content|
    ensures IsEarliestTurn(history, i, k, DepUpTo(history, i, k))
  {
    if k > 0 {
      DepPrefixMeaning(history, i, k - 1);
      DepStepMeaning(history, i, k - 1);
    }
  }

  function DepUpTo(history: seq<Msg>, i: nat, k: nat): nat
    requires i < |history| && k <= |history[i].content|
  {
    DepAfter(history[i].content[..k], CallsBefore(history, i), TurnStart(history, i), i)
  }

  lemma {:induction false} DepStepMeaning(history: seq<Msg>, i: nat, p: nat)
    requires i < |history| && p < |history[i].content|
    requires IsEarliestTurn(history, i, p, DepUpTo(history, i, p))
    ensures IsEarliestTurn(history, i, p + 1, DepUpTo(history, i, p + 1))
  {
    var calls, turn := CallsBefore(history, i), TurnStart(history, i);
    DepAfterStep(history[i].content, p, calls, turn, i);
    if IsResultAt(history, i, p) {
      ResultMeaning(history, i, p);
      ResultPulls(history, i, p, DepUpTo(history, i, p), CallsAfter(history[i].content[..p], calls, turn));
    } else {
      OtherBlocksDoNotPull(history, i, p, DepUpTo(history, i, p));
    }
  }

  /** Reading one more block: only a result can change the dependency. */
  lemma {:induction false} DepAfterStep(content: seq<Block>, k: nat, calls: map<CallKey, nat>, turn: nat, dep: nat)
    requires k < |content|
    ensures var before := DepAfter(content[..k], calls, turn, dep);
      var known := CallsAfter(content[..k], calls, turn);
      DepAfter(content[..k + 1], calls, turn, dep) ==
        if content[k].ToolResult? && (content[k].id, content[k].name) in known
           && known[(content[k].id, content[k].name)] < before
        then known[(content[k].id, content[k].name)] else before
  {
    assert content[..k + 1][..k] == content[..k];
  }

  lemma {:induction false} OtherBlocksDoNotPull(history: seq<Msg>, i: nat, p: nat, before: nat)
    requires i < |history| && !IsResultAt(history, i, p) && IsEarliestTurn(history, i, p, before)
    ensures IsEarliestTurn(history, i, p + 1, before)
  {
    assert forall j: nat :: !DependsOn(history, i, p, j);
  }

  lemma {:induction false} ResultPulls(history: seq<Msg>, i: nat, p: nat, before: nat, known: map<CallKey, nat>)
    requires IsResultAt(history, i, p) && IsEarliestTurn(history, i, p, before)
    requires LooksUp(history, i, p, known)
    ensures var key := KeyAt(history, i, p);
      IsEarliestTurn(history, i, p + 1,
        if key in known && known[key] < before then known[key] else before)
  {
    var key := KeyAt(history, i, p);
    if key in known {
      var j: nat :| DependsOn(history, i, p, j) && known[key] == TurnStart(history, j);
    }
  }

  /** `known` maps the key of result `p` to the turn of the call it answers, if there is one. */
  ghost predicate LooksUp(history: seq<Msg>, i: nat, p: nat, known: map<CallKey, nat>)
    requires IsResultAt(history, i, p)
  {
    var key := KeyAt(history, i, p);
    && (key in known ==> exists j: nat :: DependsOn(history, i, p, j) && known[key] == TurnStart(history, j))
    && (forall j: nat :: DependsOn(history, i, p, j) ==> key in known && known[key] == TurnStart(history, j))
  }

  /** The table lookup for one result finds the turn of the call it answers. */
  lemma {:induction false} ResultMeaning(history: seq<Msg>, i: nat, p: nat)
    requires IsResultAt(history, i, p)
    ensures LooksUp(history, i, p,
      CallsAfter(history[i].content[..p], CallsBefore(history, i), TurnStart(history, i)))
  {
    var key := KeyAt(history, i, p);
    CallsAfterMeaning(history[i].content[..p], CallsBefore(history, i), TurnStart(history, i), key);
    CallsBeforeMeaning(history, i, key);
    if HasCall(history[i].content[..p], key) {
      assert DependsOn(history, i, p, i);
    } else {
      assert forall j: nat :: DependsOn(history, i, p, j) <==> IsLatestCaller(history, i, key, j);
    }
  }

  lemma {:induction false} EarliestCall(history: seq<Msg>, i: nat) returns (p: nat, j: nat)
    requires i < |history| && Dep(history, i) < i
    ensures DependsOn(history, i, p, j) && j <= i && Dep(history, i) == TurnStart(history, j)
  {
    DepMeaning(history, i);
    p, j :| DependsOn(history, i, p, j) && Dep(history, i) == TurnStart(history, j);
  }

  lemma {:induction false} DependsOnEarlier(history: seq<Msg>, i: nat, p: nat, j: nat)
    requires DependsOn(history, i, p, j)
    ensures j <= i < |history| && Dep(history, i) <= TurnStart(history, j)
  {
    DepMeaning(history, i);
  }

  // -------------------------------------------------------- reverse pass

  /** One visit of the reverse pass: a retained message pulls the start back to its dependency. */
  function Visit(history: seq<Msg>, i: nat, start: nat): (s: nat)
    requires i < |history|
    ensures s <= start
  {
    var dep := Dep(history, i);
    if (i >= start || (history[i].role == System && dep < i)) && dep < start then dep else start
  }

  /** The start after visiting every message at or after `from`, last message first. */
  function PassFrom(history: seq<Msg>, from: nat, start: nat): (s: nat)
    requires from <= |history|
    ensures s <= start
    decreases |history| - from
  {
    if from == |history| then start else Visit(history, from, PassFrom(history, from + 1, start))
  }

  function Start(history: seq<Msg>, n: nat): (s: nat)
    requires 0 < n
    ensures s <= Boundary(history, n) <= |history|
  {
    PassFrom(history, 0, Boundary(history, n))
  }

  /** The history that a cut at `start` keeps: earlier system messages, then everything. */
  function Project(history: seq<Msg>, start: nat): seq<Msg>
    requires start <= |history|
  {
    Systems(history[..start]) + history[start..]
  }

  function Select(history: seq<Msg>, n: nat): seq<Msg>
    requires 0 < n
  {
    Project(history, Start(history, n))
  }

  /** A message's dependencies, in the order the policy records them. */
  ghost predicate AreDeps(history: seq<Msg>, deps: seq<nat>) {
    |deps| <= |history| && forall i | 0 <= i < |deps| :: deps[i] == Dep(history, i)
  }

  /** The position of the user message opening the last `maxTurns` turns, if older turns exist. */
  method FindBoundary(history: seq<Msg>, maxTurns: nat) returns (found: Option<nat>)
    requires 0 < maxTurns
    ensures found == if UsersFrom(history, 0) <= maxTurns then None else Some(Boundary(history, maxTurns))
  {
    var start: Option<nat> := None;
    var seen, i := 0, |history|;
    while i > 0
      invariant 0 <= i <= |history| && seen == UsersFrom(history, i) <= maxTurns
      invariant start.None? <==> seen < maxTurns
      invariant start.Some? ==> i <= start.value < |history| && history[start.value].role == User
      invariant start.Some? ==> UsersFrom(history, start.value) == maxTurns
    {
      i := i - 1;
      if history[i].role == User {
        if start.Some? {
          UsersFromAntitone(history, 0, i);
          SameBoundary(history, maxTurns, start.value);
          return start;
        }
        seen := seen + 1;
        if seen == maxTurns { start := Some(i); }
      }
    }
    return None;
  }

  lemma {:induction false} SameBoundary(history: seq<Msg>, n: nat, s: nat)
    requires 0 < n && n < UsersFrom(history, 0)
    requires s < |history| && history[s].role == User && UsersFrom(history, s) == n
    ensures s == Boundary(history, n)
  {
    var b := Boundary(history, n);
    UsersFromAntitone(history, if s < b then s else b, if s < b then b else s);
  }

  /** The boundary is the one index that opens the last `n` turns, or 0 when there are no more than `n`. */
  lemma {:induction false} BoundaryMeaning(history: seq<Msg>, n: nat, s: nat)
    requires 0 < n
    ensures Boundary(history, n) == s <==> IsBoundary(history, n, s)
    ensures 0 < UsersFrom(history, 0) ==> 0 < UsersFrom(history, Boundary(history, n)) <= n
  {
    if IsBoundary(history, n, s) && n < UsersFrom(history, 0) { SameBoundary(history, n, s); }
    if UsersFrom(history, 0) <= n { assert Boundary(history, n) == 0; }
  }

  /** The reads of one message's blocks: updates `calls`, returns the message's dependency. */
  method ReadBlocks(content: seq<Block>, calls: map<CallKey, nat>, turn: nat, index: nat)
    returns (after: map<CallKey, nat>, dependency: nat)
    ensures after == CallsAfter(content, calls, turn)
    ensures dependency == DepAfter(content, calls, turn, index)
  {
    after, dependency := calls, index;
    for k := 0 to |content|
      invariant after == CallsAfter(content[..k], calls, turn)
      invariant dependency == DepAfter(content[..k], calls, turn, index)
    {
      assert content[..k + 1][..k] == content[..k];
      match content[k]
      case ToolCall(id, name, _, _) => after := after[(id, name) := turn];
      case ToolResult(id, name, _, _) =>
        if (id, name) in after && after[(id, name)] < dependency { dependency := after[(id, name)]; }
      case _ =>
    }
    assert content[..|content|] == content;
  }

  /** Records every message's backwards dependency, in order. */
  method ReadDependencies(history: seq<Msg>) returns (dependencies: seq<nat>)
    ensures |dependencies| == |history| && AreDeps(history, dependencies)
  {
    var calls: map<CallKey, nat> := map[];
    dependencies := [];
    var turnStart: nat := 0;
    for index := 0 to |history|
      invariant |dependencies| == index && AreDeps(history, dependencies)
      invariant calls == CallsBefore(history, index)
      invariant index > 0 ==> turnStart == TurnStart(history, index - 1)
      invariant index == 0 ==> turnStart == 0
    {
      if history[index].role == User { turnStart := index; }
      var dependency;
      calls, dependency := ReadBlocks(history[index].content, calls, turnStart, index);
      dependencies := dependencies + [dependency];
    }
  }

  /** The messages at or after `start`, and every system message, in order. */
  method Filter(history: seq<Msg>, start: nat) returns (selected: seq<Msg>)
    requires start <= |history|
    ensures selected == Project(history, start)
  {
    selected := [];
    for index := 0 to |history|
      invariant index <= start ==> selected == Systems(history[..index])
      invariant start < index ==> selected == Systems(history[..start]) + history[start..index]
    {
      assert history[..index + 1][..index] == history[..index];
      if index >= start || history[index].role == System {
        selected := selected + [history[index]];
      }
      assert start <= index ==> history[start..index + 1] == history[start..index] + [history[index]];
    }
    assert history[start..|history|] == history[start..];
  }

  /** The recent-turns policy: a forward pass for dependencies, a reverse pass for the cut. */
  method SelectMessages(history: seq<Msg>, maxTurns: nat) returns (selected: seq<Msg>)
    requires 0 < maxTurns
    ensures selected == Select(history, maxTurns)
  {
    var found := FindBoundary(history, maxTurns);
    if found.None? {
      assert Start(history, maxTurns) == 0;
      return history;
    }
    var start := found.value;
    var dependencies := ReadDependencies(history);
    for index := |history| downto 0
      invariant start == PassFrom(history, index, found.value)
    {
      var dependency := dependencies[index];
      if index >= start || (history[index].role == System && dependency < index) {
        start := if dependency < start then dependency else start;
      }
    }
    selected := Filter(history, start);
  }

  // ------------------------------------------------------------- closure

  /** The index of every message the cut keeps. */
  predicate Kept(history: seq<Msg>, start: nat, i: nat) {
    i < |history| && (i >= start || history[i].role == System)
  }

  /** Every retained message's dependencies are retained. */
  ghost predicate Closed(history: seq<Msg>, start: nat) {
    forall i: nat | Kept(history, start, i) :: Dep(history, i) >= start || Dep(history, i) == i
  }

  predicate CarriesResult(message: Msg) {
    exists p | 0 <= p < |message.content| :: message.content[p].ToolResult?
  }

  /** No tool result is carried by a message outside `roles`. */
  ghost predicate ResultsOnlyIn(history: seq<Msg>, roles: set<Role>) {
    forall i | 0 <= i < |history| :: CarriesResult(history[i]) ==> history[i].role in roles
  }

  ghost predicate NoSystemResults(history: seq<Msg>) {
    forall i | 0 <= i < |history| :: CarriesResult(history[i]) ==> history[i].role != System
  }

  lemma {:induction false} NoResultNoDep(content: seq<Block>, calls: map<CallKey, nat>, turn: nat, dep: nat)
    requires forall p | 0 <= p < |content| :: !content[p].ToolResult?
    ensures DepAfter(content, calls, turn, dep) == dep
  {
    if content != [] { NoResultNoDep(content[..|content| - 1], calls, turn, dep); }
  }

  lemma {:induction false} NoResultDep(history: seq<Msg>, i: nat)
    requires i < |history| && !CarriesResult(history[i])
    ensures Dep(history, i) == i
  {
    NoResultNoDep(history[i].content, CallsBefore(history, i), TurnStart(history, i), i);
  }

  /** With no results in system messages, the pass lets no dependency of what it retains leave. */
  lemma {:induction false} PassPullsAll(history: seq<Msg>, from: nat, start: nat)
    requires from <= |history| && NoSystemResults(history)
    ensures var s := PassFrom(history, from, start);
      forall i: nat | from <= i < |history| && s <= i :: Dep(history, i) >= s
    decreases |history| - from
  {
    if from < |history| {
      PassPullsAll(history, from + 1, start);
      if history[from].role == System { NoResultDep(history, from); }
    }
  }

  /** A visit that does not end the pass early: it leaves every closed cut at or before the start. */
  lemma {:induction false} PassStaysAfter(history: seq<Msg>, from: nat, start: nat, t: nat)
    requires from <= |history| && t <= start && Closed(history, t)
    ensures t <= PassFrom(history, from, start)
    decreases |history| - from
  {
    if from < |history| {
      PassStaysAfter(history, from + 1, start, t);
      assert t <= from || history[from].role == System ==> Kept(history, t, from);
    }
  }

  /** No cut at or before the requested one that splits no exchange lies after the cut taken. */
  lemma {:induction false} NoClosedCutIsLater(history: seq<Msg>, n: nat, t: nat)
    requires 0 < n && t <= Boundary(history, n) && Closed(history, t)
    ensures t <= Start(history, n)
  {
    PassStaysAfter(history, 0, Boundary(history, n), t);
  }

  lemma {:induction false} PassAntitone(history: seq<Msg>, from: nat, later: nat, start: nat)
    requires from <= later <= |history|
    ensures PassFrom(history, from, start) <= PassFrom(history, later, start)
    decreases later - from
  {
    if from < later { PassAntitone(history, from + 1, later, start); }
  }

  /** The pass looked at message `i`, neither retained nor a System message with a dependency, and went on. */
  predicate Skipped(history: seq<Msg>, n: nat, i: nat)
    requires 0 < n
  {
    && i < |history| && history[i].role != System
    && Start(history, n) <= i < PassFrom(history, i + 1, Boundary(history, n))
  }

  /** Every visited message's dependency is at or after the final start, unless it was skipped. */
  lemma {:induction false} PassPulls(history: seq<Msg>, n: nat, i: nat)
    requires 0 < n && Kept(history, Start(history, n), i) && !Skipped(history, n, i)
    ensures Dep(history, i) >= Start(history, n) || Dep(history, i) == i
  {
    PassAntitone(history, 0, i, Boundary(history, n));
  }

  /**
   * For every history: the cut splits no exchange exactly when no message that the pass skipped,
   * and that a later System message let in again, depends on anything before the cut.
   */
  lemma {:induction false} StartIsClosedIff(history: seq<Msg>, n: nat)
    requires 0 < n
    ensures Closed(history, Start(history, n)) <==>
      forall i: nat | Skipped(history, n, i) :: Dep(history, i) >= Start(history, n)
  {
    var s := Start(history, n);
    if Closed(history, s) {
      forall i: nat | Skipped(history, n, i) ensures Dep(history, i) >= s { assert Kept(history, s, i); }
    }
    if forall i: nat | Skipped(history, n, i) :: Dep(history, i) >= s {
      forall i: nat | Kept(history, s, i) ensures Dep(history, i) >= s || Dep(history, i) == i {
        if !Skipped(history, n, i) { PassPulls(history, n, i); }
      }
    }
  }

  lemma {:induction false} PassEndsAtTurn(history: seq<Msg>, from: nat, start: nat)
    requires from <= |history| && start <= |history|
    ensures var s := PassFrom(history, from, start); s == start || s == 0 || history[s].role == User
    decreases |history| - from
  {
    if from < |history| {
      PassEndsAtTurn(history, from + 1, start);
      if Dep(history, from) < from { var p, j := EarliestCall(history, from); }
    }
  }

  /**
   * With no results in system messages, the one reverse pass ends at the greatest cut, at or
   * before the requested one, that splits no tool exchange; that cut is a turn boundary.
   */
  lemma {:induction false} StartIsGreatestClosed(history: seq<Msg>, n: nat)
    requires 0 < n && NoSystemResults(history)
    ensures Closed(history, Start(history, n))
    ensures forall t: nat | t <= Boundary(history, n) && Closed(history, t) :: t <= Start(history, n)
    ensures Start(history, n) == 0 || history[Start(history, n)].role == User
  {
    PassPullsAll(history, 0, Boundary(history, n));
    PassEndsAtTurn(history, 0, Boundary(history, n));
    var s := Start(history, n);
    forall t: nat | t <= Boundary(history, n) && Closed(history, t) ensures t <= s {
      NoClosedCutIsLater(history, n, t);
    }
    forall i: nat | Kept(history, s, i) && i < s ensures Dep(history, i) == i {
      NoResultDep(history, i);
    }
  }

  /** No retained result loses the call it answers, nor any of the turn that made the call. */
  ghost predicate KeepsExchanges(history: seq<Msg>, n: nat)
    requires 0 < n
  {
    forall i: nat, p: nat, j: nat :: Kept(history, Start(history, n), i) && DependsOn(history, i, p, j)
      ==> Kept(history, Start(history, n), j)
  }

  lemma {:induction false} ClosedKeepsExchanges(history: seq<Msg>, n: nat)
    requires 0 < n && Closed(history, Start(history, n))
    ensures KeepsExchanges(history, n)
  {
    var s := Start(history, n);
    forall i: nat, p: nat, j: nat | Kept(history, s, i) && DependsOn(history, i, p, j)
      ensures Kept(history, s, j)
    {
      DepMeaning(history, i);
    }
  }

  /** For every history: exchanges are kept exactly when no skipped message's call is left behind. */
  lemma {:induction false} ExchangesKeptIff(history: seq<Msg>, n: nat)
    requires 0 < n
    ensures KeepsExchanges(history, n) <==>
      forall i: nat, p: nat, j: nat | Skipped(history, n, i) && DependsOn(history, i, p, j) ::
        Kept(history, Start(history, n), j)
  {
    var s := Start(history, n);
    if forall i: nat, p: nat, j: nat | Skipped(history, n, i) && DependsOn(history, i, p, j) :: Kept(history, s, j) {
      forall i: nat, p: nat, j: nat | Kept(history, s, i) && DependsOn(history, i, p, j) ensures Kept(history, s, j) {
        if !Skipped(history, n, i) {
          PassPulls(history, n, i);
          DependsOnEarlier(history, i, p, j);
        }
      }
    }
  }

  /** What is selected: everything from the cut on and every system message, each where it was in the order. */
  lemma {:induction false} SelectedAre(history: seq<Msg>, n: nat) returns (at: seq<nat>)
    requires 0 < n
    ensures Selects(history, at, Select(history, n))
    ensures forall i | 0 <= i < |history| :: i in at <==> i >= Start(history, n) || history[i].role == System
  {
    var s := Start(history, n);
    at := SystemsAre(history[..s]);
    assert forall k | 0 <= k < |at| :: at[k] in at;
    at := SelectsSuffix(history, s, at, Systems(history[..s]));
  }

  lemma {:induction false} SelectsSuffix(history: seq<Msg>, s: nat, before: seq<nat>, kept: seq<Msg>)
    returns (at: seq<nat>)
    requires s <= |history| && Selects(history[..s], before, kept)
    ensures Selects(history, at, kept + history[s..])
    ensures forall i | 0 <= i < |history| :: i in at <==> i >= s || i in before
  {
    var suffix := seq(|history| - s, k requires 0 <= k => s + k);
    at := before + suffix;
    forall i | s <= i < |history| ensures i in at { assert suffix[i - s] == i; }
    assert forall i | i in suffix :: s <= i;
  }

  /** The cut is moved back only to where some message that was looked at has its dependency. */
  lemma {:induction false} CutIsNeeded(history: seq<Msg>, n: nat)
    requires 0 < n
    ensures Start(history, n) == Boundary(history, n)
      || exists i | 0 <= i < |history| ::
           Dep(history, i) == Start(history, n) < i && (i >= Start(history, n) || history[i].role == System)
  {
    PassIsNeeded(history, 0, Boundary(history, n));
  }

  lemma {:induction false} PassIsNeeded(history: seq<Msg>, from: nat, start: nat)
    requires from <= |history|
    ensures PassFrom(history, from, start) == start
      || exists i | from <= i < |history| :: Dep(history, i) == PassFrom(history, from, start) < i
    decreases |history| - from
  {
    if from < |history| { PassIsNeeded(history, from + 1, start); }
  }

  // ------------------------------------ which roles may carry tool results

  lemma {:induction false} SystemPassPulls(history: seq<Msg>, from: nat, start: nat)
    requires from <= |history| && ResultsOnlyIn(history, {System})
    ensures forall i: nat | from <= i < |history| && history[i].role == System ::
      Dep(history, i) >= PassFrom(history, from, start) || Dep(history, i) == i
    decreases |history| - from
  {
    if from < |history| { SystemPassPulls(history, from + 1, start); }
  }

  lemma {:induction false} OnlySystemResultsClosed(history: seq<Msg>, n: nat)
    requires 0 < n && ResultsOnlyIn(history, {System})
    ensures Closed(history, Start(history, n))
  {
    SystemPassPulls(history, 0, Boundary(history, n));
    forall i: nat | Kept(history, Start(history, n), i) && history[i].role != System
      ensures Dep(history, i) == i
    {
      NoResultDep(history, i);
    }
  }

  function UserText(text: string): Msg { Msg("", "user", User, [Text("", text)]) }

  function CallOf(id: string): Msg { Msg("", "agent", Assistant, [ToolCall(id, "t", "{}", Finished)]) }

  function ResultOf(id: string, role: Role): Msg {
    Msg("", "tool", role, [ToolResult(id, "t", BlocksOutput([]), Success)])
  }

  /** A system message pulls the cut back past a message that the pass has already skipped. */
  function Orphaning(role: Role): seq<Msg> {
    [UserText("first"), CallOf("a"), UserText("second"), CallOf("b"), UserText("third"),
     ResultOf("b", System), ResultOf("a", role), UserText("last")]
  }

  /** Message 5 depends on the second turn, message 6 on the first; nothing else depends on anything. */
  lemma {:induction false} OrphaningDeps(h: seq<Msg>, role: Role)
    requires h == Orphaning(role)
    ensures Dep(h, 5) == 2 && DependsOn(h, 6, 0, 1)
    ensures forall i: nat | i < 8 && i != 5 && i != 6 :: Dep(h, i) == i
  {
    assert IsCall(h[3].content[0], ("b", "t")) && IsCall(h[1].content[0], ("a", "t"));
    assert DependsOn(h, 5, 0, 3) && DependsOn(h, 6, 0, 1);
    assert TurnStart(h, 3) == TurnStart(h, 2) == 2;
    DependsOnEarlier(h, 5, 0, 3);
    var p, j := EarliestCall(h, 5);
    assert p == 0 && j == 3;
    forall i: nat | i < 8 && i != 5 && i != 6 ensures Dep(h, i) == i {
      assert !CarriesResult(h[i]);
      NoResultDep(h, i);
    }
  }

  lemma {:induction false} OrphaningBoundary(h: seq<Msg>, role: Role)
    requires role != System && h == Orphaning(role)
    ensures Boundary(h, 1) == 7
  {
    assert UsersFrom(h, 8) == 0 && UsersFrom(h, 7) == 1;
    UsersFromAntitone(h, 4, 7);
    UsersFromAntitone(h, 0, 4);
    SameBoundary(h, 1, 7);
  }

  lemma {:induction false} OrphaningStart(h: seq<Msg>, role: Role)
    requires role != System && h == Orphaning(role)
    ensures Start(h, 1) == 2
  {
    OrphaningBoundary(h, role);
    OrphaningDeps(h, role);
    assert PassFrom(h, 8, 7) == 7;
    assert PassFrom(h, 7, 7) == 7;
    assert h[6].role != System;
    assert PassFrom(h, 6, 7) == 7;
    assert h[5].role == System;
    assert PassFrom(h, 5, 7) == 2;
    assert PassFrom(h, 4, 7) == 2;
    assert PassFrom(h, 3, 7) == 2;
    assert PassFrom(h, 2, 7) == 2;
    assert PassFrom(h, 1, 7) == 2;
  }

  /** The result of call `a` is kept although the message that calls `a` is not. */
  lemma {:induction false} SkippedResultIsOrphaned(role: Role)
    requires role != System
    ensures !KeepsExchanges(Orphaning(role), 1)
  {
    var h := Orphaning(role);
    OrphaningStart(h, role);
    OrphaningDeps(h, role);
    assert Kept(h, 2, 6) && !Kept(h, 2, 1);
  }

  /** Whenever only `roles` carry tool results, every cut keeps tool exchanges whole. */
  ghost predicate RolesAreSafe(roles: set<Role>) {
    forall h: seq<Msg>, n: nat :: 0 < n && ResultsOnlyIn(h, roles) ==> KeepsExchanges(h, n)
  }

  lemma {:induction false} OrphaningRoles(role: Role, roles: set<Role>)
    requires {System, role} <= roles
    ensures ResultsOnlyIn(Orphaning(role), roles)
  {
    var h := Orphaning(role);
    forall i | 0 <= i < 8 && CarriesResult(h[i]) ensures h[i].role in roles {
      var p :| 0 <= p < |h[i].content| && h[i].content[p].ToolResult?;
      assert i == 5 || i == 6;
    }
  }

  lemma {:induction false} MixedRolesLoseACall(roles: set<Role>, role: Role)
    requires {System, role} <= roles && role != System
    ensures !RolesAreSafe(roles)
  {
    OrphaningRoles(role, roles);
    SkippedResultIsOrphaned(role);
    var h := Orphaning(role);
    assert ResultsOnlyIn(h, roles) && !KeepsExchanges(h, 1);
  }

  /**
   * Tool exchanges survive every cut of every history exactly when system messages and other
   * messages do not both carry results.
   */
  lemma {:induction false} ExchangesKeptIffRolesUnmixed(roles: set<Role>)
    ensures RolesAreSafe(roles) <==> System !in roles || roles == {System}
  {
    if System !in roles || roles == {System} {
      forall h: seq<Msg>, n: nat | 0 < n && ResultsOnlyIn(h, roles) ensures KeepsExchanges(h, n) {
        if roles == {System} {
          OnlySystemResultsClosed(h, n);
        } else {
          StartIsGreatestClosed(h, n);
        }
        ClosedKeepsExchanges(h, n);
      }
    } else {
      var role :| role in roles && role != System;
      MixedRolesLoseACall(roles, role);
    }
  }
}
