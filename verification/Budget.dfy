/** Per-request context-window budgeting over recent-turn selection. */
module Budget {
  import opened Messages
  import opened RecentTurns
  import opened SelectionLaws

  /** A model request; `rest` stands for tools, schemas and every other counted option. */
  datatype Request = Request(messages: seq<Msg>, maxTokens: Option<nat>, rest: nat)

  datatype BudgetError =
    | InvalidOutputLimit(requested: nat, reserved: nat)
    | Counter(reason: string)
    | Exceeded(input: nat, limit: nat, reserved: nat)

  type TokenCounter = Request -> Result<nat, BudgetError>

  datatype TokenBudget = TokenBudget(contextWindow: nat, reservedOutput: nat, counter: TokenCounter)
  {
    /** What the constructor accepts. */
    predicate Valid() { 0 < reservedOutput < contextWindow }

    function InputLimit(): nat requires Valid() { contextWindow - reservedOutput }

    function OutputLimit(request: Request): nat {
      if request.maxTokens.Some? then request.maxTokens.value else reservedOutput
    }

    predicate OutputAllowed(request: Request) { 0 < OutputLimit(request) <= reservedOutput }

    function Capped(request: Request): Request { request.(maxTokens := Some(OutputLimit(request))) }

    method PrepareCount(request: Request) returns (r: Result<(Request, nat), BudgetError>)
      ensures r == if !OutputAllowed(request)
                   then Err(InvalidOutputLimit(OutputLimit(request), reservedOutput))
                   else match counter(Capped(request))
                     case Ok(count) => Ok((Capped(request), count))
                     case Err(e) => Err(e)
    {
      var output := OutputLimit(request);
      if output == 0 || output > reservedOutput {
        return Err(InvalidOutputLimit(output, reservedOutput));
      }
      var prepared := request.(maxTokens := Some(output));
      match counter(prepared) {
        case Ok(count) => return Ok((prepared, count));
        case Err(e) => return Err(e);
      }
    }

    /** The unoptimized search: count every candidate, from number `k` down. */
    function Search(candidates: seq<Request>, k: nat): Result<Request, BudgetError>
      requires Valid() && k < |candidates|
    {
      match counter(candidates[k])
      case Err(e) => Err(e)
      case Ok(count) =>
        if count <= InputLimit() then Ok(candidates[k])
        else if k == 0 then Err(Exceeded(count, InputLimit(), reservedOutput))
        else Search(candidates, k - 1)
    }

    /** The whole request and every smaller selection of it, by the number of turns kept. */
    function Candidates(request: Request, pinned: nat): (candidates: seq<Request>)
      requires pinned <= |request.messages|
      ensures |candidates| > 0
    {
      Keeping(Capped(request), pinned, Turns(request.messages, pinned))
    }

    /**
     * Trims whole old turns until the request fits, never recounting an unchanged candidate. What is
     * returned leaves the whole reserve free in the window, and no larger candidate would.
     */
    method ApplyWithPinnedPrefix(original: Request, pinned: nat)
      returns (r: Result<Request, BudgetError>, ghost stop: nat)
      requires Valid() && pinned <= |original.messages|
      ensures var all := Candidates(original, pinned);
        r == if OutputAllowed(original) then Search(all, |all| - 1)
             else Err(InvalidOutputLimit(OutputLimit(original), reservedOutput))
      ensures var wanted := if original.maxTokens.Some? then original.maxTokens.value else reservedOutput;
        if 0 < wanted <= reservedOutput then
          DecidedAt(Candidates(original, pinned), |Candidates(original, pinned)| - 1, stop, r)
        else r == Err(InvalidOutputLimit(wanted, reservedOutput))
      ensures r.Ok? ==> counter(r.value).Ok? && counter(r.value).value + reservedOutput <= contextWindow
    {
      ghost var all := Candidates(original, pinned);
      stop := 0;
      if OutputAllowed(original) { stop := LargestFittingWins(all, |all| - 1); }
      var prepared := PrepareCount(original);
      if prepared.Err? {
        WholeIsLast(Capped(original), pinned);
        return Err(prepared.error), stop;
      }
      var (request, count) := prepared.value;
      r := TrimUntilFits(request, pinned, count);
    }

    /** Keeps a counted request if it fits, and otherwise searches its trimmed forms. */
    method TrimUntilFits(whole: Request, pinned: nat, tokens: nat) returns (r: Result<Request, BudgetError>)
      requires Valid() && pinned <= |whole.messages| && counter(whole) == Ok(tokens)
      ensures var most := Turns(whole.messages, pinned);
        r == Search(Keeping(whole, pinned, most), most - 1)
    {
      WholeIsLast(whole, pinned);
      if tokens <= InputLimit() { return Ok(whole); }
      var turns := CountUsers(whole.messages, pinned);
      r := SearchDown(whole, pinned, turns, tokens);
    }

    /** The loop over fewer and fewer turns, from a request that keeps `most` and is too big. */
    method SearchDown(whole: Request, pinned: nat, most: nat, tokens: nat) returns (r: Result<Request, BudgetError>)
      requires Valid() && pinned <= |whole.messages| && most > 0
      requires Keeping(whole, pinned, most)[most - 1] == whole
      requires counter(whole) == Ok(tokens) && tokens > InputLimit()
      ensures r == Search(Keeping(whole, pinned, most), most - 1)
    {
      ghost var all := Keeping(whole, pinned, most);
      var request, count := whole, tokens;
      for keep := most downto 1
        invariant request == all[keep - 1] && request == whole.(messages := request.messages)
        invariant counter(request) == Ok(count) && count > InputLimit()
        invariant Search(all, most - 1) == Search(all, keep - 1)
      {
        var selected := TrimTo(whole, pinned, most, keep);
        if selected != request.messages {
          request := request.(messages := selected);
          var counted := counter(request);
          if counted.Err? { return Err(counted.error); }
          count := counted.value;
          if count <= InputLimit() { return Ok(request); }
        }
      }
      return Err(Exceeded(count, InputLimit(), reservedOutput));
    }

    /** Counts without trimming, so a request is refused exactly when the whole of it is too large. */
    method CheckWithoutTrimming(request: Request) returns (r: Result<(), BudgetError>)
      requires Valid()
      ensures var wanted := if request.maxTokens.Some? then request.maxTokens.value else reservedOutput;
        var count := counter(request.(maxTokens := Some(wanted)));
        r == if !(0 < wanted <= reservedOutput) then Err(InvalidOutputLimit(wanted, reservedOutput))
             else if count.Err? then Err(count.error)
             else if count.value + reservedOutput <= contextWindow then Ok(())
             else Err(Exceeded(count.value, contextWindow - reservedOutput, reservedOutput))
    {
      var prepared := PrepareCount(request);
      match prepared {
        case Err(e) => return Err(e);
        case Ok((_, count)) =>
          if count > InputLimit() { return Err(Exceeded(count, InputLimit(), reservedOutput)); }
          return Ok(());
      }
    }

    // ------------------------------------------------- what the search finds

    /** With the reserve, the request does not fit the window. */
    predicate TakesReserve(request: Request) {
      counter(request).Ok? && counter(request).value + reservedOutput > contextWindow
    }

    /** Every candidate after `stop` takes from the reserve, and `r` is what candidate `stop` decides. */
    ghost predicate DecidedAt(candidates: seq<Request>, k: nat, stop: nat, r: Result<Request, BudgetError>)
      requires Valid()
    {
      && stop <= k < |candidates|
      && (forall m | stop < m <= k :: TakesReserve(candidates[m]))
      && match counter(candidates[stop])
         case Err(e) => r == Err(e)
         case Ok(count) =>
           if count + reservedOutput <= contextWindow then r == Ok(candidates[stop])
           else stop == 0 && r == Err(Exceeded(count, contextWindow - reservedOutput, reservedOutput))
    }

    /**
     * The answer is the candidate with the most turns that fits; a counter error met before one
     * fits is reported instead, and `Exceeded` means that every candidate is too big.
     */
    lemma {:induction false} LargestFittingWins(candidates: seq<Request>, k: nat) returns (stop: nat)
      requires Valid() && k < |candidates|
      ensures DecidedAt(candidates, k, stop, Search(candidates, k))
    {
      if TakesReserve(candidates[k]) && k > 0 {
        stop := LargestFittingWins(candidates, k - 1);
      } else {
        stop := k;
      }
    }

    /**
     * Candidate `k` is the request with its output capped, and of its history after the pinned prefix
     * the selection of `k + 1` turns; the last candidate is the whole.
     */
    lemma {:induction false} CandidatesAre(request: Request, pinned: nat, k: nat)
      requires pinned <= |request.messages| && k < |Candidates(request, pinned)|
      ensures Candidates(request, pinned)[k] == Request(
        request.messages[..pinned] + Select(request.messages[pinned..], k + 1),
        Some(if request.maxTokens.Some? then request.maxTokens.value else reservedOutput), request.rest)
      ensures k == |Candidates(request, pinned)| - 1 ==> Candidates(request, pinned)[k].messages == request.messages
      ensures UsersFrom(request.messages[pinned..], 0) > 0 ==>
        |Candidates(request, pinned)| == UsersFrom(request.messages[pinned..], 0)
    {
      KeepingAt(Capped(request), pinned, |Candidates(request, pinned)|, k);
      WholeIsLast(Capped(request), pinned);
    }

    /** No candidate loses the pinned prefix, a system message, or any of the active turn. */
    lemma {:induction false} CandidatesKeepProtected(request: Request, pinned: nat, k: nat, u: nat)
      requires pinned <= |request.messages| && k < |Candidates(request, pinned)|
      requires pinned <= u < |request.messages| && request.messages[u].role == User
      requires UsersFrom(request.messages[pinned..], u - pinned) == 1
      ensures KeepsProtected(request.messages, pinned, u, Candidates(request, pinned)[k].messages)
    {
      KeepingAt(Capped(request), pinned, |Candidates(request, pinned)|, k);
      TrimmedKeepsProtected(request.messages, pinned, k + 1, u);
    }
  }

  /** Element `k` keeps `k + 1` recent turns after the pinned prefix. */
  function Keeping(request: Request, pinned: nat, most: nat): (candidates: seq<Request>)
    requires pinned <= |request.messages|
    ensures |candidates| == most
  {
    if most == 0 then []
    else Keeping(request, pinned, most - 1) + [request.(messages := Trimmed(request.messages, pinned, most))]
  }

  lemma {:induction false} KeepingAt(request: Request, pinned: nat, most: nat, k: nat)
    requires pinned <= |request.messages| && k < most
    ensures Keeping(request, pinned, most)[k] == request.(messages := Trimmed(request.messages, pinned, k + 1))
  {
    if k < most - 1 { KeepingAt(request, pinned, most - 1, k); }
  }

  /** The number of turns after the pinned prefix; a history without users counts as one. */
  function Turns(messages: seq<Msg>, pinned: nat): (turns: nat)
    requires pinned <= |messages|
    ensures turns > 0
  {
    var users := UsersFrom(messages[pinned..], 0);
    if users == 0 then 1 else users
  }

  lemma {:induction false} WholeIsLast(request: Request, pinned: nat)
    requires pinned <= |request.messages|
    ensures var most := Turns(request.messages, pinned);
      Keeping(request, pinned, most)[most - 1] == request
  {
    var most := Turns(request.messages, pinned);
    KeepingAt(request, pinned, most, most - 1);
    TrimmedAll(request.messages, pinned, most);
  }

  lemma {:induction false} TrimmedKeepsProtected(messages: seq<Msg>, pinned: nat, keep: nat, u: nat)
    requires pinned <= u < |messages| && messages[u].role == User && 0 < keep
    requires UsersFrom(messages[pinned..], u - pinned) == 1
    ensures KeepsProtected(messages, pinned, u, Trimmed(messages, pinned, keep))
  {
    SelectKeepsProtected(messages[pinned..], keep, u - pinned);
    PrefixKeepsProtected(messages, pinned, Select(messages[pinned..], keep), u);
  }

  /** `kept` still has the pinned prefix, every system message and everything from `u` on. */
  ghost predicate KeepsProtected(messages: seq<Msg>, pinned: nat, u: nat, kept: seq<Msg>)
    requires pinned <= u <= |messages|
  {
    && messages[..pinned] <= kept
    && Systems(kept) == Systems(messages)
    && |messages| - u <= |kept| && kept[|kept| - (|messages| - u)..] == messages[u..]
  }

  function Trimmed(messages: seq<Msg>, pinned: nat, keep: nat): seq<Msg>
    requires pinned <= |messages| && 0 < keep
  {
    messages[..pinned] + Select(messages[pinned..], keep)
  }

  /** The messages of the candidate that keeps `keep` turns. */
  method TrimTo(request: Request, pinned: nat, most: nat, keep: nat) returns (selected: seq<Msg>)
    requires pinned <= |request.messages| && 0 < keep <= most
    ensures request.(messages := selected) == Keeping(request, pinned, most)[keep - 1]
  {
    KeepingAt(request, pinned, most, keep - 1);
    var suffix := SelectMessages(request.messages[pinned..], keep);
    return request.messages[..pinned] + suffix;
  }

  lemma {:induction false} TrimmedAll(messages: seq<Msg>, pinned: nat, keep: nat)
    requires pinned <= |messages| && 0 < keep && UsersFrom(messages[pinned..], 0) <= keep
    ensures Trimmed(messages, pinned, keep) == messages
  {
    assert Start(messages[pinned..], keep) == 0;
    assert Select(messages[pinned..], keep) == messages[pinned..];
  }

  lemma {:induction false} PrefixKeepsProtected(messages: seq<Msg>, pinned: nat, kept: seq<Msg>, u: nat)
    requires pinned <= u <= |messages| && Systems(kept) == Systems(messages[pinned..])
    requires |messages| - u <= |kept| && kept[|kept| - (|messages| - u)..] == messages[u..]
    ensures KeepsProtected(messages, pinned, u, messages[..pinned] + kept)
  {
    var prefix, history := messages[..pinned], messages[pinned..];
    var all := prefix + kept;
    SystemsOfJoined(prefix, history, kept, messages, all);
    SuffixOfJoined(prefix, kept, all, |messages| - u);
  }

  lemma {:induction false} SuffixOfJoined(prefix: seq<Msg>, kept: seq<Msg>, all: seq<Msg>, n: nat)
    requires n <= |kept| && all == prefix + kept
    ensures all[|all| - n..] == kept[|kept| - n..] && prefix <= all
  {
  }

  lemma {:induction false} SystemsOfJoined(
      prefix: seq<Msg>, a: seq<Msg>, b: seq<Msg>, whole: seq<Msg>, joined: seq<Msg>)
    requires Systems(a) == Systems(b) && whole == prefix + a && joined == prefix + b
    ensures Systems(joined) == Systems(whole)
  {
    SystemsConcat(prefix, a);
    SystemsConcat(prefix, b);
  }

  method CountUsers(messages: seq<Msg>, pinned: nat) returns (turns: nat)
    requires pinned <= |messages|
    ensures turns == Turns(messages, pinned)
  {
    var history := messages[pinned..];
    var users := 0;
    for i := |history| downto 0
      invariant users == UsersFrom(history, i)
    {
      if history[i].role == User { users := users + 1; }
    }
    return if users == 0 then 1 else users;
  }
}
