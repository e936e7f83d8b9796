/** Laws of recent-turn selection: more turns keep more, and selecting twice is selecting once. */
module SelectionLaws {
  import opened Messages
  import opened RecentTurns

  /** `small` is obtained from `large` by deleting messages. */
  ghost predicate IsSubsequence(small: seq<Msg>, large: seq<Msg>)
  {
    if small == [] then true
    else
      && large != []
      && ((small[|small| - 1] == large[|large| - 1]
           && IsSubsequence(small[..|small| - 1], large[..|large| - 1]))
          || IsSubsequence(small, large[..|large| - 1]))
  }

  lemma {:induction false} SystemsAreSubsequence(history: seq<Msg>)
    ensures IsSubsequence(Systems(history), history)
  {
    if history != [] {
      var init := history[..|history| - 1];
      SystemsAreSubsequence(init);
      if history[|init|].role == System {
        assert Systems(history)[..|Systems(init)|] == Systems(init);
      }
    }
  }

  lemma {:induction false} SubsequenceSuffix(small: seq<Msg>, large: seq<Msg>, suffix: seq<Msg>)
    requires IsSubsequence(small, large)
    ensures IsSubsequence(small + suffix, large + suffix)
  {
    if suffix == [] {
      assert small + suffix == small && large + suffix == large;
    } else {
      var init := suffix[..|suffix| - 1];
      SubsequenceSuffix(small, large, init);
      assert (small + suffix)[..|small + suffix| - 1] == small + init;
      assert (large + suffix)[..|large + suffix| - 1] == large + init;
    }
  }

  lemma {:induction false} SubsequencePrefix(prefix: seq<Msg>, small: seq<Msg>, large: seq<Msg>)
    requires IsSubsequence(small, large)
    ensures IsSubsequence(prefix + small, prefix + large)
  {
    if large == [] {
      SelfSubsequence(prefix + small);
      assert small == [];
    } else {
      var init := large[..|large| - 1];
      assert (prefix + large)[..|prefix + large| - 1] == prefix + init;
      if small != [] && small[|small| - 1] == large[|large| - 1] && IsSubsequence(small[..|small| - 1], init) {
        SubsequencePrefix(prefix, small[..|small| - 1], init);
        assert (prefix + small)[..|prefix + small| - 1] == prefix + small[..|small| - 1];
      } else {
        SubsequencePrefix(prefix, small, init);
      }
    }
  }

  lemma {:induction false} SelfSubsequence(s: seq<Msg>)
    ensures IsSubsequence(s, s)
  {
    if s != [] { SelfSubsequence(s[..|s| - 1]); }
  }

  lemma {:induction false} SystemsConcat(a: seq<Msg>, b: seq<Msg>)
    ensures Systems(a + b) == Systems(a) + Systems(b)
  {
    if b == [] {
      assert a + b == a;
    } else {
      SystemsConcat(a, b[..|b| - 1]);
      assert (a + b)[..|a + b| - 1] == a + b[..|b| - 1];
    }
  }

  lemma {:induction false} LaterCutKeepsLess(history: seq<Msg>, early: nat, late: nat)
    requires early <= late <= |history|
    ensures IsSubsequence(Project(history, late), Project(history, early))
  {
    var prefix, between, suffix := history[..early], history[early..late], history[late..];
    assert history[..late] == prefix + between;
    assert history[early..] == between + suffix;
    FilteredMiddle(prefix, between, suffix);
    assert Project(history, late) == Systems(prefix + between) + suffix;
    assert Project(history, early) == Systems(prefix) + between + suffix;
  }

  lemma {:induction false} FilteredMiddle(prefix: seq<Msg>, between: seq<Msg>, suffix: seq<Msg>)
    ensures IsSubsequence(Systems(prefix + between) + suffix, Systems(prefix) + between + suffix)
  {
    SystemsConcat(prefix, between);
    SystemsAreSubsequence(between);
    SubsequencePrefix(Systems(prefix), Systems(between), between);
    SubsequenceSuffix(Systems(prefix + between), Systems(prefix) + between, suffix);
  }

  /** Asking for more turns never drops a message that fewer turns would have kept. */
  lemma {:induction false} MoreTurnsKeepMore(history: seq<Msg>, n: nat, m: nat)
    requires 0 < n <= m
    ensures IsSubsequence(Select(history, n), Select(history, m))
  {
    BoundaryAntitone(history, n, m);
    PassMonotone(history, 0, Boundary(history, m), Boundary(history, n));
    LaterCutKeepsLess(history, Start(history, m), Start(history, n));
  }

  /** A pass that starts earlier ends no later. */
  lemma {:induction false} PassMonotone(history: seq<Msg>, from: nat, early: nat, late: nat)
    requires from <= |history| && early <= late
    ensures PassFrom(history, from, early) <= PassFrom(history, from, late)
    decreases |history| - from
  {
    if from < |history| { PassMonotone(history, from + 1, early, late); }
  }

  lemma {:induction false} BoundaryAntitone(history: seq<Msg>, n: nat, m: nat)
    requires 0 < n <= m
    ensures Boundary(history, m) <= Boundary(history, n)
  {
    var b, c := Boundary(history, n), Boundary(history, m);
    if b < c { UsersFromAntitone(history, b, c); }
  }

  /** The last user message, and so the active turn, is never cut away. */
  lemma {:induction false} LastTurnIsKept(history: seq<Msg>, n: nat, u: nat)
    requires 0 < n && u < |history| && history[u].role == User && UsersFrom(history, u) == 1
    ensures Start(history, n) <= u
  {
    var b := Boundary(history, n);
    if u < b { UsersFromAntitone(history, u, b); }
  }

  // Selecting twice. The second pass reads a shorter history, in which message `i` of the
  // original, for `i` at or after the cut `f`, sits `off` places earlier.

  ghost predicate IsCutAt(history: seq<Msg>, f: nat, out: seq<Msg>, off: nat) {
    && off <= f < |history| && history[f].role == User && |out| == |history| - off
    && (forall i: nat | f <= i < |history| :: out[i - off] == history[i])
    && (forall k: nat | k < f - off :: out[k].role == System && out[k] in history[..f])
  }

  lemma {:induction false} ProjectIsCut(history: seq<Msg>, f: nat)
    requires f < |history| && history[f].role == User
    ensures IsCutAt(history, f, Project(history, f), f - |Systems(history[..f])|)
  {
    var systems := Systems(history[..f]);
    SystemsMembers(history[..f]);
    forall k: nat | k < |systems|
      ensures Project(history, f)[k].role == System && Project(history, f)[k] in history[..f]
    {
      assert Project(history, f)[k] == systems[k];
    }
  }

  lemma {:induction false} CutUsers(history: seq<Msg>, f: nat, out: seq<Msg>, off: nat, i: nat)
    requires IsCutAt(history, f, out, off) && f <= i <= |history|
    ensures UsersFrom(out, i - off) == UsersFrom(history, i)
    decreases |history| - i
  {
    if i < |history| { CutUsers(history, f, out, off, i + 1); }
  }

  lemma {:induction false} CutTurnStart(history: seq<Msg>, f: nat, out: seq<Msg>, off: nat, i: nat)
    requires IsCutAt(history, f, out, off) && f <= i < |history|
    ensures f <= TurnStart(history, i) && TurnStart(out, i - off) == TurnStart(history, i) - off
  {
    if history[i].role != User { CutTurnStart(history, f, out, off, i - 1); }
  }

  /** A call made after the cut is found by the second pass exactly where the first found it. */
  lemma {:induction false} CutDependsOn(history: seq<Msg>, f: nat, out: seq<Msg>, off: nat, i: nat, p: nat, j: nat)
    requires IsCutAt(history, f, out, off) && f <= j <= i < |history|
    ensures DependsOn(history, i, p, j) <==> DependsOn(out, i - off, p, j - off)
  {
    assert out[i - off] == history[i] && out[j - off] == history[j];
    if IsResultAt(history, i, p) {
      var key := KeyAt(history, i, p);
      if IsLatestCaller(out, i - off, key, j - off) {
        forall k | j < k < i ensures !HasCall(history[k].content, key) { assert out[k - off] == history[k]; }
      }
      if IsLatestCaller(history, i, key, j) {
        forall k | j - off < k < i - off ensures !HasCall(out[k].content, key) { assert out[k] == history[k + off]; }
      }
    }
  }

  lemma {:induction false} CutDep(history: seq<Msg>, f: nat, out: seq<Msg>, off: nat, i: nat)
    requires IsCutAt(history, f, out, off) && f <= i < |history| && f <= Dep(history, i)
    ensures Dep(out, i - off) == Dep(history, i) - off
  {
    if Dep(history, i) < i {
      var p, j := EarliestCall(history, i);
      CutDependsOn(history, f, out, off, i, p, j);
      DependsOnEarlier(out, i - off, p, j - off);
      CutTurnStart(history, f, out, off, j);
    }
    if Dep(out, i - off) < i - off {
      var p, k := EarliestCall(out, i - off);
      CutDepAtLeast(history, f, out, off, i, p, k);
    }
  }

  lemma {:induction false} CutDepAtLeast(history: seq<Msg>, f: nat, out: seq<Msg>, off: nat, i: nat, p: nat, k: nat)
    requires IsCutAt(history, f, out, off) && f <= i < |history| && f <= Dep(history, i)
    requires DependsOn(out, i - off, p, k)
    ensures Dep(history, i) <= TurnStart(out, k) + off
  {
    DependsOnEarlier(out, i - off, p, k);
    if k + off < f {
      CutFindsOldCall(history, f, out, off, i, p, k);
    } else {
      CutDependsOn(history, f, out, off, i, p, k + off);
      DependsOnEarlier(history, i, p, k + off);
      CutTurnStart(history, f, out, off, k + off);
    }
  }

  /** Were a call kept only through a system message, the first pass would have seen it too. */
  lemma {:induction false} CutFindsOldCall(history: seq<Msg>, f: nat, out: seq<Msg>, off: nat, i: nat, p: nat, j': nat)
    requires IsCutAt(history, f, out, off) && f <= i < |history| && j' + off < f
    requires DependsOn(out, i - off, p, j')
    ensures Dep(history, i) < f
  {
    var key := KeyAt(out, i - off, p);
    var c: nat :| c < f && history[c] == out[j'];
    var j := LatestCaller(history, i, key, c);
    if f <= j {
      assert false;
    }
    assert DependsOn(history, i, p, j);
    DepMeaning(history, i);
  }

  lemma {:induction false} LatestCaller(history: seq<Msg>, i: nat, key: CallKey, c: nat) returns (j: nat)
    requires c < i <= |history| && HasCall(history[c].content, key)
    ensures c <= j && IsLatestCaller(history, i, key, j)
    decreases i
  {
    if HasCall(history[i - 1].content, key) {
      j := i - 1;
    } else {
      j := LatestCaller(history, i - 1, key, c);
    }
  }

  /** A pass that ends at `f` had ended there when it reached message `f`. */
  lemma {:induction false} PassReachesEnd(history: seq<Msg>, from: nat, start: nat)
    requires from <= |history| && start <= |history|
    ensures var f := PassFrom(history, from, start);
      from <= f ==> PassFrom(history, f, start) == f
    decreases |history| - from
  {
    var f := PassFrom(history, from, start);
    if from < f { PassReachesEnd(history, from + 1, start); }
  }

  /** From message `i` on, the second pass, from the shifted boundary, is the shifted first pass. */
  ghost predicate PassesMatch(history: seq<Msg>, out: seq<Msg>, off: nat, b: nat, i: nat)
    requires off <= i <= |history| && |out| == |history| - off && off <= b
  {
    PassFrom(out, i - off, b - off) == PassFrom(history, i, b) - off
  }

  /** A message whose dependency was cut away is one that the first pass skipped, and the second skips it too. */
  lemma {:induction false} SecondPass(history: seq<Msg>, f: nat, out: seq<Msg>, off: nat, b: nat, i: nat)
    requires IsCutAt(history, f, out, off) && f <= b <= |history| && f == PassFrom(history, 0, b)
    requires f <= i <= |history|
    ensures PassesMatch(history, out, off, b, i)
    decreases |history| - i
  {
    if i < |history| {
      SecondPass(history, f, out, off, b, i + 1);
      PassAntitone(history, 0, i, b);
      SecondStep(history, f, out, off, b, i);
    }
  }

  lemma {:induction false} SecondStep(history: seq<Msg>, f: nat, out: seq<Msg>, off: nat, b: nat, i: nat)
    requires IsCutAt(history, f, out, off) && f <= b <= |history| && f <= i < |history|
    requires f <= PassFrom(history, i, b) && PassesMatch(history, out, off, b, i + 1)
    ensures PassesMatch(history, out, off, b, i)
  {
    SecondVisit(history, f, out, off, i, PassFrom(history, i + 1, b));
  }

  lemma {:induction false} SecondVisit(history: seq<Msg>, f: nat, out: seq<Msg>, off: nat, i: nat, start: nat)
    requires IsCutAt(history, f, out, off) && f <= i < |history| && f <= start
    requires f <= Visit(history, i, start)
    ensures Visit(out, i - off, start - off) == Visit(history, i, start) - off
  {
    assert out[i - off] == history[i];
    if f <= Dep(history, i) { CutDep(history, f, out, off, i); }
  }

  lemma {:induction false} AllSystems(history: seq<Msg>)
    requires forall m | m in history :: m.role == System
    ensures Systems(history) == history
  {
    if history != [] {
      AllSystems(history[..|history| - 1]);
      assert history == history[..|history| - 1] + [history[|history| - 1]];
    }
  }

  /** A cut within the leading System messages keeps everything. */
  lemma {:induction false} CutInSystems(out: seq<Msg>, k: nat, s: nat)
    requires s <= k <= |out| && forall m | 0 <= m < k :: out[m].role == System
    ensures Project(out, s) == out
  {
    AllSystems(out[..s]);
    assert out[..s] + out[s..] == out;
  }

  /** Selecting from what was selected changes nothing. */
  lemma {:induction false} SelectIsIdempotent(history: seq<Msg>, n: nat)
    requires 0 < n
    ensures Select(Select(history, n), n) == Select(history, n)
  {
    var f, b := Start(history, n), Boundary(history, n);
    if f == 0 {
      assert Select(history, n) == history;
    } else {
      PassEndsAtTurn(history, 0, b);
      ProjectIsCut(history, f);
      SecondStart(history, f, Select(history, n), f - |Systems(history[..f])|, n);
      CutInSystems(Select(history, n), |Systems(history[..f])|, Start(Select(history, n), n));
    }
  }

  /** The second selection cuts within the System messages that the first one kept. */
  lemma {:induction false} SecondStart(history: seq<Msg>, f: nat, out: seq<Msg>, off: nat, n: nat)
    requires 0 < n && 0 < f == Start(history, n) && IsCutAt(history, f, out, off)
    ensures Start(out, n) <= f - off
  {
    var b := Boundary(history, n);
    CutBoundary(history, f, out, off, n);
    if f < b { SecondEnd(history, f, out, off, b); }
  }

  lemma {:induction false} SecondEnd(history: seq<Msg>, f: nat, out: seq<Msg>, off: nat, b: nat)
    requires IsCutAt(history, f, out, off) && f <= b <= |history| && f == PassFrom(history, 0, b)
    ensures PassFrom(out, 0, b - off) <= f - off
  {
    SecondPass(history, f, out, off, b, f);
    PassReachesEnd(history, 0, b);
    PassAntitone(out, 0, f - off, b - off);
  }

  lemma {:induction false} CutBoundary(history: seq<Msg>, f: nat, out: seq<Msg>, off: nat, n: nat)
    requires 0 < n && 0 < f <= Boundary(history, n) && IsCutAt(history, f, out, off)
    ensures if f == Boundary(history, n) then Boundary(out, n) == 0 else Boundary(out, n) == Boundary(history, n) - off
  {
    var b := Boundary(history, n);
    CutUsers(history, f, out, off, f);
    CutUsers(history, f, out, off, b);
    CutSystemsHoldNoUsers(out, f - off, 0);
    UsersFromAntitone(history, f, b);
    if f < b { SameBoundary(out, n, b - off); }
  }

  lemma {:induction false} CutSystemsHoldNoUsers(out: seq<Msg>, k: nat, i: nat)
    requires i <= k <= |out| && forall m | 0 <= m < k :: out[m].role == System
    ensures UsersFrom(out, i) == UsersFrom(out, k)
    decreases k - i
  {
    if i < k { CutSystemsHoldNoUsers(out, k, i + 1); }
  }

  lemma {:induction false} SystemsOfFiltered(early: seq<Msg>, late: seq<Msg>)
    ensures Systems(Systems(early) + late) == Systems(early + late)
  {
    SystemsConcat(Systems(early), late);
    SystemsTwice(early);
    SystemsConcat(early, late);
  }

  lemma {:induction false} ProjectKeepsSystems(history: seq<Msg>, start: nat)
    requires start <= |history|
    ensures Systems(Project(history, start)) == Systems(history)
  {
    var early, late := history[..start], history[start..];
    assert early + late == history;
    assert Systems(early + late) == Systems(history);
    SystemsOfFiltered(early, late);
  }

  lemma {:induction false} SystemsTwice(history: seq<Msg>)
    ensures Systems(Systems(history)) == Systems(history)
  {
    if history != [] {
      var init := history[..|history| - 1];
      SystemsTwice(init);
      assert (Systems(init) + [history[|init|]])[..|Systems(init)|] == Systems(init);
    }
  }

  lemma {:induction false} ProjectKeepsSuffix(history: seq<Msg>, start: nat, u: nat)
    requires start <= u <= |history|
    ensures var kept := Project(history, start);
      |history| - u <= |kept| && kept[|kept| - (|history| - u)..] == history[u..]
  {
    var kept, systems := Project(history, start), Systems(history[..start]);
    assert kept[|kept| - (|history| - u)..] == history[start..][u - start..];
  }

  /** Selection never drops a system message, nor any of the last turn. */
  lemma {:induction false} SelectKeepsProtected(history: seq<Msg>, n: nat, u: nat)
    requires 0 < n && u < |history| && history[u].role == User && UsersFrom(history, u) == 1
    ensures var kept := Select(history, n);
      && Systems(kept) == Systems(history)
      && |history| - u <= |kept| && kept[|kept| - (|history| - u)..] == history[u..]
  {
    LastTurnIsKept(history, n, u);
    ProjectKeepsSystems(history, Start(history, n));
    ProjectKeepsSuffix(history, Start(history, n), u);
  }
}
