/** Messages and content blocks shared by the agent, the pipelines and the context policies. */
module Messages {

  type Byte = b: int | 0 <= b < 256

  datatype Role = System | User | Assistant

  datatype CallState = Pending | Asking | Allowed | Submitted | Finished

  datatype ResultState = Running | Success | Error | Interrupted | Denied

  predicate IsTerminal(state: ResultState) {
    state != Running
  }

  /** Tool output is either UTF-8 text, kept as its bytes, or a list of structured blocks. */
  datatype ToolOutput = TextOutput(utf8: seq<Byte>) | BlocksOutput(blocks: seq<nat>)

  /** A JSON schema document; only the shape of its root is ever inspected. */
  datatype Schema = Schema(document: string, rootIsObjectOrBool: bool)

  datatype Block =
    | Text(id: string, text: string)
    | Thinking(id: string, thinking: string)
    | ToolCall(id: string, name: string, input: string, callState: CallState)
    | ToolResult(id: string, name: string, output: ToolOutput, state: ResultState)
    | StructuredOutput(id: string, schema: Schema, json: string, complete: bool)
    | Data(id: string)

  datatype Msg = Msg(id: string, name: string, role: Role, content: seq<Block>)

  datatype Option<+T> = None | Some(value: T)

  datatype Result<+T, +E> = Ok(value: T) | Err(error: E)

  /** What storage does around one transaction: report it, lose the report, or fail before committing. */
  datatype Fault = Acked | AckLost | NotCommitted

  /** The first position whose element satisfies `p`; the length when there is none. */
  function FirstIndex<T>(s: seq<T>, p: T -> bool): (k: nat)
    ensures k <= |s|
    ensures k < |s| ==> p(s[k])
    ensures forall i | 0 <= i < k :: !p(s[i])
  {
    if s == [] then 0
    else
      var k := FirstIndex(s[..|s| - 1], p);
      if k < |s| - 1 || p(s[k]) then k else |s|
  }

  /** The characters with Unicode's White_Space property, which `trim` removes. */
  predicate IsWhitespace(c: char) {
    var n := c as int;
    || 0x9 <= n <= 0xD || n == 0x20 || n == 0x85 || n == 0xA0 || n == 0x1680
    || 0x2000 <= n <= 0x200A || n == 0x2028 || n == 0x2029 || n == 0x202F || n == 0x205F
    || n == 0x3000
  }

  /** `text.trim().is_empty()` */
  predicate IsBlank(s: string) {
    forall c | c in s :: IsWhitespace(c)
  }

  /** The messages of a history that application instructions occupy. */
  function Systems(history: seq<Msg>): (r: seq<Msg>)
    ensures |r| <= |history|
  {
    if history == [] then []
    else
      var rest := Systems(history[..|history| - 1]);
      if history[|history| - 1].role == System then rest + [history[|history| - 1]] else rest
  }

  lemma {:induction false} SystemsMembers(history: seq<Msg>)
    ensures forall k | 0 <= k < |Systems(history)| ::
      Systems(history)[k].role == System && Systems(history)[k] in history
  {
    if history != [] {
      var init := history[..|history| - 1];
      SystemsMembers(init);
      forall k | 0 <= k < |Systems(history)| ensures Systems(history)[k] in history {
        if k < |Systems(init)| {
          assert Systems(history)[k] == Systems(init)[k] && Systems(init)[k] in init;
        }
      }
    }
  }

  lemma {:induction false} SubsetIsNoLarger<T>(a: set<T>, b: set<T>)
    requires a <= b
    ensures |a| <= |b|
  {
    if a != {} {
      var x :| x in a;
      SubsetIsNoLarger(a - {x}, b - {x});
    }
  }

  /** `kept` is what `whole` holds at the positions `at`, in the order of `whole`. */
  ghost predicate Selects<T>(whole: seq<T>, at: seq<nat>, kept: seq<T>) {
    && |at| == |kept|
    && (forall k | 0 <= k < |at| :: at[k] < |whole| && kept[k] == whole[at[k]])
    && (forall k, l | 0 <= k < l < |at| :: at[k] < at[l])
  }

  lemma {:induction false} SelectsOneMore<T>(whole: seq<T>, at: seq<nat>, kept: seq<T>, x: T)
    requires Selects(whole, at, kept)
    ensures Selects(whole + [x], at, kept) && Selects(whole + [x], at + [|whole|], kept + [x])
    ensures forall i | i in at :: i < |whole|
  {
  }

  /** The system messages are those of the role, each where it was in the order. */
  lemma {:induction false} SystemsAre(history: seq<Msg>) returns (at: seq<nat>)
    ensures Selects(history, at, Systems(history))
    ensures forall i | 0 <= i < |history| :: i in at <==> history[i].role == Role.System
  {
    at := [];
    if history != [] {
      var init, last := history[..|history| - 1], history[|history| - 1];
      var before := SystemsAre(init);
      SelectsOneMore(init, before, Systems(init), last);
      assert init + [last] == history;
      at := if last.role == System then before + [|init|] else before;
    }
  }

  /** Blank text is made of white space: the tab to the carriage return, the space, and nineteen others. */
  lemma {:induction false} BlankMeaning(s: string)
    ensures var spaces := {
        9, 10, 11, 12, 13, 32, 133, 160, 5760, 8192, 8193, 8194, 8195, 8196, 8197, 8198, 8199, 8200, 8201, 8202,
        8232, 8233, 8239, 8287, 12288};
      IsBlank(s) <==> forall i | 0 <= i < |s| :: s[i] as int in spaces
  {
    if IsBlank(s) {
      forall i | 0 <= i < |s| ensures IsWhitespace(s[i]) { assert s[i] in s; }
    }
  }

  ghost predicate NoDuplicates<T>(s: seq<T>) {
    forall i, j | 0 <= i < j < |s| :: s[i] != s[j]
  }

  lemma {:induction false} NoDuplicatesIffCounted<T>(s: seq<T>)
    ensures |set x | x in s| <= |s|
    ensures NoDuplicates(s) <==> |set x | x in s| == |s|
  {
    if s != [] {
      var init, last := s[..|s| - 1], s[|s| - 1];
      NoDuplicatesIffCounted(init);
      assert s == init + [last];
      assert (set x | x in s) == (set x | x in init) + {last};
      if last in init {
        var i :| 0 <= i < |init| && init[i] == last;
        assert s[i] == s[|init|];
      }
    }
  }
}
