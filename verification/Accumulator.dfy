/** Accumulating a stream of content deltas, which may interleave blocks, into one response. */
module Accumulator {
  import opened Messages

  datatype Kind = TextKind | ThinkingKind | CallKind(name: string) | OutputKind(schema: Schema)

  datatype Delta = Delta(id: string, kind: Kind, text: string)

  datatype Event =
    | Content(delta: Delta)
    | Usage(tokens: nat)
    | Finish(reason: nat)
    | Failure(error: string)

  datatype StreamError =
    | AlreadyFinished
    | NotFinished
    | EmptyBlockId
    | BlockTypeMismatch(id: string)
    | ToolNameMismatch(id: string, expected: string, actual: string)
    | SchemaMismatch(id: string)
    | EmptyCallId
    | EmptyCallName
    | InvalidInput
    | InvalidSchema
    | InvalidOutput
    | ModelFailed(error: string)

  datatype Response = Response(content: seq<Block>, isLast: bool, reason: Option<nat>, usage: Option<nat>)

  function MakeBlock(d: Delta): (b: Block)
    ensures b.id == d.id
  {
    match d.kind
    case TextKind => Text(d.id, d.text)
    case ThinkingKind => Thinking(d.id, d.text)
    case CallKind(name) => ToolCall(d.id, name, d.text, CallState.Pending)
    case OutputKind(schema) => StructuredOutput(d.id, schema, d.text, false)
  }

  function Extend(b: Block, text: string): (r: Block)
    ensures r.id == b.id
  {
    match b
    case Text(id, t) => Text(id, t + text)
    case Thinking(id, t) => Thinking(id, t + text)
    case ToolCall(id, name, input, state) => ToolCall(id, name, input + text, state)
    case StructuredOutput(id, schema, json, complete) => StructuredOutput(id, schema, json + text, complete)
    case _ => b
  }

  function FindBlock(content: seq<Block>, id: string): (k: nat)
    ensures k <= |content|
    ensures k < |content| ==> content[k].id == id
    ensures forall i | 0 <= i < k :: content[i].id != id
  {
    FirstIndex(content, (b: Block) => b.id == id)
  }

  // ------------------------------------------------------------- closed form

  /** The identifiers of the blocks, in order of first appearance. */
  function FirstIds(deltas: seq<Delta>): seq<string> {
    if deltas == [] then []
    else
      var ids, last := FirstIds(deltas[..|deltas| - 1]), deltas[|deltas| - 1];
      if last.id in ids then ids else ids + [last.id]
  }

  /** The deltas of one block, in order. */
  function DeltasOf(deltas: seq<Delta>, id: string): seq<Delta> {
    if deltas == [] then []
    else
      var rest, last := DeltasOf(deltas[..|deltas| - 1], id), deltas[|deltas| - 1];
      if last.id == id then rest + [last] else rest
  }

  function Joined(deltas: seq<Delta>): string {
    if deltas == [] then "" else Joined(deltas[..|deltas| - 1]) + deltas[|deltas| - 1].text
  }

  /** The block that one block's deltas make, whatever came between them. */
  function BlockOf(id: string, own: seq<Delta>): Block {
    if own == [] then Data(id) else MakeBlock(Delta(id, own[0].kind, Joined(own)))
  }

  function BlocksOf(ids: seq<string>, deltas: seq<Delta>): (blocks: seq<Block>)
    ensures |blocks| == |ids|
    ensures forall i | 0 <= i < |ids| :: blocks[i] == BlockOf(ids[i], DeltasOf(deltas, ids[i]))
  {
    if ids == [] then []
    else
      var last := ids[|ids| - 1];
      BlocksOf(ids[..|ids| - 1], deltas) + [BlockOf(last, DeltasOf(deltas, last))]
  }

  /** What accepted deltas accumulate to: one block per identifier, its texts joined. */
  function Accumulated(deltas: seq<Delta>): seq<Block> {
    BlocksOf(FirstIds(deltas), deltas)
  }

  predicate NewOk(kind: Kind) {
    match kind
    case CallKind(name) => !IsBlank(name)
    case OutputKind(schema) => schema.rootIsObjectOrBool
    case _ => true
  }

  /** One block's deltas: under a real identifier, all of one kind, name and schema. */
  ghost predicate Consistent(own: seq<Delta>) {
    forall i | 0 <= i < |own| :: !IsBlank(own[i].id) && own[i].kind == own[0].kind && NewOk(own[0].kind)
  }

  ghost predicate Accepts(deltas: seq<Delta>) {
    forall id :: Consistent(DeltasOf(deltas, id))
  }

  lemma {:induction false} DeltasOfAppend(deltas: seq<Delta>, d: Delta, id: string)
    ensures DeltasOf(deltas + [d], id) == if d.id == id then DeltasOf(deltas, id) + [d] else DeltasOf(deltas, id)
  {
    assert (deltas + [d])[..|deltas|] == deltas;
  }

  lemma {:induction false} DeltasCarryId(deltas: seq<Delta>, id: string)
    ensures forall i | 0 <= i < |DeltasOf(deltas, id)| :: DeltasOf(deltas, id)[i].id == id
  {
    if deltas != [] { DeltasCarryId(deltas[..|deltas| - 1], id); }
  }

  lemma {:induction false} FirstIdsMeaning(deltas: seq<Delta>)
    ensures forall id :: id in FirstIds(deltas) <==> DeltasOf(deltas, id) != []
    ensures forall i, j | 0 <= i < j < |FirstIds(deltas)| :: FirstIds(deltas)[i] != FirstIds(deltas)[j]
  {
    if deltas != [] { FirstIdsMeaning(deltas[..|deltas| - 1]); }
  }

  /** Accumulated blocks have distinct identifiers: finding one finds its first appearance. */
  lemma {:induction false} FindAccumulated(deltas: seq<Delta>, id: string)
    ensures var ids, k := FirstIds(deltas), FindBlock(Accumulated(deltas), id);
      && (k < |ids| <==> id in ids)
      && (k < |ids| ==> ids[k] == id && Accumulated(deltas)[k] == BlockOf(id, DeltasOf(deltas, id)))
  {
    FirstIdsMeaning(deltas);
    BlockIds(deltas);
  }

  lemma {:induction false} BlockIds(deltas: seq<Delta>)
    ensures forall i | 0 <= i < |FirstIds(deltas)| :: Accumulated(deltas)[i].id == FirstIds(deltas)[i]
  {
  }

  // -------------------------------------------------------------- one delta

  /** Why a delta is refused, if it is. */
  function Flaw(content: seq<Block>, d: Delta): Option<StreamError> {
    var k := FindBlock(content, d.id);
    if !d.kind.CallKind? && IsBlank(d.id) then Some(EmptyBlockId)
    else if k < |content| then
      match (d.kind, content[k])
      case (TextKind, Text(_, _)) => None
      case (ThinkingKind, Thinking(_, _)) => None
      case (CallKind(name), ToolCall(_, known, _, _)) =>
        if known == name then None else Some(ToolNameMismatch(d.id, known, name))
      case (OutputKind(schema), StructuredOutput(_, known, _, complete)) =>
        if known != schema then Some(SchemaMismatch(d.id)) else if complete then Some(InvalidOutput) else None
      case _ => Some(BlockTypeMismatch(d.id))
    else
      match d.kind
      case CallKind(name) =>
        if IsBlank(d.id) then Some(EmptyCallId) else if IsBlank(name) then Some(EmptyCallName) else None
      case OutputKind(schema) => if schema.rootIsObjectOrBool then None else Some(InvalidSchema)
      case _ => None
  }

  function Grown(content: seq<Block>, d: Delta): seq<Block> {
    var k := FindBlock(content, d.id);
    if k < |content| then content[k := Extend(content[k], d.text)] else content + [MakeBlock(d)]
  }

  lemma {:induction false} ConsistentAppend(own: seq<Delta>, d: Delta)
    requires Consistent(own)
    ensures Consistent(own + [d]) <==>
      !IsBlank(d.id) && (if own == [] then NewOk(d.kind) else own[0].kind == d.kind)
  {
    if own != [] && Consistent(own + [d]) {
      assert (own + [d])[|own|] == d && (own + [d])[0] == own[0];
    }
    if own == [] && Consistent(own + [d]) {
      assert (own + [d])[0] == d;
    }
  }

  /** One more delta touches one block only. */
  lemma {:induction false} AcceptsAppend(deltas: seq<Delta>, d: Delta)
    requires Accepts(deltas)
    ensures Accepts(deltas + [d]) <==> Consistent(DeltasOf(deltas, d.id) + [d])
  {
    forall id ensures d.id != id ==> Consistent(DeltasOf(deltas + [d], id)) {
      DeltasOfAppend(deltas, d, id);
      assert Consistent(DeltasOf(deltas, id));
    }
    DeltasOfAppend(deltas, d, d.id);
  }

  /** The guard on one delta is exactly that the deltas stay consistent, block by block. */
  lemma {:induction false} FlawIffInconsistent(deltas: seq<Delta>, d: Delta)
    requires Accepts(deltas)
    ensures Flaw(Accumulated(deltas), d).None? <==> Accepts(deltas + [d])
  {
    var own := DeltasOf(deltas, d.id);
    FindAccumulated(deltas, d.id);
    FirstIdsMeaning(deltas);
    DeltasCarryId(deltas, d.id);
    AcceptsAppend(deltas, d);
    assert Consistent(own);
    FlawMeaning(Accumulated(deltas), own, d);
  }

  lemma {:induction false} FlawMeaning(content: seq<Block>, own: seq<Delta>, d: Delta)
    requires Consistent(own) && forall i | 0 <= i < |own| :: own[i].id == d.id
    requires FindBlock(content, d.id) < |content| <==> own != []
    requires own != [] ==> content[FindBlock(content, d.id)] == BlockOf(d.id, own)
    ensures Flaw(content, d).None? <==> Consistent(own + [d])
  {
    ConsistentAppend(own, d);
    FlawOnBlock(own, d);
  }

  /** The guard on the block that a block's deltas made so far. */
  lemma {:induction false} FlawOnBlock(own: seq<Delta>, d: Delta)
    requires Consistent(own) && forall i | 0 <= i < |own| :: own[i].id == d.id
    ensures own != [] ==> (BlockMatches(BlockOf(d.id, own), d.kind) <==> own[0].kind == d.kind)
    ensures own != [] ==> !IsBlank(d.id)
  {
  }

  predicate BlockMatches(b: Block, kind: Kind) {
    match kind
    case TextKind => b.Text?
    case ThinkingKind => b.Thinking?
    case CallKind(name) => b.ToolCall? && b.name == name
    case OutputKind(schema) => b.StructuredOutput? && b.schema == schema && !b.complete
  }

  lemma {:induction false} JoinedAppend(own: seq<Delta>, d: Delta)
    ensures Joined(own + [d]) == Joined(own) + d.text
  {
    assert (own + [d])[..|own|] == own;
  }

  /** An accepted delta in place is one more delta in the closed form. */
  lemma {:induction false} GrownIsAccumulated(deltas: seq<Delta>, d: Delta)
    requires Accepts(deltas) && Accepts(deltas + [d])
    ensures Grown(Accumulated(deltas), d) == Accumulated(deltas + [d])
  {
    var ids, grown, all := FirstIds(deltas), Grown(Accumulated(deltas), d), Accumulated(deltas + [d]);
    FindAccumulated(deltas, d.id);
    FirstIdsAppend(deltas, d);
    AcceptsAppend(deltas, d);
    forall i | 0 <= i < |all| ensures grown[i] == all[i] {
      GrownAt(deltas, d, i);
    }
  }

  lemma {:induction false} FirstIdsAppend(deltas: seq<Delta>, d: Delta)
    ensures FirstIds(deltas + [d]) == if d.id in FirstIds(deltas) then FirstIds(deltas) else FirstIds(deltas) + [d.id]
  {
    assert (deltas + [d])[..|deltas|] == deltas;
  }

  lemma {:induction false} GrownAt(deltas: seq<Delta>, d: Delta, i: nat)
    requires Accepts(deltas) && Consistent(DeltasOf(deltas, d.id) + [d])
    requires i < |FirstIds(deltas + [d])|
    ensures i < |Grown(Accumulated(deltas), d)|
    ensures var id := FirstIds(deltas + [d])[i];
      Grown(Accumulated(deltas), d)[i] == BlockOf(id, DeltasOf(deltas + [d], id))
  {
    var id := FirstIds(deltas + [d])[i];
    FirstIdsAppend(deltas, d);
    FirstIdsMeaning(deltas);
    DeltasOfAppend(deltas, d, id);
    GrownElement(Accumulated(deltas), FirstIds(deltas), deltas, d, i);
    if id == d.id {
      SameKind(DeltasOf(deltas, id), d);
      GrownBlock(DeltasOf(deltas, id), d);
    }
  }

  lemma {:induction false} SameKind(own: seq<Delta>, d: Delta)
    requires Consistent(own + [d])
    ensures own != [] ==> own[0].kind == d.kind
  {
    if own != [] { assert (own + [d])[|own|] == d && (own + [d])[0] == own[0]; }
  }

  lemma {:induction false} GrownElement(content: seq<Block>, ids: seq<string>, deltas: seq<Delta>, d: Delta, i: nat)
    requires content == Accumulated(deltas) && ids == FirstIds(deltas)
    requires i < |ids| + if d.id in ids then 0 else 1
    ensures i < |Grown(content, d)|
    ensures i < |ids| && ids[i] != d.id ==> Grown(content, d)[i] == content[i]
    ensures i < |ids| && ids[i] == d.id ==> Grown(content, d)[i] == Extend(content[i], d.text)
    ensures i == |ids| ==> Grown(content, d)[i] == MakeBlock(d)
  {
    FindAccumulated(deltas, d.id);
    FirstIdsMeaning(deltas);
  }

  lemma {:induction false} GrownBlock(own: seq<Delta>, d: Delta)
    requires own != [] ==> own[0].kind == d.kind
    ensures BlockOf(d.id, own + [d]) == if own == [] then MakeBlock(d) else Extend(BlockOf(d.id, own), d.text)
  {
    JoinedAppend(own, d);
    if own == [] { assert own + [d] == [d] && Joined([d]) == Joined([]) + d.text == d.text; }
  }

  /** How far two streams agree: the same blocks first appear in the same order, each with the same deltas. */
  ghost predicate SameBlocks(a: seq<Delta>, b: seq<Delta>) {
    FirstIds(a) == FirstIds(b) && forall id :: DeltasOf(a, id) == DeltasOf(b, id)
  }

  /** Interleaving is irrelevant: such streams are both accepted or both refused, with the same result. */
  lemma {:induction false} InterleavingIsIrrelevant(a: seq<Delta>, b: seq<Delta>)
    requires SameBlocks(a, b)
    ensures Accepts(a) <==> Accepts(b)
    ensures Accumulated(a) == Accumulated(b)
  {
    if Accepts(a) {
      forall id ensures Consistent(DeltasOf(b, id)) {
        assert DeltasOf(a, id) == DeltasOf(b, id) && Consistent(DeltasOf(a, id));
      }
    }
    if Accepts(b) {
      forall id ensures Consistent(DeltasOf(a, id)) {
        assert DeltasOf(a, id) == DeltasOf(b, id) && Consistent(DeltasOf(b, id));
      }
    }
    forall i | 0 <= i < |Accumulated(a)| ensures Accumulated(a)[i] == Accumulated(b)[i] {
      assert DeltasOf(a, FirstIds(a)[i]) == DeltasOf(b, FirstIds(a)[i]);
    }
  }

  /** The block that a first delta starts. */
  ghost predicate Starts(d: Delta, b: Block) {
    match d.kind
    case TextKind => b == Text(d.id, d.text)
    case ThinkingKind => b == Thinking(d.id, d.text)
    case CallKind(name) => b == ToolCall(d.id, name, d.text, CallState.Pending)
    case OutputKind(schema) => b == StructuredOutput(d.id, schema, d.text, false)
  }

  /** A later delta of a block appends its text, and keeps everything else. */
  ghost predicate Continues(d: Delta, before: Block, after: Block) {
    match d.kind
    case TextKind => before.Text? && after == before.(text := before.text + d.text)
    case ThinkingKind => before.Thinking? && after == before.(thinking := before.thinking + d.text)
    case CallKind(name) => before.ToolCall? && before.name == name && after == before.(input := before.input + d.text)
    case OutputKind(schema) =>
      before.StructuredOutput? && before.schema == schema && after == before.(json := before.json + d.text)
  }

  /** What one more accepted delta does: it continues the block it names in place, or starts a last one. */
  lemma {:induction false} OneMoreDelta(deltas: seq<Delta>, d: Delta)
    requires Accepts(deltas) && Accepts(deltas + [d])
    ensures Accumulated([]) == []
    ensures var before, after := Accumulated(deltas), Accumulated(deltas + [d]);
      && |before| <= |after|
      && (forall i | 0 <= i < |before| ::
            if before[i].id == d.id then Continues(d, before[i], after[i]) else after[i] == before[i])
      && (if exists i | 0 <= i < |before| :: before[i].id == d.id then |after| == |before|
          else |after| == |before| + 1 && Starts(d, after[|before|]))
  {
    GrownIsAccumulated(deltas, d);
    FlawIffInconsistent(deltas, d);
    DistinctBlocks(deltas);
  }

  /** The next delta is accepted exactly when it agrees with every earlier one of its block, or may start one. */
  lemma {:induction false} AcceptedNext(deltas: seq<Delta>, d: Delta)
    requires Accepts(deltas)
    ensures Accepts([])
    ensures Accepts(deltas + [d]) <==>
      && !IsBlank(d.id)
      && (forall i | 0 <= i < |deltas| && deltas[i].id == d.id :: deltas[i].kind == d.kind)
      && ((forall i | 0 <= i < |deltas| :: deltas[i].id != d.id) ==>
            (d.kind.CallKind? ==> !IsBlank(d.kind.name)) && (d.kind.OutputKind? ==> d.kind.schema.rootIsObjectOrBool))
  {
    var own := DeltasOf(deltas, d.id);
    AcceptsAppend(deltas, d);
    assert Consistent(own);
    ConsistentAppend(own, d);
    OwnDeltas(deltas, d.id);
  }

  /** A refusal says what is wrong: with the identifier, with the block it names, or with a block that would start. */
  lemma {:induction false} RefusalsAreNamed(deltas: seq<Delta>, d: Delta)
    requires Accepts(deltas) && !Accepts(deltas + [d])
    ensures Flaw(Accumulated(deltas), d).Some?
    ensures var flaw, before := Flaw(Accumulated(deltas), d).value, Accumulated(deltas);
      if !d.kind.CallKind? && IsBlank(d.id) then flaw == EmptyBlockId
      else if forall i | 0 <= i < |before| :: before[i].id != d.id then
        flaw == (if d.kind.OutputKind? then InvalidSchema else if IsBlank(d.id) then EmptyCallId else EmptyCallName)
      else forall i | 0 <= i < |before| && before[i].id == d.id ::
        flaw == if d.kind.CallKind? && before[i].ToolCall? then ToolNameMismatch(d.id, before[i].name, d.kind.name)
                else if d.kind.OutputKind? && before[i].StructuredOutput? then SchemaMismatch(d.id)
                else BlockTypeMismatch(d.id)
  {
    FlawIffInconsistent(deltas, d);
    OneBlockEach(deltas, d.id);
    StillIncomplete(FirstIds(deltas), deltas);
    RefusalOf(Accumulated(deltas), d, FindBlock(Accumulated(deltas), d.id));
  }

  lemma {:induction false} OneBlockEach(deltas: seq<Delta>, id: string)
    ensures forall i | 0 <= i < |Accumulated(deltas)| && Accumulated(deltas)[i].id == id ::
      i == FindBlock(Accumulated(deltas), id)
  {
    DistinctBlocks(deltas);
  }

  lemma {:induction false} StillIncomplete(ids: seq<string>, deltas: seq<Delta>)
    ensures forall b | b in BlocksOf(ids, deltas) && b.StructuredOutput? :: !b.complete
  {
    if ids != [] { StillIncomplete(ids[..|ids| - 1], deltas); }
  }

  lemma {:induction false} DistinctBlocks(deltas: seq<Delta>)
    ensures forall i, j | 0 <= i < j < |Accumulated(deltas)| :: Accumulated(deltas)[i].id != Accumulated(deltas)[j].id
  {
    FirstIdsMeaning(deltas);
    BlockIds(deltas);
  }

  lemma {:induction false} RefusalOf(content: seq<Block>, d: Delta, k: nat)
    requires k == FindBlock(content, d.id) && Flaw(content, d).Some?
    requires forall b | b in content && b.StructuredOutput? :: !b.complete
    ensures Flaw(content, d).value
         == if !d.kind.CallKind? && IsBlank(d.id) then EmptyBlockId
            else if k == |content| then
              if d.kind.OutputKind? then InvalidSchema else if IsBlank(d.id) then EmptyCallId else EmptyCallName
            else if d.kind.CallKind? && content[k].ToolCall? then
              ToolNameMismatch(d.id, content[k].name, d.kind.name)
            else if d.kind.OutputKind? && content[k].StructuredOutput? then SchemaMismatch(d.id)
            else BlockTypeMismatch(d.id)
  {
    if k < |content| { assert content[k] in content; }
  }

  lemma {:induction false} OwnDeltas(deltas: seq<Delta>, id: string)
    ensures forall i | 0 <= i < |deltas| && deltas[i].id == id :: deltas[i] in DeltasOf(deltas, id)
    ensures forall e | e in DeltasOf(deltas, id) :: e in deltas && e.id == id
  {
    if deltas != [] { OwnDeltas(deltas[..|deltas| - 1], id); }
  }

  // -------------------------------------------------------------- finishing

  /** Whether a block that must hold JSON does. */
  predicate Finishable(b: Block, isJson: string -> bool) {
    (b.ToolCall? ==> isJson(b.input)) && (b.StructuredOutput? ==> !b.complete && isJson(b.json))
  }

  /** Finishing marks calls and structured outputs, keeps all they carry, and changes no other block. */
  predicate OnlyMarked(before: Block, after: Block) {
    after == if before.ToolCall? then before.(callState := CallState.Finished)
             else if before.StructuredOutput? then before.(complete := true)
             else before
  }

  /** Marks a copy of the blocks as finished, up to the first that holds no JSON. */
  method FinishBlocks(content: seq<Block>, isJson: string -> bool) returns (r: Result<seq<Block>, StreamError>)
    ensures r.Ok? <==> forall b | b in content ::
      (b.ToolCall? ==> isJson(b.input)) && (b.StructuredOutput? ==> !b.complete && isJson(b.json))
    ensures r.Ok? ==> |r.value| == |content| && forall i | 0 <= i < |content| ::
      r.value[i] == if content[i].ToolCall? then content[i].(callState := CallState.Finished)
                    else if content[i].StructuredOutput? then content[i].(complete := true)
                    else content[i]
    ensures r.Err? ==> exists k | 0 <= k < |content| ::
      && (forall i | 0 <= i < k :: Finishable(content[i], isJson)) && !Finishable(content[k], isJson)
      && r.error == if content[k].ToolCall? then InvalidInput else InvalidOutput
  {
    var edited := content;
    for k := 0 to |content|
      invariant |edited| == |content| && forall i | 0 <= i < k :: Finishable(content[i], isJson)
      invariant forall i | 0 <= i < k :: OnlyMarked(content[i], edited[i])
      invariant forall i | k <= i < |content| :: edited[i] == content[i]
    {
      match edited[k] {
        case ToolCall(id, name, input, state) =>
          if !isJson(input) { return Err(InvalidInput); }
          edited := edited[k := ToolCall(id, name, input, CallState.Finished)];
        case StructuredOutput(id, schema, json, complete) =>
          if complete || !isJson(json) { return Err(InvalidOutput); }
          edited := edited[k := StructuredOutput(id, schema, json, true)];
        case _ =>
      }
    }
    return Ok(edited);
  }

  /** Appends to the block that a delta names, or starts a new one; refused, it reports the flaw. */
  method EditBlock(content: seq<Block>, d: Delta) returns (r: Result<seq<Block>, StreamError>)
    ensures r == if Flaw(content, d).Some? then Err(Flaw(content, d).value) else Ok(Grown(content, d))
  {
    if !d.kind.CallKind? && IsBlank(d.id) { return Err(EmptyBlockId); }
    var k := FindBlock(content, d.id);
    if k == |content| {
      match d.kind {
        case CallKind(name) =>
          if IsBlank(d.id) { return Err(EmptyCallId); }
          if IsBlank(name) { return Err(EmptyCallName); }
        case OutputKind(schema) =>
          if !schema.rootIsObjectOrBool { return Err(InvalidSchema); }
        case _ =>
      }
      return Ok(content + [MakeBlock(d)]);
    }
    var block := content[k];
    match d.kind {
      case TextKind => if !block.Text? { return Err(BlockTypeMismatch(d.id)); }
      case ThinkingKind => if !block.Thinking? { return Err(BlockTypeMismatch(d.id)); }
      case CallKind(name) =>
        if !block.ToolCall? { return Err(BlockTypeMismatch(d.id)); }
        if block.name != name { return Err(ToolNameMismatch(d.id, block.name, name)); }
      case OutputKind(schema) =>
        if !block.StructuredOutput? { return Err(BlockTypeMismatch(d.id)); }
        if block.schema != schema { return Err(SchemaMismatch(d.id)); }
        if block.complete { return Err(InvalidOutput); }
    }
    return Ok(content[k := Extend(block, d.text)]);
  }

  class ChatResponseAccumulator {
    var response: Response
    var pendingUsage: Option<nat>
    var terminalError: Option<string>
    var finished: bool
    const isJson: string -> bool
    /** The content deltas accepted so far, in order of arrival. */
    ghost var accepted: seq<Delta>

    constructor (isJson: string -> bool)
      ensures Valid() && accepted == [] && !IsFinished() && this.isJson == isJson
    {
      response, pendingUsage, terminalError, finished := Response([], false, None, None), None, None, false;
      this.isJson := isJson;
      accepted := [];
    }

    predicate IsFinished()
      reads this
    {
      finished || terminalError.Some?
    }

    /** The response is what the accepted deltas accumulate to; finishing only marks its blocks. */
    ghost predicate Valid()
      reads this
    {
      && Accepts(accepted) && response.isLast == finished
      && (!finished ==> response == Response(Accumulated(accepted), false, None, None))
      && (finished ==>
            && terminalError == None && response.reason.Some? && response.usage == pendingUsage
            && |response.content| == |Accumulated(accepted)|
            && forall i | 0 <= i < |response.content| ::
                 Finishable(Accumulated(accepted)[i], isJson)
                 && OnlyMarked(Accumulated(accepted)[i], response.content[i]))
    }

    /** Applies one event. An event that is refused changes nothing at all. */
    method Apply(event: Event) returns (r: Result<(), StreamError>)
      requires Valid()
      modifies this
      ensures Valid()
      ensures r.Err? ==> (
        && response == old(response) && pendingUsage == old(pendingUsage) && accepted == old(accepted)
        && terminalError == old(terminalError) && finished == old(finished))
      ensures old(IsFinished()) ==> r == Err(AlreadyFinished)
      ensures !old(IsFinished()) && event.Content? ==>
        && (r.Ok? <==> Accepts(old(accepted) + [event.delta]))
        && (r.Ok? ==> accepted == old(accepted) + [event.delta] && !IsFinished() && pendingUsage == old(pendingUsage))
        && (r.Err? ==> Flaw(Accumulated(old(accepted)), event.delta) == Some(r.error))
      ensures !old(IsFinished()) && event.Usage? ==>
        && r.Ok? && accepted == old(accepted) && !IsFinished()
        && pendingUsage == Some((if old(pendingUsage).Some? then old(pendingUsage).value else 0) + event.tokens)
      ensures !old(IsFinished()) && event.Finish? ==>
        && (r.Ok? <==> forall b | b in Accumulated(old(accepted)) ::
              (b.ToolCall? ==> isJson(b.input)) && (b.StructuredOutput? ==> !b.complete && isJson(b.json)))
        && accepted == old(accepted)
        && (r.Ok? ==>
              && finished && response.reason == Some(event.reason) && response.usage == old(pendingUsage)
              && |response.content| == |Accumulated(old(accepted))|
              && forall i | 0 <= i < |response.content| ::
                   var before := Accumulated(old(accepted))[i];
                   response.content[i] == if before.ToolCall? then before.(callState := CallState.Finished)
                                          else if before.StructuredOutput? then before.(complete := true)
                                          else before)
      ensures !old(IsFinished()) && event.Failure? ==>
        r.Ok? && terminalError == Some(event.error) && accepted == old(accepted) && response == old(response)
    {
      if finished || terminalError.Some? { return Err(AlreadyFinished); }
      match event {
        case Content(delta) => r := ApplyDelta(delta);
        case Usage(tokens) =>
          pendingUsage := Some((if pendingUsage.Some? then pendingUsage.value else 0) + tokens);
          return Ok(());
        case Finish(reason) =>
          var completed := FinishBlocks(response.content, isJson);
          if completed.Err? { return Err(completed.error); }
          response := Response(completed.value, true, Some(reason), pendingUsage);
          finished := true;
          return Ok(());
        case Failure(error) =>
          terminalError := Some(error);
          return Ok(());
      }
    }

    method ApplyDelta(d: Delta) returns (r: Result<(), StreamError>)
      requires Valid() && !IsFinished()
      modifies this`response, this`accepted
      ensures Valid()
      ensures r.Ok? <==> Accepts(old(accepted) + [d])
      ensures r.Ok? ==> accepted == old(accepted) + [d]
      ensures r.Err? ==> response == old(response) && accepted == old(accepted)
      ensures r.Err? ==> Flaw(Accumulated(old(accepted)), d) == Some(r.error)
    {
      FlawIffInconsistent(accepted, d);
      var edited := EditBlock(response.content, d);
      if edited.Err? { return Err(edited.error); }
      GrownIsAccumulated(accepted, d);
      response := response.(content := edited.value);
      accepted := accepted + [d];
      return Ok(());
    }

    /** The final response, only after a successful finish. */
    method IntoResponse() returns (r: Result<Response, StreamError>)
      requires Valid()
      ensures r.Ok? <==> finished
      ensures r.Ok? ==> r.value == response && r.value.isLast && r.value.reason.Some?
      ensures r.Err? ==> r.error == if terminalError.Some? then ModelFailed(terminalError.value) else NotFinished
    {
      if terminalError.Some? { return Err(ModelFailed(terminalError.value)); }
      if finished { return Ok(response); }
      return Err(NotFinished);
    }
  }
}
