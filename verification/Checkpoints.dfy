/** Revisioned pipeline checkpoints, their compare-and-swap store, and the stage handoff. */
module Checkpoints {
  import opened Messages

  const VERSION: nat := 1
  const MAX_REVISION: nat := 0xFFFF_FFFF_FFFF_FFFF

  datatype Status = Ready | InFlight | Finished

  /** One completed stage; `step` is one-based. */
  datatype Step = Step(step: nat, agentName: string, message: Msg)

  datatype PipelineOutput = PipelineOutput(message: Msg, steps: seq<Step>)

  datatype Checkpoint = Checkpoint(
    version: nat, names: seq<string>, completed: seq<Step>, nextInput: Msg, status: Status)

  datatype Record = Record(revision: nat, checkpoint: Checkpoint)

  datatype StoreError = Conflict | RevisionOverflow | Unavailable

  function Revision(actual: Option<Record>): Option<nat> {
    match actual case None => None case Some(record) => Some(record.revision)
  }

  /** What one save commits over `actual`, or why it commits nothing. */
  function Cas(actual: Option<Record>, expected: Option<nat>, checkpoint: Checkpoint): Result<Record, StoreError> {
    var current := if actual.Some? then actual.value.revision else 0;
    if Revision(actual) != expected then Err(Conflict)
    else if current >= MAX_REVISION then Err(RevisionOverflow)
    else Ok(Record(current + 1, checkpoint))
  }

  /** The process-local store: a map that every save and load locks. */
  class InMemoryPipelineStore {
    var records: map<nat, Record>

    constructor ()
      ensures records == map[]
    {
      records := map[];
    }

    function Get(key: nat): Option<Record>
      reads this
    {
      if key in records then Some(records[key]) else None
    }

    method Load(key: nat) returns (record: Option<Record>)
      ensures record == Get(key)
    {
      return Get(key);
    }

    /** Commits exactly when `expected` is the revision found; touches no other key. */
    method Save(key: nat, expected: Option<nat>, checkpoint: Checkpoint) returns (r: Result<Record, StoreError>)
      modifies this
      ensures r == Cas(old(Get(key)), expected, checkpoint)
      ensures records == if r.Ok? then old(records)[key := r.value] else old(records)
    {
      var actual: Option<nat> := if key in records then Some(records[key].revision) else None;
      if actual != expected { return Err(Conflict); }
      var current := if actual.Some? then actual.value else 0;
      if current >= MAX_REVISION { return Err(RevisionOverflow); }
      var record := Record(current + 1, checkpoint);
      records := records[key := record];
      return Ok(record);
    }
  }

  /** A save through a store that may fail, or commit without its caller learning of it. */
  method TrySave(
    store: InMemoryPipelineStore, key: nat, expected: Option<nat>, checkpoint: Checkpoint, fault: Fault)
    returns (r: Result<Record, StoreError>)
    modifies store
    ensures var saved := Cas(old(store.Get(key)), expected, checkpoint);
      && store.records
         == (if saved.Ok? && !fault.NotCommitted? then old(store.records)[key := saved.value] else old(store.records))
      && r == (if fault.NotCommitted? || (fault.AckLost? && saved.Ok?) then Err(Unavailable) else saved)
  {
    if fault.NotCommitted? { return Err(Unavailable); }
    r := store.Save(key, expected, checkpoint);
    if fault.AckLost? && r.Ok? { return Err(Unavailable); }
  }

  /** The completed steps are the first stages, in order, under their configured names. */
  predicate StepsMatch(completed: seq<Step>, names: seq<string>) {
    && |completed| <= |names|
    && forall i | 0 <= i < |completed| :: completed[i].step == i + 1 && completed[i].agentName == names[i]
  }

  /** The check that resume and reconcile make before trusting a loaded checkpoint. */
  predicate IsUsable(checkpoint: Checkpoint, names: seq<string>, status: Status) {
    && checkpoint.version == VERSION && checkpoint.names == names && checkpoint.status == status
    && |checkpoint.completed| < |names| && StepsMatch(checkpoint.completed, names)
  }

  /**
   * What is trusted: the known format, this very pipeline, the wanted status, a stage left to run, and
   * before it every stage once, in order, under its name.
   */
  lemma {:induction false} UsableCheckpoint(checkpoint: Checkpoint, names: seq<string>, status: Status)
    ensures IsUsable(checkpoint, names, status) <==>
      && checkpoint.version == 1 && checkpoint.names == names && checkpoint.status == status
      && |checkpoint.completed| + 1 <= |names|
      && forall i | 0 <= i < |checkpoint.completed| ::
           checkpoint.completed[i] == Step(i + 1, names[i], checkpoint.completed[i].message)
  {
  }

  /** The committed output of a finished run, if the checkpoint is structurally complete. */
  function FinishedOutput(checkpoint: Checkpoint): Option<PipelineOutput> {
    if checkpoint.status != Status.Finished || |checkpoint.completed| != |checkpoint.names|
       || !StepsMatch(checkpoint.completed, checkpoint.names) || checkpoint.completed == [] then None
    else Some(PipelineOutput(checkpoint.completed[|checkpoint.completed| - 1].message, checkpoint.completed))
  }

  // ------------------------------------------------------------- handoff

  datatype HandoffError = UnsupportedContent | NoVisibleText

  /** The text blocks of a reply in order, or None when it holds anything but text and thinking. */
  function VisibleTexts(content: seq<Block>): Option<seq<string>> {
    if content == [] then Some([])
    else
      var last := |content| - 1;
      match VisibleTexts(content[..last])
      case None => None
      case Some(texts) =>
        if content[last].Text? then Some(texts + [content[last].text])
        else if content[last].Thinking? then Some(texts)
        else None
  }

  function Join(texts: seq<string>): string {
    if texts == [] then ""
    else if |texts| == 1 then texts[0]
    else Join(texts[..|texts| - 1]) + "\n" + texts[|texts| - 1]
  }

  /** The visible text of a reply, blank or not; None when it holds anything but text and thinking. */
  function TextOf(content: seq<Block>): Option<string> {
    match VisibleTexts(content) case None => None case Some(texts) => Some(Join(texts))
  }

  /** The next stage's input: a user message carrying only the visible text of the reply. */
  function HandoffOf(source: string, message: Msg): Result<Msg, HandoffError> {
    match TextOf(message.content)
    case None => Err(UnsupportedContent)
    case Some(text) => if IsBlank(text) then Err(NoVisibleText) else Ok(Msg("", source, User, [Text("", text)]))
  }

  lemma {:induction false} TextsAreThere(content: seq<Block>)
    requires VisibleTexts(content).Some?
    ensures VisibleTexts(content).value != [] <==> exists b :: b in content && b.Text?
  {
    if content != [] {
      TextsAreThere(content[..|content| - 1]);
      assert content[|content| - 1] in content;
    }
  }

  /** The visible text, block by block: texts in order, one line break between any two, nothing else. */
  lemma {:induction false} TextOfAppended(content: seq<Block>, b: Block)
    ensures TextOf([]) == Some("")
    ensures b.Text? ==>
      TextOf(content + [b])
      == (if TextOf(content).None? then None
          else if exists t :: t in content && t.Text? then Some(TextOf(content).value + "\n" + b.text)
          else Some(b.text))
    ensures b.Thinking? ==> TextOf(content + [b]) == TextOf(content)
    ensures !b.Text? && !b.Thinking? ==> TextOf(content + [b]) == None
  {
    assert (content + [b])[..|content|] == content;
    if VisibleTexts(content).Some? {
      TextsAreThere(content);
      var texts := VisibleTexts(content).value;
      if b.Text? { assert (texts + [b.text])[..|texts|] == texts; }
    }
  }

  /** What is handed off: one message of the user's role, in the source's name, with one block of that text. */
  lemma {:induction false} HandoffCarries(source: string, message: Msg)
    requires HandoffOf(source, message).Ok?
    ensures var next := HandoffOf(source, message).value;
      && next.role == User && next.name == source && |next.content| == 1 && next.content[0].Text?
      && TextOf(message.content) == Some(next.content[0].text) && !IsBlank(next.content[0].text)
  {
  }

  lemma {:induction false} HiddenContentStays(content: seq<Block>, k: nat)
    requires k <= |content|
    ensures VisibleTexts(content[..k]).None? ==> VisibleTexts(content).None?
  {
    if k == |content| {
      assert content[..k] == content;
    } else {
      HiddenContentStays(content[..|content| - 1], k);
      assert content[..|content| - 1][..k] == content[..k];
    }
  }

  method Handoff(source: string, message: Msg) returns (r: Result<Msg, HandoffError>)
    ensures r == HandoffOf(source, message)
  {
    var content := message.content;
    var texts: seq<string> := [];
    for k := 0 to |content|
      invariant VisibleTexts(content[..k]) == Some(texts)
    {
      assert content[..k + 1][..k] == content[..k];
      HiddenContentStays(content, k + 1);
      match content[k]
      case Text(_, text) => texts := texts + [text];
      case Thinking(_, _) =>
      case _ => return Err(UnsupportedContent);
    }
    assert content[..|content|] == content;
    var text := Join(texts);
    if IsBlank(text) { return Err(NoVisibleText); }
    return Ok(Msg("", source, User, [Text("", text)]));
  }

  /**
   * A handoff succeeds exactly on replies of text and thinking with some visible character, and is
   * refused for what else the reply holds before it is refused for showing nothing.
   */
  lemma {:induction false} HandoffAccepts(source: string, message: Msg)
    ensures HandoffOf(source, message) == Err(UnsupportedContent) <==>
      exists b | b in message.content :: !b.Text? && !b.Thinking?
    ensures HandoffOf(source, message).Ok? <==>
      && (forall b | b in message.content :: b.Text? || b.Thinking?)
      && (exists b | b in message.content :: b.Text? && !IsBlank(b.text))
  {
    TextsVisible(message.content);
  }

  lemma {:induction false} TextsVisible(content: seq<Block>)
    ensures VisibleTexts(content).Some? <==> forall b | b in content :: b.Text? || b.Thinking?
    ensures VisibleTexts(content).Some? ==>
      (IsBlank(Join(VisibleTexts(content).value)) <==> forall b | b in content && b.Text? :: IsBlank(b.text))
  {
    if content != [] {
      var init, last := content[..|content| - 1], content[|content| - 1];
      TextsVisible(init);
      assert forall b :: b in content <==> b in init || b == last;
      if VisibleTexts(content).Some? && last.Text? {
        JoinBlank(VisibleTexts(init).value, last.text);
      }
    }
  }

  lemma {:induction false} JoinBlank(texts: seq<string>, text: string)
    ensures IsBlank(Join(texts + [text])) <==> IsBlank(Join(texts)) && IsBlank(text)
  {
    assert (texts + [text])[..|texts|] == texts;
    if texts != [] {
      var joined := Join(texts) + "\n" + text;
      assert Join(texts + [text]) == joined;
      forall c ensures c in joined <==> c in Join(texts) || c == '\n' || c in text { }
    }
  }
}
