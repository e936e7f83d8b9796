/** Replacing large tool results in the model's input by references with a short preview. */
module Offload {
  import opened Messages
  import opened Utf8
  import opened Paging

  const READER: string := "read_offloaded_text"

  datatype ProjectError = StoreFailed(reason: string) | BadId

  /** Any store's answer to a text: an identifier, or a failure. */
  type Put = seq<Byte> -> Result<string, ProjectError>

  datatype Config = Config(threshold: nat, preview: nat, readLimit: nat)

  predicate ConfigOk(c: Config) {
    c.preview + 512 <= c.threshold <= MAX_SIZE && 4 <= c.readLimit <= MAX_SIZE
  }

  /** Accepts exactly the limits that leave room for a reference, without overflowing. */
  method NewConfig(threshold: nat, preview: nat, readLimit: nat) returns (r: Option<Config>)
    requires threshold <= MAX_SIZE && preview <= MAX_SIZE && readLimit <= MAX_SIZE
    ensures r.Some? <==> ConfigOk(Config(threshold, preview, readLimit))
    ensures r.Some? <==> preview + 512 <= threshold && 4 <= readLimit
    ensures r.Some? ==> r.value.threshold == threshold && r.value.preview == preview && r.value.readLimit == readLimit
  {
    if preview + 512 > MAX_SIZE || threshold < preview + 512 || readLimit < 4 { return None; }
    return Some(Config(threshold, preview, readLimit));
  }

  predicate IsIdChar(c: char) {
    '0' <= c <= '9' || 'a' <= c <= 'z' || 'A' <= c <= 'Z' || c == '-' || c == '_'
  }

  predicate IdOk(id: string) {
    0 < |id| <= 128 && forall i | 0 <= i < |id| :: IsIdChar(id[i])
  }

  /** Identifiers are 1 to 128 characters of the codes of digits, letters, the hyphen and the underscore. */
  lemma {:induction false} IdentifierAccepted(id: string)
    ensures IdOk(id) <==> 1 <= |id| <= 128 && forall c | c in id ::
      c as int == 45 || 48 <= c as int <= 57 || 65 <= c as int <= 90 || c as int == 95 || 97 <= c as int <= 122
  {
    if IdOk(id) {
      forall c | c in id ensures IsIdChar(c) { var i :| 0 <= i < |id| && id[i] == c; }
    }
    assert forall i | 0 <= i < |id| :: id[i] in id;
  }

  lemma {:induction false} FileIdsAreAccepted(id: string)
    requires IsDigest(id)
    ensures IdOk(id)
  {
    assert forall i | 0 <= i < |id| :: IsHex(id[i]);
  }

  // ------------------------------------------------------------------- JSON

  /** The bytes of ASCII text. */
  function Ascii(s: string): (r: seq<Byte>)
    ensures |r| == |s|
  {
    if s == "" then []
    else
      var last := s[|s| - 1] as int;
      Ascii(s[..|s| - 1]) + [if last < 128 then last else 63]
  }

  function Digits(n: nat): (r: seq<Byte>)
    ensures |r| > 0
  {
    if n < 10 then [48 + n] else Digits(n / 10) + [48 + n % 10]
  }

  function HexDigit(n: nat): Byte
    requires n < 16
  {
    if n < 10 then 48 + n else 87 + n
  }

  /** One byte inside a JSON string. */
  function EscapeByte(b: Byte): (r: seq<Byte>)
    ensures 0 < |r| <= 6
  {
    match b
    case 0x22 => [0x5C, 0x22]
    case 0x5C => [0x5C, 0x5C]
    case 0x08 => [0x5C, 0x62]
    case 0x09 => [0x5C, 0x74]
    case 0x0A => [0x5C, 0x6E]
    case 0x0C => [0x5C, 0x66]
    case 0x0D => [0x5C, 0x72]
    case _ => if b < 0x20 then [0x5C, 0x75, 0x30, 0x30, HexDigit(b / 16), HexDigit(b % 16)] else [b]
  }

  function Escape(text: seq<Byte>): seq<Byte> {
    if text == [] then [] else EscapeByte(text[0]) + Escape(text[1..])
  }

  function HexValue(b: Byte): Option<nat> {
    if 48 <= b <= 57 then Some(b - 48) else if 97 <= b <= 102 then Some(b - 87) else None
  }

  /** Reads the escaped byte at the start of a JSON string, and how long its escape is. */
  function UnescapeByte(s: seq<Byte>): (r: Option<(Byte, nat)>)
    requires s != []
    ensures r.Some? ==> 0 < r.value.1 <= |s|
  {
    if s[0] == 0x22 || s[0] < 0x20 then None
    else if s[0] != 0x5C then Some((s[0], 1))
    else if |s| < 2 then None
    else match s[1]
      case 0x22 => Some((0x22, 2))
      case 0x5C => Some((0x5C, 2))
      case 0x62 => Some((0x08, 2))
      case 0x74 => Some((0x09, 2))
      case 0x6E => Some((0x0A, 2))
      case 0x66 => Some((0x0C, 2))
      case 0x72 => Some((0x0D, 2))
      case 0x75 =>
        if |s| < 6 || s[2] != 0x30 || s[3] != 0x30 || HexValue(s[4]).None? || HexValue(s[5]).None? then None
        else Some((HexValue(s[4]).value * 16 + HexValue(s[5]).value, 6))
      case _ => None
  }

  function Unescape(s: seq<Byte>): Option<seq<Byte>> {
    if s == [] then Some([])
    else match UnescapeByte(s)
      case None => None
      case Some((b, k)) =>
        match Unescape(s[k..])
        case None => None
        case Some(rest) => Some([b] + rest)
  }

  lemma {:induction false} UnescapeEscapedByte(b: Byte, rest: seq<Byte>)
    ensures UnescapeByte(EscapeByte(b) + rest) == Some((b, |EscapeByte(b)|))
  {
  }

  lemma {:induction false} UnescapeOne(b: Byte, rest: seq<Byte>)
    requires Unescape(rest).Some?
    ensures Unescape(EscapeByte(b) + rest) == Some([b] + Unescape(rest).value)
  {
    UnescapeEscapedByte(b, rest);
    assert (EscapeByte(b) + rest)[|EscapeByte(b)|..] == rest;
  }

  /** The text that a JSON string carries is the text that was escaped into it. */
  lemma {:induction false} UnescapeEscape(text: seq<Byte>)
    ensures Unescape(Escape(text)) == Some(text)
  {
    if text != [] {
      UnescapeEscape(text[1..]);
      UnescapeOne(text[0], Escape(text[1..]));
      assert [text[0]] + text[1..] == text;
    }
  }

  /** The bytes of ASCII text are its characters. */
  lemma {:induction false} AsciiIs(s: string)
    requires forall i | 0 <= i < |s| :: s[i] as int < 128
    ensures forall i | 0 <= i < |s| :: Ascii(s)[i] == s[i] as int
  {
    if s != "" { AsciiIs(s[..|s| - 1]); }
  }

  /** The number that decimal digits, most significant first, spell; None for anything else. */
  function Spelled(digits: seq<Byte>): Option<nat> {
    if digits == [] then Some(0)
    else
      var last, rest := digits[|digits| - 1], Spelled(digits[..|digits| - 1]);
      if rest.Some? && '0' as int <= last <= '9' as int then Some(rest.value * 10 + (last - '0' as int)) else None
  }

  /** A number is written in decimal, without leading zeros. */
  lemma {:induction false} DigitsSpell(n: nat)
    ensures Spelled(Digits(n)) == Some(n)
    ensures n > 0 ==> Digits(n)[0] != '0' as int
  {
    if n < 10 {
      assert Digits(n)[..0] == [];
    } else {
      DigitsSpell(n / 10);
      assert Digits(n)[..|Digits(n)| - 1] == Digits(n / 10);
    }
  }

  /** The escapes of JSON (section 7 of RFC 8259) that are used: two for syntax, five short ones, and code points. */
  lemma {:induction false} EscapesAreJson(b: Byte)
    ensures b == '\"' as int ==> EscapeByte(b) == Ascii("\\\"")
    ensures b == '\\' as int ==> EscapeByte(b) == Ascii("\\\\")
    ensures b == 8 ==> EscapeByte(b) == Ascii("\\b")
    ensures b == 9 ==> EscapeByte(b) == Ascii("\\t")
    ensures b == 10 ==> EscapeByte(b) == Ascii("\\n")
    ensures b == 12 ==> EscapeByte(b) == Ascii("\\f")
    ensures b == 13 ==> EscapeByte(b) == Ascii("\\r")
    ensures b < 32 && b !in {8, 9, 10, 12, 13} ==>
      |EscapeByte(b)| == 6 && EscapeByte(b)[..4] == Ascii("\\u00")
      && HexValue(EscapeByte(b)[4]) == Some(b / 16) && HexValue(EscapeByte(b)[5]) == Some(b % 16)
    ensures 32 <= b && b != '\"' as int && b != '\\' as int ==> EscapeByte(b) == [b]
  {
    var code := "\\u00";
    AsciiIs(code);
    assert [code[0] as int, code[1] as int, code[2] as int, code[3] as int] == [0x5C, 0x75, 0x30, 0x30];
  }

  // -------------------------------------------------------------- references

  function Quoted(content: seq<Byte>): seq<Byte> { Ascii("\"") + content + Ascii("\"") }

  function Entry(key: string, value: seq<Byte>): seq<Byte> { Ascii("\"" + key + "\":") + value }

  function Then(entry: seq<Byte>, rest: seq<Byte>): seq<Byte> { entry + (Ascii(",") + rest) }

  /** The reference object, its keys in alphabetical order. */
  function Reference(id: string, total: nat, preview: seq<Byte>, readLimit: nat): seq<Byte> {
    Ascii("{\"offloaded_text\":{")
    + Then(Entry("id", Quoted(Ascii(id))),
      Then(Entry("max_read_bytes", Digits(readLimit)),
      Then(Entry("preview", Quoted(Escape(preview))),
      Then(Entry("preview_bytes", Digits(|preview|)),
      Then(Entry("read_tool", Quoted(Ascii(READER))),
           Entry("total_bytes", Digits(total)) + Ascii("}}"))))))
  }

  /** `part` occurs in the text where an entry ends: before a comma or a brace. */
  ghost predicate EndsEntry(json: seq<Byte>, part: seq<Byte>) {
    exists before: seq<Byte>, after: seq<Byte> ::
      after != [] && after[0] as char in {',', '}'} && json == before + part + after
  }

  /** The text has an entry of that key with exactly that value. */
  ghost predicate HasEntry(json: seq<Byte>, key: string, value: seq<Byte>) {
    EndsEntry(json, Ascii("\"" + key + "\":") + value)
  }

  lemma {:induction false} EntryEnds(json: seq<Byte>, before: seq<Byte>, part: seq<Byte>, after: seq<Byte>)
    requires after != [] && after[0] as char in {',', '}'} && json == before + part + after
    ensures EndsEntry(json, part)
  {
  }

  /** What a reference tells its reader: which text, how much of it is shown, how much there is, how to read on. */
  lemma {:induction false} ReferenceTells(id: string, total: nat, preview: seq<Byte>, readLimit: nat)
    ensures var json := Reference(id, total, preview, readLimit);
      && HasEntry(json, "id", Ascii("\"") + Ascii(id) + Ascii("\""))
      && HasEntry(json, "preview", Ascii("\"") + Escape(preview) + Ascii("\""))
      && HasEntry(json, "preview_bytes", Digits(|preview|))
      && HasEntry(json, "total_bytes", Digits(total))
      && HasEntry(json, "max_read_bytes", Digits(readLimit))
      && HasEntry(json, "read_tool", Ascii("\"") + Ascii("read_offloaded_text") + Ascii("\""))
  {
    var json := Reference(id, total, preview, readLimit);
    var f := Entry("total_bytes", Digits(total)) + Ascii("}}");
    var e := Then(Entry("read_tool", Quoted(Ascii(READER))), f);
    var d := Then(Entry("preview_bytes", Digits(|preview|)), e);
    var c := Then(Entry("preview", Quoted(Escape(preview))), d);
    var b := Then(Entry("max_read_bytes", Digits(readLimit)), c);
    var at := ThenEnds(json, Ascii("{\"offloaded_text\":{"), Entry("id", Quoted(Ascii(id))), b);
    at := ThenEnds(json, at, Entry("max_read_bytes", Digits(readLimit)), c);
    at := ThenEnds(json, at, Entry("preview", Quoted(Escape(preview))), d);
    at := ThenEnds(json, at, Entry("preview_bytes", Digits(|preview|)), e);
    at := ThenEnds(json, at, Entry("read_tool", Quoted(Ascii(READER))), f);
    AsciiIs("}}");
    EntryEnds(json, at, Entry("total_bytes", Digits(total)), Ascii("}}"));
  }

  lemma {:induction false} ThenEnds(json: seq<Byte>, before: seq<Byte>, entry: seq<Byte>, rest: seq<Byte>)
    returns (next: seq<Byte>)
    requires json == before + Then(entry, rest)
    ensures EndsEntry(json, entry) && json == next + rest
  {
    AsciiIs(",");
    next := before + entry + Ascii(",");
    EntryEnds(json, before, entry, Ascii(",") + rest);
  }

  function Pow10(k: nat): (p: nat)
    ensures p > 0
  {
    if k == 0 then 1 else 10 * Pow10(k - 1)
  }

  lemma {:induction false} DigitCount(n: nat, k: nat)
    requires k > 0 && n < Pow10(k)
    ensures |Digits(n)| <= k
  {
    if n >= 10 { DigitCount(n / 10, k - 1); }
  }

  lemma {:induction false} SizesHaveTwentyDigits(n: nat)
    requires n <= MAX_SIZE
    ensures |Digits(n)| <= 20
  {
    assert Pow10(5) == 100000;
    assert Pow10(10) == 10000000000;
    assert Pow10(15) == 1000000000000000;
    assert Pow10(20) == 100000000000000000000;
    DigitCount(n, 20);
  }

  /** A reference takes at most 313 bytes besides its escaped preview. */
  lemma {:induction false} ReferenceOverhead(id: string, total: nat, preview: seq<Byte>, readLimit: nat)
    requires IdOk(id) && total <= MAX_SIZE && |preview| <= MAX_SIZE && readLimit <= MAX_SIZE
    ensures |Reference(id, total, preview, readLimit)| <= 313 + |Escape(preview)|
  {
    SizesHaveTwentyDigits(total);
    SizesHaveTwentyDigits(|preview|);
    SizesHaveTwentyDigits(readLimit);
  }

  /** The preview's end after at most finitely many halvings: the first that fits. */
  function FirstFit(c: Config, id: string, text: seq<Byte>, end: nat): (r: nat)
    requires end <= |text| && IsBoundary(text, end)
    ensures r <= end && IsBoundary(text, r)
    ensures r > 0 ==> |Reference(id, |text|, text[..r], c.readLimit)| <= c.threshold
    decreases end
  {
    if end == 0 || |Reference(id, |text|, text[..end], c.readLimit)| <= c.threshold then end
    else FirstFit(c, id, text, Floor(text, end / 2))
  }

  function Smaller(a: nat, b: nat): nat { if a < b then a else b }

  function ReferenceFor(c: Config, id: string, text: seq<Byte>): seq<Byte> {
    var end := FirstFit(c, id, text, Floor(text, Smaller(c.preview, |text|)));
    Reference(id, |text|, text[..end], c.readLimit)
  }

  /** `end` is the last boundary of the text within `within` bytes. */
  ghost predicate LastBoundary(text: seq<Byte>, within: nat, end: nat) {
    end <= within <= |text| && IsBoundary(text, end) && forall j | end < j <= within :: !IsBoundary(text, j)
  }

  ghost predicate Fits(c: Config, id: string, text: seq<Byte>, end: nat) {
    end <= |text| && |Reference(id, |text|, text[..end], c.readLimit)| <= c.threshold
  }

  /** Preview ends, each half the one before it, of which only the last may fit. */
  ghost predicate Shrinks(c: Config, id: string, text: seq<Byte>, ends: seq<nat>) {
    && ends != []
    && (forall i | 0 < i < |ends| :: LastBoundary(text, ends[i - 1] / 2, ends[i]))
    && (forall i | 0 <= i < |ends| - 1 :: ends[i] > 0 && !Fits(c, id, text, ends[i]))
    && (ends[|ends| - 1] == 0 || Fits(c, id, text, ends[|ends| - 1]))
  }

  /**
   * The preview shown is the longest within the limit, or the first of its halvings, cut to whole
   * characters, whose reference fits.
   */
  lemma {:induction false} PreviewShrinks(c: Config, id: string, text: seq<Byte>) returns (ends: seq<nat>)
    ensures Shrinks(c, id, text, ends) && ends[|ends| - 1] <= |text|
    ensures LastBoundary(text, if c.preview < |text| then c.preview else |text|, ends[0])
    ensures ReferenceFor(c, id, text) == Reference(id, |text|, text[..ends[|ends| - 1]], c.readLimit)
  {
    ends := FitShrinks(c, id, text, Floor(text, Smaller(c.preview, |text|)));
  }

  lemma {:induction false} FitShrinks(c: Config, id: string, text: seq<Byte>, end: nat) returns (ends: seq<nat>)
    requires end <= |text| && IsBoundary(text, end)
    ensures Shrinks(c, id, text, ends) && ends[0] == end && ends[|ends| - 1] == FirstFit(c, id, text, end)
    decreases end
  {
    ends := [end];
    if end > 0 && !Fits(c, id, text, end) {
      var rest := FitShrinks(c, id, text, Floor(text, end / 2));
      ShrinksMore(c, id, text, end, rest);
      ends := [end] + rest;
    }
  }

  lemma {:induction false} ShrinksMore(c: Config, id: string, text: seq<Byte>, end: nat, rest: seq<nat>)
    requires Shrinks(c, id, text, rest) && LastBoundary(text, end / 2, rest[0])
    requires end > 0 && !Fits(c, id, text, end)
    ensures Shrinks(c, id, text, [end] + rest)
  {
    var ends := [end] + rest;
    forall i | 0 < i < |ends| ensures LastBoundary(text, ends[i - 1] / 2, ends[i]) {
      if i > 1 { assert LastBoundary(text, rest[i - 1 - 1] / 2, rest[i - 1]); }
    }
    forall i | 0 <= i < |ends| - 1 ensures ends[i] > 0 && !Fits(c, id, text, ends[i]) {
      if i > 0 { assert ends[i] == rest[i - 1]; }
    }
  }

  /** Whatever a text escapes to, its reference fits, and previews whole characters of it. */
  lemma {:induction false} ReferenceFits(c: Config, id: string, text: seq<Byte>)
    requires ConfigOk(c) && IdOk(id) && IsText(text) && |text| <= MAX_SIZE
    ensures |ReferenceFor(c, id, text)| <= c.threshold
    ensures exists end: nat :: (
      && end <= |text| && end <= c.preview && IsText(text[..end])
      && ReferenceFor(c, id, text) == Reference(id, |text|, text[..end], c.readLimit))
  {
    var end := FirstFit(c, id, text, Floor(text, Smaller(c.preview, |text|)));
    ReferenceOverhead(id, |text|, text[..0], c.readLimit);
    assert text[..0] == [];
    BetweenBoundaries(text, 0, end);
    assert text[0..end] == text[..end];
  }

  /** The preview's end, found in place: shrink to a character, then halve until the reference fits. */
  method BuildReference(c: Config, id: string, text: seq<Byte>) returns (reference: seq<Byte>)
    requires ConfigOk(c) && IdOk(id) && |text| <= MAX_SIZE
    ensures reference == ReferenceFor(c, id, text)
  {
    ReferenceOverhead(id, |text|, text[..0], c.readLimit);
    assert text[..0] == [];
    var end := FloorOf(text, Smaller(c.preview, |text|));
    reference := Reference(id, |text|, text[..end], c.readLimit);
    while |reference| > c.threshold
      invariant end <= |text| && IsBoundary(text, end)
      invariant reference == Reference(id, |text|, text[..end], c.readLimit)
      invariant FirstFit(c, id, text, end) == FirstFit(c, id, text, Floor(text, Smaller(c.preview, |text|)))
      decreases end
    {
      end := FloorOf(text, end / 2);
      reference := Reference(id, |text|, text[..end], c.readLimit);
    }
  }

  method FloorOf(text: seq<Byte>, start: nat) returns (end: nat)
    requires start <= |text|
    ensures end == Floor(text, start)
  {
    end := start;
    while !IsBoundary(text, end)
      invariant end <= start && Floor(text, end) == Floor(text, start)
      decreases end
    {
      end := end - 1;
    }
  }

  // --------------------------------------------------------------- projection

  /** Large successful text results of any other tool. */
  predicate Eligible(c: Config, b: Block) {
    && b.ToolResult? && b.name != READER && b.state == Success
    && b.output.TextOutput? && |b.output.utf8| > c.threshold
  }

  function ProjectBlock(c: Config, put: Put, b: Block): Result<Block, ProjectError> {
    if !Eligible(c, b) then Ok(b)
    else match put(b.output.utf8)
      case Err(error) => Err(error)
      case Ok(id) =>
        if !IdOk(id) then Err(BadId) else Ok(b.(output := TextOutput(ReferenceFor(c, id, b.output.utf8))))
  }

  /** Texts in memory are well formed and no longer than an address. */
  predicate TextOk(b: Block) {
    b.ToolResult? && b.output.TextOutput? ==> IsText(b.output.utf8) && |b.output.utf8| <= MAX_SIZE
  }

  /** Only the output of an eligible result changes, and then it fits. */
  lemma {:induction false} ProjectionIsBounded(c: Config, put: Put, b: Block)
    requires ConfigOk(c) && TextOk(b) && ProjectBlock(c, put, b).Ok?
    ensures var after := ProjectBlock(c, put, b).value;
      var large := b.ToolResult? && b.name != "read_offloaded_text" && b.state == ResultState.Success
        && b.output.TextOutput? && |b.output.utf8| > c.threshold;
      && (!large ==> after == b)
      && (large ==>
            && after.ToolResult? && after.id == b.id && after.name == b.name && after.state == b.state
            && after.output.TextOutput? && |after.output.utf8| <= c.threshold)
  {
    if Eligible(c, b) { ReferenceFits(c, put(b.output.utf8).value, b.output.utf8); }
  }

  /** A projection fails exactly for a large result that the store refuses, or names unacceptably. */
  lemma {:induction false} ProjectionRefuses(c: Config, put: Put, b: Block)
    ensures var large := b.ToolResult? && b.name != "read_offloaded_text" && b.state == ResultState.Success
        && b.output.TextOutput? && |b.output.utf8| > c.threshold;
      && (ProjectBlock(c, put, b).Err? <==> large && (put(b.output.utf8).Err? || !IdOk(put(b.output.utf8).value)))
      && (ProjectBlock(c, put, b).Err? ==>
            ProjectBlock(c, put, b).error
            == if put(b.output.utf8).Err? then put(b.output.utf8).error else BadId)
  {
  }

  /** Projecting again changes nothing, whichever store it goes to: references are never offloaded. */
  lemma {:induction false} ProjectingTwiceIsOnce(c: Config, put: Put, again: Put, b: Block)
    requires ConfigOk(c) && TextOk(b) && ProjectBlock(c, put, b).Ok?
    ensures ProjectBlock(c, again, ProjectBlock(c, put, b).value) == ProjectBlock(c, put, b)
  {
    ProjectionIsBounded(c, put, b);
  }

  ghost predicate SameBut(before: Msg, after: Msg) {
    after.id == before.id && after.name == before.name && after.role == before.role
    && |after.content| == |before.content|
  }

  /** The first `k` blocks are projected, the others untouched. */
  ghost predicate ProjectedTo(c: Config, put: Put, before: Msg, after: Msg, k: nat) {
    && SameBut(before, after)
    && (forall j | 0 <= j < |before.content| && j < k ::
          ProjectBlock(c, put, before.content[j]) == Ok(after.content[j]))
    && (forall j | k <= j < |before.content| :: after.content[j] == before.content[j])
  }

  /** One block; a block that stays as it is is not rewritten. */
  method ProjectOne(c: Config, put: Put, block: Block) returns (r: Result<Block, ProjectError>)
    requires ConfigOk(c) && TextOk(block)
    ensures r == ProjectBlock(c, put, block)
  {
    if !block.ToolResult? || block.name == READER || block.state != Success { return Ok(block); }
    if !block.output.TextOutput? || |block.output.utf8| <= c.threshold { return Ok(block); }
    var stored := put(block.output.utf8);
    if stored.Err? { return Err(stored.error); }
    if !IdOk(stored.value) { return Err(BadId); }
    var reference := BuildReference(c, stored.value, block.output.utf8);
    return Ok(block.(output := TextOutput(reference)));
  }

  /** Projects the blocks in turn, up to the first that fails at `stopped`. */
  method ProjectMessage(c: Config, put: Put, before: Msg)
    returns (failure: Option<ProjectError>, message: Msg, stopped: nat)
    requires ConfigOk(c) && forall b | b in before.content :: TextOk(b)
    ensures stopped <= |before.content| && ProjectedTo(c, put, before, message, stopped)
    ensures failure.None? ==> stopped == |before.content|
    ensures failure.Some? ==>
      stopped < |before.content| && ProjectBlock(c, put, before.content[stopped]) == Err(failure.value)
  {
    message := before;
    for k := 0 to |before.content|
      invariant ProjectedTo(c, put, before, message, k)
    {
      assert message.content[k] == before.content[k] && before.content[k] in before.content;
      var projected := ProjectOne(c, put, message.content[k]);
      if projected.Err? { return Some(projected.error), message, k; }
      message := message.(content := message.content[k := projected.value]);
    }
    return None, message, |before.content|;
  }

  ghost predicate Projected(c: Config, put: Put, before: Msg, after: Msg) {
    ProjectedTo(c, put, before, after, |before.content|)
  }

  /**
   * Projects the messages in turn, up to the first failing block, which is block `at` of message
   * `stopped`; that block and all later ones stay as they were.
   */
  method Project(c: Config, put: Put, before: seq<Msg>)
    returns (failure: Option<ProjectError>, messages: seq<Msg>, stopped: nat, at: nat)
    requires ConfigOk(c) && forall i | 0 <= i < |before| :: forall b | b in before[i].content :: TextOk(b)
    ensures |messages| == |before| && stopped <= |before|
    ensures forall i | 0 <= i < stopped :: Projected(c, put, before[i], messages[i])
    ensures forall i | stopped < i < |before| :: messages[i] == before[i]
    ensures failure.None? ==> stopped == |before|
    ensures failure.Some? ==>
      && stopped < |before| && at < |before[stopped].content|
      && ProjectedTo(c, put, before[stopped], messages[stopped], at)
      && ProjectBlock(c, put, before[stopped].content[at]) == Err(failure.value)
  {
    messages := before;
    for k := 0 to |before|
      invariant |messages| == |before|
      invariant forall i | 0 <= i < k :: Projected(c, put, before[i], messages[i])
      invariant forall i | k <= i < |before| :: messages[i] == before[i]
    {
      var message;
      failure, message, at := ProjectMessage(c, put, before[k]);
      messages := messages[k := message];
      if failure.Some? { return failure, messages, k, at; }
    }
    return None, messages, |before|, 0;
  }

  // ------------------------------------------------------------- round trip

  /** Two different texts of one digest: the only way to lose a text. */
  ghost predicate Collides(digest: seq<Byte> -> string, blobs: map<string, seq<Byte>>, text: seq<Byte>) {
    digest(text) in blobs && blobs[digest(text)] != text
  }

  /** A reader of `id` that follows the offsets it is given, with limits the tool accepts, reads `text`. */
  ghost predicate ReadsBack(c: Config, blobs: map<string, seq<Byte>>, id: string, text: seq<Byte>) {
    && IsDigest(id) && id in blobs && IsText(blobs[id])
    && forall limits: nat -> nat | (forall i :: 4 <= limits(i) <= c.readLimit) ::
         && Follows(id, blobs[id], 0, limits, 0, Answers(id, blobs[id], 0, limits, 0))
         && Concat(Texts(Answers(id, blobs[id], 0, limits, 0))) == text
  }

  lemma {:induction false} StoredTextReadsBack(c: Config, blobs: map<string, seq<Byte>>, id: string)
    requires ConfigOk(c) && IsDigest(id) && id in blobs && IsText(blobs[id])
    ensures ReadsBack(c, blobs, id, blobs[id])
    ensures forall text :: ReadsBack(c, blobs, id, text) ==> text == blobs[id]
  {
    var four := (i: nat) => 4;
    AnswersRebuildText(id, blobs[id], four);
    forall limits: nat -> nat | forall i :: 4 <= limits(i) <= c.readLimit
      ensures Follows(id, blobs[id], 0, limits, 0, Answers(id, blobs[id], 0, limits, 0))
      ensures Concat(Texts(Answers(id, blobs[id], 0, limits, 0))) == blobs[id]
    {
      AnswersRebuildText(id, blobs[id], limits);
    }
  }

  /** What projecting a large result into a store of files promises its reader. */
  ghost predicate Offloaded(
    c: Config, digest: seq<Byte> -> string, blobs: map<string, seq<Byte>>, before: Block, after: Block)
    requires before.ToolResult? && before.output.TextOutput?
  {
    var text := before.output.utf8;
    && IdOk(digest(text)) && after == before.(output := TextOutput(ReferenceFor(c, digest(text), text)))
    && ReadsBack(c, blobs, digest(text), text)
  }

  /**
   * Projects one block into a store of files: its reference names a text that reads back, to the
   * byte, as the output it replaced, if and only if the store holds no other text of that digest.
   */
  method ProjectInto(store: FileOffloadStore, c: Config, block: Block) returns (r: Result<Block, ProjectError>)
    requires store.Valid() && ConfigOk(c) && TextOk(block)
    modifies store
    ensures store.Valid()
    ensures forall id | id in old(store.blobs) :: id in store.blobs && store.blobs[id] == old(store.blobs)[id]
    ensures !Eligible(c, block) ==> r == Ok(block) && store.blobs == old(store.blobs)
    ensures Eligible(c, block) ==>
      (!Collides(store.digest, old(store.blobs), block.output.utf8)
       <==> r.Ok? && Offloaded(c, store.digest, store.blobs, block, r.value))
    ensures Eligible(c, block) && r.Err? ==> Collides(store.digest, store.blobs, block.output.utf8)
  {
    if !Eligible(c, block) { return Ok(block); }
    var text := block.output.utf8;
    var id := store.Put(text);
    FileIdsAreAccepted(store.digest(text));
    if id.Ok? && IsText(store.blobs[id.value]) { StoredTextReadsBack(c, store.blobs, id.value); }
    r := ProjectOne(c, (stored: seq<Byte>) => if id.Ok? then Ok(id.value) else Err(StoreFailed("corrupt")), block);
  }
}
