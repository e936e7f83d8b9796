/** Offloaded texts: a content-addressed store, bounded pages of it, and the tool that reads them. */
module Paging {
  import opened Messages
  import opened Utf8

  datatype Chunk = Chunk(text: seq<Byte>, nextOffset: nat, totalBytes: nat)

  datatype OffloadError = InvalidId | Unavailable | Corrupt | InvalidLimit | InvalidOffset | InvalidText | InvalidChunk

  /** `usize` on the supported platforms. */
  const MAX_SIZE: nat := 0xFFFF_FFFF_FFFF_FFFF

  predicate IsHex(c: char) { '0' <= c <= '9' || 'a' <= c <= 'f' }

  /** Sixty-four lower-case hexadecimal digits. */
  predicate IsDigest(id: string) {
    |id| == 64 && forall i | 0 <= i < |id| :: IsHex(id[i])
  }

  /** The text that one page of `max` bytes at `offset` holds: whole characters only, as many as fit. */
  function PageEnd(text: seq<Byte>, offset: nat, max: nat): (end: nat)
    requires offset <= |text| && IsBoundary(text, offset)
    ensures offset <= end <= |text| && end - offset <= max && IsBoundary(text, end)
    ensures forall j: nat | end < j <= |text| && j - offset <= max :: !IsBoundary(text, j)
  {
    Floor(text, if offset + max <= |text| then offset + max else |text|)
  }

  class FileOffloadStore {
    var blobs: map<string, seq<Byte>>
    const digest: seq<Byte> -> string

    /** `digest` stands for SHA-256 in hexadecimal. */
    constructor (digest: seq<Byte> -> string)
      requires forall text :: IsDigest(digest(text))
      ensures this.digest == digest && blobs == map[] && Valid()
    {
      this.digest := digest;
      blobs := map[];
    }

    ghost predicate Valid()
      reads this
    {
      && (forall text :: IsDigest(digest(text)))
      && (forall id | id in blobs :: digest(blobs[id]) == id)
    }

    /** Stores a text under its digest; an identical text gets the same identifier again. */
    method Put(text: seq<Byte>) returns (r: Result<string, OffloadError>)
      requires Valid()
      modifies this
      ensures Valid()
      ensures r.Ok? ==> r.value == digest(text) && r.value in blobs && |blobs[r.value]| == |text|
      ensures r.Ok? ==> blobs == if r.value in old(blobs) then old(blobs) else old(blobs)[r.value := text]
      ensures r.Err? ==> blobs == old(blobs)
      ensures r.Ok? <==> digest(text) !in old(blobs) || |old(blobs)[digest(text)]| == |text|
      ensures r.Err? ==> r.error == Corrupt
    {
      var id := digest(text);
      if id in blobs {
        if |blobs[id]| != |text| || digest(blobs[id]) != id { return Err(Corrupt); }
      } else {
        blobs := blobs[id := text];
      }
      return Ok(id);
    }

    /** One bounded page. On a well-formed blob it succeeds exactly at character boundaries. */
    method Read(id: string, offset: nat, maxBytes: nat) returns (r: Result<Chunk, OffloadError>)
      ensures r.Ok? ==> maxBytes >= 4 && IsDigest(id) && id in blobs && offset <= |blobs[id]|
      ensures r.Ok? ==> |r.value.text| <= maxBytes
      ensures id in blobs && IsText(blobs[id]) ==>
        (r.Ok? <==> maxBytes >= 4 && IsDigest(id) && offset <= |blobs[id]| && IsBoundary(blobs[id], offset))
      ensures r.Ok? && IsText(blobs[id]) ==>
        && IsBoundary(blobs[id], offset)
        && r.value == Chunk(blobs[id][offset..PageEnd(blobs[id], offset, maxBytes)],
                            PageEnd(blobs[id], offset, maxBytes), |blobs[id]|)
      ensures r.Err? ==> r.error == if maxBytes < 4 then InvalidLimit
        else if !IsDigest(id) then InvalidId
        else if id !in blobs then Unavailable
        else if offset > |blobs[id]| then InvalidOffset else InvalidText
    {
      if maxBytes < 4 { return Err(InvalidLimit); }
      if !IsDigest(id) { return Err(InvalidId); }
      if id !in blobs { return Err(Unavailable); }
      r := ReadBlob(blobs[id], offset, maxBytes);
    }
  }

  /** Fills a buffer from `offset`, and truncates it to whole characters. */
  method ReadBlob(blob: seq<Byte>, offset: nat, maxBytes: nat) returns (r: Result<Chunk, OffloadError>)
    requires maxBytes >= 4
    ensures r.Ok? ==> offset <= |blob| && |r.value.text| <= maxBytes
    ensures r.Err? ==> r.error == if offset > |blob| then InvalidOffset else InvalidText
    ensures IsText(blob) ==> (r.Ok? <==> offset <= |blob| && IsBoundary(blob, offset))
    ensures r.Ok? && IsText(blob) ==>
      var end := PageEnd(blob, offset, maxBytes);
      r.value == Chunk(blob[offset..end], end, |blob|)
  {
    var total := |blob|;
    if offset > total { return Err(InvalidOffset); }
    var count := if maxBytes < total - offset then maxBytes else total - offset;
    var bytes := blob[offset..offset + count];
    var decoded := Decode(bytes);
    if IsText(blob) { PageStops(blob, offset, maxBytes, count); }
    if decoded.stop != AtEnd {
      if decoded.stop != Unfinished || offset + |bytes| >= total { return Err(InvalidText); }
      bytes := bytes[..decoded.upTo];
    }
    return Ok(Chunk(bytes, offset + |bytes|, total));
  }

  /** Decoding a page of a text tells exactly whether it starts, and where it last ends, at a boundary. */
  lemma {:induction false} PageDecodes(text: seq<Byte>, offset: nat, count: nat)
    requires IsText(text) && offset + count <= |text|
    ensures var d := Decode(text[offset..offset + count]);
      if IsBoundary(text, offset) then
        && d.upTo == Floor(text, offset + count) - offset
        && d.stop == (if IsBoundary(text, offset + count) then AtEnd else Unfinished)
      else count > 0 ==> d.stop == Malformed
  {
    if IsBoundary(text, offset) {
      SuffixIsText(text, offset);
      PrefixDecodes(text[offset..], count);
      assert text[offset..][..count] == text[offset..offset + count];
      FloorShifts(text, offset, count);
    } else if count > 0 {
      NoBoundaryIsMalformed(text, offset, offset + count);
    }
  }

  /** How decoding the bytes of one bounded read leads to its page. */
  lemma {:induction false} PageStops(text: seq<Byte>, offset: nat, max: nat, count: nat)
    requires IsText(text) && offset <= |text| && max >= 4
    requires count == if max < |text| - offset then max else |text| - offset
    ensures var d := Decode(text[offset..offset + count]);
      if !IsBoundary(text, offset) then d.stop == Malformed
      else if d.stop == AtEnd then PageEnd(text, offset, max) == offset + count
      else
        && d.stop == Unfinished && offset + count < |text|
        && PageEnd(text, offset, max) == offset + d.upTo
        && text[offset..offset + count][..d.upTo] == text[offset..offset + d.upTo]
  {
    PageDecodes(text, offset, count);
  }

  lemma {:induction false} FloorShifts(text: seq<Byte>, offset: nat, count: nat)
    requires offset + count <= |text| && IsBoundary(text, offset)
    ensures Floor(text, offset + count) == offset + Floor(text[offset..], count)
    ensures count > 0 ==> (IsBoundary(text[offset..], count) <==> IsBoundary(text, offset + count))
  {
    if count > 0 && !IsBoundary(text, offset + count) { FloorShifts(text, offset, count - 1); }
  }

  /** Any four bytes of a text, before its end, hold a whole character: every page makes progress. */
  lemma {:induction false} PagesProgress(text: seq<Byte>, offset: nat, max: nat)
    requires IsText(text) && offset < |text| && IsBoundary(text, offset) && max >= 4
    ensures PageEnd(text, offset, max) > offset
  {
    var count := if max < |text| - offset then max else |text| - offset;
    SuffixIsText(text, offset);
    PrefixDecodes(text[offset..], count);
    FloorShifts(text, offset, count);
    if count < 4 { assert offset + count == |text|; }
  }

  /** The pages a reader gets who follows `next_offset` to the end, whatever limits it asks for. */
  function Pages(text: seq<Byte>, offset: nat, limits: nat -> nat, k: nat): (pages: seq<seq<Byte>>)
    requires IsText(text) && offset <= |text| && IsBoundary(text, offset)
    requires forall i :: limits(i) >= 4
    decreases |text| - offset
  {
    if offset == |text| then []
    else
      PagesProgress(text, offset, limits(k));
      var end := PageEnd(text, offset, limits(k));
      [text[offset..end]] + Pages(text, end, limits, k + 1)
  }

  function Concat(pages: seq<seq<Byte>>): seq<Byte> {
    if pages == [] then [] else pages[0] + Concat(pages[1..])
  }

  /** Read to the end, the pages are the text, none is empty and none exceeds its limit. */
  lemma {:induction false} PagesRebuildText(text: seq<Byte>, offset: nat, limits: nat -> nat, k: nat)
    requires IsText(text) && offset <= |text| && IsBoundary(text, offset)
    requires forall i :: limits(i) >= 4
    ensures Concat(Pages(text, offset, limits, k)) == text[offset..]
    ensures Bounded(Pages(text, offset, limits, k), limits, k)
    decreases |text| - offset
  {
    if offset < |text| {
      PagesProgress(text, offset, limits(k));
      var end := PageEnd(text, offset, limits(k));
      BetweenBoundaries(text, offset, end);
      PagesRebuildText(text, end, limits, k + 1);
      OneMorePage(text, offset, end, Pages(text, end, limits, k + 1), limits, k);
    }
  }

  lemma {:induction false} BetweenBoundaries(text: seq<Byte>, start: nat, end: nat)
    requires IsText(text) && start <= end <= |text| && IsBoundary(text, start) && IsBoundary(text, end)
    ensures IsText(text[start..end])
  {
    PageDecodes(text, start, end - start);
  }

  ghost predicate Bounded(pages: seq<seq<Byte>>, limits: nat -> nat, k: nat) {
    forall i | 0 <= i < |pages| :: 0 < |pages[i]| <= limits(k + i) && IsText(pages[i])
  }

  lemma {:induction false} OneMorePage(
      text: seq<Byte>, offset: nat, end: nat, rest: seq<seq<Byte>>, limits: nat -> nat, k: nat)
    requires offset < end <= |text| && end - offset <= limits(k) && IsText(text[offset..end])
    requires Concat(rest) == text[end..] && Bounded(rest, limits, k + 1)
    ensures Concat([text[offset..end]] + rest) == text[offset..]
    ensures Bounded([text[offset..end]] + rest, limits, k)
  {
    var pages := [text[offset..end]] + rest;
    assert pages[1..] == rest;
    assert text[offset..end] + text[end..] == text[offset..];
    forall i | 0 <= i < |pages| ensures 0 < |pages[i]| <= limits(k + i) && IsText(pages[i]) {
      if i > 0 { assert pages[i] == rest[i - 1] && k + i == k + 1 + (i - 1); }
    }
  }

  /** The reader tool's answer; `eof` tells whether the text is exhausted. */
  datatype Answer = Answer(id: string, text: seq<Byte>, nextOffset: nat, totalBytes: nat, eof: bool)

  function AnswerAt(id: string, text: seq<Byte>, offset: nat, limit: nat): Answer
    requires offset <= |text| && IsBoundary(text, offset)
  {
    var end := PageEnd(text, offset, limit);
    Answer(id, text[offset..end], end, |text|, end == |text|)
  }

  /** Passes on a chunk from any store only if it is within the limit, and goes on where it says, within the text. */
  method PassOn(id: string, chunk: Chunk, offset: nat, limit: nat) returns (r: Result<Answer, OffloadError>)
    requires offset <= MAX_SIZE && |chunk.text| <= MAX_SIZE
    ensures r.Ok? <==>
      && |chunk.text| <= limit && chunk.nextOffset <= chunk.totalBytes
      && (offset + |chunk.text| <= MAX_SIZE ==> chunk.nextOffset == offset + |chunk.text|)
      && (offset + |chunk.text| > MAX_SIZE ==> chunk.nextOffset == MAX_SIZE)
    ensures r == if r.Ok? then Ok(Answer(id, chunk.text, chunk.nextOffset, chunk.totalBytes,
                                         chunk.nextOffset == chunk.totalBytes))
                 else Err(InvalidChunk)
  {
    var next := if |chunk.text| <= MAX_SIZE - offset then offset + |chunk.text| else MAX_SIZE;
    if |chunk.text| > limit || chunk.nextOffset != next || chunk.nextOffset > chunk.totalBytes {
      return Err(InvalidChunk);
    }
    return Ok(Answer(id, chunk.text, chunk.nextOffset, chunk.totalBytes, chunk.nextOffset == chunk.totalBytes));
  }

  /** The tool call, on arguments that are already numbers and text. */
  method ReadOffloaded(store: FileOffloadStore, readLimit: nat, id: string, offset: nat, limit: nat)
    returns (r: Result<Answer, OffloadError>)
    requires offset <= MAX_SIZE && limit <= MAX_SIZE
    requires forall key | key in store.blobs :: |store.blobs[key]| <= MAX_SIZE
    ensures r.Ok? ==> |r.value.text| <= limit && (r.value.eof <==> r.value.nextOffset == r.value.totalBytes)
    ensures id in store.blobs && IsText(store.blobs[id]) ==>
      (r.Ok? <==> 4 <= limit <= readLimit && IsDigest(id)
                  && offset <= |store.blobs[id]| && IsBoundary(store.blobs[id], offset))
    ensures r.Ok? ==> id in store.blobs
    ensures limit < 4 || limit > readLimit ==> r == Err(InvalidLimit)
    ensures 4 <= limit <= readLimit && r.Err? ==> r.error == if !IsDigest(id) then InvalidId
      else if id !in store.blobs then Unavailable
      else if offset > |store.blobs[id]| then InvalidOffset
      else if IsText(store.blobs[id]) then InvalidText else r.error
    ensures r.Ok? && IsText(store.blobs[id]) ==>
      && IsBoundary(store.blobs[id], offset)
      && r.value == AnswerAt(id, store.blobs[id], offset, limit)
  {
    if limit < 4 || limit > readLimit { return Err(InvalidLimit); }
    var page := store.Read(id, offset, limit);
    if page.Err? { return Err(page.error); }
    r := PassOn(id, page.value, offset, limit);
  }

  // --------------------------------------------------- reading to the end

  /** The answers to a reader that goes on at `nextOffset` until it is told the end. */
  function Answers(id: string, text: seq<Byte>, offset: nat, limits: nat -> nat, k: nat): seq<Answer>
    requires IsText(text) && offset <= |text| && IsBoundary(text, offset)
    requires forall i :: limits(i) >= 4
    decreases |text| - offset
  {
    var answer := AnswerAt(id, text, offset, limits(k));
    if answer.eof then [answer]
    else
      PagesProgress(text, offset, limits(k));
      [answer] + Answers(id, text, answer.nextOffset, limits, k + 1)
  }

  function Texts(answers: seq<Answer>): (texts: seq<seq<Byte>>)
    ensures |texts| == |answers| && forall i | 0 <= i < |answers| :: texts[i] == answers[i].text
  {
    if answers == [] then [] else [answers[0].text] + Texts(answers[1..])
  }

  /** The tool's answer at `at`, which ends the text if and only if it is the last. */
  ghost predicate IsAnswer(id: string, text: seq<Byte>, at: nat, limit: nat, answer: Answer, last: bool) {
    at <= |text| && IsBoundary(text, at) && answer == AnswerAt(id, text, at, limit) && (answer.eof <==> last)
  }

  /** Each answer is the tool's at the offset that the one before it gave, and only the last ends the text. */
  ghost predicate Follows(
    id: string, text: seq<Byte>, offset: nat, limits: nat -> nat, k: nat, answers: seq<Answer>)
  {
    && answers != [] && IsAnswer(id, text, offset, limits(k), answers[0], |answers| == 1)
    && forall i | 0 < i < |answers| ::
         IsAnswer(id, text, answers[i - 1].nextOffset, limits(k + i), answers[i], i == |answers| - 1)
  }

  lemma {:induction false} AnswersFollow(id: string, text: seq<Byte>, offset: nat, limits: nat -> nat, k: nat)
    requires IsText(text) && offset <= |text| && IsBoundary(text, offset)
    requires forall i :: limits(i) >= 4
    ensures Follows(id, text, offset, limits, k, Answers(id, text, offset, limits, k))
    decreases |text| - offset
  {
    var answer := AnswerAt(id, text, offset, limits(k));
    if !answer.eof {
      PagesProgress(text, offset, limits(k));
      AnswersFollow(id, text, answer.nextOffset, limits, k + 1);
      OneMoreAnswer(id, text, offset, limits, k, answer, Answers(id, text, answer.nextOffset, limits, k + 1));
    }
  }

  lemma {:induction false} OneMoreAnswer(
      id: string, text: seq<Byte>, offset: nat, limits: nat -> nat, k: nat, answer: Answer, rest: seq<Answer>)
    requires offset <= |text| && IsBoundary(text, offset)
    requires answer == AnswerAt(id, text, offset, limits(k)) && !answer.eof
    requires Follows(id, text, answer.nextOffset, limits, k + 1, rest)
    ensures Follows(id, text, offset, limits, k, [answer] + rest)
  {
    var answers := [answer] + rest;
    forall i | 0 < i < |answers|
      ensures IsAnswer(id, text, answers[i - 1].nextOffset, limits(k + i), answers[i], i == |answers| - 1)
    {
      assert answers[i] == rest[i - 1] && k + i == k + 1 + (i - 1);
      if i > 1 { assert answers[i - 1] == rest[i - 2]; }
    }
  }

  /** The pages of a reader are the texts it is answered. */
  lemma {:induction false} AnswersArePages(id: string, text: seq<Byte>, offset: nat, limits: nat -> nat, k: nat)
    requires IsText(text) && offset < |text| && IsBoundary(text, offset)
    requires forall i :: limits(i) >= 4
    ensures Texts(Answers(id, text, offset, limits, k)) == Pages(text, offset, limits, k)
    decreases |text| - offset
  {
    var answer := AnswerAt(id, text, offset, limits(k));
    PagesProgress(text, offset, limits(k));
    if !answer.eof { AnswersArePages(id, text, answer.nextOffset, limits, k + 1); }
  }

  /** Every call of such a reader is answered, and the answers are the text it started in, to its end. */
  lemma {:induction false} AnswersRebuildText(id: string, text: seq<Byte>, limits: nat -> nat)
    requires IsText(text) && forall i :: limits(i) >= 4
    ensures Follows(id, text, 0, limits, 0, Answers(id, text, 0, limits, 0))
    ensures Concat(Texts(Answers(id, text, 0, limits, 0))) == text
  {
    AnswersFollow(id, text, 0, limits, 0);
    if text == [] {
      assert Texts(Answers(id, text, 0, limits, 0)) == [text];
    } else {
      AnswersArePages(id, text, 0, limits, 0);
      PagesRebuildText(text, 0, limits, 0);
    }
  }
}
