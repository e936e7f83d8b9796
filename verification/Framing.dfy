/** Newline-delimited frames, read from a stream that arrives in arbitrary pieces. */
module Framing {
  import opened Messages

  const NEWLINE: Byte := 10

  datatype FrameError = LimitExceeded | Closed

  /** The position of the first newline; the length when there is none. */
  function Newline(s: seq<Byte>): (k: nat)
    ensures k <= |s|
    ensures k < |s| ==> s[k] == NEWLINE
    ensures forall i | 0 <= i < k :: s[i] != NEWLINE
  {
    if s == [] || s[0] == NEWLINE then 0 else 1 + Newline(s[1..])
  }

  /** What one read of a frame finds in the bytes still to come, however they arrive. */
  function FrameOf(s: seq<Byte>, limit: nat): (r: Result<seq<Byte>, FrameError>)
    ensures r.Ok? ==> |r.value| < |s|
  {
    var k := Newline(s);
    if k > limit then Err(LimitExceeded) else if k == |s| then Err(Closed) else Ok(s[..k])
  }

  function Flatten(pieces: seq<seq<Byte>>): seq<Byte> {
    if pieces == [] then [] else pieces[0] + Flatten(pieces[1..])
  }

  class BufReader {
    var buffer: seq<Byte>
    /** The pieces that the source has yet to deliver. */
    var pieces: seq<seq<Byte>>
    /** Every byte still to be read. */
    ghost var stream: seq<Byte>

    constructor (pieces: seq<seq<Byte>>)
      requires forall i | 0 <= i < |pieces| :: pieces[i] != []
      ensures Valid() && stream == Flatten(pieces)
    {
      buffer, this.pieces := [], pieces;
      stream := Flatten(pieces);
    }

    ghost predicate Valid()
      reads this
    {
      stream == buffer + Flatten(pieces) && forall i | 0 <= i < |pieces| :: pieces[i] != []
    }

    /** Makes some bytes available, or none at the end of the stream. */
    method FillBuf() returns (bytes: seq<Byte>)
      requires Valid()
      modifies this
      ensures Valid() && stream == old(stream) && bytes == buffer
      ensures bytes <= stream && (bytes == [] <==> stream == [])
    {
      if buffer == [] && pieces != [] {
        buffer, pieces := pieces[0], pieces[1..];
      }
      return buffer;
    }

    method Consume(count: nat)
      requires Valid() && count <= |buffer|
      modifies this
      ensures Valid() && stream == old(stream)[count..] && pieces == old(pieces)
    {
      assert (buffer + Flatten(pieces))[count..] == buffer[count..] + Flatten(pieces);
      buffer, stream := buffer[count..], stream[count..];
    }

    /**
     * Reads one frame; the result depends on the bytes and the limit only, not on the pieces. A
     * failure leaves the bytes from some point of the unfinished line on, none at the end of the stream.
     */
    method ReadFrame(limit: nat) returns (r: Result<seq<Byte>, FrameError>)
      requires Valid()
      modifies this
      ensures Valid()
      ensures r == FrameOf(old(stream), limit)
      ensures r.Ok? ==> stream == old(stream)[|r.value| + 1..]
      ensures r.Err? ==> exists line :: Reading(old(stream), line, stream, limit)
      ensures r == Err(Closed) ==> stream == []
    {
      var line: seq<Byte> := [];
      ghost var all := stream;
      var done := false;
      StartReading(all, limit);
      while !done
        invariant Valid()
        invariant if done then FrameRead(all, Ok(line), stream, limit) else Reading(all, line, stream, limit)
        decreases !done, |stream|
      {
        var failure;
        failure, line, done := ReadMore(line, limit, all);
        if failure.Some? { return Err(failure.value); }
      }
      return Ok(line);
    }

    /** Takes what the buffer offers: up to a newline, the end of the buffer, or a violation. */
    method ReadMore(line: seq<Byte>, limit: nat, ghost all: seq<Byte>)
      returns (failure: Option<FrameError>, longer: seq<Byte>, done: bool)
      requires Valid() && Reading(all, line, stream, limit)
      modifies this
      ensures Valid()
      ensures failure.Some? ==> FrameOf(all, limit) == Err(failure.value) && Reading(all, line, stream, limit)
      ensures failure == Some(Closed) ==> stream == []
      ensures failure.None? && done ==> FrameRead(all, Ok(longer), stream, limit)
      ensures failure.None? && !done ==> Reading(all, longer, stream, limit) && |stream| < |old(stream)|
    {
      var bytes := FillBuf();
      if bytes == [] {
        EndOfStream(all, line, limit);
        return Some(Closed), line, true;
      }
      var count := Newline(bytes);
      if count > limit - |line| {
        OverLimit(all, line, stream, bytes, limit);
        return Some(LimitExceeded), line, true;
      }
      MoreBytes(all, line, stream, bytes, limit);
      done := count < |bytes|;
      Consume(if done then count + 1 else count);
      return None, line + bytes[..count], done;
    }
  }

  /** The read is over, with its result and what it leaves of the stream. */
  ghost predicate FrameRead(all: seq<Byte>, r: Result<seq<Byte>, FrameError>, rest: seq<Byte>, limit: nat) {
    FrameOf(all, limit) == r && (r.Ok? ==> |r.value| < |all| && rest == all[|r.value| + 1..])
  }

  /** `line` was read without meeting a newline or the limit, and `rest` is still to come. */
  ghost predicate Reading(all: seq<Byte>, line: seq<Byte>, rest: seq<Byte>, limit: nat) {
    all == line + rest && |line| <= limit && forall i | 0 <= i < |line| :: line[i] != NEWLINE
  }

  lemma {:induction false} StartReading(all: seq<Byte>, limit: nat)
    ensures Reading(all, [], all, limit)
  {
    assert [] + all == all;
  }

  lemma {:induction false} EndOfStream(all: seq<Byte>, line: seq<Byte>, limit: nat)
    requires Reading(all, line, [], limit)
    ensures FrameOf(all, limit) == Err(Closed)
  {
    NewlineAt(all, |line|);
  }

  lemma {:induction false} OverLimit(all: seq<Byte>, line: seq<Byte>, rest: seq<Byte>, bytes: seq<Byte>, limit: nat)
    requires Reading(all, line, rest, limit) && bytes <= rest && Newline(bytes) > limit - |line|
    ensures FrameOf(all, limit) == Err(LimitExceeded)
  {
    FirstNewline(all, line, bytes, Newline(bytes));
  }

  lemma {:induction false} MoreBytes(all: seq<Byte>, line: seq<Byte>, rest: seq<Byte>, bytes: seq<Byte>, limit: nat)
    requires Reading(all, line, rest, limit) && bytes <= rest && Newline(bytes) <= limit - |line|
    ensures var count := Newline(bytes);
      var longer := line + bytes[..count];
      if count == |bytes| then Reading(all, longer, rest[count..], limit)
      else FrameRead(all, Ok(longer), rest[count + 1..], limit)
  {
    var count := Newline(bytes);
    FirstNewline(all, line, bytes, count);
    Advance(all, line, rest, bytes[..count]);
    if count < |bytes| { SkipOne(all, line + bytes[..count], rest, count); }
  }

  lemma {:induction false} Advance(all: seq<Byte>, line: seq<Byte>, rest: seq<Byte>, more: seq<Byte>)
    requires all == line + rest && more <= rest
    ensures all == (line + more) + rest[|more|..]
    ensures all[..|line + more|] == line + more
  {
    assert rest == more + rest[|more|..];
  }

  lemma {:induction false} SkipOne(all: seq<Byte>, longer: seq<Byte>, rest: seq<Byte>, count: nat)
    requires count < |rest| && all == longer + rest[count..]
    ensures rest[count + 1..] == all[|longer| + 1..]
  {
    assert all[|longer|..] == rest[count..];
  }

  /** The first newline is where there is one and none before. */
  lemma {:induction false} NewlineAt(s: seq<Byte>, k: nat)
    requires k <= |s| && (k < |s| ==> s[k] == NEWLINE)
    requires forall i | 0 <= i < k :: s[i] != NEWLINE
    ensures Newline(s) == k
  {
  }

  /** Having read `line` without a newline, the buffered bytes show how far the first one is. */
  lemma {:induction false} FirstNewline(s: seq<Byte>, line: seq<Byte>, bytes: seq<Byte>, count: nat)
    requires line + bytes <= s && count == Newline(bytes)
    requires forall i | 0 <= i < |line| :: line[i] != NEWLINE
    ensures if count < |bytes| then Newline(s) == |line| + count else Newline(s) >= |line| + count
  {
    assert forall i | 0 <= i < |line| :: s[i] == line[i];
    assert forall i | 0 <= i < |bytes| :: s[|line| + i] == bytes[i];
    assert forall i | 0 <= i < |line| + count :: s[i] == if i < |line| then line[i] else bytes[i - |line|];
    if count < |bytes| { NewlineAt(s, |line| + count); }
  }

  /** The frames of a stream up to its end or its first violation. */
  function Frames(s: seq<Byte>, limit: nat): (seq<seq<Byte>>, FrameError)
    decreases |s|
  {
    match FrameOf(s, limit)
    case Err(error) => ([], error)
    case Ok(line) =>
      var (rest, error) := Frames(s[|line| + 1..], limit);
      ([line] + rest, error)
  }

  function Framed(lines: seq<seq<Byte>>): seq<Byte> {
    if lines == [] then [] else lines[0] + [NEWLINE] + Framed(lines[1..])
  }

  ghost predicate Sendable(line: seq<Byte>, limit: nat) {
    |line| <= limit && forall i | 0 <= i < |line| :: line[i] != NEWLINE
  }

  lemma {:induction false} FirstFrame(line: seq<Byte>, tail: seq<Byte>, limit: nat)
    requires Sendable(line, limit)
    ensures FrameOf(line + [NEWLINE] + tail, limit) == Ok(line)
    ensures (line + [NEWLINE] + tail)[|line| + 1..] == tail
  {
    NewlineAt(line + [NEWLINE] + tail, |line|);
    assert (line + [NEWLINE] + tail)[..|line|] == line;
  }

  /** What is written frame by frame is read back frame by frame. */
  lemma {:induction false} FramesOfFramed(lines: seq<seq<Byte>>, limit: nat)
    requires forall i | 0 <= i < |lines| :: Sendable(lines[i], limit)
    ensures Frames(Framed(lines), limit) == (lines, Closed)
  {
    if lines != [] {
      FirstFrame(lines[0], Framed(lines[1..]), limit);
      FramesOfFramed(lines[1..], limit);
      assert [lines[0]] + lines[1..] == lines;
    }
  }

  /** The frames make up a prefix of the stream, and what follows them explains where they stop. */
  ghost predicate Splits(s: seq<Byte>, limit: nat, lines: seq<seq<Byte>>, error: FrameError) {
    && (forall i | 0 <= i < |lines| :: Sendable(lines[i], limit))
    && Framed(lines) <= s
    && var left := s[|Framed(lines)|..];
       if error == Closed then Newline(left) == |left| <= limit else Newline(left) > limit
  }

  /** Reading splits the stream at its newlines: nothing is lost, and no frame is over the limit. */
  lemma {:induction false} FramesSplit(s: seq<Byte>, limit: nat)
    ensures Splits(s, limit, Frames(s, limit).0, Frames(s, limit).1)
    decreases |s|
  {
    var frame := FrameOf(s, limit);
    if frame.Ok? {
      var tail := s[|frame.value| + 1..];
      FramesSplit(tail, limit);
      SplitsOneMore(s, limit, frame.value, Frames(tail, limit).0, Frames(tail, limit).1);
    } else {
      assert Framed([]) == [] && s[0..] == s;
    }
  }

  lemma {:induction false} SplitsOneMore(
      s: seq<Byte>, limit: nat, line: seq<Byte>, rest: seq<seq<Byte>>, error: FrameError)
    requires FrameOf(s, limit) == Ok(line) && Splits(s[|line| + 1..], limit, rest, error)
    ensures Splits(s, limit, [line] + rest, error)
  {
    var tail := s[|line| + 1..];
    assert ([line] + rest)[1..] == rest;
    FramedPrefix(s, line, Framed(rest), tail);
  }

  lemma {:induction false} FramedPrefix(s: seq<Byte>, line: seq<Byte>, framed: seq<Byte>, tail: seq<Byte>)
    requires |line| < |s| && s[..|line|] == line && s[|line|] == NEWLINE && tail == s[|line| + 1..] && framed <= tail
    ensures line + [NEWLINE] + framed <= s
    ensures s[|line + [NEWLINE] + framed|..] == tail[|framed|..]
  {
    assert tail == framed + tail[|framed|..];
    assert s == line + [NEWLINE] + framed + tail[|framed|..];
  }
}
