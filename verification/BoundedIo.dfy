/** crates/daemon/src/bounded_io.rs: one newline-terminated frame, bounded in size and time. */
module BoundedIo {
  import opened Text
  import opened Utf8

  const MAX_REQUEST_BYTES := 64 * 1024
  const READ_BUFFER_BYTES := 8 * 1024

  datatype ReadError = UnexpectedEof | InvalidData | TimedOut | ReadFailed

  // ---------------------------------------------------------------- specification

  function FirstLf(bytes: seq<byte>): (i: nat)
    requires LF in bytes
    ensures i < |bytes| && bytes[i] == LF && LF !in bytes[..i]
  {
    if bytes[0] == LF then 0
    else
      var i := 1 + FirstLf(bytes[1..]);
      assert bytes[..i] == [bytes[0]] + bytes[1..][..i - 1];
      i
  }

  function Head(data: seq<byte>, maxBytes: nat): seq<byte>
  {
    if |data| <= maxBytes then data else data[..maxBytes]
  }

  /** What a reader of at most `maxBytes` makes of a whole byte stream: the bytes through
      the first newline if it lies within the limit, an error otherwise. */
  function FrameOf(data: seq<byte>, maxBytes: nat): Result<seq<byte>, ReadError>
  {
    var head := Head(data, maxBytes);
    if LF in head then
      var frame := head[..FirstLf(head) + 1];
      if IsUtf8(frame) then Ok(frame) else Err(InvalidData)
    else if data == [] then Err(UnexpectedEof)
    else Err(InvalidData)
  }

  /** The same on a connection that may break: `severed` tells that the peer's bytes end in
      an error and not in an end of stream. The error only shows if the frame needed more. */
  function Received(data: seq<byte>, maxBytes: nat, severed: bool): Result<seq<byte>, ReadError>
  {
    if severed && LF !in Head(data, maxBytes) && |data| < maxBytes then Err(ReadFailed) else FrameOf(data, maxBytes)
  }

  // ---------------------------------------------------------------- the reader

  /** A peer's bytes. `cut` decides how much each read hands over; after the last one comes
      the end of the stream, or an error when the connection is severed. */
  class Stream {
    const data: seq<byte>
    const cut: nat -> nat
    const severed: bool
    var position: nat
    var readCount: nat

    constructor (data: seq<byte>, cut: nat -> nat, severed: bool)
      ensures this.data == data && this.cut == cut && this.severed == severed && position == 0 && readCount == 0
    {
      this.data := data;
      this.cut := cut;
      this.severed := severed;
      position := 0;
      readCount := 0;
    }

    /** At least one byte while the peer has some; never more than asked for. */
    method Read(limit: nat) returns (chunk: Option<seq<byte>>)
      requires position <= |data| && limit > 0
      modifies this
      ensures old(position) <= position <= |data|
      ensures chunk.None? <==> old(position) == |data| && severed
      ensures chunk.Some? ==> chunk.value == data[old(position)..position] && |chunk.value| <= limit
      ensures chunk == Some([]) <==> old(position) == |data| && !severed
    {
      if position == |data| && severed { return None; }
      var available := if limit <= |data| - position then limit else |data| - position;
      var offered := if cut(readCount) == 0 then 1 else cut(readCount);
      var size := if offered <= available then offered else available;
      chunk := Some(data[position..position + size]);
      position := position + size;
      readCount := readCount + 1;
    }
  }

  /** A deadline, as the number of clock readings that still fall before it. */
  class Deadline {
    var ticks: nat

    constructor (ticks: nat)
      ensures this.ticks == ticks
    {
      this.ticks := ticks;
    }

    method Elapsed() returns (elapsed: bool)
      modifies this
      ensures elapsed <==> old(ticks) == 0
      ensures ticks == if elapsed then 0 else old(ticks) - 1
    {
      if ticks == 0 { return true; }
      ticks := ticks - 1;
      elapsed := false;
    }
  }

  method Position(chunk: seq<byte>) returns (found: Option<nat>)
    ensures found == if LF in chunk then Some(FirstLf(chunk)) else None
  {
    for i := 0 to |chunk|
      invariant LF !in chunk[..i]
    {
      if chunk[i] == LF {
        FirstLfIsFirst(chunk, i);
        return Some(i);
      }
      assert chunk[..i + 1] == chunk[..i] + [chunk[i]];
    }
    assert chunk[..|chunk|] == chunk;
    found := None;
  }

  method ReadFrame(stream: Stream, maxBytes: nat, deadline: Deadline) returns (result: Result<seq<byte>, ReadError>)
    requires maxBytes > 0 && stream.position == 0
    modifies stream, deadline
    ensures stream.position <= |stream.data| && stream.position <= maxBytes
    ensures result == Received(stream.data, maxBytes, stream.severed) || (result == Err(TimedOut) && deadline.ticks == 0)
    ensures old(deadline.ticks) == 0 ==> result == Err(TimedOut)
    ensures old(deadline.ticks) >= 2 * maxBytes ==> result == Received(stream.data, maxBytes, stream.severed)
  {
    hide IsUtf8, FrameOf, FirstLf;
    var frame: seq<byte> := [];
    while true
      invariant stream.position <= |stream.data|
      invariant frame == stream.data[..stream.position] && |frame| < maxBytes
      invariant LF !in frame
      invariant deadline.ticks + 2 * |frame| >= old(deadline.ticks)
      invariant old(deadline.ticks) == 0 ==> deadline.ticks == 0
      decreases maxBytes - |frame|
    {
      var elapsed := deadline.Elapsed();
      if elapsed { return Err(TimedOut); }
      var limit := if READ_BUFFER_BYTES <= maxBytes - |frame| then READ_BUFFER_BYTES else maxBytes - |frame|;
      var read := stream.Read(limit);
      if read.None? { return Err(ReadFailed); }
      var chunk := read.value;
      elapsed := deadline.Elapsed();
      if elapsed { return Err(TimedOut); }
      if chunk == [] {
        EndWithoutNewline(stream.data, maxBytes);
        return Err(if frame == [] then UnexpectedEof else InvalidData);
      }
      assert frame + chunk == stream.data[..stream.position];
      var newline := Position(chunk);
      if newline.Some? {
        var whole := frame + chunk[..newline.value + 1];
        NewlineInChunk(stream.data, maxBytes, frame, chunk);
        NewlineInHead(stream.data, maxBytes, stream.position);
        return if IsUtf8(whole) then Ok(whole) else Err(InvalidData);
      }
      frame := frame + chunk;
      if |frame| == maxBytes {
        FullWithoutNewline(stream.data, maxBytes);
        return Err(InvalidData);
      }
    }
  }

  // ---------------------------------------------------------------- lemmas

  lemma FirstLfIsFirst(bytes: seq<byte>, i: nat)
    requires i < |bytes| && bytes[i] == LF && LF !in bytes[..i]
    ensures FirstLf(bytes) == i
  {
  }

  lemma EndWithoutNewline(data: seq<byte>, maxBytes: nat)
    requires |data| < maxBytes && LF !in data
    ensures FrameOf(data, maxBytes) == Err(if data == [] then UnexpectedEof else InvalidData)
  {
  }

  lemma FullWithoutNewline(data: seq<byte>, maxBytes: nat)
    requires 0 < maxBytes <= |data| && LF !in data[..maxBytes]
    ensures FrameOf(data, maxBytes) == Err(InvalidData)
  {
  }

  lemma NewlineInChunk(data: seq<byte>, maxBytes: nat, frame: seq<byte>, chunk: seq<byte>)
    requires |frame + chunk| <= maxBytes && frame + chunk <= data
    requires LF !in frame && LF in chunk
    ensures var whole := frame + chunk[..FirstLf(chunk) + 1];
            FrameOf(data, maxBytes) == if IsUtf8(whole) then Ok(whole) else Err(InvalidData)
  {
    hide IsUtf8;
    var head := Head(data, maxBytes);
    var i := |frame| + FirstLf(chunk);
    var whole := frame + chunk[..FirstLf(chunk) + 1];
    assert head[..|frame + chunk|] == frame + chunk;
    assert head[i] == (frame + chunk)[i] == LF;
    assert head[..i] == frame + chunk[..FirstLf(chunk)];
    assert LF in head;
    FirstLfIsFirst(head, i);
    assert head[..i + 1] == whole;
  }

  lemma NewlineInHead(data: seq<byte>, maxBytes: nat, position: nat)
    requires position <= |data| && position <= maxBytes && LF in data[..position]
    ensures LF in Head(data, maxBytes)
  {
    var i :| 0 <= i < position && data[i] == LF;
    assert Head(data, maxBytes)[i] == LF;
  }

  /** A connection that breaks after a complete frame makes no difference. */
  lemma CompleteFramesAreReceived(data: seq<byte>, maxBytes: nat, severed: bool)
    ensures FrameOf(data, maxBytes).Ok? ==> Received(data, maxBytes, severed) == FrameOf(data, maxBytes)
    ensures Received(data, maxBytes, severed).Ok? ==> FrameOf(data, maxBytes) == Received(data, maxBytes, severed)
  {
    hide IsUtf8, FirstLf;
  }

  /** What a frame is: the shortest prefix that ends in LF, if it fits the limit and is text. */
  lemma FrameIff(data: seq<byte>, maxBytes: nat, frame: seq<byte>)
    ensures FrameOf(data, maxBytes) == Ok(frame)
       <==> frame <= data && 0 < |frame| <= maxBytes && frame[|frame| - 1] == 10 && 10 !in frame[..|frame| - 1] && IsUtf8(frame)
  {
    hide IsUtf8;
    var head := Head(data, maxBytes);
    if frame <= data && 0 < |frame| <= maxBytes && frame[|frame| - 1] == 10 && 10 !in frame[..|frame| - 1] {
      assert head[..|frame|] == frame;
      assert head[|frame| - 1] == frame[|frame| - 1];
      assert head[..|frame| - 1] == frame[..|frame| - 1];
      FirstLfIsFirst(head, |frame| - 1);
    }
    if LF in head {
      var i := FirstLf(head);
      assert head[..i + 1][..i] == head[..i];
    }
  }

  /** And why there is none: nothing came at all; or no newline within the limit; or no text. */
  lemma FrameErrors(data: seq<byte>, maxBytes: nat)
    requires FrameOf(data, maxBytes).Err?
    ensures FrameOf(data, maxBytes).error == if data == [] then UnexpectedEof else InvalidData
    ensures data == [] || (forall i :: 0 <= i < |data| && i < maxBytes ==> data[i] != 10)
            || exists i :: 0 <= i < |data| && i < maxBytes && data[i] == 10 && 10 !in data[..i] && !IsUtf8(data[..i + 1])
  {
    hide IsUtf8;
    var head := Head(data, maxBytes);
    if LF in head {
      var i := FirstLf(head);
      assert head[..i] == data[..i] && head[..i + 1] == data[..i + 1] && data[i] == 10;
    } else {
      forall i | 0 <= i < |data| && i < maxBytes ensures data[i] != 10 { assert head[i] == data[i]; }
    }
  }

  /** A broken connection shows only when what arrived decides nothing: no newline, and fewer
      bytes than the limit. */
  lemma ReadFailsIff(data: seq<byte>, maxBytes: nat, severed: bool)
    ensures Received(data, maxBytes, severed) == Err(ReadFailed) <==> severed && |data| < maxBytes && 10 !in data
    ensures Received(data, maxBytes, severed) != Err(ReadFailed)
            ==> Received(data, maxBytes, severed) == FrameOf(data, maxBytes)
    ensures MAX_REQUEST_BYTES == 65536
  {
    hide IsUtf8;
  }

  // ---------------------------------------------------------------- the client's side

  predicate EndsWithLf(request: string)
  {
    request != "" && request[|request| - 1] == '\n'
  }

  /** What a client sends for a request; nothing when it refuses the size. */
  function ClientBytes(request: string): Option<seq<byte>>
  {
    var needsNewline := !EndsWithLf(request);
    if |Encode(request)| > MAX_REQUEST_BYTES - (if needsNewline then 1 else 0) then None
    else Some(Encode(request) + if needsNewline then [LF] else [])
  }

  /** The request without its final newline. */
  function Body(request: string): string
  {
    if EndsWithLf(request) then request[..|request| - 1] else request
  }

  lemma LineBytes(line: string)
    ensures Encode(line + "\n") == Encode(line) + [LF]
  {
    EncodeConcat(line, "\n");
    assert Encode("\n") == [LF] by { assert "\n"[1..] == ""; assert EncodeChar('\n') == [LF]; }
  }

  lemma ClientBytesAreOneLine(request: string)
    requires ClientBytes(request).Some?
    ensures ClientBytes(request).value == Encode(Body(request) + "\n") == Encode(Body(request)) + [LF]
  {
    LineBytes(Body(request));
    if EndsWithLf(request) {
      assert request == Body(request) + "\n";
      assert Encode(request) + [] == Encode(request);
    }
  }

  /** A request is refused exactly when its one line would be longer than the limit. */
  lemma ClientAcceptsIff(request: string)
    ensures ClientBytes(request).Some? <==> |Encode(Body(request) + "\n")| <= 65536
  {
    hide Encode;
    LineBytes(Body(request));
    if EndsWithLf(request) { assert request == Body(request) + "\n"; }
  }

  /** One line within the limit is one frame, whatever follows. */
  lemma LineIsFrame(line: string, tail: seq<byte>)
    requires '\n' !in line && |Encode(line + "\n")| <= MAX_REQUEST_BYTES
    ensures FrameOf(Encode(line + "\n") + tail, MAX_REQUEST_BYTES) == Ok(Encode(line + "\n"))
  {
    hide Encode, IsUtf8, FrameOf;
    LineBytes(line);
    EncodeHasLf(line);
    EncodeIsUtf8(line + "\n");
    var bytes := Encode(line + "\n");
    assert bytes[..|bytes| - 1] == Encode(line);
    FirstLfIsFirst(bytes, |bytes| - 1);
    NewlineInChunk(bytes + tail, MAX_REQUEST_BYTES, [], bytes);
    assert [] + bytes[..|bytes|] == bytes;
  }

  /** Every request the client accepts and that has no inner newline reaches the server
      byte for byte, whatever is sent behind it. */
  lemma AcceptedRequestsArrive(request: string, tail: seq<byte>)
    requires ClientBytes(request).Some? && '\n' !in Body(request)
    ensures FrameOf(ClientBytes(request).value + tail, MAX_REQUEST_BYTES) == Ok(ClientBytes(request).value)
  {
    ClientBytesAreOneLine(request);
    LineIsFrame(Body(request), tail);
  }

  /** An inner newline ends the frame: the server sees the first line only. */
  lemma InnerNewlineCutsRequest(line: string, rest: string, tail: seq<byte>)
    requires '\n' !in line && |Encode(line)| < MAX_REQUEST_BYTES
    ensures FrameOf(Encode(line + "\n" + rest) + tail, MAX_REQUEST_BYTES) == Ok(Encode(line + "\n"))
  {
    hide Encode, FrameOf;
    LineBytes(line);
    EncodeConcat(line + "\n", rest);
    LineIsFrame(line, Encode(rest) + tail);
    assert Encode(line + "\n") + Encode(rest) + tail == Encode(line + "\n") + (Encode(rest) + tail);
  }
}
