/** Newline-delimited frames over a byte stream: a bounded incremental reader and a capped writer. */
module Ipc {
  import opened Text

  newtype Byte = b: int | 0 <= b < 256

  const LF: Byte := 10
  const MAX_FRAME_BYTES: nat := 1024 * 1024

  datatype FrameError = TooLarge | MissingDelimiter | Malformed

  function Flatten(chunks: seq<seq<Byte>>): seq<Byte> {
    if chunks == [] then [] else chunks[0] + Flatten(chunks[1..])
  }

  // ---------------------------------------------------------------- one frame of a whole stream

  /** Where the first line feed is, or the end of the stream. */
  function LineEnd(stream: seq<Byte>): (n: nat)
    ensures n <= |stream| && LF !in stream[..n]
    ensures n < |stream| ==> stream[n] == LF
  {
    if stream == [] || stream[0] == LF then 0
    else
      var n := LineEnd(stream[1..]);
      assert stream[..n + 1] == [stream[0]] + stream[1..][..n];
      n + 1
  }

  datatype Split = Closed | Line(payload: seq<Byte>, rest: seq<Byte>) | Broken(error: FrameError)

  /** The stream cut at its first line feed, with the size bound applied to what comes before it. */
  function SplitFrame(stream: seq<Byte>): (s: Split)
    ensures s.Line? ==> |s.rest| < |stream|
  {
    var n := LineEnd(stream);
    if stream == [] then Closed
    else if n > MAX_FRAME_BYTES then Broken(TooLarge)
    else if n == |stream| then Broken(MissingDelimiter)
    else Line(stream[..n], stream[n + 1..])
  }

  datatype Outcome<+T> = EndOfStream | Frame(value: T) | Failed(error: FrameError)

  function Parsed<T>(decode: seq<Byte> -> Option<T>, split: Split): Outcome<T> {
    match split
    case Closed => EndOfStream
    case Broken(error) => Failed(error)
    case Line(payload, _) =>
      match decode(payload)
      case Some(value) => Frame(value)
      case None => Failed(Malformed)
  }

  lemma NoLfBefore(stream: seq<Byte>, n: nat)
    requires n <= |stream| && LF !in stream[..n]
    ensures forall i :: 0 <= i < n ==> stream[i] != LF
  {
    forall i | 0 <= i < n ensures stream[i] != LF {
      assert stream[..n][i] in stream[..n];
    }
  }

  lemma LineEndIs(stream: seq<Byte>, n: nat)
    requires n <= |stream| && LF !in stream[..n] && (n < |stream| ==> stream[n] == LF)
    ensures LineEnd(stream) == n
  {
    NoLfBefore(stream, n);
    NoLfBefore(stream, LineEnd(stream));
  }

  lemma SplitAt(stream: seq<Byte>, n: nat)
    requires n <= |stream| && stream != [] && LF !in stream[..n] && (n < |stream| ==> stream[n] == LF)
    ensures SplitFrame(stream) ==
            if n > MAX_FRAME_BYTES then Broken(TooLarge)
            else if n == |stream| then Broken(MissingDelimiter)
            else Line(stream[..n], stream[n + 1..])
  {
    hide LineEnd;
    LineEndIs(stream, n);
  }

  /** The stream ends after a line feed free `payload`. */
  lemma StreamEnds(payload: seq<Byte>)
    requires LF !in payload && |payload| <= MAX_FRAME_BYTES
    ensures SplitFrame(payload) == if payload == [] then Closed else Broken(MissingDelimiter)
  {
    hide LineEnd;
    if payload != [] {
      assert payload[..|payload|] == payload;
      SplitAt(payload, |payload|);
    }
  }

  /** A chunk with a line feed in it, after a line feed free `payload`. */
  lemma ChunkEndsLine(payload: seq<Byte>, available: seq<Byte>, rest: seq<Byte>)
    requires LF !in payload && LineEnd(available) < |available|
    ensures var pos := LineEnd(available);
            SplitFrame(payload + (available + rest)) ==
            if |payload| + pos > MAX_FRAME_BYTES then Broken(TooLarge)
            else Line(payload + available[..pos], (available + rest)[pos + 1..])
  {
    hide LineEnd, SplitFrame;
    var stream, pos := payload + (available + rest), LineEnd(available);
    var n := |payload| + pos;
    assert stream[..n] == payload + available[..pos];
    assert stream[n] == available[pos];
    assert stream[n + 1..] == (available + rest)[pos + 1..];
    SplitAt(stream, n);
  }

  /** A chunk without one. */
  lemma ChunkGoesOn(payload: seq<Byte>, available: seq<Byte>, rest: seq<Byte>)
    requires LF !in payload && LineEnd(available) == |available| > 0
    ensures LF !in payload + available
    ensures |payload| + |available| > MAX_FRAME_BYTES ==> SplitFrame(payload + (available + rest)) == Broken(TooLarge)
  {
    hide LineEnd;
    var stream, n := payload + (available + rest), |payload| + |available|;
    assert available[..|available|] == available;
    assert stream[..n] == payload + available;
    NoLfBefore(stream, n);
    assert n <= LineEnd(stream);
  }

  // ---------------------------------------------------------------- the buffered reader

  /** A buffered reader: `incoming` is how the rest of the stream will happen to arrive. */
  class ByteSource {
    var buffered: seq<Byte>
    var incoming: seq<seq<Byte>>

    ghost predicate Valid()
      reads this
    {
      forall k :: 0 <= k < |incoming| ==> incoming[k] != []
    }

    ghost function Remaining(): seq<Byte>
      reads this
    {
      buffered + Flatten(incoming)
    }

    constructor (chunks: seq<seq<Byte>>)
      requires forall k :: 0 <= k < |chunks| ==> chunks[k] != []
      ensures Valid() && Remaining() == Flatten(chunks)
    {
      buffered, incoming := [], chunks;
    }

    /** Whatever is buffered, fetching the next chunk if nothing is; empty only at the end of the stream. */
    method FillBuf() returns (available: seq<Byte>)
      requires Valid()
      modifies this
      ensures Valid() && Remaining() == old(Remaining())
      ensures available == buffered && available <= Remaining()
      ensures available == [] <==> Remaining() == []
    {
      if buffered == [] && incoming != [] {
        buffered, incoming := incoming[0], incoming[1..];
      }
      available := buffered;
    }

    method Consume(n: nat)
      requires Valid() && n <= |buffered|
      modifies this
      ensures Valid() && Remaining() == old(Remaining())[n..]
    {
      buffered := buffered[n..];
    }
  }

  /** A line as read, before it is decoded. */
  datatype RawLine = NoLine | Payload(bytes: seq<Byte>) | BadLine(error: FrameError)

  /** However the stream is chunked, the line is that of cutting the whole stream at its first line feed. */
  ghost predicate ReadsSplit(line: RawLine, before: seq<Byte>, after: seq<Byte>) {
    match SplitFrame(before)
    case Closed => line == NoLine && after == before
    case Line(payload, rest) => line == Payload(payload) && after == rest
    case Broken(error) => line == BadLine(error) && |before| <= |after| + MAX_FRAME_BYTES
  }

  method ReadLine(r: ByteSource) returns (line: RawLine)
    requires r.Valid()
    modifies r
    ensures r.Valid() && ReadsSplit(line, old(r.Remaining()), r.Remaining())
  {
    hide LineEnd, Flatten, ByteSource.Remaining, SplitFrame, MAX_FRAME_BYTES, LF;
    ghost var stream := r.Remaining();
    var payload: seq<Byte> := [];
    while true
      invariant r.Valid() && payload + r.Remaining() == stream
      invariant LF !in payload && |payload| <= MAX_FRAME_BYTES
      decreases |r.Remaining()|
    {
      var available := r.FillBuf();
      if available == [] {
        assert payload == stream;
        StreamEnds(payload);
        return if payload == [] then NoLine else BadLine(MissingDelimiter);
      }
      var pos := LineEnd(available);
      ghost var rest := r.Remaining()[|available|..];
      assert r.Remaining() == available + rest;
      if pos < |available| {
        ChunkEndsLine(payload, available, rest);
        if pos > MAX_FRAME_BYTES - |payload| {
          return BadLine(TooLarge);
        }
        r.Consume(pos + 1);
        return Payload(payload + available[..pos]);
      }
      ChunkGoesOn(payload, available, rest);
      if |available| > MAX_FRAME_BYTES - |payload| {
        return BadLine(TooLarge);
      }
      payload := payload + available;
      r.Consume(|available|);
    }
  }

  /** A frame consumes its line and delimiter; a failure has copied no more than the bound. */
  method ReadFrame<T>(r: ByteSource, decode: seq<Byte> -> Option<T>) returns (outcome: Outcome<T>)
    requires r.Valid()
    modifies r
    ensures r.Valid()
    ensures outcome == Parsed(decode, SplitFrame(old(r.Remaining())))
    ensures match SplitFrame(old(r.Remaining()))
            case Line(_, rest) => r.Remaining() == rest
            case _ => |old(r.Remaining())| <= |r.Remaining()| + MAX_FRAME_BYTES
  {
    hide SplitFrame, ByteSource.Remaining;
    var line := ReadLine(r);
    outcome := match line
               case NoLine => EndOfStream
               case BadLine(error) => Failed(error)
               case Payload(bytes) =>
                 match decode(bytes)
                 case Some(value) => Frame(value)
                 case None => Failed(Malformed);
  }

  // ---------------------------------------------------------------- a whole stream of frames

  datatype Transcript<+T> = Transcript(frames: seq<T>, ending: Outcome<T>)

  /** All the frames a reader gets out of a stream, and what ended it. */
  function FramesOf<T>(decode: seq<Byte> -> Option<T>, stream: seq<Byte>): Transcript<T>
    decreases |stream|
  {
    var split := SplitFrame(stream);
    match Parsed(decode, split)
    case Frame(value) =>
      var later := FramesOf(decode, split.rest);
      Transcript([value] + later.frames, later.ending)
    case ending => Transcript([], ending)
  }

  /** The command reader task: forwards frames until the stream closes or a frame fails. */
  method ReadCommands<T>(r: ByteSource, decode: seq<Byte> -> Option<T>) returns (transcript: Transcript<T>)
    requires r.Valid()
    modifies r
    ensures transcript == FramesOf(decode, old(r.Remaining()))
  {
    hide SplitFrame, Flatten, ByteSource.Remaining;
    var forwarded: seq<T> := [];
    while true
      invariant r.Valid()
      invariant var later := FramesOf(decode, r.Remaining());
                FramesOf(decode, old(r.Remaining())) == Transcript(forwarded + later.frames, later.ending)
      decreases |r.Remaining()|
    {
      var outcome := ReadFrame(r, decode);
      if !outcome.Frame? {
        return Transcript(forwarded, outcome);
      }
      forwarded := forwarded + [outcome.value];
    }
  }

  // ---------------------------------------------------------------- the capped writer

  class CappedBuffer {
    var bytes: seq<Byte>
    const limit: nat

    constructor (limit: nat)
      ensures this.limit == limit && bytes == []
    {
      this.limit := limit;
      bytes := [];
    }

    method Write(input: seq<Byte>) returns (ok: bool)
      requires |bytes| <= limit
      modifies this
      ensures |bytes| <= limit
      ensures ok <==> |old(bytes)| + |input| <= limit
      ensures bytes == if ok then old(bytes) + input else old(bytes)
    {
      if |input| > limit - |bytes| {
        return false;
      }
      bytes := bytes + input;
      return true;
    }
  }

  class ByteSink {
    var written: seq<Byte>

    method WriteAll(bytes: seq<Byte>)
      modifies this
      ensures written == old(written) + bytes
    {
      written := written + bytes;
    }
  }

  lemma {:induction false} FlattenTake(pieces: seq<seq<Byte>>, k: nat)
    requires k < |pieces|
    ensures Flatten(pieces[..k + 1]) == Flatten(pieces[..k]) + pieces[k]
    ensures |Flatten(pieces[..k + 1])| <= |Flatten(pieces)|
  {
    if k == 0 {
      assert pieces[..1] == [pieces[0]] && pieces[..1][1..] == [];
    } else {
      FlattenTake(pieces[1..], k - 1);
      assert pieces[..k + 1][1..] == pieces[1..][..k] && pieces[..k][1..] == pieces[1..][..k - 1];
    }
  }

  /** `pieces` is what the serializer writes, piece by piece. Nothing reaches the sink unless it all fits. */
  method WriteFrame(w: ByteSink, pieces: seq<seq<Byte>>) returns (ok: bool)
    modifies w
    ensures ok <==> |Flatten(pieces)| <= 1_048_576
    ensures w.written == if ok then old(w.written) + Flatten(pieces) + [10] else old(w.written)
  {
    var line := new CappedBuffer(MAX_FRAME_BYTES);
    for k := 0 to |pieces|
      invariant fresh(line) && w.written == old(w.written) && line.limit == MAX_FRAME_BYTES
      invariant line.bytes == Flatten(pieces[..k]) && |line.bytes| <= MAX_FRAME_BYTES
    {
      FlattenTake(pieces, k);
      var fits := line.Write(pieces[k]);
      if !fits {
        return false;
      }
    }
    assert pieces[..|pieces|] == pieces;
    w.WriteAll(line.bytes);
    w.WriteAll([LF]);
    return true;
  }

  // ---------------------------------------------------------------- round trip

  /** What the JSON codec provides: compact text has no raw line feed, and parses back. */
  ghost predicate Codec<T(!new)>(encode: T -> seq<Byte>, decode: seq<Byte> -> Option<T>) {
    forall t :: LF !in encode(t) && decode(encode(t)) == Some(t)
  }

  function Sent<T>(encode: T -> seq<Byte>, frames: seq<T>): seq<Byte> {
    if frames == [] then [] else encode(frames[0]) + [LF] + Sent(encode, frames[1..])
  }

  lemma OneFrameRead<T>(decode: seq<Byte> -> Option<T>, payload: seq<Byte>, rest: seq<Byte>)
    requires LF !in payload && |payload| <= MAX_FRAME_BYTES && decode(payload).Some?
    ensures var later := FramesOf(decode, rest);
            FramesOf(decode, payload + [LF] + rest) == Transcript([decode(payload).value] + later.frames, later.ending)
  {
    hide SplitFrame;
    var stream := payload + [LF] + rest;
    assert stream[..|payload|] == payload && stream[|payload| + 1..] == rest;
    SplitAt(stream, |payload|);
  }

  /** Frames within the bound come back exactly, in order, followed by whatever the rest gives. */
  lemma {:induction false} ReadsBackWhatWasSent<T(!new)>(
      encode: T -> seq<Byte>, decode: seq<Byte> -> Option<T>, frames: seq<T>, rest: seq<Byte>)
    requires Codec(encode, decode)
    requires forall k :: 0 <= k < |frames| ==> |encode(frames[k])| <= MAX_FRAME_BYTES
    ensures var later := FramesOf(decode, rest);
            FramesOf(decode, Sent(encode, frames) + rest) == Transcript(frames + later.frames, later.ending)
    decreases |frames|
  {
    hide FramesOf;
    if frames == [] {
      assert Sent(encode, frames) + rest == rest;
    } else {
      var payload, tail := encode(frames[0]), Sent(encode, frames[1..]) + rest;
      assert Sent(encode, frames) + rest == payload + [LF] + tail;
      OneFrameRead(decode, payload, tail);
      ReadsBackWhatWasSent(encode, decode, frames[1..], rest);
      assert frames == [frames[0]] + frames[1..];
    }
  }

  /**
   * How a stream ends behind good frames: `last` runs up to the next line feed, or to the end. Whatever
   * is wrong with it, the frames before it are delivered, and nothing after it is.
   */
  lemma StreamEndsWith<T(!new)>(encode: T -> seq<Byte>, decode: seq<Byte> -> Option<T>, frames: seq<T>,
                                last: seq<Byte>, rest: seq<Byte>)
    requires Codec(encode, decode) && forall k :: 0 <= k < |frames| ==> |encode(frames[k])| <= 1_048_576
    requires (10 as Byte) !in last && (rest != [] ==> rest[0] == 10)
    requires rest == [] || |last| > 1_048_576 || decode(last).None?
    ensures FramesOf(decode, Sent(encode, frames) + (last + rest)) ==
            Transcript(frames,
                       if last + rest == [] then EndOfStream
                       else if |last| > 1_048_576 then Failed(TooLarge)
                       else if rest == [] then Failed(MissingDelimiter)
                       else Failed(Malformed))
  {
    hide FramesOf, Sent;
    ReadsBackWhatWasSent(encode, decode, frames, last + rest);
    LastLine(decode, last, rest);
    assert frames + [] == frames;
  }

  lemma LastLine<T>(decode: seq<Byte> -> Option<T>, last: seq<Byte>, rest: seq<Byte>)
    requires (10 as Byte) !in last && (rest != [] ==> rest[0] == 10)
    requires rest == [] || |last| > 1_048_576 || decode(last).None?
    ensures FramesOf(decode, last + rest) ==
            Transcript([],
                       if last + rest == [] then EndOfStream
                       else if |last| > 1_048_576 then Failed(TooLarge)
                       else if rest == [] then Failed(MissingDelimiter)
                       else Failed(Malformed))
  {
    hide SplitFrame;
    var stream := last + rest;
    if stream != [] {
      assert stream[..|last|] == last;
      SplitAt(stream, |last|);
    } else {
      NothingLeft();
    }
  }

  lemma NothingLeft()
    ensures SplitFrame([]) == Closed
  {
  }

  function Lines(payloads: seq<seq<Byte>>): seq<Byte> {
    if payloads == [] then [] else payloads[0] + [LF] + Lines(payloads[1..])
  }

  /** A session that ends with the stream has read every byte of it: the stream is those lines. */
  lemma {:induction false} NothingSkipped<T>(decode: seq<Byte> -> Option<T>, stream: seq<Byte>)
    returns (payloads: seq<seq<Byte>>)
    requires FramesOf(decode, stream).ending.EndOfStream?
    ensures stream == Lines(payloads) && |payloads| == |FramesOf(decode, stream).frames|
    ensures forall k :: 0 <= k < |payloads| ==>
              && LF !in payloads[k] && |payloads[k]| <= MAX_FRAME_BYTES
              && decode(payloads[k]) == Some(FramesOf(decode, stream).frames[k])
    decreases |stream|
  {
    hide SplitFrame, LineEnd;
    SplitIs(stream);
    match SplitFrame(stream)
    case Closed => payloads := [];
    case Line(payload, rest) =>
      var later := NothingSkipped(decode, rest);
      payloads := [payload] + later;
      assert payloads[1..] == later;
  }

  lemma SplitIs(stream: seq<Byte>)
    ensures match SplitFrame(stream)
            case Closed => stream == []
            case Line(payload, rest) =>
              stream == payload + [LF] + rest && LF !in payload && |payload| <= MAX_FRAME_BYTES
            case Broken(_) => stream != []
  {
    var n := LineEnd(stream);
    if n < |stream| {
      assert stream == stream[..n] + [LF] + stream[n + 1..];
    }
  }
}
