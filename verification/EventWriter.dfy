/** The writer task: every outbound event is redacted, then framed; what a peer reads back is just that. */
module EventWriter {
  import opened Text
  import opened Protocol
  import opened Ipc
  import R = Redactor
  import opened Redaction
  import opened RedactionProofs
  import opened RedactionTheorems

  function RedactAll(r: R.Redactor, events: seq<WorkerEvent>): seq<WorkerEvent>
    requires r.Valid()
  {
    seq(|events|, i requires 0 <= i < |events| => R.RedactEvent(r, events[i]))
  }

  lemma {:induction false} SentOneMore<T>(encode: T -> seq<Byte>, frames: seq<T>, frame: T)
    ensures Ipc.Sent(encode, frames + [frame]) == Ipc.Sent(encode, frames) + encode(frame) + [LF]
    decreases |frames|
  {
    if frames == [] {
      assert [frame][1..] == [];
      assert [] + [frame] == [frame];
    } else {
      SentOneMore(encode, frames[1..], frame);
      assert (frames + [frame])[1..] == frames[1..] + [frame];
    }
  }

  /** What the first `k` events look like on the stream. */
  function Written(r: R.Redactor, encode: WorkerEvent -> seq<Byte>, events: seq<WorkerEvent>, k: nat): seq<Byte>
    requires r.Valid() && k <= |events|
  {
    Ipc.Sent(encode, RedactAll(r, events[..k]))
  }

  lemma WrittenNone(r: R.Redactor, encode: WorkerEvent -> seq<Byte>, events: seq<WorkerEvent>)
    requires r.Valid()
    ensures Written(r, encode, events, 0) == []
  {
    hide R.Redactor.Valid;
    assert RedactAll(r, events[..0]) == [];
  }

  lemma WrittenOneMore(r: R.Redactor, encode: WorkerEvent -> seq<Byte>, events: seq<WorkerEvent>, k: nat)
    requires r.Valid() && k < |events|
    ensures Written(r, encode, events, k + 1)
              == Written(r, encode, events, k) + encode(R.RedactEvent(r, events[k])) + [10]
  {
    hide R.Redactor.Valid, R.RedactEvent, Ipc.Sent;
    SentOneMore(encode, RedactAll(r, events[..k]), R.RedactEvent(r, events[k]));
    assert RedactAll(r, events[..k + 1]) == RedactAll(r, events[..k]) + [R.RedactEvent(r, events[k])];
  }

  /** Writes events until one does not fit in a frame; `serialize` is what the serializer writes for one. */
  method WriteEvents(r: R.Redactor, w: ByteSink, serialize: WorkerEvent -> seq<seq<Byte>>, events: seq<WorkerEvent>)
    returns (count: nat)
    requires r.Valid()
    modifies w
    ensures count <= |events|
    ensures w.written == old(w.written) + Written(r, e => Flatten(serialize(e)), events, count)
    ensures forall k :: 0 <= k < count ==> |Flatten(serialize(R.RedactEvent(r, events[k])))| <= 1_048_576
    ensures count < |events| ==> |Flatten(serialize(R.RedactEvent(r, events[count])))| > 1_048_576
  {
    hide R.Redactor.Valid, R.RedactEvent, Written, Flatten, MAX_FRAME_BYTES, LF;
    ghost var encode := e => Flatten(serialize(e));
    WrittenNone(r, encode, events);
    for k := 0 to |events|
      invariant w.written == old(w.written) + Written(r, encode, events, k)
      invariant forall j :: 0 <= j < k ==> |Flatten(serialize(R.RedactEvent(r, events[j])))| <= 1_048_576
    {
      var event := R.RedactEvent(r, events[k]);
      var ok := WriteFrame(w, serialize(event));
      if !ok {
        return k;
      }
      WrittenOneMore(r, encode, events, k);
    }
    return |events|;
  }

  /** The text's redaction, with no safe secret and no credential of a known kind left in it. */
  ghost predicate Redacts(r: R.Redactor, text: string, out: string)
    requires r.Valid()
  {
    && out == R.RedactedText(r, text)
    && (forall j :: 0 <= j < |r.secrets| && Disjoint(r.secrets[j], r.replacement) ==> Absent(out, r.secrets[j]))
    && AllTokenFree(out)
    && (r.replacement == REDACTED ==> HeaderFree(out) && BearerHidden(out))
  }

  /** The same kind, identity, flag and count, and every text redacted. */
  ghost predicate RedactionOf(r: R.Redactor, event: WorkerEvent, read: WorkerEvent)
    requires r.Valid()
  {
    && R.Frame(read) == R.Frame(event)
    && |R.Texts(read)| == |R.Texts(event)|
    && forall i :: 0 <= i < |R.Texts(event)| ==> Redacts(r, R.Texts(event)[i], R.Texts(read)[i])
  }

  lemma EventRedaction(r: R.Redactor, event: WorkerEvent)
    requires r.Valid()
    ensures RedactionOf(r, event, R.RedactEvent(r, event))
  {
    hide R.Redactor.Valid, R.RedactEvent, R.RedactedText, Disjoint, Absent, AllTokenFree, HeaderFree, BearerHidden,
      R.Texts, R.Frame;
    R.RedactEventTouchesTextsOnly(r, event);
    var read := R.RedactEvent(r, event);
    forall i | 0 <= i < |R.Texts(event)| ensures Redacts(r, R.Texts(event)[i], R.Texts(read)[i]) {
      R.EventRedacted(r, event, i);
    }
  }

  /**
   * A peer that reads the stream from its start gets exactly the events, in order, and a clean end:
   * whatever their kind, with identity, flags and counts as they were and every text redacted.
   */
  lemma PeerReadsRedactedEvents(r: R.Redactor, encode: WorkerEvent -> seq<Byte>,
                                decode: seq<Byte> -> Option<WorkerEvent>,
                                events: seq<WorkerEvent>)
    requires r.Valid() && Codec(encode, decode)
    requires forall j :: 0 <= j < |events| ==> |encode(R.RedactEvent(r, events[j]))| <= 1_048_576
    ensures var read := FramesOf(decode, Written(r, encode, events, |events|));
            && read.ending.EndOfStream? && read.frames == RedactAll(r, events)
            && forall k :: 0 <= k < |events| ==> RedactionOf(r, events[k], read.frames[k])
  {
    hide R.Redactor.Valid, R.RedactEvent, RedactionOf, SplitFrame;
    var all := RedactAll(r, events);
    assert events[..|events|] == events;
    ReadsBackWhatWasSent(encode, decode, all, []);
    assert Ipc.Sent(encode, all) + [] == Ipc.Sent(encode, all);
    EmptyStream(decode);
    assert all + [] == all;
    forall k | 0 <= k < |events| ensures RedactionOf(r, events[k], all[k]) {
      EventRedaction(r, events[k]);
    }
  }

  lemma EmptyStream<T>(decode: seq<Byte> -> Option<T>)
    ensures FramesOf(decode, []) == Ipc.Transcript([], EndOfStream)
  {
  }
}
