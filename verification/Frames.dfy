/**
 Control frames of src/protocol.rs: one message is a big-endian length and a payload, written and read
 through an encrypted stream by futures that may be suspended at every poll.
 */
module Frames {
  import opened Bytes
  import opened Wire
  import opened Noise

  const MAX_FRAME_SIZE: nat := 64 * 1024

  predicate ValidFrameLength(length: nat) {
    0 < length <= MAX_FRAME_SIZE
  }

  ghost predicate AllPayloads(payloads: seq<seq<byte>>) {
    forall i :: 0 <= i < |payloads| ==> ValidFrameLength(|payloads[i]|)
  }

  function ControlFrame(payload: seq<byte>): seq<byte>
    requires ValidFrameLength(|payload|)
  {
    ToU32(|payload|) + payload
  }

  ghost function ControlFrames(payloads: seq<seq<byte>>): seq<byte>
    requires AllPayloads(payloads)
  {
    if payloads == [] then [] else ControlFrame(payloads[0]) + ControlFrames(payloads[1..])
  }

  // ---------------------------------------------------------------- frames are self-delimiting

  lemma {:induction false} ControlFramesSnoc(payloads: seq<seq<byte>>, p: seq<byte>)
    requires AllPayloads(payloads) && ValidFrameLength(|p|)
    ensures AllPayloads(payloads + [p])
    ensures ControlFrames(payloads + [p]) == ControlFrames(payloads) + ControlFrame(p)
  {
    if payloads == [] {
      assert payloads + [p] == [p];
      assert ControlFrames([p]) == ControlFrame(p) + ControlFrames([]);
    } else {
      ControlFramesSnoc(payloads[1..], p);
      assert (payloads + [p])[1..] == payloads[1..] + [p];
    }
  }

  lemma SameFirstFrame(p: seq<byte>, a: seq<byte>, q: seq<byte>, b: seq<byte>)
    requires ValidFrameLength(|p|) && ValidFrameLength(|q|)
    requires ControlFrame(p) + a <= ControlFrame(q) + b
    ensures p == q && a <= b
  {
    var left, right := ControlFrame(p) + a, ControlFrame(q) + b;
    assert left[..4] == ToU32(|p|) && right[..4] == ToU32(|q|);
    assert left[..4] == right[..4];
    U32RoundTrip(|p|);
    U32RoundTrip(|q|);
    assert left[4..4 + |p|] == p && right[4..4 + |q|] == q;
    assert left[4 + |p|..] == a && right[4 + |q|..] == b;
  }

  /** A byte stream that starts like a list of frames starts with those frames, whatever follows the frames. */
  lemma {:induction false} FramesThenData(read: seq<seq<byte>>, partial: seq<byte>, written: seq<seq<byte>>, data: seq<byte>)
    requires AllPayloads(read) && AllPayloads(written) && |read| <= |written|
    requires ControlFrames(read) + partial <= ControlFrames(written) + data
    ensures read <= written && partial <= ControlFrames(written[|read|..]) + data
    decreases |read|
  {
    if read == [] {
      assert ControlFrames(read) + partial == partial;
      assert written[0..] == written;
    } else {
      assert ControlFrames(read) + partial == ControlFrame(read[0]) + (ControlFrames(read[1..]) + partial);
      assert ControlFrames(written) + data == ControlFrame(written[0]) + (ControlFrames(written[1..]) + data);
      SameFirstFrame(read[0], ControlFrames(read[1..]) + partial, written[0], ControlFrames(written[1..]) + data);
      FramesThenData(read[1..], partial, written[1..], data);
      assert written[1..][|read| - 1..] == written[|read|..];
      assert read == [read[0]] + read[1..] && written == [written[0]] + written[1..];
    }
  }

  /** With nothing behind the frames written, no more frames can have been read. */
  lemma {:induction false} NoMoreFrames(read: seq<seq<byte>>, written: seq<seq<byte>>)
    requires AllPayloads(read) && AllPayloads(written) && ControlFrames(read) <= ControlFrames(written)
    ensures |read| <= |written|
    decreases |read|
  {
    if read != [] {
      assert |ControlFrame(read[0])| >= 5;
      assert written != [];
      SameFirstFrame(read[0], ControlFrames(read[1..]), written[0], ControlFrames(written[1..]));
      NoMoreFrames(read[1..], written[1..]);
    }
  }

  lemma FramesPrefix(read: seq<seq<byte>>, partial: seq<byte>, written: seq<seq<byte>>)
    requires AllPayloads(read) && AllPayloads(written)
    requires ControlFrames(read) + partial <= ControlFrames(written)
    ensures read <= written && partial <= ControlFrames(written[|read|..])
  {
    hide ControlFrames;
    assert ControlFrames(read) <= ControlFrames(read) + partial;
    NoMoreFrames(read, written);
    assert ControlFrames(written) + [] == ControlFrames(written);
    FramesThenData(read, partial, written, []);
    assert ControlFrames(written[|read|..]) + [] == ControlFrames(written[|read|..]);
  }

  // ---------------------------------------------------------------- the two futures

  datatype FrameError = InvalidFrame(length: nat) | UnexpectedEof | Io(error: IoError)
  datatype FrameRead = FramePending | FrameDone(payload: seq<byte>) | FrameFailed(error: FrameError)
  datatype FrameWrite = WriteSuspended | WriteDone | WriteBroken(error: IoError)

  lemma SliceJoin(part: seq<byte>, start: nat, middle: nat, count: nat)
    requires start <= middle && middle + count <= |part|
    ensures part[start..middle] + part[middle..][..count] == part[start..middle + count]
  {
    assert part[middle..][..count] == part[middle..middle + count];
  }

  lemma HeaderAdvances(base: seq<byte>, header: seq<byte>, start: nat, sent: nat, payload: seq<byte>,
                       before: seq<byte>, after: seq<byte>)
    requires start <= sent <= |header|
    requires before == base + (header[..start] + payload[..0]) && after == before + header[start..sent]
    ensures after == base + (header[..sent] + payload[..0])
    ensures header[..start] + payload[..0] <= header[..sent] + payload[..0]
  {
    assert header[..start] + header[start..sent] == header[..sent];
  }

  lemma PayloadAdvances(base: seq<byte>, header: seq<byte>, payload: seq<byte>, start: nat, sent: nat,
                        before: seq<byte>, after: seq<byte>)
    requires start <= sent <= |payload|
    requires before == base + (header[..|header|] + payload[..start]) && after == before + payload[start..sent]
    ensures after == base + (header[..|header|] + payload[..sent])
    ensures header[..|header|] + payload[..start] <= header[..|header|] + payload[..sent]
  {
    assert payload[..start] + payload[start..sent] == payload[..sent];
  }

  /** Enough polls of a willing transport, and enough nonces, for `count` more bytes of plaintext. */
  ghost predicate Ample(events: seq<WriteEvent>, nonce: nat, count: nat) {
    Willing(events) && |events| >= WIRE_FACTOR * count && nonce + count <= MAX_NONCE
  }

  /** One write poll of `write_all`: a count is for bytes at the front of what is left. */
  method WriteSome(stream: NoiseStream, rest: seq<byte>) returns (poll: WritePoll)
    requires stream.WriteValid() && stream.InFlight() <= rest && rest != []
    modifies stream`pendingWrite, stream`chunks, stream`sendNonce
    modifies stream.inner`writeEvents, stream.inner`sent, stream.inner`lastWrite, stream.inner`lastOffer,
             stream.inner`lastClaim
    ensures stream.WriteValid() && old(stream.inner.sent) <= stream.inner.sent
    ensures match poll
            case WriteReady(count) =>
              && 1 <= count <= |rest| && stream.InFlight() <= rest[count..]
              && stream.Accepted() == old(stream.Accepted()) + rest[..count]
            case WritePending =>
              stream.InFlight() <= rest && stream.Accepted() == old(stream.Accepted()) && stream.inner.lastWrite == InnerPending
            case WriteFailed(error) =>
              && stream.InFlight() <= rest && stream.Accepted() == old(stream.Accepted()) && BrokenBy(stream, error)
              && (error == NoiseFailure || |stream.inner.writeEvents| < |old(stream.inner.writeEvents)|)
    ensures |stream.inner.writeEvents| <= |old(stream.inner.writeEvents)|
    ensures Willing(old(stream.inner.writeEvents)) ==> Willing(stream.inner.writeEvents)
    ensures Ample(old(stream.inner.writeEvents), old(stream.sendNonce), |rest|) ==>
      && poll.WriteReady? && stream.sendNonce <= old(stream.sendNonce) + poll.count
      && |stream.inner.writeEvents| >= |old(stream.inner.writeEvents)| - WIRE_FACTOR * poll.count
  {
    NextCostBound(stream, rest);
    hide SentAs;
    hide Willing;
    hide NoiseStream.WriteValid;
    hide NoiseStream.Accepted;
    hide NoiseStream.NextCost;
    poll := stream.PollWrite(rest);
  }

  lemma AmpleLeft(events: seq<WriteEvent>, nonce: nat, count: nat, left: seq<WriteEvent>, now: nat, done: nat)
    requires Ample(events, nonce, count) && done <= count && Willing(left)
    requires |left| >= |events| - WIRE_FACTOR * done && now <= nonce + done
    ensures Ample(left, now, count - done)
  {
  }

  /** `write_all` of what is left of `part`: one write poll after another until it is all accepted. */
  method WriteAll(stream: NoiseStream, part: seq<byte>, start: nat) returns (stop: Option<FrameWrite>, sent: nat)
    requires start <= |part| && stream.WriteValid() && stream.InFlight() <= part[start..]
    modifies stream`pendingWrite, stream`chunks, stream`sendNonce
    modifies stream.inner`writeEvents, stream.inner`sent, stream.inner`lastWrite, stream.inner`lastOffer,
             stream.inner`lastClaim
    ensures start <= sent <= |part| && stream.WriteValid() && stream.InFlight() <= part[sent..]
    ensures stream.Accepted() == old(stream.Accepted()) + part[start..sent]
    ensures stop == None ==> sent == |part|
    ensures stop.Some? ==> sent < |part| && (stop.value.WriteSuspended? || stop.value.WriteBroken?)
    ensures stop == Some(WriteSuspended) ==> stream.inner.lastWrite == InnerPending
    ensures stop.Some? && stop.value.WriteBroken? ==>
      && BrokenBy(stream, stop.value.error)
      && (stop.value.error == NoiseFailure || |stream.inner.writeEvents| < |old(stream.inner.writeEvents)|)
    ensures old(stream.inner.sent) <= stream.inner.sent && |stream.inner.writeEvents| <= |old(stream.inner.writeEvents)|
    // with enough nonces and a transport that takes something on every write, all of it is accepted
    ensures Willing(old(stream.inner.writeEvents)) ==> Willing(stream.inner.writeEvents)
    ensures Ample(old(stream.inner.writeEvents), old(stream.sendNonce), |part| - start) ==>
      && stop == None && stream.sendNonce <= old(stream.sendNonce) + (|part| - start)
      && |stream.inner.writeEvents| >= |old(stream.inner.writeEvents)| - WIRE_FACTOR * (|part| - start)
  {
    hide SentAs;
    hide Willing;
    hide BrokenBy;
    hide NoiseStream.WriteValid;
    hide NoiseStream.InFlight;
    hide NoiseStream.Accepted;
    ghost var events, nonce := stream.inner.writeEvents, stream.sendNonce;
    sent := start;
    while sent < |part|
      invariant start <= sent <= |part| && stream.WriteValid() && stream.InFlight() <= part[sent..]
      invariant stream.Accepted() == old(stream.Accepted()) + part[start..sent]
      invariant old(stream.inner.sent) <= stream.inner.sent
      invariant Willing(old(stream.inner.writeEvents)) ==> Willing(stream.inner.writeEvents)
      invariant |stream.inner.writeEvents| <= |old(stream.inner.writeEvents)|
      invariant Ample(old(stream.inner.writeEvents), old(stream.sendNonce), |part| - start) ==>
        && stream.sendNonce <= old(stream.sendNonce) + (sent - start)
        && |stream.inner.writeEvents| >= |old(stream.inner.writeEvents)| - WIRE_FACTOR * (sent - start)
      decreases |part| - sent
    {
      ghost var before := stream.inner.writeEvents;
      if Ample(events, nonce, |part| - start) {
        AmpleLeft(events, nonce, |part| - start, before, stream.sendNonce, sent - start);
      }
      var poll := WriteSome(stream, part[sent..]);
      match poll {
        case WritePending => return Some(WriteSuspended), sent;
        case WriteFailed(error) => return Some(WriteBroken(error)), sent;
        case WriteReady(count) =>
          SliceJoin(part, start, sent, count);
          sent := sent + count;
      }
    }
    stop := None;
  }

  /** `done` has been accepted behind `base`, and what is in flight is the front of what remains. */
  ghost predicate WrittenAs(base: seq<byte>, header: seq<byte>, headerSent: nat, payload: seq<byte>, payloadSent: nat,
                            accepted: seq<byte>, inFlight: seq<byte>)
    requires headerSent <= |header| && payloadSent <= |payload|
  {
    && accepted == base + (header[..headerSent] + payload[..payloadSent])
    && inFlight <= if headerSent < |header| then header[headerSent..] else payload[payloadSent..]
  }

  /** `write_frame` after its size check: length, payload, flush. */
  class FrameWriter {
    const payload: seq<byte>
    const header: seq<byte>
    var headerSent: nat
    var payloadSent: nat
    ghost const base: seq<byte>   // what the stream had accepted before this frame

    constructor (stream: NoiseStream, bytes: seq<byte>)
      requires stream.WriteValid() && stream.pendingWrite == None
      requires ValidFrameLength(|bytes|)
      ensures payload == bytes && base == stream.Accepted() && Valid(stream)
      ensures Progress() == []
    {
      payload, header := bytes, ToU32(|bytes|);
      headerSent, payloadSent := 0, 0;
      base := stream.Accepted();
      new;
      assert base + Progress() == base;
    }

    ghost predicate Shape()
      reads this
    {
      && ValidFrameLength(|payload|) && header == ToU32(|payload|)
      && headerSent <= 4 && payloadSent <= |payload| && (headerSent < 4 ==> payloadSent == 0)
    }

    /** The part of the frame the stream has reported as written. */
    ghost function Progress(): seq<byte>
      requires Shape()
      reads this
    {
      header[..headerSent] + payload[..payloadSent]
    }

    /** How many bytes of the frame have not been reported as written. */
    ghost function Left(): nat
      requires Shape()
      reads this
    {
      4 - headerSent + (|payload| - payloadSent)
    }

    ghost predicate Valid(stream: NoiseStream)
      reads this, stream, stream.inner
    {
      && Shape()
      && stream.WriteValid()
      && WrittenAs(base, header, headerSent, payload, payloadSent, stream.Accepted(), stream.InFlight())
    }

    /** The length bytes. */
    method PollHeader(stream: NoiseStream) returns (stop: Option<FrameWrite>)
      requires Valid(stream)
      modifies this`headerSent
      modifies stream`pendingWrite, stream`chunks, stream`sendNonce
      modifies stream.inner`writeEvents, stream.inner`sent, stream.inner`lastWrite, stream.inner`lastOffer,
               stream.inner`lastClaim
      ensures Valid(stream) && old(Progress()) <= Progress() && old(stream.inner.sent) <= stream.inner.sent
      ensures |stream.inner.writeEvents| <= |old(stream.inner.writeEvents)|
      ensures stop == None ==> headerSent == 4
      ensures stop.Some? ==> match stop.value
              case WriteSuspended => stream.inner.lastWrite == InnerPending
              case WriteBroken(error) =>
                && BrokenBy(stream, error)
                && (error == NoiseFailure || |stream.inner.writeEvents| < |old(stream.inner.writeEvents)|)
              case WriteDone => false
      ensures Willing(old(stream.inner.writeEvents)) ==> Willing(stream.inner.writeEvents)
      ensures Ample(old(stream.inner.writeEvents), old(stream.sendNonce), old(Left())) ==>
                && stop == None && stream.sendNonce <= old(stream.sendNonce) + old(Left()) - Left()
                && |stream.inner.writeEvents| >= |old(stream.inner.writeEvents)| - WIRE_FACTOR * (old(Left()) - Left())
    {
      hide SentAs;
      hide NoiseStream.Accepted;
      hide NoiseStream.InFlight;
      hide ToU32;
      hide Willing;
      hide BrokenBy;
      hide NoiseStream.WriteValid;
      stop := None;
      if headerSent < 4 {
        var sent;
        stop, sent := WriteAll(stream, header, headerSent);
        HeaderAdvances(base, header, headerSent, sent, payload, old(stream.Accepted()), stream.Accepted());
        headerSent := sent;
      }
    }

    /** Resume the write: it always continues where it stopped, and ends with the whole frame flushed. */
    method Poll(stream: NoiseStream) returns (result: FrameWrite)
      requires Valid(stream)
      modifies this`headerSent, this`payloadSent
      modifies stream`pendingWrite, stream`chunks, stream`sendNonce
      modifies stream.inner`writeEvents, stream.inner`sent, stream.inner`lastWrite, stream.inner`lastOffer,
               stream.inner`lastClaim, stream.inner`shut, stream.inner`flushed
      ensures Valid(stream) && old(Progress()) <= Progress() && old(stream.inner.sent) <= stream.inner.sent
      ensures result.WriteDone? ==>
                && stream.pendingWrite == None && stream.Accepted() == base + ControlFrame(payload)
                && stream.inner.sent == Encode(stream.sendCipher, 0, stream.chunks)
                && stream.inner.flushed == |stream.inner.sent|
      ensures result.WriteSuspended? ==> stream.inner.lastWrite == InnerPending
      ensures result.WriteBroken? ==>
                && BrokenBy(stream, result.error)
                && (result.error == NoiseFailure || |stream.inner.writeEvents| < |old(stream.inner.writeEvents)|)
      // with enough nonces, a transport that takes something on every write takes what is left of the frame
      ensures Willing(old(stream.inner.writeEvents)) ==> Willing(stream.inner.writeEvents)
      ensures Ample(old(stream.inner.writeEvents), old(stream.sendNonce), old(Left())) &&
              |old(stream.inner.writeEvents)| > WIRE_FACTOR * old(Left()) ==>
                && result.WriteDone? && stream.sendNonce <= old(stream.sendNonce) + old(Left())
                && |stream.inner.writeEvents| >= |old(stream.inner.writeEvents)| - WIRE_FACTOR * old(Left()) - 1
    {
      hide SentAs;
      hide NoiseStream.Accepted;
      hide NoiseStream.InFlight;
      hide Encode;
      hide ToU32;
      hide Willing;
      hide NoiseStream.WriteValid;
      var stop := PollHeader(stream);
      if stop.Some? {
        return stop.value;
      }
      ghost var accepted := stream.Accepted();
      var sent;
      stop, sent := WriteAll(stream, payload, payloadSent);
      PayloadAdvances(base, header, payload, payloadSent, sent, accepted, stream.Accepted());
      payloadSent := sent;
      if stop.Some? {
        return stop.value;
      }
      assert Progress() == ControlFrame(payload);
      NothingInFlight(stream);
      var poll := stream.PollFlush(false);
      match poll {
        case WritePending => result := WriteSuspended;
        case WriteFailed(error) => result := WriteBroken(error);
        case WriteReady(_) => result := WriteDone;
      }
    }
  }

  /** `read_frame` up to decoding: length, check, payload. */
  class FrameReader {
    const header: array<byte>
    var headerFilled: nat
    var payload: seq<byte>
    var payloadFilled: nat
    ghost const base: seq<byte>   // what the stream had delivered before this frame

    constructor (stream: NoiseStream)
      requires stream.ReadValid()
      ensures fresh(header) && base == stream.delivered && Valid(stream) && Taken() == [] && !Complete()
    {
      header := new byte[4](_ => 0);
      headerFilled, payload, payloadFilled := 0, [], 0;
      base := stream.delivered;
      new;
      assert base + Taken() == base;
    }

    ghost predicate Shape()
      reads this, header
    {
      && header.Length == 4 && headerFilled <= 4 && payloadFilled <= |payload|
      && (headerFilled < 4 ==> payload == [])
      && (payload != [] ==> ValidFrameLength(|payload|) && |payload| == FromU32(header[..]))
    }

    ghost function Taken(): seq<byte>
      requires Shape()
      reads this, header
    {
      header[..headerFilled] + payload[..payloadFilled]
    }

    /** The whole frame is there. */
    ghost predicate Complete()
      reads this
    {
      headerFilled == 4 && payload != [] && payloadFilled == |payload|
    }

    ghost predicate Valid(stream: NoiseStream)
      reads this, header, stream, stream.inner, stream.readHeader
    {
      && Shape()
      && header != stream.readHeader
      && stream.ReadValid()
      && stream.delivered == base + Taken()
    }

    /** The first `count` bytes of this frame will be delivered, without a frame of the stream failing to open. */
    ghost predicate Awaits(stream: NoiseStream, count: nat)
      reads this, stream, stream.inner
    {
      && |stream.AllPlain()| >= |base| + count
      && stream.AllFailures() == stream.failures
    }

    /** The length that the first four of these bytes announce. */
    ghost function Announced(stream: NoiseStream): nat
      requires |stream.AllPlain()| >= |base| + 4
      reads stream.inner`offered
    {
      FromU32(stream.AllPlain()[|base|..|base| + 4])
    }

    /** A whole frame of lawful length will be delivered. */
    ghost predicate FrameAhead(stream: NoiseStream)
      reads this, stream, stream.inner
    {
      Awaits(stream, 4) && ValidFrameLength(Announced(stream)) && Awaits(stream, 4 + Announced(stream))
    }

    /** Store what one read delivered behind the header bytes already there. */
    method StoreHeader(bytes: seq<byte>)
      requires Shape() && headerFilled + |bytes| <= 4 && headerFilled < 4
      modifies this`headerFilled, header
      ensures Shape() && Taken() == old(Taken()) + bytes && headerFilled == old(headerFilled) + |bytes|
      ensures payload == old(payload) && payloadFilled == old(payloadFilled)
    {
      forall i | 0 <= i < |bytes| {
        header[headerFilled + i] := bytes[i];
      }
      headerFilled := headerFilled + |bytes|;
    }

    method StorePayload(bytes: seq<byte>)
      requires Shape() && headerFilled == 4 && payloadFilled + |bytes| <= |payload|
      modifies this`payload, this`payloadFilled
      ensures Shape() && Taken() == old(Taken()) + bytes && payloadFilled == old(payloadFilled) + |bytes|
      ensures |payload| == |old(payload)|
    {
      payload := Overwrite(payload, payloadFilled, bytes);
      payloadFilled := payloadFilled + |bytes|;
    }

    /** `read_exact` for the four length bytes. */
    method FillHeader(stream: NoiseStream) returns (stop: Option<FrameRead>)
      requires Valid(stream)
      modifies this`headerFilled, header
      modifies stream`readHeaderFilled, stream`readBody, stream`readBodyFilled, stream`recvNonce, stream`plaintext
      modifies stream`plaintextOffset, stream`consumed, stream`failures, stream`delivered, stream.readHeader
      modifies stream.inner`readEvents, stream.inner`incoming, stream.inner`received, stream.inner`lastRead
      ensures Valid(stream) && old(Taken()) <= Taken()
      ensures if stop == None then headerFilled == 4 else headerFilled < 4
      ensures stop.Some? ==> match stop.value
              case FramePending => stream.inner.lastRead == InnerPending
              case FrameFailed(UnexpectedEof) => headerFilled < 4 && stream.inner.AtEnd()
              case FrameFailed(Io(error)) => stream.Stopped(ReadFailed(error))
              case _ => false
      ensures old(stream.inner.Flowing()) ==> stream.inner.Flowing() && (old(Awaits(stream, 4)) ==> stop == None)
      ensures stop == None ==> stream.failures == old(stream.failures)
    {
      hide NoiseStream.ReadValid;
      hide FromU32;
      hide InnerStream.Flowing;
      hide NoiseStream.AllPlain;
      hide NoiseStream.AllFailures;
      while headerFilled < 4
        invariant Valid(stream) && old(Taken()) <= Taken()
        invariant old(stream.inner.Flowing()) ==> stream.inner.Flowing()
        invariant stream.failures == old(stream.failures)
        invariant old(Awaits(stream, 4)) ==> Awaits(stream, 4)
        decreases 4 - headerFilled
      {
        var poll := stream.PollRead(4 - headerFilled);
        match poll {
          case ReadPending => return Some(FramePending);
          case ReadFailed(error) => return Some(FrameFailed(Io(error)));
          case ReadReady(bytes) =>
            if bytes == [] {
              return Some(FrameFailed(UnexpectedEof));
            }
            StoreHeader(bytes);
        }
      }
      stop := None;
    }

    /** `read_exact` for the payload. */
    method FillPayload(stream: NoiseStream) returns (stop: Option<FrameRead>)
      requires Valid(stream) && headerFilled == 4 && payload != []
      modifies this`payload, this`payloadFilled
      modifies stream`readHeaderFilled, stream`readBody, stream`readBodyFilled, stream`recvNonce, stream`plaintext
      modifies stream`plaintextOffset, stream`consumed, stream`failures, stream`delivered, stream.readHeader
      modifies stream.inner`readEvents, stream.inner`incoming, stream.inner`received, stream.inner`lastRead
      ensures Valid(stream) && old(Taken()) <= Taken() && |payload| == |old(payload)|
      ensures payloadFilled == |payload| <==> stop == None
      ensures stop.Some? ==> match stop.value
              case FramePending => stream.inner.lastRead == InnerPending
              case FrameFailed(UnexpectedEof) => payloadFilled < |payload| && stream.inner.AtEnd()
              case FrameFailed(Io(error)) => stream.Stopped(ReadFailed(error))
              case _ => false
      ensures old(stream.inner.Flowing()) ==>
                stream.inner.Flowing() && (old(Awaits(stream, 4 + |payload|)) ==> stop == None)
      ensures stop == None ==> stream.failures == old(stream.failures)
    {
      hide NoiseStream.ReadValid;
      hide FromU32;
      hide InnerStream.Flowing;
      hide NoiseStream.AllPlain;
      hide NoiseStream.AllFailures;
      while payloadFilled < |payload|
        invariant old(stream.inner.Flowing()) ==> stream.inner.Flowing()
        invariant stream.failures == old(stream.failures)
        invariant old(Awaits(stream, 4 + |payload|)) ==> Awaits(stream, 4 + |payload|)
        invariant Valid(stream) && headerFilled == 4 && |payload| == |old(payload)| && old(Taken()) <= Taken()
        decreases |payload| - payloadFilled
      {
        var poll := stream.PollRead(|payload| - payloadFilled);
        match poll {
          case ReadPending => return Some(FramePending);
          case ReadFailed(error) => return Some(FrameFailed(Io(error)));
          case ReadReady(bytes) =>
            if bytes == [] {
              return Some(FrameFailed(UnexpectedEof));
            }
            StorePayload(bytes);
        }
      }
      stop := None;
    }

    /**
     Resume the read. A frame is returned after exactly its own bytes have been taken from the stream;
     whatever the far end wrote behind it is still there for the next reader.
     */
    method Poll(stream: NoiseStream) returns (result: FrameRead)
      requires Valid(stream)
      modifies this`headerFilled, this`payload, this`payloadFilled, header
      modifies stream`readHeaderFilled, stream`readBody, stream`readBodyFilled, stream`recvNonce, stream`plaintext
      modifies stream`plaintextOffset, stream`consumed, stream`failures, stream`delivered, stream.readHeader
      modifies stream.inner`readEvents, stream.inner`incoming, stream.inner`received, stream.inner`lastRead
      ensures Valid(stream) && old(Taken()) <= Taken() && (Complete() <==> result.FrameDone?)
      ensures match result
              case FrameDone(bytes) =>
                ValidFrameLength(|bytes|) && Taken() == ControlFrame(bytes) && stream.delivered == base + ControlFrame(bytes)
              case FramePending => stream.inner.lastRead == InnerPending
              case FrameFailed(InvalidFrame(n)) =>
                headerFilled == 4 && payload == [] && n == FromU32(header[..]) && !ValidFrameLength(n)
              case FrameFailed(UnexpectedEof) => stream.inner.AtEnd()
              case FrameFailed(Io(error)) => stream.Stopped(ReadFailed(error))
      // a frame that has been sent is returned, when the transport brings what has been sent
      ensures old(stream.inner.Flowing()) ==> stream.inner.Flowing()
      ensures old(stream.inner.Flowing()) && old(FrameAhead(stream)) ==>
                result.FrameDone? && stream.failures == old(stream.failures)
    {
      hide ParsedAs;
      hide BufferedAs;
      hide InnerStream.Flowing;
      hide NoiseStream.AllPlain;
      hide NoiseStream.AllFailures;
      var stop := FillHeader(stream);
      if stop.Some? {
        return stop.value;
      }
      HeaderAnnounces(this, stream);
      if payload == [] {
        var length := FromU32(header[..]);
        if length == 0 || length > MAX_FRAME_SIZE {
          return FrameFailed(InvalidFrame(length));
        }
        payload, payloadFilled := seq(length, _ => 0), 0;
      }
      stop := FillPayload(stream);
      if stop.Some? {
        return stop.value;
      }
      ToU32OfHeader(header[..]);
      result := FrameDone(payload);
    }
  }

  lemma DeliveredIsFront(stream: NoiseStream)
    requires stream.ReadValid()
    ensures stream.delivered <= stream.AllPlain()
  {
    AllPlainSplits(stream);
  }

  /** The length read is the one announced. */
  lemma HeaderAnnounces(reader: FrameReader, stream: NoiseStream)
    requires reader.Valid(stream) && reader.headerFilled == 4
    ensures reader.Awaits(stream, 4) ==> FromU32(reader.header[..]) == reader.Announced(stream)
  {
    DeliveredIsFront(stream);
    hide ParsedAs;
    hide BufferedAs;
    hide NoiseStream.AllPlain;
    if reader.Awaits(stream, 4) {
      var all, base := stream.AllPlain(), reader.base;
      assert stream.delivered[|base|..|base| + 4] == reader.Taken()[..4] == reader.header[..];
      assert all[|base|..|base| + 4] == stream.delivered[|base|..|base| + 4];
    }
  }

  lemma ToU32OfHeader(b: seq<byte>)
    requires |b| == 4
    ensures ToU32(FromU32(b)) == b
  {
    var n := FromU32(b);
    var low := b[2] as nat * 0x100 + b[3] as nat;
    assert n / 0x1_0000 == b[0] as nat * 0x100 + b[1] as nat;
    assert n / 0x100 == b[0] as nat * 0x1_0000 + b[1] as nat * 0x100 + b[2] as nat;
  }

  // ---------------------------------------------------------------- end to end

  /** A serialisation of messages as frame payloads. */
  datatype Codec<!M> = Codec(encode: M -> seq<byte>, decode: seq<byte> -> Option<M>)

  ghost predicate LawfulCodec<M(!new)>(codec: Codec<M>) {
    forall m: M {:trigger codec.encode(m)} :: codec.decode(codec.encode(m)) == Some(m)
  }

  ghost predicate EncodedAs<M>(codec: Codec<M>, messages: seq<M>, payloads: seq<seq<byte>>) {
    && |payloads| == |messages|
    && AllPayloads(payloads)
    && forall i :: 0 <= i < |messages| ==> payloads[i] == codec.encode(messages[i])
  }

  /** While a frame is being written, the bytes on their way are a prefix of the frames so far and that one. */
  lemma WriterStaysInFrame(writer: FrameWriter, stream: NoiseStream, earlier: seq<seq<byte>>)
    requires writer.Valid(stream) && AllPayloads(earlier) && writer.base == ControlFrames(earlier)
    ensures AllPayloads(earlier + [writer.payload])
    ensures stream.Accepted() + stream.InFlight() <= ControlFrames(earlier + [writer.payload])
  {
    hide SentAs;
    ControlFramesSnoc(earlier, writer.payload);
    PartOfFrame(writer.base, writer.header, writer.headerSent, writer.payload, writer.payloadSent,
                stream.Accepted(), stream.InFlight());
  }

  lemma PartOfFrame(base: seq<byte>, header: seq<byte>, headerSent: nat, payload: seq<byte>, payloadSent: nat,
                    accepted: seq<byte>, inFlight: seq<byte>)
    requires headerSent <= |header| && payloadSent <= |payload| && (headerSent < |header| ==> payloadSent == 0)
    requires WrittenAs(base, header, headerSent, payload, payloadSent, accepted, inFlight)
    ensures accepted + inFlight <= base + (header + payload)
  {
    if headerSent < |header| {
      assert header[..headerSent] + header[headerSent..] == header;
      assert accepted == base + header[..headerSent];
    } else {
      assert header[..headerSent] == header;
      assert payload[..payloadSent] + payload[payloadSent..] == payload;
      assert accepted == base + header + payload[..payloadSent];
    }
  }

  /**
   Messages are read in the order written, each once, none invented, for every fragmentation of the wire
   and every place at which either side is suspended.
   */
  lemma MessagesArriveInOrder<M(!new)>(codec: Codec<M>, sender: NoiseStream, receiver: NoiseStream,
                                       written: seq<M>, payloads: seq<seq<byte>>, read: seq<seq<byte>>, taken: seq<byte>)
    requires LawfulCodec(codec) && EncodedAs(codec, written, payloads)
    requires sender.WriteValid() && receiver.ReadValid() && Connected(sender, receiver)
    requires sender.Accepted() + sender.InFlight() <= ControlFrames(payloads)
    requires AllPayloads(read) && receiver.delivered == ControlFrames(read) + taken
    ensures |read| <= |written|
    ensures forall i :: 0 <= i < |read| ==> codec.decode(read[i]) == Some(written[i])
    ensures taken <= ControlFrames(payloads[|read|..])
  {
    DeliveredIsPrefixOfWritten(sender, receiver);
    assert receiver.delivered <= receiver.delivered + receiver.Leftover();
    FramesPrefix(read, taken, payloads);
    forall i | 0 <= i < |read|
      ensures codec.decode(read[i]) == Some(written[i])
    {
      assert read[i] == payloads[i] == codec.encode(written[i]);
    }
  }

  /** Everything written has been sent, received, opened and handed to the frame reader. */
  ghost predicate Drained(sender: NoiseStream, receiver: NoiseStream, payloads: seq<seq<byte>>)
    requires AllPayloads(payloads) && receiver.ReadValid()
    reads sender, sender.inner, receiver, receiver.inner, receiver.readHeader
  {
    && sender.pendingWrite == None && sender.Accepted() == ControlFrames(payloads)
    && receiver.inner.received == sender.inner.sent
    && receiver.Leftover() == [] && !HasFrame(receiver.Partial())
  }

  /** A frame being read holds no whole frame. */
  lemma IncompleteFrame(reader: FrameReader, rest: seq<seq<byte>>)
    requires reader.Shape() && !reader.Complete() && AllPayloads(rest) && ControlFrames(rest) <= reader.Taken()
    ensures rest == []
  {
    if rest != [] {
      var header := reader.header[..reader.headerFilled];
      assert ControlFrames(rest)[..4] == ToU32(|rest[0]|);
      assert reader.headerFilled == 4;
      assert reader.Taken()[..4] == header;
      U32RoundTrip(|rest[0]|);
    }
  }

  /** Once everything written has arrived and been opened, every message has been read. */
  lemma NoMessageMissing(sender: NoiseStream, receiver: NoiseStream, payloads: seq<seq<byte>>,
                         read: seq<seq<byte>>, reader: FrameReader)
    requires AllPayloads(payloads) && AllPayloads(read)
    requires sender.WriteValid() && receiver.ReadValid() && Connected(sender, receiver) && Drained(sender, receiver, payloads)
    requires reader.Valid(receiver) && !reader.Complete() && reader.base == ControlFrames(read)
    ensures read == payloads
  {
    var taken := reader.Taken();
    DeliveredIsPrefixOfWritten(sender, receiver);
    assert receiver.delivered + [] == receiver.delivered;
    FramesPrefix(read, taken, payloads);
    assert payloads == read + payloads[|read|..];
    FramesJoin(read, payloads[|read|..]);
    assert taken == ControlFrames(payloads[|read|..]);
    IncompleteFrame(reader, payloads[|read|..]);
  }

  lemma {:induction false} FramesJoin(a: seq<seq<byte>>, b: seq<seq<byte>>)
    requires AllPayloads(a) && AllPayloads(b)
    ensures AllPayloads(a + b) && ControlFrames(a + b) == ControlFrames(a) + ControlFrames(b)
    decreases |a|
  {
    if a == [] {
      assert a + b == b;
    } else {
      FramesJoin(a[1..], b);
      assert (a + b)[1..] == a[1..] + b;
    }
  }

  lemma NothingInFlight(stream: NoiseStream)
    requires stream.WriteValid() && stream.InFlight() == []
    ensures stream.pendingWrite == None
  {
    assert stream.chunks != [] ==> IsChunk(stream.chunks[|stream.chunks| - 1]);
  }
}
