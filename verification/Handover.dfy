/**
 The handover of a stream from control frames to raw bytes: one end writes its control frames and goes on
 with bytes of its bridge, the other reads as many frames and goes on as a bridge.
 */
module Handover {
  import opened Bytes
  import opened Wire
  import opened Noise
  import opened Frames
  import opened EndToEnd

  /**
   Handing a stream over to a bridge after its last control frame loses and repeats nothing: what the
   bridge has read and can read without the transport is what the far end wrote behind that frame, even
   where it was decrypted together with it, and all of it once everything has arrived.
   */
  lemma HandoverIsExact(sender: NoiseStream, receiver: NoiseStream, control: seq<seq<byte>>, data: seq<byte>,
                        bridged: seq<byte>)
    requires sender.WriteValid() && receiver.ReadValid() && Connected(sender, receiver) && AllPayloads(control)
    requires sender.Accepted() + sender.InFlight() == ControlFrames(control) + data
    requires receiver.delivered == ControlFrames(control) + bridged
    ensures bridged + receiver.Leftover() <= data
    ensures sender.pendingWrite == None && receiver.inner.received == sender.inner.sent && !HasFrame(receiver.Partial()) ==>
              bridged + receiver.Leftover() == data
  {
    hide SentAs;
    hide ParsedAs;
    hide BufferedAs;
    hide ControlFrames;
    DeliveredIsPrefixOfWritten(sender, receiver);
    var frames, read := ControlFrames(control), bridged + receiver.Leftover();
    assert receiver.delivered + receiver.Leftover() == frames + read;
    assert (frames + data)[|frames|..] == data && (frames + read)[|frames|..] == read;
    if sender.pendingWrite == None {
      assert sender.Accepted() + [] == sender.Accepted();
    }
  }

  /** Payloads are written as they are. */
  function Plain(): Codec<seq<byte>> {
    Codec((payload: seq<byte>) => payload, (payload: seq<byte>) => Some(payload))
  }

  lemma PlainPayloads(control: seq<seq<byte>>)
    requires AllPayloads(control)
    ensures AllEncodable(Plain(), control) && Payloads(Plain(), control[..|control|]) == control
  {
    assert control[..|control|] == control;
  }

  /** The next poll of the sending end, of the receiving end, or of the network. */
  datatype Move = Push(size: nat) | Pull(room: nat) | Convey(count: nat)

  /** All control frames are accepted, and `written` bytes of the data; what is in flight belongs to the last buffer offered. */
  ghost predicate Pushing(control: seq<seq<byte>>, data: seq<byte>, written: nat, offer: nat, sender: NoiseStream)
    requires AllPayloads(control)
    reads sender, sender.inner
  {
    && sender.WriteValid() && written <= offer <= |data|
    && sender.Accepted() == ControlFrames(control) + data[..written]
    && sender.InFlight() <= data[written..offer]
  }

  /** The frames are read, and the bridge has taken `bridged`. */
  ghost predicate Pulling(got: seq<seq<byte>>, bridged: seq<byte>, receiver: NoiseStream)
    requires AllPayloads(got)
    reads receiver, receiver.inner, receiver.readHeader
  {
    receiver.ReadValid() && receiver.delivered == ControlFrames(got) + bridged
  }

  lemma FramesAreOut(control: seq<seq<byte>>, data: seq<byte>, sender: NoiseStream)
    requires AllPayloads(control) && AllEncodable(Plain(), control)
    requires Sending(Plain(), control, |control|, None, sender)
    ensures Pushing(control, data, 0, 0, sender)
  {
    PlainPayloads(control);
    assert ControlFrames(control) + data[..0] == ControlFrames(control);
  }

  lemma FramesAreIn(got: seq<seq<byte>>, reader: FrameReader, receiver: NoiseStream)
    requires Receiving(got, reader, receiver) && reader.Taken() == []
    ensures Pulling(got, [], receiver)
  {
  }

  lemma ReceivingIsPayloads(got: seq<seq<byte>>, reader: FrameReader, receiver: NoiseStream)
    requires Receiving(got, reader, receiver)
    ensures AllPayloads(got)
  {
  }

  /** A frame in flight is never empty, so with an empty buffer there is none. */
  lemma PushingMeans(control: seq<seq<byte>>, data: seq<byte>, written: nat, until: nat, sender: NoiseStream)
    requires AllPayloads(control) && Pushing(control, data, written, until, sender)
    ensures written <= until <= |data| && sender.WriteValid() && sender.InFlight() <= data[written..until]
    ensures sender.Accepted() == ControlFrames(control) + data[..written]
    ensures written == until ==> sender.pendingWrite == None
  {
    if sender.pendingWrite.Some? {
      assert IsChunk(sender.chunks[|sender.chunks| - 1]);
    }
  }

  lemma AmpleIsWilling(events: seq<WriteEvent>, nonce: nat, count: nat)
    ensures Ample(events, nonce, count) ==> Willing(events)
  {
  }

  /** With no frame in flight the end of the buffer may be anywhere. */
  lemma OfferStands(control: seq<seq<byte>>, data: seq<byte>, written: nat, offer: nat, until: nat, sender: NoiseStream)
    requires AllPayloads(control) && Pushing(control, data, written, offer, sender)
    requires written <= until <= |data| && (sender.pendingWrite.Some? ==> until == offer)
    ensures Pushing(control, data, written, until, sender)
  {
  }

  lemma AmpleForLess(events: seq<WriteEvent>, nonce: nat, count: nat, less: nat)
    requires Ample(events, nonce, count) && less <= count
    ensures Ample(events, nonce, less) && Willing(events)
  {
  }

  lemma StillPushing(control: seq<seq<byte>>, data: seq<byte>, written: nat, until: nat, count: nat, sender: NoiseStream)
    requires AllPayloads(control) && written + count <= until <= |data| && sender.WriteValid()
    requires sender.Accepted() == ControlFrames(control) + data[..written] + data[written..until][..count]
    requires sender.InFlight() <= data[written..until][count..]
    ensures Pushing(control, data, written + count, until, sender)
  {
    hide ControlFrames;
    hide SentAs;
    assert data[..written] + data[written..until][..count] == data[..written + count];
    assert data[written..until][count..] == data[written + count..until];
    assert ControlFrames(control) + data[..written] + data[written..until][..count]
        == ControlFrames(control) + (data[..written] + data[written..until][..count]);
  }

  lemma NotMoved(control: seq<seq<byte>>, data: seq<byte>, written: nat, until: nat, sender: NoiseStream)
    requires AllPayloads(control) && written <= until <= |data| && sender.WriteValid()
    requires sender.Accepted() == ControlFrames(control) + data[..written] && sender.InFlight() <= data[written..until]
    ensures Pushing(control, data, written, until, sender)
  {
  }

  lemma WiredMeans(sender: NoiseStream, receiver: NoiseStream, arrived: nat)
    requires Apart(sender, receiver) && Wired(sender, receiver, arrived)
    ensures sender != receiver && sender.inner != receiver.inner && sender.sendCipher == receiver.recvCipher
    ensures arrived <= |sender.inner.sent| && receiver.inner.offered == sender.inner.sent[..arrived]
  {
  }

  lemma WiredAgain(sender: NoiseStream, receiver: NoiseStream, arrived: nat, sent: seq<byte>)
    requires sender.sendCipher == receiver.recvCipher && arrived <= |sent| && sent <= sender.inner.sent
    requires receiver.inner.offered == sent[..arrived]
    ensures Wired(sender, receiver, arrived)
  {
  }

  /** One write poll with the bytes from `written` to `until`. */
  method PushBuffer(control: seq<seq<byte>>, data: seq<byte>, written: nat, until: nat, sender: NoiseStream)
    returns (count: nat, broken: bool)
    requires AllPayloads(control) && written < until <= |data| && Pushing(control, data, written, until, sender)
    modifies sender`pendingWrite, sender`chunks, sender`sendNonce
    modifies sender.inner`writeEvents, sender.inner`sent, sender.inner`lastWrite, sender.inner`lastOffer,
             sender.inner`lastClaim
    ensures written + count <= until && Pushing(control, data, written + count, until, sender)
    ensures old(sender.inner.sent) <= sender.inner.sent
    ensures broken ==> exists error :: BrokenBy(sender, error)
    ensures old(Ample(sender.inner.writeEvents, sender.sendNonce, until - written)) ==>
      && !broken && count > 0 && Willing(sender.inner.writeEvents) && sender.sendNonce <= old(sender.sendNonce) + count
      && |sender.inner.writeEvents| >= |old(sender.inner.writeEvents)| - WIRE_FACTOR * count
  {
    hide *;
    count, broken := 0, false;
    var buffer := data[written..until];
    PushingMeans(control, data, written, until, sender);
    AmpleIsWilling(sender.inner.writeEvents, sender.sendNonce, |buffer|);
    var poll := WriteSome(sender, buffer);
    match poll
    case WritePending => NotMoved(control, data, written, until, sender);
    case WriteFailed(error) =>
      assert BrokenBy(sender, error);
      broken := true;
      NotMoved(control, data, written, until, sender);
    case WriteReady(taken) =>
      count := taken;
      StillPushing(control, data, written, until, taken, sender);
  }

  /** One write poll of the bridge: a fresh buffer of up to `size` bytes, or the same one while a frame is in flight. */
  method PushData(control: seq<seq<byte>>, data: seq<byte>, written: nat, offer: nat, size: nat, sender: NoiseStream)
    returns (now: nat, until: nat, broken: bool)
    requires AllPayloads(control) && Pushing(control, data, written, offer, sender)
    modifies sender`pendingWrite, sender`chunks, sender`sendNonce
    modifies sender.inner`writeEvents, sender.inner`sent, sender.inner`lastWrite, sender.inner`lastOffer,
             sender.inner`lastClaim
    ensures written <= now && Pushing(control, data, now, until, sender) && old(sender.inner.sent) <= sender.inner.sent
    ensures broken ==> exists error :: BrokenBy(sender, error)
    // some of it is taken when the transport takes something on every write
    ensures written < |data| && size > 0 && old(Ample(sender.inner.writeEvents, sender.sendNonce, |data| - written)) ==>
      && !broken && now > written && Willing(sender.inner.writeEvents)
      && sender.sendNonce <= old(sender.sendNonce) + (now - written)
      && |sender.inner.writeEvents| >= |old(sender.inner.writeEvents)| - WIRE_FACTOR * (now - written)
  {
    PushingMeans(control, data, written, offer, sender);
    hide *;
    now, until, broken := written, offer, false;
    if sender.pendingWrite == None {
      until := if written + size <= |data| then written + size else |data|;
    }
    OfferStands(control, data, written, offer, until, sender);
    if until == written {
      return;
    }
    ghost var events, nonce := sender.inner.writeEvents, sender.sendNonce;
    if Ample(events, nonce, |data| - written) {
      AmpleForLess(events, nonce, |data| - written, until - written);
    }
    var count;
    count, broken := PushBuffer(control, data, written, until, sender);
    now := written + count;
  }

  /** One read poll of the bridge. */
  method PullData(got: seq<seq<byte>>, bridged: seq<byte>, room: nat, receiver: NoiseStream,
                  ghost sender: NoiseStream, ghost arrived: nat)
    returns (taken: seq<byte>, broken: bool)
    requires AllPayloads(got) && Pulling(got, bridged, receiver)
    requires Apart(sender, receiver) && Wired(sender, receiver, arrived)
    modifies receiver`readHeaderFilled, receiver`readBody, receiver`readBodyFilled, receiver`recvNonce, receiver`plaintext
    modifies receiver`plaintextOffset, receiver`consumed, receiver`failures, receiver`delivered, receiver.readHeader
    modifies receiver.inner`readEvents, receiver.inner`incoming, receiver.inner`received, receiver.inner`lastRead
    ensures Pulling(got, bridged + taken, receiver) && Wired(sender, receiver, arrived)
    // some is read when there is some to come and the transport brings it
    ensures old(receiver.inner.Flowing()) ==> receiver.inner.Flowing()
    ensures room > 0 && old(receiver.inner.Flowing() && receiver.Expecting()) ==>
      taken != [] && !broken && receiver.failures == old(receiver.failures)
  {
    hide ParsedAs;
    hide BufferedAs;
    hide InnerStream.Flowing;
    hide NoiseStream.Expecting;
    hide ControlFrames;
    taken, broken := [], false;
    var poll := receiver.PollRead(room);
    match poll
    case ReadPending => assert bridged + [] == bridged;
    case ReadFailed(_) => broken := true; assert bridged + [] == bridged;
    case ReadReady(bytes) => taken := bytes;
  }

  datatype PullState =
    PullState(got: seq<seq<byte>>, bridged: seq<byte>, arrived: nat, broken: bool, readEvents: seq<ReadEvent>)

  datatype PushState =
    PushState(done: nat, writer: Option<FrameWriter>, written: nat, offer: nat, arrived: nat, broken: bool, sent: seq<byte>)

  /** The two ends and what they have done so far. */
  class Changeover {
    const control: seq<seq<byte>>
    const data: seq<byte>
    const sender: NoiseStream
    const receiver: NoiseStream
    var done: nat                     // control frames written
    var writer: Option<FrameWriter>
    var written: nat                  // bytes of the data reported as written
    var offer: nat                    // where the last buffer ends
    var arrived: nat
    var reader: FrameReader
    var got: seq<seq<byte>>           // control frames read
    var bridged: seq<byte>            // bytes read by the bridge
    var senderBroken: bool
    var receiverBroken: bool

    ghost function Footprint(): set<object>
      reads this
    {
      {this, sender, sender.inner, receiver, receiver.inner, receiver.readHeader, reader, reader.header}
      + if writer.Some? then {writer.value} else {}
    }

    ghost predicate Valid()
      reads Footprint()
    {
      && AllPayloads(control) && AllEncodable(Plain(), control) && Apart(sender, receiver)
      && reader.header != sender.readHeader && AllPayloads(got)
      && done <= |control| && |got| <= |control| && Wired(sender, receiver, arrived)
      && (if done < |control| || writer.Some? then Sending(Plain(), control, done, writer, sender) && written == offer == 0
          else Pushing(control, data, written, offer, sender))
      && (if |got| < |control| then Receiving(got, reader, receiver) && bridged == []
          else Pulling(got, bridged, receiver))
    }

    constructor (control: seq<seq<byte>>, data: seq<byte>, sender: NoiseStream, receiver: NoiseStream)
      requires AllPayloads(control)
      requires sender.WriteValid() && receiver.ReadValid() && Apart(sender, receiver)
      requires sender.chunks == [] && sender.pendingWrite == None && receiver.delivered == []
      requires Wired(sender, receiver, 0)
      ensures Valid() && got == [] && bridged == []
      ensures this.control == control && this.data == data && this.sender == sender && this.receiver == receiver
      ensures fresh(Footprint() - {sender, sender.inner, receiver, receiver.inner, receiver.readHeader})
    {
      hide Sending;
      hide Pushing;
      hide Receiving;
      hide Pulling;
      hide Wired;
      this.control, this.data, this.sender, this.receiver := control, data, sender, receiver;
      done, writer, written, offer, arrived, got, bridged := 0, None, 0, 0, 0, [], [];
      senderBroken, receiverBroken := false, false;
      var first := new FrameReader(receiver);
      reader := first;
      PlainPayloads(control);
      NothingYet(Plain(), control, sender, first, receiver);
      if control == [] {
        FramesAreOut(control, data, sender);
        FramesAreIn([], first, receiver);
      }
    }

    ghost predicate Framing()
      reads this
    {
      done < |control| || writer.Some?
    }

    /** How much of the control frame in hand, or of the next one, is not reported as written. */
    ghost function NextLeft(): nat
      requires Valid() && Framing()
      reads Footprint()
    {
      LeftOf(Plain(), control, done, writer)
    }

    /** How much is not reported as written, over all frames and the data. */
    ghost function ToWrite(): nat
      requires Valid()
      reads Footprint()
    {
      if Framing() then NextLeft() + LaterBytes(Plain(), control, done + 1) + |data| else |data| - written
    }

    /** Polls of a willing transport and nonces for all that is left to write. */
    ghost predicate Provided()
      requires Valid()
      reads Footprint()
    {
      && Willing(sender.inner.writeEvents) && sender.sendNonce + ToWrite() <= MAX_NONCE
      && |sender.inner.writeEvents| >= WIRE_FACTOR * ToWrite() + (|control| - done)
    }

    /** What a step of the sending end leaves alone. */
    ghost function PullSide(): PullState
      reads this, receiver.inner
    {
      PullState(got, bridged, arrived, receiverBroken, receiver.inner.readEvents)
    }

    /** The next poll for the control frames. */
    method PushFrame()
      requires Valid() && Framing()
      modifies Footprint()
      ensures Valid() && PullSide() == old(PullSide()) && fresh(Footprint() - old(Footprint()))
      ensures Willing(old(sender.inner.writeEvents)) ==> Willing(sender.inner.writeEvents)
      ensures old(done < |control| && Supplied(sender, NextLeft())) ==>
                && !senderBroken && done == old(done) + 1 && writer == None && written == 0
                && sender.sendNonce <= old(sender.sendNonce + NextLeft())
                && |sender.inner.writeEvents| >= old(|sender.inner.writeEvents| - WIRE_FACTOR * NextLeft() - 1)
    {
      hide Sending;
      hide Pushing;
      hide Receiving;
      hide Pulling;
      hide Wired;
      hide AllPayloads;
      hide AllEncodable;
      done, writer, senderBroken := WriterStep(Plain(), control, done, writer, sender, receiver, arrived);
      if done == |control| && writer.None? {
        FramesAreOut(control, data, sender);
      }
    }

    /** The next poll for the data. */
    method PushBytes(size: nat)
      requires Valid() && !Framing()
      modifies Footprint()
      ensures Valid() && !Framing() && done == old(done) && PullSide() == old(PullSide()) && fresh(Footprint() - old(Footprint()))
      ensures old(written < |data| && Ample(sender.inner.writeEvents, sender.sendNonce, |data| - written)) && size > 0 ==>
                && !senderBroken && written > old(written) && Willing(sender.inner.writeEvents)
                && sender.sendNonce <= old(sender.sendNonce) + (written - old(written))
                && |sender.inner.writeEvents| >= |old(sender.inner.writeEvents)| - WIRE_FACTOR * (written - old(written))
    {
      hide Sending;
      hide Pushing;
      hide Receiving;
      hide Pulling;
      hide Wired;
      hide AllPayloads;
      hide AllEncodable;
      ghost var sent := sender.inner.sent;
      WiredMeans(sender, receiver, arrived);
      written, offer, senderBroken := PushData(control, data, written, offer, size, sender);
      WiredAgain(sender, receiver, arrived, sent);
    }

    method Push(size: nat)
      requires Valid()
      modifies Footprint()
      ensures Valid() && got == old(got) && bridged == old(bridged) && fresh(Footprint() - old(Footprint()))
    {
      hide Valid;
      if senderBroken {
        return;
      }
      if done < |control| || writer.Some? {
        PushFrame();
      } else {
        PushBytes(size);
      }
    }

    /** What a step of the receiving end leaves alone. */
    ghost function PushSide(): PushState
      reads this, sender.inner
    {
      PushState(done, writer, written, offer, arrived, senderBroken, sender.inner.sent)
    }

    /** The next poll for the control frames; behind the last one the bridge starts. */
    method PullFrame()
      requires Valid() && |got| < |control|
      modifies Footprint()
      ensures Valid() && old(got) <= got && bridged == old(bridged) && fresh(Footprint() - old(Footprint()))
      ensures PushSide() == old(PushSide())
      ensures old(receiver.inner.Flowing()) ==> receiver.inner.Flowing()
      ensures old(receiver.inner.Flowing() && reader.FrameAhead(receiver)) ==> !receiverBroken && |got| == |old(got)| + 1
    {
      hide Sending;
      hide Pushing;
      hide Receiving;
      hide Pulling;
      hide Wired;
      hide AllEncodable;
      var next, payload, broken := ReaderStep(reader, receiver, got, sender, arrived);
      reader, receiverBroken := next, broken;
      if payload.Some? {
        got := got + [payload.value];
        ReceivingIsPayloads(got, reader, receiver);
        if |got| == |control| {
          FramesAreIn(got, reader, receiver);
        }
      }
    }

    /** The next poll of the bridge. */
    method PullBytes(room: nat)
      requires Valid() && |got| == |control|
      modifies Footprint()
      ensures Valid() && got == old(got) && old(bridged) <= bridged && fresh(Footprint() - old(Footprint()))
      ensures PushSide() == old(PushSide())
      ensures old(receiver.inner.Flowing()) ==> receiver.inner.Flowing()
      ensures room > 0 && old(receiver.inner.Flowing() && receiver.Expecting()) ==> !receiverBroken && |bridged| > |old(bridged)|
    {
      hide Sending;
      hide Pushing;
      hide Receiving;
      hide Pulling;
      hide Wired;
      hide AllPayloads;
      hide AllEncodable;
      hide InnerStream.Flowing;
      hide NoiseStream.Expecting;
      var taken, broken := PullData(got, bridged, room, receiver, sender, arrived);
      bridged, receiverBroken := bridged + taken, broken;
    }

    method Pull(room: nat)
      requires Valid()
      modifies Footprint()
      ensures Valid() && old(got) <= got && old(bridged) <= bridged && fresh(Footprint() - old(Footprint()))
    {
      GotWithin();
      hide Valid;
      if receiverBroken {
        return;
      }
      if |got| < |control| {
        PullFrame();
      } else {
        PullBytes(room);
      }
    }

    lemma GotWithin()
      requires Valid()
      ensures |got| <= |control| && done <= |control|
    {
    }

    method Convey(count: nat)
      requires Valid()
      modifies Footprint()
      ensures Valid() && got == old(got) && bridged == old(bridged) && fresh(Footprint() - old(Footprint()))
      ensures done == old(done) && writer == old(writer) && written == old(written) && offer == old(offer)
      ensures senderBroken == old(senderBroken) && receiverBroken == old(receiverBroken)
      ensures sender.inner.sent == old(sender.inner.sent) && receiver.inner.readEvents == old(receiver.inner.readEvents)
      ensures arrived == (if old(arrived) + count <= |sender.inner.sent| then old(arrived) + count else |sender.inner.sent|)
    {
      hide Sending;
      hide Pushing;
      hide Wired;
      hide AllEncodable;
      hide ParsedAs;
      hide BufferedAs;
      arrived := CarryStep(sender, receiver, arrived, count);
    }

    method Make(move: Move)
      requires Valid()
      modifies Footprint()
      ensures Valid() && old(got) <= got && old(bridged) <= bridged && fresh(Footprint() - old(Footprint()))
    {
      hide *;
      match move
      case Push(size) => Push(size);
      case Pull(room) => Pull(room);
      case Convey(count) => Convey(count);
    }

    method Run(schedule: seq<Move>)
      requires Valid()
      modifies Footprint()
      ensures Valid() && old(got) <= got && old(bridged) <= bridged
    {
      hide Valid;
      ghost var start := Footprint();
      for i := 0 to |schedule|
        invariant Valid() && old(got) <= got && old(bridged) <= bridged && fresh(Footprint() - start)
      {
        ghost var before := Footprint();
        Make(schedule[i]);
        assert Footprint() - start <= (Footprint() - before) + (before - start);
      }
    }

    // ------------------------------------------------------------ completion

    lemma ProvidedFrame()
      requires Valid() && Provided() && Framing()
      ensures var left, later := NextLeft(), LaterBytes(Plain(), control, done + 1) + |data|;
        && done < |control| && Supplied(sender, left) && Willing(sender.inner.writeEvents)
        && sender.sendNonce + left + later <= MAX_NONCE
        && |sender.inner.writeEvents| >= WIRE_FACTOR * (left + later) + (|control| - done)
    {
      hide Pushing;
      hide Receiving;
      hide Pulling;
      hide Wired;
      hide AllEncodable;
      hide Willing;
      hide LaterBytes;
    }

    /** The frame written, what is left is the later ones and the data. */
    lemma StillProvided(events: seq<WriteEvent>, nonce: nat, left: nat, later: nat)
      requires Valid() && writer == None && done > 0 && written == 0
      requires later == LaterBytes(Plain(), control, done) + |data|
      requires Willing(events) && nonce + left + later <= MAX_NONCE
      requires |events| >= WIRE_FACTOR * (left + later) + (|control| - done + 1)
      requires Willing(sender.inner.writeEvents) && sender.sendNonce <= nonce + left
      requires |sender.inner.writeEvents| >= |events| - WIRE_FACTOR * left - 1
      ensures Provided()
    {
      hide Sending;
      hide Pushing;
      hide Receiving;
      hide Pulling;
      hide Wired;
      hide AllEncodable;
      hide Willing;
    }

    method PushNext()
      requires Valid() && !senderBroken && Provided() && done < |control|
      modifies Footprint()
      ensures Valid() && !senderBroken && Provided() && old(done) < done <= |control|
      ensures PullSide() == old(PullSide()) && fresh(Footprint() - old(Footprint()))
    {
      FramingMeans();
      hide *;
      ghost var events, nonce := sender.inner.writeEvents, sender.sendNonce;
      ghost var left, later := NextLeft(), LaterBytes(Plain(), control, done + 1) + |data|;
      ProvidedFrame();
      PushFrame();
      StillProvided(events, nonce, left, later);
    }

    lemma ProvidedBytes()
      requires Valid() && Provided() && !Framing()
      ensures written <= |data| && Ample(sender.inner.writeEvents, sender.sendNonce, |data| - written)
    {
      hide Willing;
    }

    lemma StillAmple(events: seq<WriteEvent>, nonce: nat, before: nat)
      requires Valid() && !Framing() && before <= written <= |data| && Ample(events, nonce, |data| - before)
      requires Willing(sender.inner.writeEvents) && sender.sendNonce <= nonce + (written - before)
      requires |sender.inner.writeEvents| >= |events| - WIRE_FACTOR * (written - before)
      ensures Provided()
    {
      hide Sending;
      hide Pushing;
      hide Receiving;
      hide Pulling;
      hide Wired;
      hide Willing;
    }

    lemma WrittenWithin()
      requires Valid()
      ensures written <= |data| && done <= |control|
    {
    }

    method PushSome()
      requires Valid() && !senderBroken && Provided() && !Framing() && written < |data|
      modifies Footprint()
      ensures Valid() && !senderBroken && Provided() && !Framing() && old(written) < written <= |data|
      ensures PullSide() == old(PullSide()) && fresh(Footprint() - old(Footprint()))
    {
      hide *;
      ghost var events, nonce, before := sender.inner.writeEvents, sender.sendNonce, written;
      ProvidedBytes();
      PushBytes(|data|);
      WrittenWithin();
      StillAmple(events, nonce, before);
    }

    /** All frames, one after the other, each in one poll. */
    method PushFrames()
      requires Valid() && !senderBroken && Provided()
      modifies Footprint()
      ensures Valid() && !senderBroken && Provided() && done == |control|
      ensures PullSide() == old(PullSide()) && fresh(Footprint() - old(Footprint()))
      decreases |control| - done
    {
      WrittenWithin();
      hide *;
      if done < |control| {
        ghost var start := Footprint();
        PushNext();
        ghost var before := Footprint();
        PushFrames();
        assert Footprint() - start <= (Footprint() - before) + (before - start);
      }
    }

    method PushAllBytes()
      requires Valid() && !senderBroken && Provided() && !Framing()
      modifies Footprint()
      ensures Valid() && !senderBroken && !Framing() && written == |data|
      ensures PullSide() == old(PullSide()) && fresh(Footprint() - old(Footprint()))
    {
      WrittenWithin();
      hide *;
      ghost var start := Footprint();
      while written < |data|
        invariant Valid() && !senderBroken && Provided() && !Framing() && written <= |data|
        invariant PullSide() == old(PullSide()) && fresh(Footprint() - start)
        decreases |data| - written
      {
        ghost var before := Footprint();
        PushSome();
        assert Footprint() - start <= (Footprint() - before) + (before - start);
      }
    }

    /** All frames, then all data. */
    method PushTheRest()
      requires Valid() && !senderBroken && Provided()
      modifies Footprint()
      ensures Valid() && !senderBroken && !Framing() && written == |data|
      ensures PullSide() == old(PullSide()) && fresh(Footprint() - old(Footprint()))
    {
      hide Valid;
      hide Provided;
      hide Framing;
      PushFrames();
      FramingMeans();
      PushAllBytes();
    }

    lemma FramingMeans()
      requires Valid()
      ensures Framing() <==> done < |control| || writer.Some?
      ensures Framing() ==> done < |control|
    {
    }

    /** Everything has been sent and has arrived. */
    ghost predicate AllThere()
      requires Valid()
      reads Footprint()
    {
      !Framing() && written == |data| && arrived == |sender.inner.sent|
    }

    method PullFrames()
      requires Valid() && !receiverBroken && AllThere() && receiver.inner.Flowing()
      modifies Footprint()
      ensures Valid() && !receiverBroken && AllThere() && receiver.inner.Flowing() && |got| == |control|
      ensures fresh(Footprint() - old(Footprint()))
    {
      GotWithin();
      hide *;
      ghost var start := Footprint();
      while |got| < |control|
        invariant Valid() && !receiverBroken && AllThere()
        invariant receiver.inner.Flowing() && |got| <= |control| && fresh(Footprint() - start)
        decreases |control| - |got|
      {
        ghost var before := Footprint();
        PullNext();
        assert Footprint() - start <= (Footprint() - before) + (before - start);
      }
    }

    method PullNext()
      requires Valid() && !receiverBroken && AllThere() && receiver.inner.Flowing() && |got| < |control|
      modifies Footprint()
      ensures Valid() && !receiverBroken && AllThere() && receiver.inner.Flowing()
      ensures |got| == |old(got)| + 1 <= |control| && fresh(Footprint() - old(Footprint()))
    {
      hide Valid;
      hide InnerStream.Flowing;
      NextControlAhead(this);
      PullFrame();
      GotWithin();
    }

    method PullSome()
      requires Valid() && !receiverBroken && AllThere() && receiver.inner.Flowing() && |got| == |control|
      requires |bridged| < |data|
      modifies Footprint()
      ensures Valid() && !receiverBroken && AllThere() && receiver.inner.Flowing() && |got| == |control|
      ensures |old(bridged)| < |bridged| <= |data| && fresh(Footprint() - old(Footprint()))
    {
      hide Valid;
      hide InnerStream.Flowing;
      hide NoiseStream.Expecting;
      MoreDataAhead(this);
      PullBytes(|data|);
      BridgeReadsTheData(this);
    }

    method PullAllBytes()
      requires Valid() && !receiverBroken && AllThere() && receiver.inner.Flowing() && |got| == |control|
      modifies Footprint()
      ensures Valid() && |got| == |control| && |bridged| == |data|
    {
      BridgeReadsTheData(this);
      hide *;
      ghost var start := Footprint();
      while |bridged| < |data|
        invariant Valid() && !receiverBroken && AllThere() && receiver.inner.Flowing() && |got| == |control|
        invariant |bridged| <= |data|
        invariant fresh(Footprint() - start)
        decreases |data| - |bridged|
      {
        ghost var before := Footprint();
        PullSome();
        assert Footprint() - start <= (Footprint() - before) + (before - start);
      }
    }

    /** With everything sent and arrived: all frames, then all data. */
    method PullTheRest()
      requires Valid() && !receiverBroken && AllThere() && receiver.inner.Flowing()
      modifies Footprint()
      ensures Valid() && got == control && bridged == data
    {
      hide *;
      PullFrames();
      PullAllBytes();
      BridgeReadsTheData(this);
    }

    /**
     From any point of a handover that nothing has broken: if from then on the transports take and bring
     something on every poll, every control frame is read as one and every byte behind them by the bridge.
     */
    method Complete()
      requires Valid() && !senderBroken && !receiverBroken && Provided()
      requires Bringing(receiver.inner.readEvents)
      requires |receiver.inner.readEvents| >= WIRE_FACTOR * (LaterBytes(Plain(), control, 0) + |data|)
      modifies Footprint()
      ensures Valid() && got == control && bridged == data
    {
      FramesAreBytes();
      hide *;
      PushAndCarry();
      PullTheRest();
    }

    lemma FramesAreBytes()
      requires Valid()
      ensures AllPayloads(control) && |ControlFrames(control)| == LaterBytes(Plain(), control, 0)
    {
      ControlBytes(control);
    }

    method PushAndCarry()
      requires Valid() && !senderBroken && !receiverBroken && Provided()
      requires Bringing(receiver.inner.readEvents) && AllPayloads(control)
      requires |receiver.inner.readEvents| >= WIRE_FACTOR * (|ControlFrames(control)| + |data|)
      modifies Footprint()
      ensures Valid() && !receiverBroken && AllThere() && receiver.inner.Flowing()
      ensures fresh(Footprint() - old(Footprint()))
    {
      hide Valid;
      hide Provided;
      hide Framing;
      hide AllPayloads;
      hide Bringing;
      hide InnerStream.Flowing;
      hide ControlFrames;
      PushTheRest();
      Arrive();
    }

    lemma FlowingNow()
      requires Valid() && AllThere() && Bringing(receiver.inner.readEvents) && AllPayloads(control)
      requires |receiver.inner.readEvents| >= WIRE_FACTOR * (|ControlFrames(control)| + |data|)
      ensures receiver.inner.Flowing()
    {
      AllHandedToTheNetwork(this);
    }

    method Arrive()
      requires Valid() && !senderBroken && !receiverBroken && !Framing() && written == |data|
      requires Bringing(receiver.inner.readEvents) && AllPayloads(control)
      requires |receiver.inner.readEvents| >= WIRE_FACTOR * (|ControlFrames(control)| + |data|)
      modifies Footprint()
      ensures Valid() && !receiverBroken && AllThere() && receiver.inner.Flowing()
      ensures fresh(Footprint() - old(Footprint()))
    {
      hide Valid;
      hide Bringing;
      hide InnerStream.Flowing;
      Convey(|sender.inner.sent|);
      FlowingNow();
    }
  }

  /** What the sending end has accepted or sealed is a prefix of its frames and its data. */
  lemma FramesInOrder(talk: Changeover)
    requires talk.Valid() && talk.Framing()
    ensures talk.sender.WriteValid()
    ensures talk.sender.Accepted() + talk.sender.InFlight() <= ControlFrames(talk.control) + talk.data
  {
    hide SentAs;
    hide ControlFrames;
    hide Receiving;
    hide Pulling;
    hide Wired;
    var through := SendingStaysInFrames(Plain(), talk.control, talk.done, talk.writer, talk.sender);
    var front, rest := talk.control[..through], talk.control[through..];
    assert Payloads(Plain(), front) == front && talk.control == front + rest;
    FramesJoin(front, rest);
  }

  lemma DataInOrder(control: seq<seq<byte>>, data: seq<byte>, written: nat, offer: nat, sender: NoiseStream)
    requires AllPayloads(control) && Pushing(control, data, written, offer, sender)
    ensures sender.WriteValid() && sender.Accepted() + sender.InFlight() <= ControlFrames(control) + data
  {
    hide SentAs;
    hide ControlFrames;
    assert data == data[..written] + data[written..offer] + data[offer..];
  }

  lemma SentInOrder(talk: Changeover)
    requires talk.Valid()
    ensures talk.sender.WriteValid()
    ensures talk.sender.Accepted() + talk.sender.InFlight() <= ControlFrames(talk.control) + talk.data
  {
    hide Sending;
    hide Pushing;
    hide Receiving;
    hide Pulling;
    hide Wired;
    if talk.Framing() {
      FramesInOrder(talk);
    } else {
      DataInOrder(talk.control, talk.data, talk.written, talk.offer, talk.sender);
    }
  }

  /** The bridge starts behind the last control frame and reads what was written there, in order. */
  lemma BridgeReadsTheData(talk: Changeover)
    requires talk.Valid()
    ensures talk.got <= talk.control && talk.bridged <= talk.data
    ensures talk.bridged != [] ==> talk.got == talk.control
  {
    hide SentAs;
    hide ParsedAs;
    hide BufferedAs;
    hide ControlFrames;
    SentInOrder(talk);
    WiredIsConnected(talk.sender, talk.receiver, talk.arrived);
    DeliveredIsPrefixOfWritten(talk.sender, talk.receiver);
    var rest := if |talk.got| < |talk.control| then talk.reader.Taken() else talk.bridged;
    assert talk.receiver.delivered == ControlFrames(talk.got) + rest;
    assert talk.receiver.delivered <= talk.receiver.delivered + talk.receiver.Leftover();
    FramesThenData(talk.got, rest, talk.control, talk.data);
    if |talk.got| == |talk.control| {
      NoFramesLeft(talk.control, talk.data);
    }
  }

  lemma NoFramesLeft(control: seq<seq<byte>>, data: seq<byte>)
    requires AllPayloads(control)
    ensures AllPayloads(control[|control|..]) && ControlFrames(control[|control|..]) + data == data
  {
  }

  /**
   A whole handover. Whatever the control frames and the data, the order of the polls, their sizes, and the
   scripts of the two transports, the frames read are the first ones written, and once they have all been
   read, the bytes the bridge takes are the first bytes of the data.
   */
  method HandOver(control: seq<seq<byte>>, data: seq<byte>, sender: NoiseStream, receiver: NoiseStream,
                  schedule: seq<Move>)
    returns (got: seq<seq<byte>>, bridged: seq<byte>)
    requires AllPayloads(control)
    requires sender.WriteValid() && receiver.ReadValid() && Apart(sender, receiver)
    requires sender.chunks == [] && sender.pendingWrite == None && receiver.delivered == []
    requires Wired(sender, receiver, 0)
    modifies sender, sender.inner, receiver, receiver.inner, receiver.readHeader
    ensures got <= control && bridged <= data
    ensures bridged != [] ==> got == control
  {
    var talk := new Changeover(control, data, sender, receiver);
    talk.Run(schedule);
    BridgeReadsTheData(talk);
    got, bridged := talk.got, talk.bridged;
  }

  /** Everything has been written, carried, opened and handed out. */
  ghost predicate AllHandedOver(talk: Changeover)
    reads talk.Footprint(), talk
  {
    && talk.Valid() && !talk.Framing() && talk.written == |talk.data|
    && talk.arrived == |talk.sender.inner.sent| && talk.receiver.inner.incoming == []
    && talk.receiver.Leftover() == [] && !HasFrame(talk.receiver.Partial())
  }

  /** Then every frame has been read as a frame and every byte behind them by the bridge. */
  lemma NothingLost(talk: Changeover)
    requires AllHandedOver(talk)
    ensures talk.got == talk.control && talk.bridged == talk.data
  {
    hide SentAs;
    hide ParsedAs;
    hide BufferedAs;
    hide ControlFrames;
    BridgeReadsTheData(talk);
    var sender, receiver := talk.sender, talk.receiver;
    WiredIsConnected(sender, receiver, talk.arrived);
    assert sender.InFlight() == [] && talk.data[..talk.written] == talk.data;
    NothingInFlight(sender);
    assert receiver.inner.received == sender.inner.sent;
    DeliveredIsPrefixOfWritten(sender, receiver);
    assert receiver.Leftover() == [] && receiver.delivered + [] == receiver.delivered;
    assert receiver.delivered == sender.Accepted();
    assert sender.Accepted() == ControlFrames(talk.control) + talk.data;
    if |talk.got| < |talk.control| {
      AllTaken(talk.reader, talk.got, talk.control, talk.data);
    } else {
      var frames := ControlFrames(talk.control);
      assert talk.got == talk.control && frames + talk.bridged == frames + talk.data;
      assert (frames + talk.bridged)[|frames|..] == talk.bridged && (frames + talk.data)[|frames|..] == talk.data;
    }
  }

  /** A reader of frames does not stop inside a frame that is all there. */
  lemma AllTaken(reader: FrameReader, got: seq<seq<byte>>, control: seq<seq<byte>>, data: seq<byte>)
    requires reader.Shape() && !reader.Complete() && AllPayloads(control) && got <= control
    requires ControlFrames(got) + reader.Taken() == ControlFrames(control) + data
    ensures got == control
  {
    hide ControlFrames;
    var rest := control[|got|..];
    assert control == got + rest;
    FramesJoin(got, rest);
    assert (ControlFrames(got) + reader.Taken())[|ControlFrames(got)|..] == reader.Taken();
    assert (ControlFrames(got) + (ControlFrames(rest) + data))[|ControlFrames(got)|..] == ControlFrames(rest) + data;
    assert ControlFrames(got) + (ControlFrames(rest) + data) == ControlFrames(control) + data;
    IncompleteFrame(reader, rest);
  }

  lemma ControlBytes(control: seq<seq<byte>>)
    requires AllPayloads(control)
    ensures |ControlFrames(control)| == LaterBytes(Plain(), control, 0)
  {
    PlainPayloads(control);
    assert Payloads(Plain(), control) == control;
    FramesAreLaterBytes(Plain(), control, 0);
  }

  /** All frames and data are out and carried: the receiving end will get them, all of them. */
  lemma AllHandedToTheNetwork(talk: Changeover)
    requires talk.Valid() && talk.AllThere()
    ensures talk.receiver.AllPlain() == ControlFrames(talk.control) + talk.data
    ensures talk.receiver.AllFailures() == talk.receiver.failures
    ensures |talk.receiver.inner.incoming| <= WIRE_FACTOR * (|ControlFrames(talk.control)| + |talk.data|)
  {
    var sender, receiver := talk.sender, talk.receiver;
    WiredIsConnected(sender, receiver, talk.arrived);
    DeliveredIsPrefixOfWritten(sender, receiver);
    assert sender.InFlight() == [] && talk.data[..talk.written] == talk.data;
    NothingInFlight(sender);
    ParseEncode(sender.sendCipher, 0, sender.chunks);
    EncodeSize(sender.sendCipher, 0, sender.chunks);
    hide ParsedAs;
    hide BufferedAs;
    hide ControlFrames;
    assert receiver.inner.offered == sender.inner.sent == Encode(sender.sendCipher, 0, sender.chunks);
  }

  lemma NextControlAhead(talk: Changeover)
    requires talk.Valid() && talk.AllThere() && |talk.got| < |talk.control|
    ensures talk.reader.FrameAhead(talk.receiver)
  {
    AllHandedToTheNetwork(talk);
    var control, got, k := talk.control, talk.got, |talk.got|;
    DeliveredIsFront(talk.receiver);
    hide ParsedAs;
    hide BufferedAs;
    hide NoiseStream.AllPlain;
    hide NoiseStream.AllFailures;
    hide Pushing;
    FramesThenData(got, talk.reader.Taken(), control, talk.data);
    assert control == got + control[k..];
    FramesJoin(got, control[k..]);
    var rest := ControlFrames(control[k..]);
    assert rest == ControlFrame(control[k]) + ControlFrames(control[k..][1..]);
    assert rest[..4] == ToU32(|control[k]|);
    assert talk.receiver.AllPlain()[|talk.reader.base|..|talk.reader.base| + 4] == rest[..4];
    U32RoundTrip(|control[k]|);
  }

  lemma MoreDataAhead(talk: Changeover)
    requires talk.Valid() && talk.AllThere() && |talk.got| == |talk.control| && |talk.bridged| < |talk.data|
    ensures talk.receiver.Expecting()
  {
    AllHandedToTheNetwork(talk);
    BridgeReadsTheData(talk);
    hide ParsedAs;
    hide BufferedAs;
    hide NoiseStream.AllPlain;
    hide NoiseStream.AllFailures;
    hide ControlFrames;
    assert talk.got == talk.control;
  }
}
