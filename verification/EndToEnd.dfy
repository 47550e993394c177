/** Whole conversations over the encrypted stream: any messages, any schedule of polls, any fragmentation. */
module EndToEnd {
  import opened Bytes
  import opened Wire
  import opened Noise
  import opened Frames

  /** Who goes next: the writing task, the reading task, or the network with up to `count` bytes. */
  datatype Turn = WriterTurn | ReaderTurn | Carry(count: nat)

  ghost predicate AllEncodable<M>(codec: Codec<M>, messages: seq<M>) {
    forall i :: 0 <= i < |messages| ==> ValidFrameLength(|codec.encode(messages[i])|)
  }

  ghost function Payloads<M>(codec: Codec<M>, messages: seq<M>): (p: seq<seq<byte>>)
    ensures |p| == |messages| && forall i :: 0 <= i < |messages| ==> p[i] == codec.encode(messages[i])
  {
    seq(|messages|, i requires 0 <= i < |messages| => codec.encode(messages[i]))
  }

  lemma EncodedPrefix<M>(codec: Codec<M>, messages: seq<M>, count: nat)
    requires AllEncodable(codec, messages) && count <= |messages|
    ensures AllPayloads(Payloads(codec, messages[..count]))
    ensures EncodedAs(codec, messages[..count], Payloads(codec, messages[..count]))
  {
  }

  lemma OnePayloadMore<M>(codec: Codec<M>, messages: seq<M>, count: nat)
    requires AllEncodable(codec, messages) && count < |messages|
    ensures Payloads(codec, messages[..count + 1]) == Payloads(codec, messages[..count]) + [codec.encode(messages[count])]
  {
  }

  /** The objects of the two ends are different objects. */
  ghost predicate Apart(sender: NoiseStream, receiver: NoiseStream) {
    && sender != receiver && sender.inner != receiver.inner && sender.readHeader != receiver.readHeader
  }

  /** The sending side: `count` messages written, and perhaps the next one on its way. */
  ghost predicate Sending<M>(codec: Codec<M>, messages: seq<M>, count: nat, writer: Option<FrameWriter>,
                             sender: NoiseStream)
    requires AllEncodable(codec, messages) && count <= |messages|
    reads sender, sender.inner, if writer.Some? then {writer.value} else {}
  {
    EncodedPrefix(codec, messages, count);
    if writer.None? then
      && sender.WriteValid() && sender.pendingWrite == None
      && sender.Accepted() == ControlFrames(Payloads(codec, messages[..count]))
    else
      && count < |messages| && writer.value.Valid(sender) && writer.value.payload == codec.encode(messages[count])
      && writer.value.base == ControlFrames(Payloads(codec, messages[..count]))
  }

  /** What is on its way is always a prefix of the frames of the messages. */
  lemma SendingStaysInFrames<M>(codec: Codec<M>, messages: seq<M>, count: nat, writer: Option<FrameWriter>,
                                sender: NoiseStream)
    returns (through: nat)
    requires AllEncodable(codec, messages) && count <= |messages| && Sending(codec, messages, count, writer, sender)
    ensures count <= through <= |messages| && AllPayloads(Payloads(codec, messages[..through]))
    ensures sender.Accepted() + sender.InFlight() <= ControlFrames(Payloads(codec, messages[..through]))
  {
    hide SentAs;
    hide ControlFrames;
    hide WrittenAs;
    hide NoiseStream.Accepted;
    EncodedPrefix(codec, messages, count);
    if writer.None? {
      through := count;
      assert sender.InFlight() == [];
      assert sender.Accepted() + [] == sender.Accepted();
    } else {
      through := count + 1;
      EncodedPrefix(codec, messages, through);
      WriterStaysInFrame(writer.value, sender, Payloads(codec, messages[..count]));
      OnePayloadMore(codec, messages, count);
    }
  }

  /** The network carries a prefix of what has been sent, in order and unaltered. */
  ghost predicate Wired(sender: NoiseStream, receiver: NoiseStream, arrived: nat)
    reads sender, sender.inner, receiver, receiver.inner
  {
    && sender.sendCipher == receiver.recvCipher
    && arrived <= |sender.inner.sent| && receiver.inner.offered == sender.inner.sent[..arrived]
  }

  /** How much of the message in hand, or of the next one, is not reported as written. */
  ghost function LeftOf<M>(codec: Codec<M>, messages: seq<M>, count: nat, current: Option<FrameWriter>): nat
    requires count <= |messages| && (current.Some? ==> current.value.Shape())
    reads if current.Some? then {current.value} else {}
  {
    match current
    case Some(writer) => writer.Left()
    case None => if count < |messages| then 4 + |codec.encode(messages[count])| else 0
  }

  /** Polls of a willing transport and nonces for `count` bytes of plaintext and a flush. */
  ghost predicate Supplied(sender: NoiseStream, count: nat)
    reads sender, sender.inner
  {
    Ample(sender.inner.writeEvents, sender.sendNonce, count) && |sender.inner.writeEvents| > WIRE_FACTOR * count
  }

  /** One poll of the writing task; it starts the next message when the last one is out. */
  method WriterStep<M>(codec: Codec<M>, messages: seq<M>, count: nat, current: Option<FrameWriter>, sender: NoiseStream,
                       ghost receiver: NoiseStream, ghost arrived: nat)
    returns (done: nat, writer: Option<FrameWriter>, broken: bool)
    requires AllEncodable(codec, messages) && count <= |messages| && Sending(codec, messages, count, current, sender)
    requires Apart(sender, receiver) && Wired(sender, receiver, arrived)
    modifies if current.Some? then {current.value} else {}
    modifies sender`pendingWrite, sender`chunks, sender`sendNonce
    modifies sender.inner`writeEvents, sender.inner`sent, sender.inner`lastWrite, sender.inner`lastOffer,
             sender.inner`lastClaim, sender.inner`shut, sender.inner`flushed
    ensures count <= done <= |messages| && Sending(codec, messages, done, writer, sender)
    ensures writer.None? || writer == current || fresh(writer.value)
    ensures broken ==> exists error :: BrokenBy(sender, error)
    ensures Wired(sender, receiver, arrived)
    ensures Willing(old(sender.inner.writeEvents)) ==> Willing(sender.inner.writeEvents)
    // a message goes out in one poll when the transport takes something on every write
    ensures count < |messages| && old(Supplied(sender, LeftOf(codec, messages, count, current))) ==>
      && done == count + 1 && writer == None && !broken
      && sender.sendNonce <= old(sender.sendNonce + LeftOf(codec, messages, count, current))
      && |sender.inner.writeEvents|
         >= old(|sender.inner.writeEvents| - WIRE_FACTOR * LeftOf(codec, messages, count, current) - 1)
  {
    hide SentAs;
    hide WrittenAs;
    hide ControlFrames;
    done, writer, broken := count, current, false;
    if writer.None? {
      if count == |messages| {
        return;
      }
      var next := new FrameWriter(sender, codec.encode(messages[count]));
      writer := Some(next);
    }
    var result := writer.value.Poll(sender);
    match result
    case WriteSuspended =>
    case WriteBroken(_) => broken := true;
    case WriteDone =>
      EncodedPrefix(codec, messages, count);
      OnePayloadMore(codec, messages, count);
      ControlFramesSnoc(Payloads(codec, messages[..count]), writer.value.payload);
      done, writer := count + 1, None;
  }

  /** The frames of the messages from `count` on. */
  ghost function LaterBytes<M>(codec: Codec<M>, messages: seq<M>, count: nat): nat
    decreases |messages| - count
  {
    if count >= |messages| then 0 else 4 + |codec.encode(messages[count])| + LaterBytes(codec, messages, count + 1)
  }

  lemma {:induction false} FramesAreLaterBytes<M>(codec: Codec<M>, messages: seq<M>, count: nat)
    requires AllEncodable(codec, messages) && count <= |messages|
    ensures AllPayloads(Payloads(codec, messages)[count..])
    ensures |ControlFrames(Payloads(codec, messages)[count..])| == LaterBytes(codec, messages, count)
    ensures Payloads(codec, messages)[0..] == Payloads(codec, messages)
    decreases |messages| - count
  {
    if count < |messages| {
      FramesAreLaterBytes(codec, messages, count + 1);
      var rest := Payloads(codec, messages)[count..];
      assert rest[1..] == Payloads(codec, messages)[count + 1..];
    }
  }

  /** The receiving side: `got` read, and the next frame being read. */
  ghost predicate Receiving(got: seq<seq<byte>>, reader: FrameReader, receiver: NoiseStream)
    reads reader, reader.header, receiver, receiver.inner, receiver.readHeader
  {
    AllPayloads(got) && reader.Valid(receiver) && !reader.Complete() && reader.base == ControlFrames(got)
  }

  /** One poll of the reading task; behind a whole frame it starts on the next one. */
  method ReaderStep(reader: FrameReader, receiver: NoiseStream, ghost got: seq<seq<byte>>,
                    ghost sender: NoiseStream, ghost arrived: nat)
    returns (next: FrameReader, payload: Option<seq<byte>>, broken: bool)
    requires Receiving(got, reader, receiver) && Apart(sender, receiver) && Wired(sender, receiver, arrived)
    modifies reader, reader.header
    modifies receiver`readHeaderFilled, receiver`readBody, receiver`readBodyFilled, receiver`recvNonce, receiver`plaintext
    modifies receiver`plaintextOffset, receiver`consumed, receiver`failures, receiver`delivered, receiver.readHeader
    modifies receiver.inner`readEvents, receiver.inner`incoming, receiver.inner`received, receiver.inner`lastRead
    ensures Receiving(if payload.Some? then got + [payload.value] else got, next, receiver)
    ensures next == reader || (fresh(next) && fresh(next.header))
    ensures payload.Some? ==> next.Taken() == []
    ensures Wired(sender, receiver, arrived)
    ensures old(receiver.inner.Flowing()) ==> receiver.inner.Flowing()
    ensures old(receiver.inner.Flowing() && reader.FrameAhead(receiver)) ==> payload.Some? && !broken
  {
    hide ParsedAs;
    hide BufferedAs;
    hide ControlFrames;
    next, payload, broken := reader, None, false;
    var result := reader.Poll(receiver);
    match result
    case FramePending =>
    case FrameFailed(_) => broken := true;
    case FrameDone(bytes) =>
      ControlFramesSnoc(got, bytes);
      payload := Some(bytes);
      next := new FrameReader(receiver);
  }

  /** The network brings up to `count` bytes that have been sent and not yet arrived. */
  method CarryStep(sender: NoiseStream, receiver: NoiseStream, arrived: nat, count: nat) returns (until: nat)
    requires Apart(sender, receiver) && Wired(sender, receiver, arrived) && receiver.ReadValid()
    modifies receiver.inner`incoming, receiver.inner`offered
    ensures Wired(sender, receiver, until) && receiver.ReadValid()
    ensures until == if arrived + count <= |sender.inner.sent| then arrived + count else |sender.inner.sent|
  {
    hide ParsedAs;
    hide BufferedAs;
    until := if arrived + count <= |sender.inner.sent| then arrived + count else |sender.inner.sent|;
    receiver.inner.Deliver(sender.inner.sent[arrived..until]);
    assert sender.inner.sent[..until] == sender.inner.sent[..arrived] + sender.inner.sent[arrived..until];
  }

  lemma WiredIsConnected(sender: NoiseStream, receiver: NoiseStream, arrived: nat)
    requires Wired(sender, receiver, arrived) && receiver.ReadValid()
    ensures Connected(sender, receiver)
  {
    hide ParsedAs;
    hide BufferedAs;
    assert receiver.inner.received <= receiver.inner.offered;
  }

  /** What has been read, message for message, is what was written first. */
  lemma ReadIsPrefix<M(!new)>(codec: Codec<M>, messages: seq<M>, count: nat, writer: Option<FrameWriter>,
                              sender: NoiseStream, got: seq<seq<byte>>, reader: FrameReader, receiver: NoiseStream, arrived: nat)
    requires LawfulCodec(codec) && AllEncodable(codec, messages) && count <= |messages|
    requires Sending(codec, messages, count, writer, sender) && Receiving(got, reader, receiver)
    requires Wired(sender, receiver, arrived)
    ensures |got| <= |messages| && forall i :: 0 <= i < |got| ==> codec.decode(got[i]) == Some(messages[i])
  {
    var through := SendingStaysInFrames(codec, messages, count, writer, sender);
    EncodedPrefix(codec, messages, through);
    var payloads := Payloads(codec, messages[..through]);
    WiredIsConnected(sender, receiver, arrived);
    hide Sending;
    hide ControlFrames;
    MessagesArriveInOrder(codec, sender, receiver, messages[..through], payloads, got, reader.Taken());
  }

  lemma NothingYet<M>(codec: Codec<M>, messages: seq<M>, sender: NoiseStream, reader: FrameReader, receiver: NoiseStream)
    requires AllEncodable(codec, messages) && sender.WriteValid() && reader.Valid(receiver) && !reader.Complete()
    requires sender.chunks == [] && sender.pendingWrite == None && reader.base == []
    ensures Sending(codec, messages, 0, None, sender) && Receiving([], reader, receiver)
  {
    hide SentAs;
  }

  /** A message read is the next one written. */
  lemma NextRead<M(!new)>(codec: Codec<M>, messages: seq<M>, read: seq<M>, got: seq<seq<byte>>)
    requires 0 < |got| == |read| + 1 <= |messages| && read <= messages
    requires forall i :: 0 <= i < |got| ==> codec.decode(got[i]) == Some(messages[i])
    ensures codec.decode(got[|read|]) == Some(messages[|read|]) && read + [messages[|read|]] <= messages
  {
  }

  /** The two tasks and what they have done so far. */
  class Conversation<M(!new)> {
    const codec: Codec<M>
    const messages: seq<M>
    const sender: NoiseStream
    const receiver: NoiseStream
    var done: nat
    var arrived: nat
    var writer: Option<FrameWriter>
    var reader: FrameReader
    var writerBroken: bool
    var readerBroken: bool
    var read: seq<M>
    ghost var got: seq<seq<byte>>

    ghost function Footprint(): set<object>
      reads this
    {
      {this, sender, sender.inner, receiver, receiver.inner, receiver.readHeader, reader, reader.header}
      + if writer.Some? then {writer.value} else {}
    }

    ghost predicate Valid()
      reads Footprint()
    {
      && LawfulCodec(codec) && AllEncodable(codec, messages) && Apart(sender, receiver)
      && reader.header != sender.readHeader
      && done <= |messages| && Sending(codec, messages, done, writer, sender)
      && Receiving(got, reader, receiver) && Wired(sender, receiver, arrived)
      && |got| == |read| && read <= messages
    }

    constructor (codec: Codec<M>, messages: seq<M>, sender: NoiseStream, receiver: NoiseStream)
      requires LawfulCodec(codec) && AllEncodable(codec, messages)
      requires sender.WriteValid() && receiver.ReadValid() && Apart(sender, receiver)
      requires sender.chunks == [] && sender.pendingWrite == None && receiver.delivered == []
      requires Wired(sender, receiver, 0)
      ensures Valid() && this.messages == messages && this.sender == sender && this.receiver == receiver
      ensures fresh(Footprint() - {sender, sender.inner, receiver, receiver.inner, receiver.readHeader})
    {
      hide Sending;
      hide Receiving;
      hide Wired;
      hide LawfulCodec;
      hide AllEncodable;
      this.codec, this.messages, this.sender, this.receiver := codec, messages, sender, receiver;
      done, arrived, writer, writerBroken, readerBroken, read, got := 0, 0, None, false, false, [], [];
      var first := new FrameReader(receiver);
      reader := first;
      NothingYet(codec, messages, sender, first, receiver);
    }

    /** How much of the message in hand, or of the next one, is not reported as written. */
    ghost function NextLeft(): nat
      requires Valid()
      reads Footprint()
    {
      LeftOf(codec, messages, done, writer)
    }

    /** Polls of a willing transport and nonces for all that is left to write. */
    ghost predicate Provided()
      requires Valid()
      reads Footprint()
    {
      var left := NextLeft() + LaterBytes(codec, messages, done + 1);
      && Willing(sender.inner.writeEvents) && sender.sendNonce + left <= MAX_NONCE
      && |sender.inner.writeEvents| >= WIRE_FACTOR * left + (|messages| - done)
    }

    method WriterTakesTurn()
      requires Valid()
      modifies Footprint()
      ensures Valid() && read == old(read) && fresh(Footprint() - old(Footprint()))
      ensures got == old(got) && arrived == old(arrived) && readerBroken == old(readerBroken)
      ensures receiver.inner.readEvents == old(receiver.inner.readEvents)
      ensures Willing(old(sender.inner.writeEvents)) ==> Willing(sender.inner.writeEvents)
      ensures old(!writerBroken && done < |messages| && Supplied(sender, NextLeft())) ==>
                && !writerBroken && done == old(done) + 1 && writer == None
                && sender.sendNonce <= old(sender.sendNonce + NextLeft())
                && |sender.inner.writeEvents| >= old(|sender.inner.writeEvents| - WIRE_FACTOR * NextLeft() - 1)
    {
      hide Sending;
      hide Receiving;
      hide Wired;
      hide LawfulCodec;
      hide AllEncodable;
      if !writerBroken {
        done, writer, writerBroken := WriterStep(codec, messages, done, writer, sender, receiver, arrived);
      }
    }

    /** The message written, what is left is the later ones. */
    lemma StillProvided(events: seq<WriteEvent>, nonce: nat, left: nat, later: nat)
      requires Valid() && writer == None && done > 0 && later == LaterBytes(codec, messages, done)
      requires Willing(events) && nonce + left + later <= MAX_NONCE
      requires |events| >= WIRE_FACTOR * (left + later) + (|messages| - done + 1)
      requires Willing(sender.inner.writeEvents) && sender.sendNonce <= nonce + left
      requires |sender.inner.writeEvents| >= |events| - WIRE_FACTOR * left - 1
      ensures Provided()
    {
      hide Sending;
      hide Receiving;
      hide Wired;
      hide LawfulCodec;
      hide AllEncodable;
      hide Willing;
    }

    lemma ProvidedNow()
      requires Valid() && Provided() && done < |messages|
      ensures var left, later := NextLeft(), LaterBytes(codec, messages, done + 1);
        && Supplied(sender, left) && Willing(sender.inner.writeEvents)
        && sender.sendNonce + left + later <= MAX_NONCE
        && |sender.inner.writeEvents| >= WIRE_FACTOR * (left + later) + (|messages| - done)
    {
      hide Valid;
      hide Willing;
      hide LaterBytes;
    }

    method WriteNext()
      requires Valid() && !writerBroken && Provided() && done < |messages|
      modifies Footprint()
      ensures Valid() && !writerBroken && Provided() && done == old(done) + 1 && writer == None
      ensures fresh(Footprint() - old(Footprint())) && read == old(read) && got == old(got)
      ensures readerBroken == old(readerBroken) && receiver.inner.readEvents == old(receiver.inner.readEvents)
    {
      hide *;
      ghost var events, nonce := sender.inner.writeEvents, sender.sendNonce;
      ghost var left, later := NextLeft(), LaterBytes(codec, messages, done + 1);
      ProvidedNow();
      WriterTakesTurn();
      StillProvided(events, nonce, left, later);
    }

    method NetworkTakesTurn(count: nat)
      requires Valid()
      modifies Footprint()
      ensures Valid() && read == old(read) && fresh(Footprint() - old(Footprint()))
      ensures got == old(got) && done == old(done) && writer == old(writer)
      ensures writerBroken == old(writerBroken) && readerBroken == old(readerBroken)
      ensures sender.inner.sent == old(sender.inner.sent) && receiver.inner.readEvents == old(receiver.inner.readEvents)
      ensures arrived == (if old(arrived) + count <= |sender.inner.sent| then old(arrived) + count else |sender.inner.sent|)
    {
      hide Sending;
      hide ParsedAs;
      hide BufferedAs;
      hide Wired;
      hide LawfulCodec;
      hide AllEncodable;
      arrived := CarryStep(sender, receiver, arrived, count);
    }

    method ReaderTakesTurn()
      requires Valid()
      modifies Footprint()
      ensures Valid() && old(read) <= read && fresh(Footprint() - old(Footprint()))
      ensures done == old(done) && writer == old(writer) && arrived == old(arrived) && writerBroken == old(writerBroken)
      ensures sender.inner.sent == old(sender.inner.sent)
      ensures old(receiver.inner.Flowing()) ==> receiver.inner.Flowing()
      ensures old(!readerBroken && receiver.inner.Flowing() && reader.FrameAhead(receiver)) ==>
                !readerBroken && |read| == |old(read)| + 1
    {
      hide Sending;
      hide Receiving;
      hide Wired;
      hide LawfulCodec;
      hide AllEncodable;
      if readerBroken {
        return;
      }
      var next, payload, broken := ReaderStep(reader, receiver, got, sender, arrived);
      reader, readerBroken := next, broken;
      if payload.Some? {
        got := got + [payload.value];
        ReadIsPrefix(codec, messages, done, writer, sender, got, reader, receiver, arrived);
        NextRead(codec, messages, read, got);
        var message := codec.decode(payload.value);
        read := read + [message.value];
      }
    }

    method TakeTurn(turn: Turn)
      requires Valid()
      modifies Footprint()
      ensures Valid() && old(read) <= read && fresh(Footprint() - old(Footprint()))
    {
      hide *;
      match turn
      case WriterTurn => WriterTakesTurn();
      case Carry(count) => NetworkTakesTurn(count);
      case ReaderTurn => ReaderTakesTurn();
    }

    method Run(schedule: seq<Turn>)
      requires Valid()
      modifies Footprint()
      ensures Valid() && old(read) <= read
    {
      hide Valid;
      ghost var start := Footprint();
      for i := 0 to |schedule|
        invariant Valid() && old(read) <= read && fresh(Footprint() - start)
      {
        ghost var before := Footprint();
        TakeTurn(schedule[i]);
        assert Footprint() - start <= (Footprint() - before) + (before - start);
      }
    }

    /** One message after the other, each in one poll. */
    method WriteTheRest()
      requires Valid() && !writerBroken && Provided()
      modifies Footprint()
      ensures Valid() && done == |messages| && writer == None && !writerBroken && fresh(Footprint() - old(Footprint()))
      ensures read == old(read) && got == old(got) && readerBroken == old(readerBroken)
      ensures receiver.inner.readEvents == old(receiver.inner.readEvents)
    {
      assert done == |messages| ==> writer == None;
      hide Valid;
      hide Provided;
      ghost var start := Footprint();
      while done < |messages|
        invariant Valid() && !writerBroken && Provided() && fresh(Footprint() - start)
        invariant done <= |messages| && (done == |messages| ==> writer == None)
        invariant read == old(read) && got == old(got) && readerBroken == old(readerBroken)
        invariant receiver.inner.readEvents == old(receiver.inner.readEvents)
        decreases |messages| - done
      {
        ghost var before := Footprint();
        WriteNext();
        assert Footprint() - start <= (Footprint() - before) + (before - start);
      }
    }

    /** With everything sent and arrived, one message after the other, each in one poll. */
    method ReadTheRest()
      requires Valid() && !readerBroken && done == |messages| && arrived == |sender.inner.sent| && receiver.inner.Flowing()
      modifies Footprint()
      ensures Valid() && read == messages
    {
      ghost var start := Footprint();
      while |read| < |messages|
        invariant Valid() && !readerBroken && done == |messages| && arrived == |sender.inner.sent|
        invariant receiver.inner.Flowing() && fresh(Footprint() - start)
        decreases |messages| - |read|
      {
        NextFrameAhead(this);
        ghost var before := Footprint();
        ReaderTakesTurn();
        assert Footprint() - start <= (Footprint() - before) + (before - start);
      }
    }

    /**
     From any point of a conversation that nothing has broken: if from then on the transports take and bring
     something on every poll, the remaining messages are written, carried and read, down to the last.
     */
    method Complete()
      requires Valid() && !writerBroken && !readerBroken && Provided()
      requires Bringing(receiver.inner.readEvents)
      requires |receiver.inner.readEvents| >= WIRE_FACTOR * LaterBytes(codec, messages, 0)
      modifies Footprint()
      ensures Valid() && read == messages
    {
      WriteTheRest();
      NetworkTakesTurn(|sender.inner.sent|);
      AllOnTheWay(this);
      FramesAreLaterBytes(codec, messages, 0);
      ReadTheRest();
    }
  }

  /**
   A whole conversation. Whatever the messages, the order in which the two tasks and the network take their
   turns, and the scripts of the two transports, what has been decoded is a prefix of the messages written.
   */
  method Converse<M(!new)>(codec: Codec<M>, messages: seq<M>, sender: NoiseStream, receiver: NoiseStream,
                           schedule: seq<Turn>)
    returns (read: seq<M>)
    requires LawfulCodec(codec) && AllEncodable(codec, messages)
    requires sender.WriteValid() && receiver.ReadValid() && Apart(sender, receiver)
    requires sender.chunks == [] && sender.pendingWrite == None && receiver.delivered == []
    requires Wired(sender, receiver, 0)
    modifies sender, sender.inner, receiver, receiver.inner, receiver.readHeader
    ensures read <= messages
  {
    var talk := new Conversation(codec, messages, sender, receiver);
    talk.Run(schedule);
    read := talk.read;
  }

  /** Everything has been written, carried, opened and handed to the reading task. */
  ghost predicate Quiet<M(!new)>(talk: Conversation<M>)
    reads talk.Footprint(), talk
  {
    && talk.Valid() && talk.done == |talk.messages|
    && talk.arrived == |talk.sender.inner.sent| && talk.receiver.inner.incoming == []
    && talk.receiver.Leftover() == [] && !HasFrame(talk.receiver.Partial())
  }

  /** Then every message has been read. */
  lemma NothingMissing<M(!new)>(talk: Conversation<M>)
    requires Quiet(talk)
    ensures talk.read == talk.messages
  {
    var payloads := Payloads(talk.codec, talk.messages);
    assert talk.messages[..|talk.messages|] == talk.messages;
    EncodedPrefix(talk.codec, talk.messages, |talk.messages|);
    WiredIsConnected(talk.sender, talk.receiver, talk.arrived);
    assert talk.writer.None?;
    hide SentAs;
    hide ParsedAs;
    hide BufferedAs;
    assert talk.receiver.inner.received == talk.sender.inner.sent;
    NoMessageMissing(talk.sender, talk.receiver, payloads, talk.got, talk.reader);
    assert |talk.read| == |talk.messages|;
  }

  // ---------------------------------------------------------------- completion

  /** All messages are out and carried: the reader will get their frames, all of them, and nothing fails to open. */
  lemma AllOnTheWay<M(!new)>(talk: Conversation<M>)
    requires talk.Valid() && talk.done == |talk.messages| && talk.arrived == |talk.sender.inner.sent|
    ensures AllPayloads(Payloads(talk.codec, talk.messages))
    ensures talk.receiver.AllPlain() == ControlFrames(Payloads(talk.codec, talk.messages))
    ensures talk.receiver.AllFailures() == talk.receiver.failures
    ensures |talk.receiver.inner.incoming| <= WIRE_FACTOR * |ControlFrames(Payloads(talk.codec, talk.messages))|
  {
    var sender, receiver := talk.sender, talk.receiver;
    assert talk.messages[..|talk.messages|] == talk.messages;
    EncodedPrefix(talk.codec, talk.messages, |talk.messages|);
    assert talk.writer.None?;
    WiredIsConnected(sender, receiver, talk.arrived);
    DeliveredIsPrefixOfWritten(sender, receiver);
    ParseEncode(sender.sendCipher, 0, sender.chunks);
    EncodeSize(sender.sendCipher, 0, sender.chunks);
    hide ParsedAs;
    hide BufferedAs;
    hide ControlFrames;
    assert receiver.inner.offered == sender.inner.sent == Encode(sender.sendCipher, 0, sender.chunks);
  }

  /** Then the next frame is ahead, until the last one has been read. */
  lemma NextFrameAhead<M(!new)>(talk: Conversation<M>)
    requires talk.Valid() && talk.done == |talk.messages| && talk.arrived == |talk.sender.inner.sent|
    requires |talk.got| < |talk.messages|
    ensures talk.reader.FrameAhead(talk.receiver)
  {
    AllOnTheWay(talk);
    var payloads, got, k := Payloads(talk.codec, talk.messages), talk.got, |talk.got|;
    DeliveredIsFront(talk.receiver);
    hide ParsedAs;
    hide BufferedAs;
    hide NoiseStream.AllPlain;
    hide NoiseStream.AllFailures;
    hide Sending;
    FramesPrefix(got, talk.reader.Taken(), payloads);
    assert payloads == got + payloads[k..];
    FramesJoin(got, payloads[k..]);
    var rest := ControlFrames(payloads[k..]);
    assert rest == ControlFrame(payloads[k]) + ControlFrames(payloads[k..][1..]);
    assert rest[..4] == ToU32(|payloads[k]|);
    assert talk.receiver.AllPlain()[|talk.reader.base|..|talk.reader.base| + 4] == rest[..4];
    U32RoundTrip(|payloads[k]|);
  }
}
